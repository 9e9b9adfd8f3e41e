/**
 * The HTTP client's two interceptors and the query paths of the `getAll` listings.
 *
 * The token kept in browser storage is the `token` field of a `Session`; the
 * redirect to the login page is recorded in `redirectedTo` instead of performed.
 */
module ApiClient {
  import opened Common
  import opened Strings
  import opened ApiErrors

  /** An outgoing request as the request interceptor sees it. */
  datatype RequestConfig = RequestConfig(httpMethod: string, url: string, headers: map<string, string>)

  const LoginPath := "/admin/login"

  /** `Authorization: Bearer <token>` for a truthy (present, non-empty) token. */
  predicate HasToken(token: Option<string>) {
    token.Some? && token.value != ""
  }

  class Session {
    var token: Option<string>
    var redirectedTo: Option<string>

    constructor (stored: Option<string>)
      ensures token == stored && redirectedTo == None
    {
      token := stored;
      redirectedTo := None;
    }

    /** The request interceptor: attach the bearer token when one is stored; nothing else changes. */
    method AttachToken(config: RequestConfig) returns (out: RequestConfig)
      ensures out.httpMethod == config.httpMethod && out.url == config.url
      ensures HasToken(token) ==> out.headers == config.headers["Authorization" := "Bearer " + token.value]
      ensures !HasToken(token) ==> out.headers == config.headers
    {
      out := config;
      if token.Some? && token.value != "" {
        out := out.(headers := out.headers["Authorization" := "Bearer " + token.value]);
      }
    }

    /**
     * The response interceptor's error path: a 401 clears the token and sends the
     * user to the login page; every error is rejected unchanged.
     */
    method OnResponseError(error: ApiError) returns (rejected: ApiError)
      modifies this
      ensures rejected == error
      ensures error.ResponseError? && error.status == 401 ==> token == None && redirectedTo == Some(LoginPath)
      ensures !(error.ResponseError? && error.status == 401) ==> token == old(token) && redirectedTo == old(redirectedTo)
    {
      if error.ResponseError? && error.status == 401 {
        token := None;
        redirectedTo := Some(LoginPath);
      }
      rejected := error;
    }
  }

  /**
   * `new URLSearchParams(params).toString()`: `key=value` pairs joined by '&'
   * (percent-encoding is not modelled).
   */
  function QueryString(params: seq<(string, string)>): string {
    Join(seq(|params|, i requires 0 <= i < |params| => params[i].0 + "=" + params[i].1), "&")
  }

  /** `base` followed by `?` and the query string when it is non-empty. */
  function ListingPath(base: string, params: seq<(string, string)>): string {
    var q := QueryString(params);
    if q != "" then base + "?" + q else base
  }

  /** `storyAPI.getAll(params)`. */
  function StoriesPath(params: seq<(string, string)>): string {
    ListingPath("/stories", params)
  }

  /** `adminStoryAPI.getAll(params)`. */
  function AdminStoriesPath(params: seq<(string, string)>): string {
    ListingPath("/admin/stories", params)
  }

  /**
   * Without parameters the listing path is the bare resource path; with some, it
   * is the path, `?`, and the pairs, which split back on '&' into one piece per
   * parameter when no key or value contains '&'.
   */
  lemma {:induction false} ListingPathShape(base: string, params: seq<(string, string)>)
    ensures |params| == 0 ==> ListingPath(base, params) == base
    ensures |params| > 0 ==> ListingPath(base, params) == base + "?" + QueryString(params)
    ensures |params| > 0 && (forall i :: 0 <= i < |params| ==> '&' !in params[i].0 && '&' !in params[i].1) ==>
      Split(QueryString(params), '&') == seq(|params|, i requires 0 <= i < |params| => params[i].0 + "=" + params[i].1)
  {
    var pairs := seq(|params|, i requires 0 <= i < |params| => params[i].0 + "=" + params[i].1);
    if |params| > 0 {
      JoinNonEmpty(pairs, "&");
      if forall i :: 0 <= i < |params| ==> '&' !in params[i].0 && '&' !in params[i].1 {
        forall i | 0 <= i < |pairs| ensures '&' !in pairs[i] {
          assert pairs[i] == params[i].0 + "=" + params[i].1;
        }
        SplitJoin(pairs, '&');
      }
    }
  }

  /** Joining a list whose first part is non-empty gives a non-empty text. */
  lemma JoinNonEmpty(parts: seq<string>, sep: string)
    requires |parts| > 0 && parts[0] != ""
    ensures Join(parts, sep) != ""
  {
    if |parts| > 1 {
      assert Join(parts, sep)[0] == parts[0][0];
    }
  }
}
