/**
 * The error shapes the API layer sees and `handleApiError`, the pure classifier that
 * turns one of them into the message shown to the user.
 */
module ApiErrors {
  import opened Common
  import opened Strings

  /** One field of a validation failure body: the field's name and its messages. */
  datatype FieldErrors = FieldErrors(field: string, messages: seq<string>)

  /**
   * The body of an error response: `{ message }`, or for a validation failure
   * `{ errors: { field: [message, ...], ... } }` with the fields in the order the
   * server sent them.
   */
  datatype ErrorBody = ErrorBody(message: Option<string>, errors: Option<seq<FieldErrors>>)

  /** What a failed request rejects with. */
  datatype ApiError =
    | ResponseError(status: nat, data: ErrorBody)  // the server answered with an error status
    | RequestError                                  // the request went out but no response came back
    | OtherError(message: Option<string>)           // the request could not even be made

  /** What one invocation of an API call settles to. */
  datatype Outcome<+T> = Succeeded(value: T) | Failed(error: ApiError)

  const BadRequestText := "Permintaan tidak valid"
  const UnauthorizedText := "Anda tidak memiliki akses. Silakan login kembali."
  const ForbiddenText := "Anda tidak memiliki izin untuk melakukan aksi ini"
  const NotFoundText := "Data tidak ditemukan"
  const InvalidDataText := "Data tidak valid"
  const TooManyRequestsText := "Terlalu banyak permintaan. Coba lagi nanti."
  const ServerErrorText := "Terjadi kesalahan server. Silakan coba lagi."
  const NetworkText := "Tidak dapat terhubung ke server. Periksa koneksi internet Anda."
  const UnknownText := "Terjadi kesalahan yang tidak diketahui"

  /** `Object.values(errors).flat()`: every field's messages, field after field. */
  function FlattenErrors(fields: seq<FieldErrors>): (msgs: seq<string>)
    ensures |msgs| == TotalMessages(fields)
  {
    if |fields| == 0 then [] else fields[0].messages + FlattenErrors(fields[1..])
  }

  function TotalMessages(fields: seq<FieldErrors>): nat {
    if |fields| == 0 then 0 else |fields[0].messages| + TotalMessages(fields[1..])
  }

  /** The message for a status no case handles: `Error <status>: Terjadi kesalahan`. */
  function StatusText(status: nat): string {
    "Error " + NatToString(status) + ": Terjadi kesalahan"
  }

  /** `handleApiError`: the user-facing message for a failed request. */
  function HandleApiError(error: ApiError): (msg: string)
  {
    match error
    case ResponseError(status, data) =>
      if status == 400 then OrElse(data.message, BadRequestText)
      else if status == 401 then UnauthorizedText
      else if status == 403 then ForbiddenText
      else if status == 404 then NotFoundText
      else if status == 422 then
        if data.errors.Some? then Join(FlattenErrors(data.errors.value), ", ")
        else OrElse(data.message, InvalidDataText)
      else if status == 429 then TooManyRequestsText
      else if status == 500 then ServerErrorText
      else OrElse(data.message, StatusText(status))
    case RequestError => NetworkText
    case OtherError(message) => OrElse(message, UnknownText)
  }

  /** The statuses whose message is a fixed text. */
  predicate FixedTextStatus(status: nat) {
    status in {401, 403, 404, 429, 500}
  }

  /**
   * A validation failure that carries field errors is reported as all their
   * messages, field after field, joined with ", "; each message appears in it.
   */
  lemma ValidationMessagesJoined(data: ErrorBody)
    requires data.errors.Some?
    ensures HandleApiError(ResponseError(422, data)) == Join(FlattenErrors(data.errors.value), ", ")
    ensures forall m :: m in FlattenErrors(data.errors.value) ==>
      Includes(HandleApiError(ResponseError(422, data)), m)
  {
    forall m | m in FlattenErrors(data.errors.value)
      ensures Includes(Join(FlattenErrors(data.errors.value), ", "), m)
    {
      JoinIncludesPart(FlattenErrors(data.errors.value), ", ", m);
    }
  }

  /** Each part of a joined list is included in the joined text. */
  lemma {:induction false} JoinIncludesPart(parts: seq<string>, sep: string, m: string)
    requires m in parts
    ensures Includes(Join(parts, sep), m)
  {
    if |parts| == 1 {
      assert Join(parts, sep) == "" + m + "";
      IncludesMiddle("", m, "");
    } else if parts[0] == m {
      assert Join(parts, sep) == "" + m + (sep + Join(parts[1..], sep));
      IncludesMiddle("", m, sep + Join(parts[1..], sep));
    } else {
      JoinIncludesPart(parts[1..], sep, m);
      var rest := Join(parts[1..], sep);
      IncludesIffOccurs(rest, m);
      var i :| 0 <= i <= |rest| && StartsWith(rest[i..], m);
      var pre := parts[0] + sep;
      assert Join(parts, sep) == pre + rest;
      assert (pre + rest)[|pre| + i..] == rest[i..];
      IncludesIffOccurs(pre + rest, m);
    }
  }

  /** The fields of a validation failure are reported in order: the messages of earlier fields come first. */
  lemma {:induction false} FlattenErrorsAppend(a: seq<FieldErrors>, b: seq<FieldErrors>)
    ensures FlattenErrors(a + b) == FlattenErrors(a) + FlattenErrors(b)
  {
    if |a| == 0 {
      assert a + b == b;
    } else {
      assert (a + b)[1..] == a[1..] + b;
      FlattenErrorsAppend(a[1..], b);
    }
  }

  /**
   * A validation failure without field errors falls back to the server's message
   * and then to the generic "invalid data" text; an empty `errors` object (which
   * JavaScript treats as present) yields the empty message.
   */
  lemma ValidationWithoutFieldErrors(data: ErrorBody)
    ensures data.errors.None? && data.message.Some? && data.message.value != "" ==>
      HandleApiError(ResponseError(422, data)) == data.message.value
    ensures data.errors.None? && (data.message.None? || data.message.value == "") ==>
      HandleApiError(ResponseError(422, data)) == InvalidDataText
    ensures data.errors == Some([]) ==> HandleApiError(ResponseError(422, data)) == ""
  {
  }

  /** 401, 403, 404, 429 and 500 give fixed texts whatever the body says (500 ignores `message`). */
  lemma FixedTextsIgnoreBody(status: nat, a: ErrorBody, b: ErrorBody)
    requires FixedTextStatus(status)
    ensures HandleApiError(ResponseError(status, a)) == HandleApiError(ResponseError(status, b))
    ensures status == 500 ==> HandleApiError(ResponseError(status, a)) == ServerErrorText
  {
  }

  /**
   * 400 and every status without a case of its own prefer the server's message;
   * without one, 400 says "invalid request" and the others "Error <status>: …".
   */
  lemma ServerMessagePreferred(status: nat, data: ErrorBody)
    requires !FixedTextStatus(status) && status != 422
    ensures data.message.Some? && data.message.value != "" ==>
      HandleApiError(ResponseError(status, data)) == data.message.value
    ensures (data.message.None? || data.message.value == "") ==>
      HandleApiError(ResponseError(status, data)) == (if status == 400 then BadRequestText else StatusText(status))
  {
  }

  /** Unhandled statuses without a server message are told apart by their message. */
  lemma StatusTextDistinguishes(s: nat, t: nat)
    requires StatusText(s) == StatusText(t)
    ensures s == t
  {
    var a, b := NatToString(s), NatToString(t);
    var tail := ": Terjadi kesalahan";
    assert StatusText(s) == "Error " + (a + tail);
    assert StatusText(t) == "Error " + (b + tail);
    assert a + tail == b + tail by {
      assert (a + tail) == StatusText(s)[6..];
      assert (b + tail) == StatusText(t)[6..];
    }
    assert |a| == |b|;
    assert a == (a + tail)[..|a|];
    assert b == (b + tail)[..|b|];
    NatToStringInjective(s, t);
  }

  /** Without a response, a request that went out is a network failure; otherwise the error's own message or the unknown text. */
  lemma NoResponseMessages(message: Option<string>)
    ensures HandleApiError(RequestError) == NetworkText
    ensures message.Some? && message.value != "" ==> HandleApiError(OtherError(message)) == message.value
    ensures (message.None? || message.value == "") ==> HandleApiError(OtherError(message)) == UnknownText
  {
  }
}
