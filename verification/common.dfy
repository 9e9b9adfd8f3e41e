/** Small shared datatypes: JavaScript's "absent" (null / undefined) values are modelled as Option. */
module Common {

  datatype Option<+T> = None | Some(value: T) {

    /** Returns the value in Some, or `default` when absent (JavaScript's `x ?? default`). */
    function GetOr(default: T): T {
      match this
      case Some(v) => v
      case None => default
    }
  }

  /** A file chosen by the user; only its identity matters here. */
  datatype FileRef = FileRef(name: string, size: nat)

  /** A string value as JavaScript's `s || fallback` reads it: absent or empty strings are falsy. */
  function OrElse(s: Option<string>, fallback: string): (r: string)
    ensures r == fallback || (s.Some? && r == s.value)
    ensures r == "" <==> fallback == "" && (s.None? || s.value == "")
    ensures r != fallback ==> s.Some? && r == s.value && r != ""
  {
    if s.Some? && s.value != "" then s.value else fallback
  }
}
