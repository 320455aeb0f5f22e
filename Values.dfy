/** Optional values and the JavaScript truthiness tests the handlers apply to
    them. A JSON field that is absent (or `undefined`) is `None`. */
module Values {

  datatype Option<+T> = None | Some(value: T)

  /** `if (s)` for an optional string: present and not the empty string. */
  predicate Truthy(s: Option<string>) {
    s.Some? && s.value != ""
  }

  /** `if (x)` for an optional number: present and not zero. */
  predicate TruthyNumber(x: Option<real>) {
    x.Some? && x.value != 0.0
  }

  /** `s || undefined`: the string when it is truthy, otherwise nothing. */
  function TruthyText(s: Option<string>): (r: Option<string>)
    ensures r.Some? <==> Truthy(s)
    ensures r.Some? ==> r == s && r.value != ""
  {
    if Truthy(s) then s else None
  }

  /** `x || fallback` for numbers: a missing value and zero both fall back. */
  function NumberOr(x: Option<real>, fallback: real): (r: real)
    ensures TruthyNumber(x) ==> r == x.value
    ensures !TruthyNumber(x) ==> r == fallback
  {
    if TruthyNumber(x) then x.value else fallback
  }

  /** The present one of two values, preferring the second (a field-scoped
      `$set` or assignment: a supplied value replaces the stored one). */
  function Overwrite<T>(stored: Option<T>, supplied: Option<T>): (r: Option<T>)
    ensures supplied.Some? ==> r == supplied
    ensures supplied.None? ==> r == stored
  {
    if supplied.Some? then supplied else stored
  }
}
