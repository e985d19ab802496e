/** Values shared by the whole model: optional values, JSON payloads as the
    server receives and stores them, JavaScript truthiness, and the lower-casing
    applied to e-mail addresses. */
module Base {

  /** A value that may be `null` or `undefined` (None) or present (Some). */
  datatype Option<+T> = None | Some(value: T)

  /** A JSON value from a request body, kept as-is in the stored document.
      The server never looks inside one except to ask whether it is truthy,
      an array or a string. */
  datatype Json =
    | JNull
    | JBool(b: bool)
    | JNum(n: real)
    | JStr(s: string)
    | JArr(items: seq<Json>)
    | JObj(fields: seq<(string, Json)>)

  /** JavaScript truthiness of a body field that may be missing (`undefined`).
      NaN is not modelled. */
  predicate Truthy(v: Option<Json>)
  {
    match v
    case None => false
    case Some(JNull) => false
    case Some(JBool(b)) => b
    case Some(JNum(n)) => n != 0.0
    case Some(JStr(s)) => s != ""
    case Some(_) => true
  }

  /** Truthiness of a field that is either absent or a string. */
  predicate Present(s: Option<string>)
  {
    s.Some? && s.value != ""
  }

  /** `a || null`: the value when it is a non-empty string, otherwise null. */
  function OrNull(a: Option<string>): (r: Option<string>)
    ensures Present(a) ==> r == a
    ensures !Present(a) ==> r == None
  {
    if Present(a) then a else None
  }

  /** `a || b || null` over optional strings. */
  function FirstPresent(a: Option<string>, b: Option<string>): (r: Option<string>)
    ensures r.Some? ==> r.value != "" && (r == a || r == b)
    ensures r.None? <==> !Present(a) && !Present(b)
    ensures Present(a) ==> r == a
  {
    if Present(a) then a else OrNull(b)
  }

  predicate IsUpperAscii(c: char)
  {
    'A' <= c <= 'Z'
  }

  function LowerChar(c: char): char
  {
    if IsUpperAscii(c) then (c as int + 32) as char else c
  }

  /** `String.prototype.toLowerCase`, restricted to the ASCII letters. */
  function Lower(s: string): string
  {
    seq(|s|, i requires 0 <= i < |s| => LowerChar(s[i]))
  }

  /** A lower-cased string has no upper-case letter left, so lower-casing it
      again changes nothing: a stored (lower-cased) e-mail is its own key. */
  lemma LowerIsNormalForm(s: string)
    ensures forall i :: 0 <= i < |Lower(s)| ==> !IsUpperAscii(Lower(s)[i])
    ensures Lower(Lower(s)) == Lower(s)
  {
  }
}
