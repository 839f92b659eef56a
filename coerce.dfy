/** `num(v, cast=int)`: best-effort integer coercion of an untyped API field. */
module Coerce {
  import opened Wrappers
  import opened Json
  import opened Text

  /** The exceptions Python's `int(v)` can raise on a decoded JSON value. */
  datatype CastError = TypeError | ValueError

  /** `int(x)` on a float: truncation toward zero (not Dafny's floor). */
  function Truncate(x: real): (n: int)
    ensures 0.0 <= x ==> 0 <= n && n as real <= x < n as real + 1.0
    ensures x < 0.0 ==> n <= 0 && n as real - 1.0 < x <= n as real
  {
    if x >= 0.0 then x.Floor else -((-x).Floor)
  }

  /** Python's `int(v)`, which raises on what it cannot convert: `None`, lists and dicts
      raise TypeError, a string that is not a base-10 numeral raises ValueError, a bool is
      0 or 1, a float is truncated toward zero. */
  function IntCast(v: JsonValue): Result<int, CastError> {
    match v
    case JNull => Failure(TypeError)
    case JBool(b) => Success(if b then 1 else 0)
    case JInt(i) => Success(i)
    case JReal(x) => Success(Truncate(x))
    case JStr(s) =>
      (match ParseInt(s)
       case Some(n) => Success(n)
       case None => Failure(ValueError))
    case JArray(_) => Failure(TypeError)
    case JObject(_) => Failure(TypeError)
  }

  /** `num(v)`: the cast value when `int(v)` succeeds, `None` when it raises; `num` itself
      never raises. */
  function Num(v: JsonValue): (r: Option<int>)
    ensures r.Some? <==> IntCast(v).Success?
    ensures r.Some? ==> r.value == IntCast(v).value
  {
    match IntCast(v)
    case Success(n) => Some(n)
    case Failure(_) => None
  }

  /** Integers, and strings printed from integers, come back unchanged. */
  lemma NumReadsIntegers(n: int)
    ensures Num(JInt(n)) == Some(n)
    ensures Num(JStr(ShowInt(n))) == Some(n)
  {
    ParseShowInt(n);
  }

  /** Missing fields, JSON null, containers and blank strings all become `None`. */
  lemma NumRejectsNonNumbers(v: JsonValue)
    requires v.JNull? || v.JArray? || v.JObject? || (v.JStr? && Strip(v.s) == [])
    ensures Num(v) == None
  {
  }

  /** A string holding one of the separators U+001C to U+001F, even next to the numeral, as
      in "\U{1F}42", becomes `None`: `int()` does not skip them as whitespace. */
  lemma NumRejectsSeparators(s: string)
    requires HasSeparator(s)
    ensures Num(JStr(s)) == None
  {
  }

  /** A character other than a digit or an underscore after the first position of the
      stripped text makes `int()` raise. */
  lemma ParseIntRejectsStray(s: string, k: nat)
    requires 0 < k < |Strip(s)|
    requires !IsDigit(Strip(s)[k]) && Strip(s)[k] != '_'
    ensures ParseInt(s) == None
  {
    ParseSignedRejects(Strip(s), k);
  }

  /** A signed numeral begins with a sign or a digit and holds nothing but digits and
      underscores after its first position. */
  lemma ParseSignedRejects(t: string, k: nat)
    requires k < |t|
    requires !IsDigit(t[k]) && t[k] != '_'
    requires k == 0 ==> t[0] != '+' && t[0] != '-'
    ensures ParseSigned(t) == None
  {
    if k > 0 {
      assert t[1..][k - 1] == t[k];
    }
  }

  /** No float fallback: a string with a decimal point, such as "12.5", is rejected by
      `int()` and becomes `None`. */
  lemma NumRejectsDecimalPoint(s: string)
    requires '.' in Strip(s)
    ensures Num(JStr(s)) == None
  {
    assert ParseInt(s) == None by {
      var t := Strip(s);
      var k :| 0 <= k < |t| && t[k] == '.';
      ParseSignedRejects(t, k);
    }
  }

  /** A JSON float is truncated toward zero: the result never moves away from zero and
      lies within one of the float. */
  lemma NumTruncatesFloats(x: real)
    ensures Num(JReal(x)).Some?
    ensures var n := Num(JReal(x)).value;
      (0.0 <= x ==> 0 <= n && n as real <= x) && (x < 0.0 ==> n <= 0 && x <= n as real)
      && x - 1.0 < n as real < x + 1.0
  {
  }
}
