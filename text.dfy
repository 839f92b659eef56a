/** The Python string operations the scripts rely on: `str.strip()`, `str.startswith`,
    `str.split(sep)` and the base-10 `int(str)` parser. */
module Text {
  import opened Wrappers

  /** The characters for which Python's `str.isspace()` holds: what `strip()` removes. */
  predicate IsSpace(c: char) {
    || c == ' '
    || '\t' <= c <= '\r'
    || '\U{1C}' <= c <= '\U{1F}'
    || c == '\U{85}' || c == '\U{A0}' || c == '\U{1680}'
    || '\U{2000}' <= c <= '\U{200A}'
    || c == '\U{2028}' || c == '\U{2029}' || c == '\U{202F}' || c == '\U{205F}' || c == '\U{3000}'
  }

  /** `s.lstrip()`: the suffix of `s` left after dropping its leading whitespace. */
  function TrimLeft(s: string): (r: string)
    ensures |r| <= |s| && r == s[|s| - |r|..]
    ensures forall k :: 0 <= k < |s| - |r| ==> IsSpace(s[k])
    ensures r != [] ==> !IsSpace(r[0])
  {
    if s != [] && IsSpace(s[0]) then TrimLeft(s[1..]) else s
  }

  /** `s.rstrip()`: the prefix of `s` left after dropping its trailing whitespace. */
  function TrimRight(s: string): (r: string)
    ensures |r| <= |s| && r == s[..|r|]
    ensures forall k :: |r| <= k < |s| ==> IsSpace(s[k])
    ensures r != [] ==> !IsSpace(r[|r| - 1])
  {
    if s != [] && IsSpace(s[|s| - 1]) then TrimRight(s[..|s| - 1]) else s
  }

  /** `s.strip()`. */
  function Strip(s: string): string {
    TrimRight(TrimLeft(s))
  }

  /** `s.strip()` keeps a substring of `s` that neither begins nor ends with whitespace, and
      is empty exactly when `s` is all whitespace. */
  lemma StripFacts(s: string)
    ensures var r := Strip(s);
      && (r != [] ==> !IsSpace(r[0]) && !IsSpace(r[|r| - 1]))
      && (r == [] <==> forall k :: 0 <= k < |s| ==> IsSpace(s[k]))
      && forall c :: c in r ==> c in s
  {
    StripBlank(s);
    StripChars(s);
    var l := TrimLeft(s);
    var r := TrimRight(l);
    if r != [] {
      assert r[0] == l[0];
    }
  }

  lemma StripBlank(s: string)
    ensures Strip(s) == [] <==> forall k :: 0 <= k < |s| ==> IsSpace(s[k])
  {
    var l := TrimLeft(s);
    var r := TrimRight(l);
    var d := |s| - |l|;
    assert l == s[d..];
    if r == [] {
      assert l == [];
    } else {
      assert r[0] == l[0] && s[d] == l[0];
    }
  }

  lemma StripChars(s: string)
    ensures forall c :: c in Strip(s) ==> c in s
  {
    var l := TrimLeft(s);
    var r := TrimRight(l);
    PieceMembers(s, r, |s| - |l|);
  }

  /** Every element of a piece of `s` is an element of `s`. */
  lemma PieceMembers<T>(s: seq<T>, t: seq<T>, d: nat)
    requires d <= |s| && |t| <= |s| - d && t == s[d..][..|t|]
    ensures forall c :: c in t ==> c in s
  {
    forall c | c in t ensures c in s {
      var k :| 0 <= k < |t| && t[k] == c;
      assert s[d + k] == c;
    }
  }

  /** `s.strip()` does nothing to a string that neither begins nor ends with whitespace. */
  lemma StripUnchanged(s: string)
    requires s != [] ==> !IsSpace(s[0]) && !IsSpace(s[|s| - 1])
    ensures Strip(s) == s
  {
  }

  /** `s.startswith(prefix)`. */
  predicate StartsWith(s: string, prefix: string) {
    |prefix| <= |s| && s[..|prefix|] == prefix
  }

  /** `s.split(sep)` for a one-character separator: the pieces between separators, empty
      pieces included, so there is always at least one. */
  function Split(s: string, sep: char): (parts: seq<string>)
    ensures |parts| >= 1
    ensures forall i :: 0 <= i < |parts| ==> sep !in parts[i]
    ensures Join(parts, sep) == s
  {
    if s == [] then [""]
    else
      var rest := Split(s[1..], sep);
      if s[0] == sep then [""] + rest
      else [[s[0]] + rest[0]] + rest[1..]
  }

  /** `sep.join(parts)`. */
  function Join(parts: seq<string>, sep: char): string {
    if parts == [] then ""
    else if |parts| == 1 then parts[0]
    else parts[0] + [sep] + Join(parts[1..], sep)
  }

  /** `Split` is the inverse of `Join` on pieces that do not contain the separator. */
  lemma {:induction false} SplitJoin(parts: seq<string>, sep: char)
    requires |parts| >= 1
    requires forall i :: 0 <= i < |parts| ==> sep !in parts[i]
    ensures Split(Join(parts, sep), sep) == parts
  {
    if |parts| == 1 {
      SplitPiece(parts[0], sep);
    } else {
      SplitJoin(parts[1..], sep);
      SplitCons(parts[0], Join(parts[1..], sep), sep);
    }
  }

  lemma {:induction false} SplitPiece(p: string, sep: char)
    requires sep !in p
    ensures Split(p, sep) == [p]
  {
    if p != [] {
      SplitPiece(p[1..], sep);
    }
  }

  lemma {:induction false} SplitCons(p: string, t: string, sep: char)
    requires sep !in p
    ensures Split(p + [sep] + t, sep) == [p] + Split(t, sep)
  {
    if p == [] {
      assert p + [sep] + t == [sep] + t;
      assert ([sep] + t)[1..] == t;
    } else {
      var s := p + [sep] + t;
      assert s[0] == p[0] && s[1..] == p[1..] + [sep] + t;
      SplitCons(p[1..], t, sep);
      assert [p[0]] + p[1..] == p;
    }
  }

  predicate IsDigit(c: char) {
    '0' <= c <= '9'
  }

  function DigitValue(c: char): nat
    requires IsDigit(c)
  {
    (c as int) - ('0' as int)
  }

  function DigitChar(d: nat): (c: char)
    requires d < 10
    ensures IsDigit(c) && DigitValue(c) == d
  {
    ('0' as int + d) as char
  }

  /** Python's lexical form of a base-10 numeral in `int(str)`: ASCII digits, where single
      underscores may separate digits (`1_000`), but not lead, trail or repeat. */
  predicate IsNumeral(u: string) {
    && |u| > 0
    && IsDigit(u[0])
    && IsDigit(u[|u| - 1])
    && (forall k :: 0 <= k < |u| ==> IsDigit(u[k]) || u[k] == '_')
    && (forall k :: 0 <= k < |u| - 1 && u[k] == '_' ==> u[k + 1] != '_')
  }

  /** The value of a numeral, reading its digits left to right and skipping underscores. */
  function NumeralValue(u: string): nat
    requires forall k :: 0 <= k < |u| ==> IsDigit(u[k]) || u[k] == '_'
  {
    if u == [] then 0
    else if u[|u| - 1] == '_' then NumeralValue(u[..|u| - 1])
    else NumeralValue(u[..|u| - 1]) * 10 + DigitValue(u[|u| - 1])
  }

  /** The information separators U+001C to U+001F: whitespace to `strip()`, but not among
      the ASCII whitespace (C's `isspace`) that `int()` skips. */
  predicate IsSeparator(c: char) {
    '\U{1C}' <= c <= '\U{1F}'
  }

  predicate HasSeparator(s: string) {
    exists k :: 0 <= k < |s| && IsSeparator(s[k])
  }

  /** Base-10 `int(s)` on a string: whitespace around the numeral is skipped and an optional
      sign may precede it; anything else raises ValueError, shown here as `None`. `int()`
      skips the whitespace `strip()` removes except the separators, which it does not skip
      and which are never part of a numeral: a separator anywhere makes `int()` raise, and
      without one `int()` reads exactly the stripped text. */
  function ParseInt(s: string): (r: Option<int>)
    ensures Strip(s) == [] ==> r == None
    ensures HasSeparator(s) ==> r == None
  {
    if HasSeparator(s) then None else ParseSigned(Strip(s))
  }

  /** An optional sign followed by a numeral, with nothing around them. */
  function ParseSigned(t: string): Option<int> {
    if |t| > 0 && (t[0] == '+' || t[0] == '-') then
      if IsNumeral(t[1..]) then
        var v: int := NumeralValue(t[1..]);
        Some(if t[0] == '-' then -v else v)
      else None
    else if IsNumeral(t) then Some(NumeralValue(t))
    else None
  }

  /** `int()` reads a string without separators and its stripped form alike. */
  lemma ParseIntIgnoresSpace(s: string)
    requires !HasSeparator(s)
    ensures ParseInt(Strip(s)) == ParseInt(s)
  {
    var r := Strip(s);
    StripUnchanged(r);
    StripFacts(s);
    assert !HasSeparator(r) by {
      forall k | 0 <= k < |r| ensures !IsSeparator(r[k]) {
        assert r[k] in r;
      }
    }
  }

  /** Decimal digits of a natural number, most significant first, without leading zeros. */
  function ShowNat(n: nat): (s: string)
    ensures |s| > 0 && forall k :: 0 <= k < |s| ==> IsDigit(s[k])
  {
    if n < 10 then [DigitChar(n)] else ShowNat(n / 10) + [DigitChar(n % 10)]
  }

  /** `str(i)` for an integer. */
  function ShowInt(i: int): string {
    if i < 0 then "-" + ShowNat(-i) else ShowNat(i)
  }

  lemma {:induction false} NumeralValueShowNat(n: nat)
    ensures IsNumeral(ShowNat(n)) && NumeralValue(ShowNat(n)) == n
  {
    if n >= 10 {
      NumeralValueShowNat(n / 10);
      var s := ShowNat(n);
      assert s[..|s| - 1] == ShowNat(n / 10);
    }
  }

  /** `int(str(i)) == i`: the parser reads back every integer that `str` prints. */
  lemma ParseShowInt(i: int)
    ensures ParseInt(ShowInt(i)) == Some(i)
  {
    var s := ShowInt(i);
    ShowIntShape(i);
    StripUnchanged(s);
    ParseSignedShowInt(i);
  }

  lemma ParseSignedShowInt(i: int)
    ensures ParseSigned(ShowInt(i)) == Some(i)
  {
    var s := ShowInt(i);
    if i < 0 {
      NumeralValueShowNat(-i);
      assert s[1..] == ShowNat(-i);
    } else {
      NumeralValueShowNat(i);
    }
  }

  lemma ShowIntShape(i: int)
    ensures var s := ShowInt(i); s != [] && !IsSpace(s[0]) && !IsSpace(s[|s| - 1])
    ensures !HasSeparator(ShowInt(i))
  {
    var s := ShowInt(i);
    if i < 0 {
      var u := ShowNat(-i);
      assert s[|s| - 1] == u[|u| - 1];
      assert IsDigit(u[|u| - 1]);
      forall k | 1 <= k < |s| ensures IsDigit(s[k]) {
        assert s[k] == u[k - 1];
      }
    } else {
      assert IsDigit(s[0]);
    }
  }
}
