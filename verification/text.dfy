/** The string operations the bot relies on: ASCII case mapping as done by
    `str.lower`, `str.upper` and `str.capitalize`, substring and prefix
    tests, `str.rstrip`, decimal rendering and `int()` parsing of integers,
    and the hexadecimal text of byte strings. */
module Text {
  import opened Wrappers

  predicate IsUpperChar(c: char) {
    'A' <= c <= 'Z'
  }

  predicate IsLowerChar(c: char) {
    'a' <= c <= 'z'
  }

  function LowerChar(c: char): char {
    if IsUpperChar(c) then (c as int + 32) as char else c
  }

  function UpperChar(c: char): char {
    if IsLowerChar(c) then (c as int - 32) as char else c
  }

  /** `s.lower()` */
  function Lower(s: string): (r: string)
    ensures |r| == |s|
    ensures forall i :: 0 <= i < |s| ==> r[i] == LowerChar(s[i])
  {
    seq(|s|, i requires 0 <= i < |s| => LowerChar(s[i]))
  }

  /** `s.upper()` */
  function Upper(s: string): (r: string)
    ensures |r| == |s|
    ensures forall i :: 0 <= i < |s| ==> r[i] == UpperChar(s[i])
  {
    seq(|s|, i requires 0 <= i < |s| => UpperChar(s[i]))
  }

  /** `s.capitalize()`: the first character upper-cased, the rest lower-cased. */
  function Capitalize(s: string): (r: string)
    ensures |r| == |s|
    ensures |s| > 0 ==> r[0] == UpperChar(s[0])
    ensures forall i :: 1 <= i < |s| ==> r[i] == LowerChar(s[i])
  {
    if |s| == 0 then "" else [UpperChar(s[0])] + Lower(s[1..])
  }

  /** A string is the capitalization of `s` when its characters are, one by
      one, the characters `Capitalize` promises. */
  lemma CapitalizeIs(s: string, t: string)
    requires |s| == |t| > 0 && t[0] == UpperChar(s[0])
    requires forall i :: 1 <= i < |s| ==> t[i] == LowerChar(s[i])
    ensures Capitalize(s) == t
  {
  }

  lemma UpperIdempotent(s: string)
    ensures Upper(Upper(s)) == Upper(s)
  {
    assert forall i :: 0 <= i < |s| ==> UpperChar(UpperChar(s[i])) == UpperChar(s[i]);
  }

  /** Capitalization only looks at the case-folded string: two names that
      agree up to ASCII case capitalize to the same attribute name. */
  lemma CapitalizeIgnoresCase(a: string, b: string)
    requires Lower(a) == Lower(b)
    ensures Capitalize(a) == Capitalize(b)
  {
    assert |a| == |b|;
    forall i | 0 <= i < |a|
      ensures UpperChar(a[i]) == UpperChar(b[i]) && LowerChar(a[i]) == LowerChar(b[i])
    {
      assert Lower(a)[i] == Lower(b)[i];
    }
  }

  lemma LowerOfUpper(s: string)
    ensures Lower(Upper(s)) == Lower(s)
  {
  }

  predicate IsPrefix(pre: string, s: string) {
    |pre| <= |s| && s[..|pre|] == pre
  }

  /** Python's `sub in s`. */
  predicate Contains(s: string, sub: string)
    decreases |s|
  {
    IsPrefix(sub, s) || (|s| > 0 && Contains(s[1..], sub))
  }

  /** `sub` occurs in `s` starting at index `i`. */
  predicate OccursAt(s: string, sub: string, i: int) {
    0 <= i <= |s| - |sub| && s[i..i + |sub|] == sub
  }

  /** An occurrence at `i` makes `sub` a substring. */
  lemma {:induction false} IndexGivesContains(s: string, sub: string, i: int)
    requires OccursAt(s, sub, i)
    ensures Contains(s, sub)
    decreases i
  {
    if i > 0 {
      assert s[1..][i - 1..i - 1 + |sub|] == s[i..i + |sub|];
      IndexGivesContains(s[1..], sub, i - 1);
    }
  }

  /** A substring occurs at some index. */
  lemma {:induction false} ContainsGivesIndex(s: string, sub: string) returns (i: nat)
    requires Contains(s, sub)
    ensures OccursAt(s, sub, i)
    decreases |s|
  {
    if IsPrefix(sub, s) {
      i := 0;
    } else {
      var j := ContainsGivesIndex(s[1..], sub);
      assert s[1..][j..j + |sub|] == s[j + 1..j + 1 + |sub|];
      i := j + 1;
    }
  }

  /** `Contains` agrees with the positional definition of a substring. */
  lemma ContainsAt(s: string, sub: string)
    ensures Contains(s, sub) <==> exists i :: OccursAt(s, sub, i)
  {
    if exists i :: OccursAt(s, sub, i) {
      var i :| OccursAt(s, sub, i);
      IndexGivesContains(s, sub, i);
    }
    if Contains(s, sub) {
      var i := ContainsGivesIndex(s, sub);
    }
  }

  lemma PrefixContained(pre: string, rest: string)
    ensures Contains(pre + rest, pre)
  {
    assert (pre + rest)[..|pre|] == pre;
  }

  predicate IsSpace(c: char) {
    c == ' ' || c == '\t' || c == '\n' || c == '\r' || c == '\U{0B}' || c == '\U{0C}'
  }

  /** `s.rstrip()` */
  function Rstrip(s: string): (r: string)
    ensures IsPrefix(r, s)
    ensures |r| > 0 ==> !IsSpace(r[|r| - 1])
    ensures forall i :: |r| <= i < |s| ==> IsSpace(s[i])
  {
    if |s| > 0 && IsSpace(s[|s| - 1]) then Rstrip(s[..|s| - 1]) else s
  }

  // Decimal integers

  predicate IsDigit(c: char) {
    '0' <= c <= '9'
  }

  predicate AllDigits(s: string) {
    forall i :: 0 <= i < |s| ==> IsDigit(s[i])
  }

  function DigitChar(d: nat): (c: char)
    requires d < 10
    ensures IsDigit(c)
  {
    ('0' as int + d) as char
  }

  function DigitValue(c: char): nat
    requires IsDigit(c)
  {
    c as int - '0' as int
  }

  function NatToString(n: nat): (s: string)
    ensures |s| >= 1 && AllDigits(s)
  {
    if n < 10 then [DigitChar(n)] else NatToString(n / 10) + [DigitChar(n % 10)]
  }

  /** `str(n)` for an integer `n`. */
  function IntToString(n: int): string {
    if n < 0 then "-" + NatToString(-n) else NatToString(n)
  }

  function DigitsValue(s: string): nat
    requires AllDigits(s)
  {
    if |s| == 0 then 0 else DigitsValue(s[..|s| - 1]) * 10 + DigitValue(s[|s| - 1])
  }

  /** Python's `int(s)` on a string: an optional sign followed by decimal
      digits; anything else raises ValueError (here: None). */
  function ParseInt(s: string): (r: Option<int>)
    ensures r.Some? ==> |s| > 0
  {
    if |s| > 0 && (s[0] == '-' || s[0] == '+') then
      var body := s[1..];
      if |body| > 0 && AllDigits(body) then
        var magnitude: int := DigitsValue(body);
        Some(if s[0] == '-' then -magnitude else magnitude)
      else None
    else if |s| > 0 && AllDigits(s) then Some(DigitsValue(s))
    else None
  }

  lemma {:induction false} DigitsOfNat(n: nat)
    ensures DigitsValue(NatToString(n)) == n
  {
    var s := NatToString(n);
    if n >= 10 {
      DigitsOfNat(n / 10);
      assert s[..|s| - 1] == NatToString(n / 10);
    }
  }

  /** A minus sign before digits parses as the negated digits. */
  lemma ParseNegative(d: string)
    requires |d| > 0 && AllDigits(d)
    ensures ParseInt("-" + d) == Some(-(DigitsValue(d) as int))
  {
    var s := "-" + d;
    assert s[0] == '-' && s[1..] == d;
  }

  /** Bare digits parse as their value. */
  lemma ParseDigits(d: string)
    requires |d| > 0 && AllDigits(d)
    ensures ParseInt(d) == Some(DigitsValue(d))
  {
    assert IsDigit(d[0]);
  }

  /** Rendering an integer and parsing it back gives the integer. */
  lemma IntStringRoundTrip(n: int)
    ensures ParseInt(IntToString(n)) == Some(n)
  {
    if n < 0 {
      var m: nat := -n;
      var d := NatToString(m);
      DigitsOfNat(m);
      ParseNegative(d);
      assert IntToString(n) == "-" + d;
    } else {
      DigitsOfNat(n);
      ParseDigits(NatToString(n));
    }
  }

  // Hexadecimal text of byte strings

  newtype byte = x: int | 0 <= x < 256

  function HexDigit(d: int): (c: char)
    requires 0 <= d < 16
  {
    if d < 10 then ('0' as int + d) as char else ('a' as int + d - 10) as char
  }

  function HexValue(c: char): Option<int> {
    if '0' <= c <= '9' then Some(c as int - '0' as int)
    else if 'a' <= c <= 'f' then Some(c as int - 'a' as int + 10)
    else if 'A' <= c <= 'F' then Some(c as int - 'A' as int + 10)
    else None
  }

  /** Lower-case hexadecimal text of a byte string, two digits per byte,
      without prefix. */
  function ToHex(b: seq<byte>): (s: string)
    ensures |s| == 2 * |b|
    ensures forall i :: 0 <= i < |s| ==> HexValue(s[i]).Some?
  {
    if |b| == 0 then ""
    else [HexDigit(b[0] as int / 16), HexDigit(b[0] as int % 16)] + ToHex(b[1..])
  }

  function UnhexPairs(s: string): Option<seq<byte>>
    requires |s| % 2 == 0
  {
    if |s| == 0 then Some([])
    else
      match (HexValue(s[0]), HexValue(s[1]), UnhexPairs(s[2..]))
      case (Some(h), Some(l), Some(rest)) =>
        assert 0 <= h * 16 + l < 256 by {
          assert 0 <= h < 16 && 0 <= l < 16;
        }
        Some([(h * 16 + l) as byte] + rest)
      case _ => None
  }

  /** Conversion of a hexadecimal string to bytes: an optional `0x`/`0X`
      prefix is dropped, an odd number of digits is padded with a leading
      zero (the prefix has two characters, so the parity of the digits is
      that of the whole text), and a non-hexadecimal character raises ValueError (here: None). */
  function FromHex(s: string): (r: Option<seq<byte>>)
  {
    var body := if |s| >= 2 && (s[..2] == "0x" || s[..2] == "0X") then s[2..] else s;
    var padded := if |body| % 2 == 1 then "0" + body else body;
    UnhexPairs(padded)
  }

  lemma {:induction false} UnhexOfHex(b: seq<byte>)
    ensures UnhexPairs(ToHex(b)) == Some(b)
  {
    if |b| > 0 {
      var s := ToHex(b);
      var hi, lo := b[0] as int / 16, b[0] as int % 16;
      assert HexValue(HexDigit(hi)) == Some(hi);
      assert HexValue(HexDigit(lo)) == Some(lo);
      assert s[2..] == ToHex(b[1..]);
      UnhexOfHex(b[1..]);
      assert b == [b[0]] + b[1..];
    }
  }

  /** Text of even length whose second character is a digit has no prefix
      to drop and no padding to add. */
  lemma FromHexPlain(s: string)
    requires |s| % 2 == 0
    requires |s| >= 2 ==> HexValue(s[1]).Some?
    ensures FromHex(s) == UnhexPairs(s)
  {
    if |s| >= 2 {
      assert s[..2][1] == s[1];
      assert HexValue('x').None? && HexValue('X').None?;
    }
  }

  /** Text of even length behind `0x` converts as the text alone. */
  lemma FromHexPrefixed(s: string)
    requires |s| % 2 == 0
    ensures FromHex("0x" + s) == UnhexPairs(s)
  {
    var t := "0x" + s;
    assert t[..2] == "0x";
    assert t[2..] == s;
  }

  /** The hexadecimal text of a byte string converts back to the same bytes. */
  lemma HexRoundTrip(b: seq<byte>)
    ensures FromHex(ToHex(b)) == Some(b)
  {
    var s := ToHex(b);
    assert |s| >= 2 ==> HexValue(s[1]).Some?;
    FromHexPlain(s);
    UnhexOfHex(b);
  }

  /** ... and so does the same text behind a `0x` prefix. */
  lemma PrefixedHexRoundTrip(b: seq<byte>)
    ensures FromHex("0x" + ToHex(b)) == Some(b)
  {
    FromHexPrefixed(ToHex(b));
    UnhexOfHex(b);
  }
}
