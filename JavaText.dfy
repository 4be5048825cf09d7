/** The java.lang.String and java.lang.Long operations the core relies on,
    with the edge cases Java gives them. */
module JavaText {
  import opened Wrappers

  const MinLong: int := -0x8000_0000_0000_0000
  const MaxLong: int := 0x7FFF_FFFF_FFFF_FFFF
  const MinInt: int := -0x8000_0000
  const MaxInt: int := 0x7FFF_FFFF

  /** How Java's string concatenation renders a possibly-null String. */
  function Show(s: Option<string>): (r: string)
    ensures s.Some? ==> r == s.value
    ensures s.None? ==> r == "null"
  {
    match s
    case Some(v) => v
    case None => "null"
  }

  /** The first min(|s|, n) characters: `s.substring(0, n)` guarded by a length test. */
  function Prefix(s: string, n: nat): (r: string)
    ensures |r| == if |s| < n then |s| else n
    ensures r <= s
  {
    if |s| < n then s else s[..n]
  }

  // ---------------------------------------------------------------- trim

  /** `String.trim()` strips every character whose code is at most U+0020. */
  predicate Blank(c: char) { c <= ' ' }

  predicate AllBlank(s: string) { forall i | 0 <= i < |s| :: Blank(s[i]) }

  /** True when trim has nothing to strip. */
  predicate Trimmed(s: string) { s == [] || (!Blank(s[0]) && !Blank(s[|s| - 1])) }

  function LeadingBlanks(s: string): (n: nat)
    ensures n <= |s|
    ensures forall i | 0 <= i < n :: Blank(s[i])
    ensures n < |s| ==> !Blank(s[n])
  {
    if |s| > 0 && Blank(s[0]) then 1 + LeadingBlanks(s[1..]) else 0
  }

  function TrailingBlanks(s: string): (n: nat)
    ensures n <= |s|
    ensures forall i | |s| - n <= i < |s| :: Blank(s[i])
    ensures n < |s| ==> !Blank(s[|s| - 1 - n])
  {
    if |s| > 0 && Blank(s[|s| - 1]) then 1 + TrailingBlanks(s[..|s| - 1]) else 0
  }

  /** Java's `String.trim()`: the text between the leading and the trailing blanks. */
  function Trim(s: string): (r: string)
    ensures |r| <= |s| && Trimmed(r)
    ensures Trimmed(s) ==> r == s
  {
    var lead := LeadingBlanks(s);
    if lead == |s| then
      assert s[0..0] == [] && s[..0] == [] && s[0..] == s;
      []
    else
      var trail := TrailingBlanks(s);
      assert trail < |s| - lead;
      var r := s[lead..|s| - trail];
      assert s[lead..lead + |r|] == r;
      r
  }

  /** What trim removes is blank: s is some blanks, then r, then more blanks. */
  lemma TrimRemovesOnlyBlanks(s: string)
    ensures var r := Trim(s);
            LeadingBlanks(s) + |r| <= |s| && s[LeadingBlanks(s)..LeadingBlanks(s) + |r|] == r
            && (forall k | 0 <= k < LeadingBlanks(s) :: Blank(s[k]))
            && (forall k | LeadingBlanks(s) + |r| <= k < |s| :: Blank(s[k]))
  {
    var lead := LeadingBlanks(s);
    if lead < |s| {
      var trail := TrailingBlanks(s);
      assert trail < |s| - lead;
    }
  }

  lemma TrimIdempotent(s: string)
    ensures Trim(Trim(s)) == Trim(s)
  {
  }

  // ---------------------------------------------------------------- indexOf

  /** `s.indexOf(c)`: the first position of `c`, or -1. */
  function IndexOf(s: string, c: char): (r: int)
    ensures -1 <= r < |s|
    ensures r == -1 <==> c !in s
    ensures r >= 0 ==> s[r] == c && c !in s[..r]
  {
    if |s| == 0 then -1
    else if s[0] == c then 0
    else
      var k := IndexOf(s[1..], c);
      assert s == [s[0]] + s[1..];
      if k < 0 then -1
      else
        assert s[..k + 1] == [s[0]] + s[1..][..k];
        k + 1
  }

  // ---------------------------------------------------------------- decimal numbers

  predicate IsDigit(c: char) { '0' <= c <= '9' }

  predicate AllDigits(s: string) { forall i | 0 <= i < |s| :: IsDigit(s[i]) }

  function DigitValue(c: char): (d: nat)
    requires IsDigit(c)
    ensures d < 10
  {
    (c as int) - ('0' as int)
  }

  function DigitChar(d: nat): (c: char)
    requires d < 10
    ensures IsDigit(c) && DigitValue(c) == d
  {
    (('0' as int) + d) as char
  }

  /** The value of a string of decimal digits, most significant first. */
  function DigitsValue(s: string): nat
    requires AllDigits(s)
  {
    if s == [] then 0 else 10 * DigitsValue(s[..|s| - 1]) + DigitValue(s[|s| - 1])
  }

  /** Java's decimal parse (`Long.parseLong`, `Integer.parseInt`) into the range
      [lo, hi]: an optional sign, then at least one digit. None is the
      NumberFormatException, which Java also throws on overflow. */
  function ParseDecimal(s: string, lo: int, hi: int): (r: Option<int>)
    ensures r.Some? ==> lo <= r.value <= hi
    ensures r.Some? ==> s != [] && (IsDigit(s[0]) || ((s[0] == '-' || s[0] == '+') && |s| > 1))
  {
    if s == [] then None
    else
      var digits := if s[0] == '-' || s[0] == '+' then s[1..] else s;
      if digits == [] || !AllDigits(digits) then None
      else
        var magnitude: int := DigitsValue(digits);
        var v := if s[0] == '-' then -magnitude else magnitude;
        if lo <= v <= hi then Some(v) else None
  }

  function ParseLong(s: string): (r: Option<int>)
    ensures r.Some? ==> MinLong <= r.value <= MaxLong
  {
    ParseDecimal(s, MinLong, MaxLong)
  }

  function ParseInt(s: string): (r: Option<int>)
    ensures r.Some? ==> MinInt <= r.value <= MaxInt
  {
    ParseDecimal(s, MinInt, MaxInt)
  }

  predicate IsLong(s: string) { ParseLong(s).Some? }

  /** Decimal digits of a natural number, without leading zeros. */
  function NatText(n: nat): (r: string)
    ensures r != [] && AllDigits(r)
    ensures r[0] == '0' ==> n == 0 && |r| == 1
  {
    if n < 10 then [DigitChar(n)] else NatText(n / 10) + [DigitChar(n % 10)]
  }

  /** `Long.toString(n)`, also what Java's `"" + n` writes. */
  function LongText(n: int): (r: string)
    ensures r != []
    ensures n < 0 <==> r[0] == '-'
  {
    if n < 0 then "-" + NatText(-n) else NatText(n)
  }

  lemma {:induction false} NatTextValue(n: nat)
    ensures DigitsValue(NatText(n)) == n
  {
    if n >= 10 {
      NatTextValue(n / 10);
      var t := NatText(n);
      assert t[..|t| - 1] == NatText(n / 10);
    }
  }

  /** Parsing the decimal text of a number in [lo, hi] gives it back. */
  lemma DecimalTextRoundTrip(n: int, lo: int, hi: int)
    requires lo <= n <= hi
    ensures ParseDecimal(LongText(n), lo, hi) == Some(n)
  {
    if n < 0 {
      NatTextValue(-n);
      ParseNegative(NatText(-n), lo, hi);
    } else {
      NatTextValue(n);
      ParseUnsigned(NatText(n), lo, hi);
    }
  }

  /** Parsing the decimal text of a long gives the long back. */
  lemma LongTextRoundTrip(n: int)
    requires MinLong <= n <= MaxLong
    ensures ParseLong(LongText(n)) == Some(n)
  {
    DecimalTextRoundTrip(n, MinLong, MaxLong);
  }

  lemma ParseNegative(d: string, lo: int, hi: int)
    requires d != [] && AllDigits(d)
    ensures ParseDecimal("-" + d, lo, hi) == if lo <= -(DigitsValue(d) as int) <= hi then Some(-(DigitsValue(d) as int)) else None
  {
    assert ("-" + d)[1..] == d;
  }

  lemma ParseUnsigned(d: string, lo: int, hi: int)
    requires d != [] && AllDigits(d)
    ensures ParseDecimal(d, lo, hi) == if lo <= DigitsValue(d) <= hi then Some(DigitsValue(d)) else None
  {
    assert IsDigit(d[0]);
  }

  // ---------------------------------------------------------------- regular expressions

  /** Java's line terminators, which `.` in a regular expression does not match. */
  predicate LineTerminator(c: char) {
    c == '\n' || c == '\r' || c == '\U{85}' || c == '\U{2028}' || c == '\U{2029}'
  }

  /** `s.matches(literal + ".*")` for a literal without metacharacters: the
      literal starts `s` and no line terminator follows it. */
  predicate MatchesPrefix(s: string, literal: string) {
    literal <= s && forall i | |literal| <= i < |s| :: !LineTerminator(s[i])
  }
}
