/**
 * The .NET string and integer primitives the client relies on: `string.IsNullOrEmpty`,
 * `String.Trim`, `Int32.ToString()`, `int.TryParse` / `Convert.ToInt32(string)` and
 * the 32-bit wrap-around of `++` on an `int`.
 */
module Text {
  import opened Wrappers

  const MinInt32: int := -0x8000_0000
  const MaxInt32: int := 0x7FFF_FFFF

  /** A C# `int`. */
  type Int32 = x: int | -0x8000_0000 <= x <= 0x7FFF_FFFF

  /** The value an unchecked C# `int` operation leaves for the mathematical result `x`. */
  function Wrap32(x: int): (r: Int32)
    ensures MinInt32 <= x <= MaxInt32 ==> r == x
    ensures (x - r) % 0x1_0000_0000 == 0
  {
    (x - MinInt32) % 0x1_0000_0000 + MinInt32
  }

  /** `string.IsNullOrEmpty`. */
  predicate IsNullOrEmpty(s: Option<string>) {
    s.None? || s.value == []
  }

  /** What string interpolation prints for a possibly-null string. */
  function OrEmpty(s: Option<string>): string {
    s.GetOr("")
  }

  /** Which characters a trim removes: those of `String.Trim()`, or those `int.TryParse` skips. */
  datatype WhiteKind = AnyWhiteSpace | NumberWhiteSpace

  /** `char.IsWhiteSpace`: the characters `String.Trim()` removes. */
  predicate IsWhiteSpace(c: char) {
    || c == ' ' || ('\t' <= c <= '\r') || c == '\U{0085}' || c == '\U{00A0}' || c == '\U{1680}'
    || ('\U{2000}' <= c <= '\U{200A}') || c == '\U{2028}' || c == '\U{2029}' || c == '\U{202F}'
    || c == '\U{205F}' || c == '\U{3000}'
  }

  /** The white space `NumberStyles.Integer` lets a number be surrounded with. */
  predicate IsNumberWhite(c: char) {
    c == ' ' || ('\t' <= c <= '\r')
  }

  predicate IsWhite(kind: WhiteKind, c: char) {
    match kind
    case AnyWhiteSpace => IsWhiteSpace(c)
    case NumberWhiteSpace => IsNumberWhite(c)
  }

  /** Removes the longest prefix of white characters. */
  function TrimStartWith(s: string, kind: WhiteKind): (r: string)
    ensures |r| <= |s| && r == s[|s| - |r|..]
    ensures forall i :: 0 <= i < |s| - |r| ==> IsWhite(kind, s[i])
    ensures r == [] || !IsWhite(kind, r[0])
  {
    if s != [] && IsWhite(kind, s[0]) then TrimStartWith(s[1..], kind) else s
  }

  /** Removes the longest suffix of white characters. */
  function TrimEndWith(s: string, kind: WhiteKind): (r: string)
    ensures |r| <= |s| && r == s[..|r|]
    ensures forall i :: |r| <= i < |s| ==> IsWhite(kind, s[i])
    ensures r == [] || !IsWhite(kind, r[|r| - 1])
  {
    if s != [] && IsWhite(kind, s[|s| - 1]) then TrimEndWith(s[..|s| - 1], kind) else s
  }

  /** `r` is the slice of `s` from `k` on, and everything of `s` around it is white space. */
  predicate WhiteBorder(s: string, r: string, k: int) {
    && 0 <= k && k + |r| <= |s| && r == s[k..k + |r|]
    && (forall i :: 0 <= i < k ==> IsWhiteSpace(s[i]))
    && (forall i :: k + |r| <= i < |s| ==> IsWhiteSpace(s[i]))
  }

  /**
   * `String.Trim()`: the result is the input without a white-space border, and the border
   * is the whole of it: the result neither starts nor ends with white space.
   */
  function Trim(s: string): (r: string)
    ensures exists k :: WhiteBorder(s, r, k)
    ensures r == [] || (!IsWhiteSpace(r[0]) && !IsWhiteSpace(r[|r| - 1]))
  {
    var t := TrimStartWith(s, AnyWhiteSpace);
    var r := TrimEndWith(t, AnyWhiteSpace);
    BorderOfTrims(s, t, r);
    r
  }

  /**
   * Trimming a white prefix and then a white suffix leaves a slice with a white border, which
   * neither starts nor ends with white space.
   */
  lemma BorderOfTrims(s: string, t: string, r: string)
    requires |t| <= |s| && t == s[|s| - |t|..]
    requires forall i :: 0 <= i < |s| - |t| ==> IsWhite(AnyWhiteSpace, s[i])
    requires t == [] || !IsWhite(AnyWhiteSpace, t[0])
    requires |r| <= |t| && r == t[..|r|]
    requires forall i :: |r| <= i < |t| ==> IsWhite(AnyWhiteSpace, t[i])
    requires r == [] || !IsWhite(AnyWhiteSpace, r[|r| - 1])
    ensures WhiteBorder(s, r, |s| - |t|)
    ensures r == [] || (!IsWhiteSpace(r[0]) && !IsWhiteSpace(r[|r| - 1]))
  {
    var k := |s| - |t|;
    assert r == s[k..k + |r|];
    forall i | k + |r| <= i < |s|
      ensures IsWhiteSpace(s[i])
    {
      assert s[i] == t[i - k];
      assert IsWhite(AnyWhiteSpace, t[i - k]);
    }
    forall i | 0 <= i < k
      ensures IsWhiteSpace(s[i])
    {
      assert IsWhite(AnyWhiteSpace, s[i]);
    }
    if r != [] {
      assert r[0] == t[0];
    }
  }


  lemma TrimKeepsBorderless(s: string)
    requires s == [] || (!IsWhiteSpace(s[0]) && !IsWhiteSpace(s[|s| - 1]))
    ensures Trim(s) == s
  {
  }

  /** Trimming twice trims no more than trimming once. */
  lemma TrimIdempotent(s: string)
    ensures Trim(Trim(s)) == Trim(s)
  {
    TrimKeepsBorderless(Trim(s));
  }

  // ---------------------------------------------------------------- decimal digits

  predicate IsDigit(c: char) {
    '0' <= c <= '9'
  }

  predicate AllDigits(s: string) {
    forall i :: 0 <= i < |s| ==> IsDigit(s[i])
  }

  function DigitValue(c: char): (d: nat)
    requires IsDigit(c)
    ensures d < 10
  {
    (c as int) - ('0' as int)
  }

  function DigitChar(d: nat): (c: char)
    requires d < 10
    ensures IsDigit(c) && DigitValue(c) == d
  {
    (('0' as int) + d) as char
  }

  /** The decimal digits of `n`, most significant first, without leading zeros. */
  function NatToDecimal(n: nat): (r: string)
    ensures r != [] && AllDigits(r)
    ensures |r| > 1 ==> r[0] != '0'
  {
    if n < 10 then [DigitChar(n)] else NatToDecimal(n / 10) + [DigitChar(n % 10)]
  }

  /** The number a run of decimal digits denotes. */
  function DecimalValue(s: string): nat
    requires AllDigits(s)
  {
    if s == [] then 0 else DecimalValue(s[..|s| - 1]) * 10 + DigitValue(s[|s| - 1])
  }

  lemma {:induction false} DecimalRoundTrip(n: nat)
    ensures DecimalValue(NatToDecimal(n)) == n
  {
    if n >= 10 {
      var s := NatToDecimal(n);
      assert s[..|s| - 1] == NatToDecimal(n / 10);
      DecimalRoundTrip(n / 10);
    }
  }

  /** `Int32.ToString()` with '-' as the negative sign. */
  function IntToDecimal(i: int): (r: string)
    ensures r != [] && IsDigit(r[|r| - 1])
    ensures r[0] == '-' || IsDigit(r[0])
    ensures r[0] == '-' <==> i < 0
  {
    if i < 0 then "-" + NatToDecimal(-i) else NatToDecimal(i)
  }

  /** An optional sign followed by one or more decimal digits, with no range limit. */
  function ParseInteger(s: string): Option<int> {
    if s == [] then None
    else if s[0] == '-' || s[0] == '+' then
      if |s| > 1 && AllDigits(s[1..])
      then Some(if s[0] == '-' then -(DecimalValue(s[1..]) as int) else DecimalValue(s[1..]))
      else None
    else if AllDigits(s) then Some(DecimalValue(s))
    else None
  }

  /**
   * `int.TryParse(s, out v)` and `Convert.ToInt32(s)`: white space around, an optional
   * sign, at least one digit, and a value that fits in an `int`; None where they fail.
   */
  function ParseInt32(s: string): (r: Option<Int32>)
    ensures r.Some? ==> s != []
  {
    var t := TrimEndWith(TrimStartWith(s, NumberWhiteSpace), NumberWhiteSpace);
    match ParseInteger(t)
    case Some(v) =>
      if MinInt32 <= v <= MaxInt32 then Some(v) else None
    case None => None
  }

  lemma ParseIntegerRoundTrip(i: int)
    ensures ParseInteger(IntToDecimal(i)) == Some(i)
  {
    var s := IntToDecimal(i);
    if i < 0 {
      assert s[1..] == NatToDecimal(-i);
      DecimalRoundTrip(-i);
    } else {
      DecimalRoundTrip(i);
    }
  }

  /** Printing an `int` and parsing the text back yields the same `int`. */
  lemma ParseInt32RoundTrip(i: Int32)
    ensures ParseInt32(IntToDecimal(i)) == Some(i)
  {
    var s := IntToDecimal(i);
    var t0 := TrimStartWith(s, NumberWhiteSpace);
    assert t0 == s;
    var t := TrimEndWith(t0, NumberWhiteSpace);
    assert t == s;
    ParseIntegerRoundTrip(i);
  }
}
