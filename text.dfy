/** String helpers standing in for the .NET string methods the engine calls
    (`ToLower`, `ToUpper`, `Equals(..., OrdinalIgnoreCase)`, `IndexOf`,
    `Contains`, `IsNullOrWhiteSpace`) and for integer formatting. Case
    mapping is modelled for ASCII letters only. */
module Text {
  import opened Wrappers

  function LowerChar(c: char): char {
    if 'A' <= c <= 'Z' then (c as int + 32) as char else c
  }

  function UpperChar(c: char): char {
    if 'a' <= c <= 'z' then (c as int - 32) as char else c
  }

  function ToLower(s: string): (r: string)
    ensures |r| == |s|
    ensures forall i :: 0 <= i < |s| ==> r[i] == LowerChar(s[i])
  {
    seq(|s|, i requires 0 <= i < |s| => LowerChar(s[i]))
  }

  function ToUpper(s: string): (r: string)
    ensures |r| == |s|
    ensures forall i :: 0 <= i < |s| ==> r[i] == UpperChar(s[i])
  {
    seq(|s|, i requires 0 <= i < |s| => UpperChar(s[i]))
  }

  /** `a.Equals(b, StringComparison.OrdinalIgnoreCase)`. */
  predicate EqualsIgnoreCase(a: string, b: string) {
    ToLower(a) == ToLower(b)
  }

  predicate OccursAt(s: string, sub: string, i: nat) {
    i + |sub| <= |s| && s[i..i + |sub|] == sub
  }

  /** The position of the first occurrence of `sub` in `s` at or after `from`,
      or -1. */
  function IndexFrom(s: string, sub: string, from: nat): (r: int)
    requires from <= |s|
    ensures r == -1 || (from <= r && OccursAt(s, sub, r))
    ensures r == -1 ==> forall i: nat :: from <= i ==> !OccursAt(s, sub, i)
    ensures r >= 0 ==> forall i: nat :: from <= i < r ==> !OccursAt(s, sub, i)
    decreases |s| - from
  {
    if from + |sub| > |s| then -1
    else if s[from..from + |sub|] == sub then from
    else IndexFrom(s, sub, from + 1)
  }

  /** `s.IndexOf(sub)` (ordinal): the first occurrence, or -1 when there is
      none. */
  function IndexOf(s: string, sub: string): (r: int)
    ensures r == -1 || (0 <= r && OccursAt(s, sub, r))
    ensures r == -1 <==> forall i: nat :: !OccursAt(s, sub, i)
    ensures r >= 0 ==> forall i: nat :: i < r ==> !OccursAt(s, sub, i)
  {
    IndexFrom(s, sub, 0)
  }

  /** `s.Contains(sub)` (ordinal). */
  predicate Contains(s: string, sub: string) {
    IndexOf(s, sub) >= 0
  }

  /** `s.IndexOf(sub, StringComparison.OrdinalIgnoreCase)`. */
  function IndexOfIgnoreCase(s: string, sub: string): int {
    IndexOf(ToLower(s), ToLower(sub))
  }

  predicate IsWhiteSpaceChar(c: char) {
    c == ' ' || c == '\t' || c == '\n' || c == '\r' || c == '\U{000B}' || c == '\U{000C}'
    || c == '\U{0085}' || c == '\U{00A0}'
  }

  /** `string.IsNullOrWhiteSpace(s)`. */
  predicate IsNullOrWhiteSpace(s: Option<string>) {
    s.None? || forall i :: 0 <= i < |s.value| ==> IsWhiteSpaceChar(s.value[i])
  }

  /** `string.IsNullOrEmpty(s)`. */
  predicate IsNullOrEmpty(s: Option<string>) {
    s.None? || s.value == ""
  }

  predicate IsDigit(c: char) {
    '0' <= c <= '9'
  }

  function DigitChar(d: nat): char
    requires d < 10
  {
    ('0' as int + d) as char
  }

  function DigitValue(c: char): nat
    requires IsDigit(c)
  {
    c as int - '0' as int
  }

  /** Decimal digits of `n` without leading zeros (`n.ToString()`). */
  function NatToString(n: nat): (r: string)
    ensures |r| > 0
    ensures forall i :: 0 <= i < |r| ==> IsDigit(r[i])
    decreases n
  {
    if n < 10 then [DigitChar(n)] else NatToString(n / 10) + [DigitChar(n % 10)]
  }

  /** `long.ToString()` / `int.ToString()` in the invariant culture. */
  function IntToString(n: int): (r: string)
    ensures |r| > 0
  {
    if n < 0 then "-" + NatToString(-n) else NatToString(n)
  }

  /** The value of a string of decimal digits. */
  function ParseDigits(s: string): nat
    requires forall i :: 0 <= i < |s| ==> IsDigit(s[i])
  {
    if s == [] then 0 else ParseDigits(s[..|s| - 1]) * 10 + DigitValue(s[|s| - 1])
  }

  function ParseInt(s: string): int
    requires |s| > 0
    requires forall i :: 0 <= i < |s| ==> IsDigit(s[i]) || (i == 0 && s[i] == '-')
  {
    if s[0] == '-' then -(ParseDigits(s[1..]) as int) else ParseDigits(s)
  }

  lemma {:induction false} NatToStringRoundTrip(n: nat)
    ensures ParseDigits(NatToString(n)) == n
    decreases n
  {
    if n >= 10 {
      var prefix := NatToString(n / 10);
      NatToStringRoundTrip(n / 10);
      assert (prefix + [DigitChar(n % 10)])[..|prefix|] == prefix;
    }
  }

  /** Formatting an integer loses nothing: it parses back to itself. So two
      integers have the same text exactly when they are equal. */
  lemma IntToStringRoundTrip(n: int)
    ensures ParseInt(IntToString(n)) == n
  {
    if n < 0 {
      NatToStringRoundTrip(-n);
      assert IntToString(n)[1..] == NatToString(-n);
    } else {
      NatToStringRoundTrip(n);
    }
  }

  lemma IntToStringInjective(a: int, b: int)
    ensures IntToString(a) == IntToString(b) <==> a == b
  {
    if IntToString(a) == IntToString(b) {
      IntToStringRoundTrip(a);
      IntToStringRoundTrip(b);
    }
  }

  function Pow10(n: nat): (r: nat)
    ensures r >= 1
  {
    if n == 0 then 1 else 10 * Pow10(n - 1)
  }

  /** `n` written with exactly `width` digits, leading zeros included. */
  function PaddedDigits(n: nat, width: nat): (r: string)
    ensures |r| == width
    ensures forall i :: 0 <= i < |r| ==> IsDigit(r[i])
  {
    if width == 0 then "" else PaddedDigits(n / 10, width - 1) + [DigitChar(n % 10)]
  }

  lemma {:induction false} PaddedDigitsValue(n: nat, width: nat)
    requires n < Pow10(width)
    ensures ParseDigits(PaddedDigits(n, width)) == n
  {
    if width > 0 {
      var prefix := PaddedDigits(n / 10, width - 1);
      PaddedDigitsValue(n / 10, width - 1);
      assert (prefix + [DigitChar(n % 10)])[..|prefix|] == prefix;
    }
  }

  /** A digit string without its trailing zeros. */
  function TrimZeros(s: string): (r: string)
    ensures |r| <= |s| && r == s[..|r|]
    ensures r == [] || r[|r| - 1] != '0'
  {
    if s == [] || s[|s| - 1] != '0' then s else TrimZeros(s[..|s| - 1])
  }

  lemma TenthsCancel(a: nat, b: nat)
    requires b > 0
    ensures (a * 10) as real / (b * 10) as real == a as real / b as real
  {
    assert (a * 10) as real == a as real * 10.0;
    assert (b * 10) as real == b as real * 10.0;
  }

  /** The value of the digits after a decimal point. */
  function FractionValue(digits: string): real
    requires forall i :: 0 <= i < |digits| ==> IsDigit(digits[i])
  {
    ParseDigits(digits) as real / Pow10(|digits|) as real
  }

  /** Trailing zeros of a fraction's digits do not change its value. */
  lemma {:induction false} TrimZerosValue(s: string)
    requires forall i :: 0 <= i < |s| ==> IsDigit(s[i])
    ensures FractionValue(TrimZeros(s)) == FractionValue(s)
  {
    if s != [] && s[|s| - 1] == '0' {
      var t := s[..|s| - 1];
      TrimZerosValue(t);
      assert ParseDigits(s) == ParseDigits(t) * 10;
      assert Pow10(|s|) == Pow10(|t|) * 10;
      TenthsCancel(ParseDigits(t), Pow10(|t|));
    }
  }

  /** The whole part and the remainder of `k` divided by `w`. */
  function DivMod(k: nat, w: nat): (r: (nat, nat))
    requires w > 0
    ensures r.0 * w + r.1 == k && r.1 < w
  {
    var q := k / w;
    assert q >= 0;
    (q, k - q * w)
  }

  lemma DivModReal(k: nat, w: nat, q: nat, m: nat)
    requires w > 0 && q * w + m == k
    ensures k as real / w as real == q as real + m as real / w as real
  {
    assert k as real == q as real * w as real + m as real;
  }

  /** `k / 10^places` as .NET prints a double holding it: the whole part,
      then a point and the fraction digits only when the fraction is not
      zero, with trailing zeros dropped. */
  function FormatFixed(k: nat, places: nat): string {
    var qm := DivMod(k, Pow10(places));
    var frac := TrimZeros(PaddedDigits(qm.1, places));
    NatToString(qm.0) + (if frac == [] then "" else "." + frac)
  }

  /** Digits, optionally followed by one point and at least one digit. */
  predicate IsDecimalText(s: string) {
    |s| > 0 && IsDigit(s[0]) &&
    forall i :: 0 <= i < |s| ==> IsDigit(s[i]) || (s[i] == '.' && 0 < i < |s| - 1 && forall j :: 0 <= j < |s| && j != i ==> IsDigit(s[j]))
  }

  /** The position of the decimal point, or the length when there is none. */
  function PointAt(s: string): (p: nat)
    ensures p <= |s| && (p < |s| ==> s[p] == '.')
    ensures forall i :: 0 <= i < p ==> s[i] != '.'
  {
    if s == [] then 0 else if s[0] == '.' then 0 else 1 + PointAt(s[1..])
  }

  /** The value of a decimal text. */
  function ParseDecimal(s: string): real
    requires IsDecimalText(s)
  {
    var p := PointAt(s);
    assert forall i :: 0 <= i < p ==> IsDigit(s[i]);
    assert p < |s| ==> forall j :: p < j < |s| ==> IsDigit(s[j]);
    ParseDigits(s[..p]) as real +
      (if p == |s| then 0.0 else FractionValue(s[p + 1..]))
  }

  /** A decimal text is digits, then optionally a point followed by at
      least one digit, and its value is the whole part plus the fraction. */
  lemma DecimalTextParts(s: string)
    requires IsDecimalText(s)
    ensures var p := PointAt(s);
      0 < p &&
      (forall i :: 0 <= i < p ==> IsDigit(s[i])) &&
      (p < |s| ==> p + 1 < |s| && forall i :: 0 <= i < |s| && i != p ==> IsDigit(s[i])) &&
      (p == |s| ==> forall i :: 0 <= i < |s| ==> IsDigit(s[i])) &&
      ParseDecimal(s) == ParseDigits(s[..p]) as real + (if p == |s| then 0.0 else FractionValue(s[p + 1..]))
  {
    var p := PointAt(s);
    assert forall i :: 0 <= i < p ==> IsDigit(s[i]);
    if p < |s| {
      assert s[p] == '.' && !IsDigit(s[p]);
    }
  }

  /** "0" is a decimal text worth zero. */
  lemma ZeroText()
    ensures IsDecimalText("0") && ParseDecimal("0") == 0.0
  {
    assert PointAt("0") == 1 by { assert "0"[1..] == []; }
    assert "0"[..1] == "0" && "0"[..0] == [];
  }

  /** What `FormatFixed` prints reads back as the number it was given. */
  lemma FormatFixedRoundTrip(k: nat, places: nat)
    ensures IsDecimalText(FormatFixed(k, places))
    ensures ParseDecimal(FormatFixed(k, places)) == k as real / Pow10(places) as real
  {
    var w := Pow10(places);
    var qm := DivMod(k, w);
    FormatFixedParts(k, places);
    PaddedDigitsValue(qm.1, places);
    assert FractionValue(PaddedDigits(qm.1, places)) == qm.1 as real / w as real;
    DivModReal(k, w, qm.0, qm.1);
  }

  /** The round trip, with the power of ten given as a number. */
  lemma FormatFixedOver(k: nat, places: nat, w: nat)
    requires w == Pow10(places)
    ensures IsDecimalText(FormatFixed(k, places))
    ensures ParseDecimal(FormatFixed(k, places)) == k as real / w as real
  {
    FormatFixedRoundTrip(k, places);
  }

  /** The printed text reads back as its whole part plus its fraction. */
  lemma FormatFixedParts(k: nat, places: nat)
    ensures var qm := DivMod(k, Pow10(places));
      IsDecimalText(FormatFixed(k, places)) &&
      ParseDecimal(FormatFixed(k, places)) == qm.0 as real + FractionValue(PaddedDigits(qm.1, places))
  {
    var qm := DivMod(k, Pow10(places));
    var digits := PaddedDigits(qm.1, places);
    TrimZerosValue(digits);
    if TrimZeros(digits) == [] {
      FormatWhole(qm.0, TrimZeros(digits));
    } else {
      FormatWithFraction(qm.0, TrimZeros(digits));
    }
  }

  lemma FormatWhole(q: nat, frac: string)
    requires frac == []
    ensures IsDecimalText(NatToString(q) + (if frac == [] then "" else "." + frac))
    ensures ParseDecimal(NatToString(q) + (if frac == [] then "" else "." + frac)) == q as real + FractionValue(frac)
  {
    var whole := NatToString(q);
    NatToStringRoundTrip(q);
    assert whole + "" == whole;
    WholeText(whole);
    assert FractionValue(frac) == 0.0 by {
      assert ParseDigits(frac) == 0 && Pow10(|frac|) == 1;
    }
  }

  lemma FormatWithFraction(q: nat, frac: string)
    requires frac != [] && forall i :: 0 <= i < |frac| ==> IsDigit(frac[i])
    ensures IsDecimalText(NatToString(q) + (if frac == [] then "" else "." + frac))
    ensures ParseDecimal(NatToString(q) + (if frac == [] then "" else "." + frac)) == q as real + FractionValue(frac)
  {
    NatToStringRoundTrip(q);
    FractionText(NatToString(q), frac);
    assert NatToString(q) + ("." + frac) == NatToString(q) + "." + frac;
  }

  lemma WholeText(whole: string)
    requires |whole| > 0 && forall i :: 0 <= i < |whole| ==> IsDigit(whole[i])
    ensures IsDecimalText(whole) && ParseDecimal(whole) == ParseDigits(whole) as real
  {
    assert PointAt(whole) == |whole|;
    assert whole[..|whole|] == whole;
  }

  lemma FractionText(whole: string, frac: string)
    requires |whole| > 0 && forall i :: 0 <= i < |whole| ==> IsDigit(whole[i])
    requires |frac| > 0 && forall i :: 0 <= i < |frac| ==> IsDigit(frac[i])
    ensures IsDecimalText(whole + "." + frac)
    ensures ParseDecimal(whole + "." + frac) == ParseDigits(whole) as real + FractionValue(frac)
  {
    var s := whole + "." + frac;
    assert forall i :: 0 <= i < |whole| ==> s[i] == whole[i];
    assert forall i :: 0 <= i < |frac| ==> s[|whole| + 1 + i] == frac[i];
    assert IsDecimalText(s) by {
      forall i | 0 <= i < |s| && !IsDigit(s[i])
        ensures s[i] == '.' && 0 < i < |s| - 1 && forall j :: 0 <= j < |s| && j != i ==> IsDigit(s[j])
      {
        if i != |whole| { assert false; }
      }
    }
    PointAtAfterDigits(s, |whole|);
    assert s[..|whole|] == whole;
    assert s[|whole| + 1..] == frac;
  }

  lemma PointAtAfterDigits(s: string, n: nat)
    requires n < |s| && s[n] == '.' && forall i :: 0 <= i < n ==> IsDigit(s[i])
    ensures PointAt(s) == n
  {

  }
}
