/**
 * How JavaScript turns numbers into text on the benchmark pages:
 * `Math.round`, `String(n)` for integers, `Number.prototype.toFixed` and the
 * en-US `toLocaleString`, over exact `real` values. `ParseDecimal` reads a
 * decimal numeral back; it is both what an HTML number input hands to
 * `parseFloat` and the inverse against which the renderings are proved.
 */
module Numbers {
  import opened Wrappers
  import Text

  predicate IsDigit(c: char) {
    '0' <= c <= '9'
  }

  predicate AllDigits(s: string) {
    forall i :: 0 <= i < |s| ==> IsDigit(s[i])
  }

  function Digit(d: nat): (c: char)
    requires d < 10
    ensures IsDigit(c)
  {
    ('0' as int + d) as char
  }

  function DigitValue(c: char): (d: nat)
    requires IsDigit(c)
    ensures d < 10
  {
    c as int - '0' as int
  }

  function Pow10(k: nat): (p: nat)
    ensures p >= 1
  {
    if k == 0 then 1 else 10 * Pow10(k - 1)
  }

  /** `String(n)` for a non-negative integer: its decimal digits, without leading zeros. */
  function NatToString(n: nat): (s: string)
    ensures |s| >= 1 && AllDigits(s)
    ensures |s| > 1 ==> s[0] != '0'
    decreases n
  {
    if n < 10 then [Digit(n)] else NatToString(n / 10) + [Digit(n % 10)]
  }

  /** `String(i)` for an integer. */
  function IntToString(i: int): (s: string)
    ensures i >= 0 ==> s == NatToString(i)
    ensures i < 0 ==> s == "-" + NatToString(-i)
  {
    if i < 0 then "-" + NatToString(-i) else NatToString(i)
  }

  /** The value of a string of decimal digits (leading zeros allowed). */
  function ParseDigits(s: string): nat
    requires AllDigits(s)
    decreases |s|
  {
    if s == [] then 0 else ParseDigits(s[..|s| - 1]) * 10 + DigitValue(s[|s| - 1])
  }

  lemma {:induction false} ParseNatToString(n: nat)
    ensures ParseDigits(NatToString(n)) == n
    decreases n
  {
    if n >= 10 {
      var init := NatToString(n / 10);
      var s := init + [Digit(n % 10)];
      assert s[..|s| - 1] == init;
      ParseNatToString(n / 10);
    }
  }

  lemma {:induction false} ParseDigitsAppend(a: string, b: string)
    requires AllDigits(a) && AllDigits(b)
    ensures AllDigits(a + b)
    ensures ParseDigits(a + b) == ParseDigits(a) * Pow10(|b|) + ParseDigits(b)
    decreases |b|
  {
    assert forall i :: 0 <= i < |a + b| ==> (a + b)[i] == if i < |a| then a[i] else b[i - |a|];
    if b == [] {
      assert a + b == a;
    } else {
      var b', c := b[..|b| - 1], b[|b| - 1];
      var ab := a + b;
      assert ab[..|ab| - 1] == a + b';
      assert ab[|ab| - 1] == c;
      ParseDigitsAppend(a, b');
      assert ParseDigits(ab) == ParseDigits(a + b') * 10 + DigitValue(c);
      assert ParseDigits(b) == ParseDigits(b') * 10 + DigitValue(c);
      ShiftDigit(ParseDigits(a), Pow10(|b'|), ParseDigits(b'), DigitValue(c));
    }
  }

  lemma ShiftDigit(x: int, p: int, y: int, d: int)
    ensures (x * p + y) * 10 + d == x * (10 * p) + (y * 10 + d)
  {
  }

  function Zeros(k: nat): (z: string)
    ensures |z| == k && AllDigits(z)
    ensures forall i :: 0 <= i < k ==> z[i] == '0'
  {
    seq(k, _ => '0')
  }

  lemma {:induction false} ParseZeros(k: nat)
    ensures ParseDigits(Zeros(k)) == 0
    decreases k
  {
    if k > 0 {
      assert Zeros(k)[..k - 1] == Zeros(k - 1);
      ParseZeros(k - 1);
    }
  }

  /**
   * The digits of `n`, left-padded with zeros to at least `width + 1`
   * characters: the string `m` of the toFixed algorithm, which keeps at
   * least one digit before the decimal point.
   */
  function PadDigits(n: nat, width: nat): (m: string)
    ensures |m| >= width + 1 && AllDigits(m)
    ensures ParseDigits(m) == n
  {
    var digits := NatToString(n);
    ParseNatToString(n);
    if |digits| <= width then
      ParseDigitsAppend(Zeros(width + 1 - |digits|), digits);
      ParseZeros(width + 1 - |digits|);
      Zeros(width + 1 - |digits|) + digits
    else digits
  }

  /** `Math.round(x)`: the nearest integer, halves rounded up. */
  function Round(x: real): (r: int)
    ensures x - 0.5 < r as real <= x + 0.5
  {
    (x + 0.5).Floor
  }

  function Abs(x: real): real {
    if x < 0.0 then -x else x
  }

  function SignText(x: real): string {
    if x < 0.0 then "-" else ""
  }

  /** The integer toFixed works with: |x| scaled by 10^d and rounded, halves away from zero. */
  function ScaledMagnitude(x: real, d: nat): nat {
    Round(Abs(x) * Pow10(d) as real)
  }

  /** The scaled magnitude is the nearest integer to |x| * 10^d. */
  lemma ScaledMagnitudeBounds(x: real, d: nat)
    ensures ScaledMagnitude(x, d) as real - 0.5 <= Abs(x) * Pow10(d) as real < ScaledMagnitude(x, d) as real + 0.5
  {
    var y := Abs(x) * Pow10(d) as real;
    assert Round(y) as real <= y + 0.5;
  }

  /** The digits of `x.toFixed(d)` before the decimal point. */
  function WholeDigits(x: real, d: nat): (w: string)
    ensures w != [] && AllDigits(w)
  {
    var m := PadDigits(ScaledMagnitude(x, d), d);
    m[..|m| - d]
  }

  /** The `d` digits of `x.toFixed(d)` after the decimal point. */
  function FractionDigits(x: real, d: nat): (f: string)
    ensures |f| == d && AllDigits(f)
  {
    var m := PadDigits(ScaledMagnitude(x, d), d);
    m[|m| - d..]
  }

  /** `x.toFixed(d)` for |x| < 10^21. */
  function ToFixed(x: real, d: nat): string {
    SignText(x) + WholeDigits(x, d) + (if d == 0 then "" else "." + FractionDigits(x, d))
  }

  /** The number `x.toFixed(d)` denotes. */
  function RoundedTo(x: real, d: nat): real {
    var v := ScaledMagnitude(x, d) as real / Pow10(d) as real;
    if x < 0.0 then -v else v
  }

  /** The number written `whole.frac`, where `scale` is 10 to the number of fraction digits. */
  function Decimal(whole: nat, frac: nat, scale: nat): real
    requires scale >= 1
  {
    whole as real + frac as real / scale as real
  }

  /** `ParseDecimal` for a numeral without a sign. */
  function ParseUnsigned(s: string): Option<real> {
    match Text.IndexOf(s, ".")
    case None =>
      if s != [] && AllDigits(s) then Some(ParseDigits(s) as real) else None
    case Some(i) =>
      var whole, frac := s[..i], s[i + 1..];
      if AllDigits(whole) && frac != [] && AllDigits(frac)
      then Some(Decimal(ParseDigits(whole), ParseDigits(frac), Pow10(|frac|)))
      else None
  }

  /**
   * The value of a decimal numeral `[-]digits`, `[-]digits.digits` or
   * `[-].digits`; None for anything else.
   */
  function ParseDecimal(s: string): Option<real> {
    if s != [] && s[0] == '-' then
      match ParseUnsigned(s[1..])
      case None => None
      case Some(v) => Some(-v)
    else ParseUnsigned(s)
  }

  lemma NoPointInDigits(s: string)
    requires AllDigits(s)
    ensures !Text.Contains(s, ".")
  {
    Text.ContainsIffOccurs(s, ".");
    forall i: nat ensures !Text.OccursAt(s, ".", i) {
      if i + 1 <= |s| {
        assert s[i..i + 1] == [s[i]];
      }
    }
  }

  lemma {:induction false} PointAfterDigits(w: string, f: string)
    requires AllDigits(w) && AllDigits(f)
    ensures Text.IndexOf(w + "." + f, ".") == Some(|w|)
  {
    var s := w + "." + f;
    assert s[|w|..|w| + 1] == ".";
    assert Text.OccursAt(s, ".", |w|);
    var r := Text.IndexOf(s, ".");
    NoPointInDigits(w);
    if r.None? {
      Text.ContainsIffOccurs(s, ".");
    }
  }

  lemma FractionValue(whole: nat, frac: nat, p: nat)
    requires p >= 1
    ensures Decimal(whole, frac, p) == (whole * p + frac) as real / p as real
  {
  }

  /** A numeral with a point right after its whole digits reads as whole plus fraction over 10^|f|. */
  lemma ParseUnsignedPoint(w: string, f: string)
    requires AllDigits(w) && AllDigits(f) && f != []
    ensures ParseUnsigned(w + "." + f) == Some(Decimal(ParseDigits(w), ParseDigits(f), Pow10(|f|)))
  {
    var s := w + "." + f;
    PointAfterDigits(w, f);
    var whole, frac := s[..|w|], s[|w| + 1..];
    assert whole == w;
    assert frac == f;
  }

  /** `ParseUnsigned` reads back a numeral with `d` fraction digits as its scaled integer over 10^d. */
  lemma {:induction false} ParseUnsignedFixed(m: string, d: nat)
    requires AllDigits(m) && |m| >= d + 1
    ensures d == 0 ==> ParseUnsigned(m) == Some(ParseDigits(m) as real)
    ensures d > 0 ==> ParseUnsigned(m[..|m| - d] + "." + m[|m| - d..])
                      == Some(ParseDigits(m) as real / Pow10(d) as real)
  {
    if d == 0 {
      NoPointInDigits(m);
    } else {
      var w, f := m[..|m| - d], m[|m| - d..];
      assert w + f == m;
      ParseUnsignedPoint(w, f);
      ParseDigitsAppend(w, f);
      FractionValue(ParseDigits(w), ParseDigits(f), Pow10(d));
    }
  }

  /** The unsigned part of `x.toFixed(d)`. */
  function FixedBody(x: real, d: nat): string {
    WholeDigits(x, d) + (if d == 0 then "" else "." + FractionDigits(x, d))
  }

  lemma {:induction false} FixedBodyValue(x: real, d: nat)
    ensures FixedBody(x, d) != [] && IsDigit(FixedBody(x, d)[0])
    ensures ParseUnsigned(FixedBody(x, d)) == Some(ScaledMagnitude(x, d) as real / Pow10(d) as real)
  {
    var m := PadDigits(ScaledMagnitude(x, d), d);
    ParseUnsignedFixed(m, d);
    if d == 0 {
      assert FixedBody(x, d) == m;
    } else {
      assert FixedBody(x, d) == m[..|m| - d] + "." + m[|m| - d..];
    }
  }

  /** Reading `x.toFixed(d)` back gives the rounded value, and the text has exactly `d` fraction digits. */
  lemma {:induction false} ToFixedRoundTrip(x: real, d: nat)
    ensures ParseDecimal(ToFixed(x, d)) == Some(RoundedTo(x, d))
    ensures d > 0 ==> ToFixed(x, d) == SignText(x) + WholeDigits(x, d) + "." + FractionDigits(x, d)
                      && |FractionDigits(x, d)| == d
  {
    var body := FixedBody(x, d);
    FixedBodyValue(x, d);
    assert ToFixed(x, d) == SignText(x) + body;
    SignedParse(x, body);
  }

  /** A sign prefix for negative `x` negates what the unsigned numeral reads as. */
  lemma SignedParse(x: real, body: string)
    requires body != [] && IsDigit(body[0]) && ParseUnsigned(body).Some?
    ensures ParseDecimal(SignText(x) + body)
            == Some(if x < 0.0 then -ParseUnsigned(body).value else ParseUnsigned(body).value)
  {
    var s := SignText(x) + body;
    if x < 0.0 {
      assert s[0] == '-';
      assert s[1..] == body;
    } else {
      assert s == body;
      assert s[0] != '-';
    }
  }

  lemma DivideBounds(e: real, p: real)
    requires p > 0.0 && -0.5 <= e <= 0.5
    ensures -0.5 / p <= e / p <= 0.5 / p
  {
    assert 0.5 / p - e / p == (0.5 - e) / p;
    assert e / p - -0.5 / p == (e + 0.5) / p;
  }

  lemma ShiftDivide(n: real, a: real, p: real)
    requires p > 0.0
    ensures (n - a * p) / p == n / p - a
  {
    assert (n - a * p) / p * p == n - a * p;
    assert (n / p - a) * p == n - a * p;
  }

  /** Dividing an error of at most a half by the scale 10^d keeps the signed result within half a unit. */
  lemma ScaledClose(x: real, p: real, n: real)
    requires p >= 1.0
    requires -0.5 <= n - Abs(x) * p <= 0.5
    ensures -0.5 / p <= (if x < 0.0 then -(n / p) else n / p) - x <= 0.5 / p
  {
    var e := n - Abs(x) * p;
    DivideBounds(e, p);
    ShiftDivide(n, Abs(x), p);
  }

  /** `x.toFixed(d)` denotes a number within half a unit of the last digit of `x`. */
  lemma RoundedToIsClose(x: real, d: nat)
    ensures -0.5 / Pow10(d) as real <= RoundedTo(x, d) - x <= 0.5 / Pow10(d) as real
  {
    ScaledMagnitudeBounds(x, d);
    ScaledClose(x, Pow10(d) as real, ScaledMagnitude(x, d) as real);
  }

  /**
   * `t` is a decimal text with a point and exactly `d` fraction digits that
   * reads back as `x` rounded to `d` places, hence within half a unit of the
   * last place of `x`.
   */
  predicate FixedText(t: string, x: real, d: nat) {
    && d > 0 && |t| >= d + 2 && t[|t| - d - 1] == '.'
    && AllDigits(t[|t| - d..]) && IsDigit(t[|t| - d - 2])
    && ParseDecimal(t) == Some(RoundedTo(x, d))
    && -0.5 / Pow10(d) as real <= RoundedTo(x, d) - x <= 0.5 / Pow10(d) as real
  }

  lemma ToFixedIsFixedText(x: real, d: nat)
    requires d > 0
    ensures FixedText(ToFixed(x, d), x, d)
  {
    ToFixedRoundTrip(x, d);
    RoundedToIsClose(x, d);
    var w := WholeDigits(x, d);
    var f := FractionDigits(x, d);
    var t := ToFixed(x, d);
    assert t == SignText(x) + w + "." + f;
    assert t[|t| - d..] == f;
    assert t[|t| - d - 2] == w[|w| - 1];
  }

  /** A whole number written with `toFixed` shows no rounding. */
  lemma RoundedToWhole(i: int, d: nat)
    ensures RoundedTo(i as real, d) == i as real
  {
    var p := Pow10(d);
    var a := if i < 0 then -i else i;
    assert Abs(i as real) * p as real == (a * p) as real;
    assert ScaledMagnitude(i as real, d) == a * p;
    assert (a * p) as real / p as real == a as real;
  }

  /** Reading `String(i)` back gives `i`. */
  lemma IntToStringRoundTrip(i: int)
    ensures ParseDecimal(IntToString(i)) == Some(i as real)
  {
    var digits := NatToString(if i < 0 then -i else i);
    NoPointInDigits(digits);
    ParseNatToString(if i < 0 then -i else i);
    if i < 0 {
      assert ("-" + digits)[1..] == digits;
    }
  }

  /** A string of digits with a comma before every group of three digits counted from the right. */
  function GroupThousands(digits: string): (r: string)
    decreases |digits|
  {
    if |digits| <= 3 then digits
    else GroupThousands(digits[..|digits| - 3]) + "," + digits[|digits| - 3..]
  }

  function RemoveChar(s: string, c: char): (r: string)
    ensures c !in r
    decreases |s|
  {
    if s == [] then "" else (if s[0] == c then "" else [s[0]]) + RemoveChar(s[1..], c)
  }

  lemma {:induction false} RemoveCharAppend(a: string, b: string, c: char)
    ensures RemoveChar(a + b, c) == RemoveChar(a, c) + RemoveChar(b, c)
    decreases |a|
  {
    if a != [] {
      assert (a + b)[1..] == a[1..] + b;
      RemoveCharAppend(a[1..], b, c);
    } else {
      assert a + b == b;
    }
  }

  lemma {:induction false} RemoveCharAbsent(s: string, c: char)
    requires c !in s
    ensures RemoveChar(s, c) == s
    decreases |s|
  {
    if s != [] {
      RemoveCharAbsent(s[1..], c);
      assert [s[0]] + s[1..] == s;
    }
  }

  /** Removing `c` from `a + [c] + b`, where `b` has no `c`, leaves `b` intact. */
  lemma RemoveSeparator(a: string, c: char, b: string)
    requires c !in b
    ensures RemoveChar(a + [c] + b, c) == RemoveChar(a, c) + b
  {
    RemoveTrailing(a, c);
    RemoveCharAppend(a + [c], b, c);
    RemoveCharAbsent(b, c);
  }

  lemma RemoveTrailing(a: string, c: char)
    ensures RemoveChar(a + [c], c) == RemoveChar(a, c)
  {
    assert [c][1..] == [];
    assert RemoveChar([c], c) == [];
    RemoveCharAppend(a, [c], c);
    assert RemoveChar(a, c) + [] == RemoveChar(a, c);
  }

  lemma DigitsHaveNoComma(s: string)
    requires AllDigits(s)
    ensures ',' !in s
  {
    forall k | 0 <= k < |s| ensures s[k] != ',' {
      assert IsDigit(s[k]);
    }
  }

  /** Taking the separators out of a grouped numeral restores the digits. */
  lemma {:induction false} UngroupThousands(digits: string)
    requires AllDigits(digits)
    ensures RemoveChar(GroupThousands(digits), ',') == digits
    decreases |digits|
  {
    if |digits| > 3 {
      var init, last := digits[..|digits| - 3], digits[|digits| - 3..];
      var grouped := GroupThousands(init);
      assert GroupThousands(digits) == grouped + "," + last;
      UngroupThousands(init);
      DigitsHaveNoComma(last);
      RemoveSeparator(grouped, ',', last);
      assert init + last == digits;
    } else {
      DigitsHaveNoComma(digits);
      RemoveCharAbsent(digits, ',');
    }
  }

  /**
   * The comma-separated groups of a grouped numeral: a leading group of one
   * to three digits, then groups of exactly three.
   */
  lemma {:induction false} ThousandsGroupSizes(digits: string)
    requires |digits| >= 1 && AllDigits(digits)
    ensures var groups := Text.Split(GroupThousands(digits), ',');
      && 1 <= |groups[0]| <= 3
      && (forall k :: 1 <= k < |groups| ==> |groups[k]| == 3)
      && |groups| == (|digits| + 2) / 3
    decreases |digits|
  {
    if |digits| > 3 {
      var init, last := digits[..|digits| - 3], digits[|digits| - 3..];
      assert GroupThousands(digits) == GroupThousands(init) + [','] + last;
      ThousandsGroupSizes(init);
      DigitsHaveNoComma(last);
      Text.SplitAtLastSeparator(GroupThousands(init), ',', last);
    } else {
      DigitsHaveNoComma(digits);
      Text.SplitNoSeparator(digits, ',');
    }
  }

  function TrimTrailingZeros(s: string): string
    decreases |s|
  {
    if s != [] && s[|s| - 1] == '0' then TrimTrailingZeros(s[..|s| - 1]) else s
  }

  /**
   * `x.toLocaleString()` in the en-US locale: at most three fraction digits
   * (halves away from zero), no trailing zeros, and thousands separated by commas.
   */
  function LocaleString(x: real): string {
    var n := ScaledMagnitude(x, 3);
    var whole, frac := n / 1000, n % 1000;
    SignText(x) + GroupThousands(NatToString(whole))
    + (if frac == 0 then "" else "." + TrimTrailingZeros(PadDigits(frac, 2)))
  }

  /**
   * For a whole number, `toLocaleString` is the sign followed by the digits
   * of its magnitude grouped by thousands, with no fraction part; taking the
   * commas out gives `String(i)`.
   */
  lemma LocaleStringWhole(i: int)
    ensures LocaleString(i as real) == (if i < 0 then "-" else "") + GroupThousands(NatToString(if i < 0 then -i else i))
    ensures RemoveChar(LocaleString(i as real), ',') == IntToString(i)
  {
    var a := if i < 0 then -i else i;
    assert Abs(i as real) * Pow10(3) as real == (a * 1000) as real;
    var n := ScaledMagnitude(i as real, 3);
    assert n == a * 1000;
    assert n / 1000 == a && n % 1000 == 0;
    var digits := NatToString(a);
    assert LocaleString(i as real) == SignText(i as real) + GroupThousands(digits);
    UngroupThousands(digits);
    RemoveCharAppend(SignText(i as real), GroupThousands(digits), ',');
    assert RemoveChar(SignText(i as real), ',') == SignText(i as real);
  }
}
