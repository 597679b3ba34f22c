/** The exact text form the `Decimal` codec carries: `str(d)` writes a decimal
    in the to-scientific-string form of the General Decimal Arithmetic
    specification, and `Decimal(text)` reads it back without going through a
    binary floating-point value. */
module DecimalText {
  import opened Wrappers
  import opened Digits

  /** A decimal number `(-1)^negative * coefficient * 10^exponent`, or one of the
      special values. Two decimals with the same value and different exponents
      (1.0 and 1.00) are different here, as their texts are. */
  datatype Decimal =
    | Finite(negative: bool, coefficient: nat, exponent: int)
    | Infinity(negative: bool)
    | NaN(negative: bool)

  // ---------------------------------------------------------------------------
  // str(d)
  // ---------------------------------------------------------------------------

  function SignText(negative: bool): string {
    if negative then "-" else ""
  }

  /** `x.y`: digits on both sides of a decimal point. */
  function WithPoint(x: string, y: string): string {
    x + "." + y
  }

  /** The exponent of the scientific form, always written with its sign. */
  function ExponentText(adjusted: int): string {
    (if adjusted >= 0 then "+" else "-") + NatToString(if adjusted >= 0 then adjusted else -adjusted)
  }

  /** The mantissa of the scientific form: the first digit, then the others
      after a point. */
  function ScientificMantissa(digits: string): string
    requires |digits| >= 1
  {
    if |digits| > 1 then WithPoint(digits[..1], digits[1..]) else digits
  }

  /** Whether `str` writes a finite decimal in plain notation: when the
      exponent is at most 0 and the adjusted exponent at least -6. */
  predicate IsPlain(c: nat, e: int) {
    e <= 0 && e + (|NatToString(c)| - 1) >= -6
  }

  /** The text of a finite decimal without its sign: plain notation or
      scientific notation. */
  function FiniteText(c: nat, e: int): (s: string)
    ensures |s| >= 1 && IsDigit(s[0])
  {
    if IsPlain(c, e) then PlainText(c, e)
    else ScientificText(NatToString(c), e + (|NatToString(c)| - 1))
  }

  /** Plain notation: the digits, with a point inside them or after `0.` and
      leading zeros. */
  function PlainText(c: nat, e: int): (s: string)
    requires IsPlain(c, e)
    ensures |s| >= 1 && IsDigit(s[0])
  {
    var digits := NatToString(c);
    if e == 0 then digits
    else if |digits| > -e then WithPoint(digits[..|digits| + e], digits[|digits| + e..])
    else WithPoint("0", Zeros(-e - |digits|) + digits)
  }

  /** Scientific notation: the mantissa, `E`, and the signed adjusted exponent. */
  function ScientificText(digits: string, adjusted: int): (s: string)
    requires |digits| >= 1 && IsDigit(digits[0])
    ensures |s| >= 1 && IsDigit(s[0])
  {
    ScientificMantissa(digits) + "E" + ExponentText(adjusted)
  }

  /** `str(d)`: a minus sign exactly for a negative decimal, then a digit
      exactly for a finite one. */
  function ToText(d: Decimal): (t: string)
    ensures |t| >= 1 && (t[0] == '-' <==> d.negative)
    ensures var start := if d.negative then 1 else 0;
      start < |t| && (IsDigit(t[start]) <==> d.Finite?)
  {
    match d
    case Finite(neg, c, e) => SignText(neg) + FiniteText(c, e)
    case Infinity(neg) => SignText(neg) + "Infinity"
    case NaN(neg) => SignText(neg) + "NaN"
  }

  // ---------------------------------------------------------------------------
  // Decimal(text)
  // ---------------------------------------------------------------------------

  /** Where the reader of a finite literal `digits [. digits] [E [sign] digits]` is. */
  datatype Phase = IntegerPart | FractionPart | ExponentStart | ExponentSigned | ExponentDigits

  /** What has been read so far: the mantissa digits as one coefficient, how
      many digits were read and how many of them follow the point, and the
      exponent with its sign. */
  datatype ScanState =
    | Scanning(phase: Phase, coefficient: nat, digitCount: nat, fractionDigits: nat,
               exponentNegative: bool, exponent: nat)
    | Rejected

  const Start: ScanState := Scanning(IntegerPart, 0, 0, 0, false, 0)

  function Step(st: ScanState, ch: char): ScanState {
    match st
    case Rejected => Rejected
    case Scanning(phase, coefficient, count, fraction, _, exponent) =>
      if IsDigit(ch) then
        if phase == IntegerPart then
          st.(coefficient := coefficient * 10 + DigitValue(ch), digitCount := count + 1)
        else if phase == FractionPart then
          st.(coefficient := coefficient * 10 + DigitValue(ch), digitCount := count + 1,
              fractionDigits := fraction + 1)
        else st.(phase := ExponentDigits, exponent := exponent * 10 + DigitValue(ch))
      else if ch == '.' then
        if phase == IntegerPart then st.(phase := FractionPart) else Rejected
      else if ch == 'e' || ch == 'E' then
        if (phase == IntegerPart || phase == FractionPart) && count >= 1 then st.(phase := ExponentStart)
        else Rejected
      else if ch == '+' || ch == '-' then
        if phase == ExponentStart then st.(phase := ExponentSigned, exponentNegative := ch == '-')
        else Rejected
      else Rejected
  }

  function Scan(st: ScanState, s: string): ScanState
    decreases |s|
  {
    if |s| == 0 then st else Scan(Step(st, s[0]), s[1..])
  }

  /** The decimal a finished scan denotes: at least one mantissa digit, and at
      least one exponent digit once an exponent marker was read. */
  function Finish(negative: bool, st: ScanState): (r: Option<Decimal>)
    ensures r.Some? ==> r.value.Finite? && r.value.negative == negative
    ensures st.Rejected? ==> r.None?
  {
    match st
    case Rejected => None
    case Scanning(phase, coefficient, count, fraction, expNegative, exponent) =>
      if (phase == IntegerPart || phase == FractionPart) && count >= 1 then
        Some(Finite(negative, coefficient, 0 - fraction))
      else if phase == ExponentDigits then
        Some(Finite(negative, coefficient, (if expNegative then 0 - exponent else exponent) - fraction))
      else None
  }

  function ParseFinite(negative: bool, body: string): Option<Decimal> {
    Finish(negative, Scan(Start, body))
  }

  function LowerAscii(c: char): char {
    if 'A' <= c <= 'Z' then (c as int + 32) as char else c
  }

  predicate EqualsIgnoreCase(s: string, word: string) {
    |s| == |word| && forall i :: 0 <= i < |s| ==> LowerAscii(s[i]) == word[i]
  }

  /** `Decimal(text)`; `None` is the `InvalidOperation` the constructor raises. */
  function Parse(s: string): (r: Option<Decimal>)
    ensures r.Some? ==> (r.value.negative <==> |s| > 0 && s[0] == '-')
    ensures s == [] ==> r.None?
  {
    var negative := |s| > 0 && s[0] == '-';
    var body := if |s| > 0 && (s[0] == '-' || s[0] == '+') then s[1..] else s;
    if EqualsIgnoreCase(body, "inf") || EqualsIgnoreCase(body, "infinity") then Some(Infinity(negative))
    else if EqualsIgnoreCase(body, "nan") then Some(NaN(negative))
    else ParseFinite(negative, body)
  }

  // ---------------------------------------------------------------------------
  // Reading back what str(d) wrote
  // ---------------------------------------------------------------------------

  lemma {:induction false} ScanConcat(st: ScanState, x: string, y: string)
    ensures Scan(st, x + y) == Scan(Scan(st, x), y)
    decreases |x|
  {
    if |x| > 0 {
      assert (x + y)[0] == x[0];
      assert (x + y)[1..] == x[1..] + y;
      ScanConcat(Step(st, x[0]), x[1..], y);
    } else {
      assert x + y == y;
    }
  }

  lemma ScanOne(st: ScanState, ch: char)
    ensures Scan(st, [ch]) == Step(st, ch)
  {
    assert [ch][1..] == [];
  }

  /** Mantissa digits append to the coefficient. */
  lemma {:induction false} ScanMantissaDigits(st: ScanState, d: string)
    requires st.Scanning? && (st.phase == IntegerPart || st.phase == FractionPart)
    requires AllDigits(d)
    ensures Scan(st, d) == MantissaAfter(st, d)
    decreases |d|
  {
    if |d| > 0 {
      var init, last := d[..|d| - 1], d[|d| - 1];
      assert d == init + [last];
      assert AllDigits(init);
      ScanMantissaDigits(st, init);
      MantissaDigitStep(st, init, last);
    } else {
      assert st.coefficient * Pow10(0) == st.coefficient;
    }
  }

  /** The state after the mantissa digits `d`. */
  function MantissaAfter(st: ScanState, d: string): ScanState
    requires st.Scanning? && AllDigits(d)
  {
    st.(coefficient := st.coefficient * Pow10(|d|) + StringToNat(d),
        digitCount := st.digitCount + |d|,
        fractionDigits := if st.phase == FractionPart then st.fractionDigits + |d| else st.fractionDigits)
  }

  lemma MantissaDigitStep(st: ScanState, init: string, last: char)
    requires st.Scanning? && (st.phase == IntegerPart || st.phase == FractionPart)
    requires AllDigits(init) && IsDigit(last)
    requires Scan(st, init) == MantissaAfter(st, init)
    ensures AllDigits(init + [last])
    ensures Scan(st, init + [last]) == MantissaAfter(st, init + [last])
  {
    ScanAppend(st, init, last);
    MantissaStep(st, init, last);
  }

  /** Reading one more character is one more step. */
  lemma ScanAppend(st: ScanState, s: string, ch: char)
    ensures Scan(st, s + [ch]) == Step(Scan(st, s), ch)
  {
    ScanConcat(st, s, [ch]);
    ScanOne(Scan(st, s), ch);
  }

  lemma MantissaStep(st: ScanState, init: string, last: char)
    requires st.Scanning? && (st.phase == IntegerPart || st.phase == FractionPart)
    requires AllDigits(init) && IsDigit(last)
    ensures AllDigits(init + [last])
    ensures Step(MantissaAfter(st, init), last) == MantissaAfter(st, init + [last])
  {
    var mid, next := MantissaAfter(st, init), init + [last];
    AppendDigit(st.coefficient, init, last);
    var after := Step(mid, last);
    assert after.coefficient == mid.coefficient * 10 + DigitValue(last);
    assert after.coefficient == MantissaAfter(st, next).coefficient;
    assert after.digitCount == MantissaAfter(st, next).digitCount;
    assert after.fractionDigits == MantissaAfter(st, next).fractionDigits;
  }

  /** Exponent digits append to the exponent. */
  lemma {:induction false} ScanExponentDigits(st: ScanState, d: string)
    requires st.Scanning? && (st.phase == ExponentStart || st.phase == ExponentSigned || st.phase == ExponentDigits)
    requires AllDigits(d) && |d| >= 1
    ensures Scan(st, d) == ExponentAfter(st, d)
    decreases |d|
  {
    var init, last := d[..|d| - 1], d[|d| - 1];
    assert d == init + [last];
    if |init| == 0 {
      assert d == [last];
      ScanExponentDigit(st, last);
    } else {
      assert AllDigits(init);
      ScanExponentDigits(st, init);
      ExponentDigitStep(st, init, last);
    }
  }

  /** The state after the exponent digits `d`. */
  function ExponentAfter(st: ScanState, d: string): ScanState
    requires st.Scanning? && AllDigits(d)
  {
    st.(phase := ExponentDigits, exponent := st.exponent * Pow10(|d|) + StringToNat(d))
  }

  lemma ExponentDigitStep(st: ScanState, init: string, last: char)
    requires st.Scanning? && (st.phase == ExponentStart || st.phase == ExponentSigned || st.phase == ExponentDigits)
    requires AllDigits(init) && IsDigit(last)
    requires Scan(st, init) == ExponentAfter(st, init)
    ensures AllDigits(init + [last])
    ensures Scan(st, init + [last]) == ExponentAfter(st, init + [last])
  {
    ScanAppend(st, init, last);
    ExponentStep(st, init, last);
  }

  lemma ExponentStep(st: ScanState, init: string, last: char)
    requires st.Scanning? && (st.phase == ExponentStart || st.phase == ExponentSigned || st.phase == ExponentDigits)
    requires AllDigits(init) && IsDigit(last)
    ensures AllDigits(init + [last])
    ensures Step(ExponentAfter(st, init), last) == ExponentAfter(st, init + [last])
  {
    var mid, next := ExponentAfter(st, init), init + [last];
    AppendDigit(st.exponent, init, last);
    var after := Step(mid, last);
    assert after.exponent == mid.exponent * 10 + DigitValue(last);
    assert after.exponent == ExponentAfter(st, next).exponent;
  }

  lemma ScanExponentDigit(st: ScanState, ch: char)
    requires st.Scanning? && (st.phase == ExponentStart || st.phase == ExponentSigned || st.phase == ExponentDigits)
    requires IsDigit(ch)
    ensures Scan(st, [ch]) == ExponentAfter(st, [ch])
  {
    ScanOne(st, ch);
    assert [ch][..0] == [];
    assert StringToNat([ch]) == DigitValue(ch);
  }

  /** The digits of `str(c)` read from the start give the coefficient `c`. */
  lemma ScanNatText(c: nat)
    ensures Scan(Start, NatToString(c)) == Start.(coefficient := c, digitCount := |NatToString(c)|)
  {
    ScanMantissaDigits(Start, NatToString(c));
    NatStringRoundTrip(c);
  }

  lemma ParseWholeNumber(negative: bool, c: nat)
    ensures ParseFinite(negative, NatToString(c)) == Some(Finite(negative, c, 0))
  {
    ScanNatText(c);
  }

  /** The mantissa `x.y` read from the start. */
  lemma ScanWithPoint(x: string, y: string)
    requires AllDigits(x) && AllDigits(y)
    ensures AllDigits(x + y)
    ensures Scan(Start, WithPoint(x, y))
      == Scanning(FractionPart, StringToNat(x + y), |x| + |y|, |y|, false, 0)
  {
    var xp := x + ".";
    assert WithPoint(x, y) == xp + y;
    ScanConcat(Start, xp, y);
    ScanIntegerPart(x);
    ScanMantissaDigits(Scanning(FractionPart, StringToNat(x), |x|, 0, false, 0), y);
    StringToNatConcat(x, y);
  }

  /** The digits before a point, then the point. */
  lemma ScanIntegerPart(x: string)
    requires AllDigits(x)
    ensures Scan(Start, x + ".") == Scanning(FractionPart, StringToNat(x), |x|, 0, false, 0)
  {
    ScanConcat(Start, x, ".");
    ScanMantissaDigits(Start, x);
    var afterX := Scan(Start, x);
    assert afterX == Scanning(IntegerPart, StringToNat(x), |x|, 0, false, 0);
    ScanOne(afterX, '.');
  }

  lemma ParsePointInside(negative: bool, c: nat, k: nat)
    requires 1 <= k < |NatToString(c)|
    ensures var digits := NatToString(c);
      ParseFinite(negative, WithPoint(digits[..k], digits[k..])) == Some(Finite(negative, c, k - |digits|))
  {
    var digits := NatToString(c);
    assert digits[..k] + digits[k..] == digits;
    ScanWithPoint(digits[..k], digits[k..]);
    NatStringRoundTrip(c);
  }

  lemma ParseLeadingZero(negative: bool, c: nat, n: nat)
    ensures var digits := NatToString(c);
      ParseFinite(negative, WithPoint("0", Zeros(n) + digits)) == Some(Finite(negative, c, 0 - (n + |digits|)))
  {
    var fraction := Zeros(n) + NatToString(c);
    ZeroPaddedValue(c, n);
    ScanWithPoint("0", fraction);
  }

  /** `0` and `n` zeros in front of `str(c)` leave its value `c`. */
  lemma ZeroPaddedValue(c: nat, n: nat)
    ensures AllDigits(Zeros(n) + NatToString(c)) && AllDigits("0")
    ensures StringToNat("0" + (Zeros(n) + NatToString(c))) == c
  {
    var digits := NatToString(c);
    LeadingZeros(n, digits);
    LeadingZeros(1, Zeros(n) + digits);
    assert Zeros(1) == "0";
    NatStringRoundTrip(c);
  }

  /** The scientific mantissa of `str(c)` read from the start. */
  lemma ScanScientificMantissa(c: nat)
    ensures var digits := NatToString(c);
      Scan(Start, ScientificMantissa(digits))
        == Scanning(if |digits| > 1 then FractionPart else IntegerPart, c, |digits|, |digits| - 1, false, 0)
  {
    var digits := NatToString(c);
    NatStringRoundTrip(c);
    if |digits| > 1 {
      assert digits[..1] + digits[1..] == digits;
      ScanWithPoint(digits[..1], digits[1..]);
    } else {
      ScanNatText(c);
    }
  }

  lemma ScanExponentText(st: ScanState, adjusted: int)
    requires st.Scanning? && st.phase == ExponentStart && st.exponent == 0
    ensures Scan(st, ExponentText(adjusted))
      == st.(phase := ExponentDigits, exponentNegative := adjusted < 0,
             exponent := if adjusted >= 0 then adjusted else -adjusted)
  {
    var magnitude: nat := if adjusted >= 0 then adjusted else -adjusted;
    var sign := if adjusted >= 0 then "+" else "-";
    ScanConcat(st, sign, NatToString(magnitude));
    ScanOne(st, sign[0]);
    var signed := st.(phase := ExponentSigned, exponentNegative := adjusted < 0);
    ScanExponentDigits(signed, NatToString(magnitude));
    NatStringRoundTrip(magnitude);
  }

  lemma ParseScientific(negative: bool, c: nat, adjusted: int)
    ensures var digits := NatToString(c);
      ParseFinite(negative, ScientificText(digits, adjusted))
        == Some(Finite(negative, c, adjusted - (|digits| - 1)))
  {
    var digits := NatToString(c);
    var marked := ScientificMantissa(digits) + "E";
    assert ScientificText(digits, adjusted) == marked + ExponentText(adjusted);
    ScanConcat(Start, marked, ExponentText(adjusted));
    ScanMarkedMantissa(c);
    ScanExponentText(Scanning(ExponentStart, c, |digits|, |digits| - 1, false, 0), adjusted);
  }

  /** The scientific mantissa of `str(c)` and the exponent marker. */
  lemma ScanMarkedMantissa(c: nat)
    ensures var digits := NatToString(c);
      Scan(Start, ScientificMantissa(digits) + "E") == Scanning(ExponentStart, c, |digits|, |digits| - 1, false, 0)
  {
    var mantissa := ScientificMantissa(NatToString(c));
    ScanConcat(Start, mantissa, "E");
    ScanScientificMantissa(c);
    ScanOne(Scan(Start, mantissa), 'E');
  }

  /** Each of the four forms `str` writes for a finite decimal reads back as it. */
  lemma ParsePlainText(negative: bool, c: nat, e: int)
    requires IsPlain(c, e)
    ensures ParseFinite(negative, FiniteText(c, e)) == Some(Finite(negative, c, e))
  {
    var digits := NatToString(c);
    assert FiniteText(c, e) == PlainText(c, e);
    if e == 0 {
      ParseWholeNumber(negative, c);
    } else if |digits| > -e {
      assert PlainText(c, e) == WithPoint(digits[..|digits| + e], digits[|digits| + e..]);
      ParsePointInside(negative, c, |digits| + e);
    } else {
      assert PlainText(c, e) == WithPoint("0", Zeros(-e - |digits|) + digits);
      ParseLeadingZero(negative, c, -e - |digits|);
    }
  }

  lemma ParseScientificText(negative: bool, c: nat, e: int)
    requires !IsPlain(c, e)
    ensures ParseFinite(negative, FiniteText(c, e)) == Some(Finite(negative, c, e))
  {
    var adjusted := e + (|NatToString(c)| - 1);
    assert FiniteText(c, e) == ScientificText(NatToString(c), adjusted);
    ParseScientific(negative, c, adjusted);
  }

  lemma ParseFiniteText(negative: bool, c: nat, e: int)
    ensures ParseFinite(negative, FiniteText(c, e)) == Some(Finite(negative, c, e))
  {
    if IsPlain(c, e) {
      ParsePlainText(negative, c, e);
    } else {
      ParseScientificText(negative, c, e);
    }
  }

  /** A signed text that starts with a digit is read as a finite decimal. */
  lemma ParseSignedDigits(negative: bool, body: string)
    requires |body| >= 1 && IsDigit(body[0])
    ensures Parse(SignText(negative) + body) == ParseFinite(negative, body)
  {
    var s := SignText(negative) + body;
    if negative {
      assert s[0] == '-' && s[1..] == body;
    } else {
      assert s == body;
    }
    assert !EqualsIgnoreCase(body, "inf") && !EqualsIgnoreCase(body, "infinity") && !EqualsIgnoreCase(body, "nan") by {
      assert LowerAscii(body[0]) == body[0];
    }
  }

  lemma ParseSpecial(negative: bool, word: string, d: Decimal)
    requires word == "Infinity" || word == "NaN"
    requires d == (if word == "NaN" then NaN(negative) else Infinity(negative))
    ensures Parse(SignText(negative) + word) == Some(d)
  {
    var s := SignText(negative) + word;
    if negative {
      assert s[0] == '-' && s[1..] == word;
    } else {
      assert s == word;
    }
    if word == "NaN" {
      assert word[0] == 'N' && LowerAscii('N') == 'n' && LowerAscii('a') == 'a';
      assert LowerAscii(word[0]) != "inf"[0];
      assert EqualsIgnoreCase(word, "nan");
    } else {
      assert LowerAscii('I') == 'i';
      assert EqualsIgnoreCase(word, "infinity");
    }
  }

  /** `Decimal(str(d)) == d` for every decimal, exactly: same sign, coefficient
      and exponent, so the text never passes through a binary float. */
  lemma ParseToText(d: Decimal)
    ensures Parse(ToText(d)) == Some(d)
  {
    match d
    case Finite(neg, c, e) =>
      ParseSignedDigits(neg, FiniteText(c, e));
      ParseFiniteText(neg, c, e);
    case Infinity(neg) =>
      ParseSpecial(neg, "Infinity", d);
    case NaN(neg) =>
      ParseSpecial(neg, "NaN", d);
  }
}
