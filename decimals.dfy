/** The part of Python's `decimal.Decimal` that the codec relies on: building a
    finite decimal from a fixed-point numeral or an integer, and `str()` of a
    decimal (the "to-scientific-string" conversion). */
module Decimals {
  import opened Wrappers

  /** A finite decimal: sign, coefficient digits without leading zeros ("0" for
      zero) and exponent, so that the value is (-1)^sign * coefficient * 10^exponent. */
  datatype Decimal = Decimal(negative: bool, coefficient: string, exponent: int)

  /** A well-formed finite decimal: a non-empty digit coefficient with no
      superfluous leading zero. */
  predicate Valid(d: Decimal) {
    |d.coefficient| > 0 && AllDigits(d.coefficient) && (d.coefficient[0] == '0' ==> d.coefficient == "0")
  }

  predicate IsDigit(c: char) {
    '0' <= c <= '9'
  }

  predicate AllDigits(s: string) {
    forall i | 0 <= i < |s| :: IsDigit(s[i])
  }

  function DigitValue(c: char): nat
    requires IsDigit(c)
  {
    c as int - '0' as int
  }

  /** The natural number a digit string denotes in base ten ("" denotes 0). */
  function DigitsValue(s: string): nat
    requires AllDigits(s)
  {
    if s == [] then 0 else 10 * DigitsValue(s[..|s| - 1]) + DigitValue(s[|s| - 1])
  }

  /** A string of n zero digits. */
  function Zeros(n: nat): (z: string)
    ensures |z| == n && forall i | 0 <= i < n :: z[i] == '0'
  {
    seq(n, _ => '0')
  }

  /** `s` with its leading '0' characters removed. */
  function DropLeadingZeros(s: string): (t: string)
    ensures |t| <= |s| && (AllDigits(s) ==> AllDigits(t))
    ensures t == [] || t[0] != '0'
  {
    if |s| > 0 && s[0] == '0' then DropLeadingZeros(s[1..]) else s
  }

  /** Python's `str(int(digits))` for a non-empty digit string. */
  function CoefficientOf(digits: string): (c: string)
    requires AllDigits(digits)
    ensures |c| > 0 && AllDigits(c)
    ensures c[0] == '0' ==> c == "0"
  {
    var t := DropLeadingZeros(digits);
    if t == [] then "0" else t
  }

  /** Index of the first '.' in `s`, or |s| when there is none. */
  function IndexOfDot(s: string): (i: nat)
    ensures i <= |s|
    ensures i < |s| ==> s[i] == '.'
    ensures forall j | 0 <= j < i :: s[j] != '.'
  {
    if s == [] || s[0] == '.' then 0 else 1 + IndexOfDot(s[1..])
  }

  /** The decimal digit character for 0 <= d < 10. */
  function DigitChar(d: nat): (c: char)
    requires d < 10
    ensures IsDigit(c)
  {
    ('0' as int + d) as char
  }

  /** Python's `str(n)` for a natural number. */
  function NatToString(n: nat): (s: string)
    ensures |s| > 0 && AllDigits(s)
    ensures s[0] == '0' ==> n == 0
    decreases n
  {
    if n < 10 then [DigitChar(n)] else NatToString(n / 10) + [DigitChar(n % 10)]
  }

  /** Python's `'%+d' % n`. */
  function SignedIntToString(n: int): (s: string)
    ensures |s| > 1 && (s[0] == '+' || s[0] == '-')
  {
    if n < 0 then "-" + NatToString(-n) else "+" + NatToString(n)
  }

  /** The parts of a numeral: its sign ("-", "+" or ""), the digits before the
      first point, the point itself ("." or "") and what follows it. */
  datatype Numeral = Numeral(sign: string, intPart: string, point: string, fracPart: string)

  /** Splits `s` after its sign and around its first point. */
  function Split(s: string): (n: Numeral)
    ensures s == n.sign + n.intPart + n.point + n.fracPart
    ensures n.sign == (if |s| > 0 && (s[0] == '-' || s[0] == '+') then [s[0]] else "")
    ensures n.point == "" || n.point == "."
    ensures n.point == "" ==> n.fracPart == ""
  {
    var signed := |s| > 0 && (s[0] == '-' || s[0] == '+');
    var sign := if signed then [s[0]] else "";
    var body := s[|sign|..];
    var dot := IndexOfDot(body);
    if dot < |body| then
      assert body == body[..dot] + "." + body[dot + 1..];
      Numeral(sign, body[..dot], ".", body[dot + 1..])
    else
      Numeral(sign, body, "", "")
  }

  /** `Decimal(s)` for a string: an optional sign, digits, an optional point and
      more digits, with at least one digit in all. Anything else is refused
      (Python raises InvalidOperation). */
  function FromString(s: string): (r: Option<Decimal>)
    ensures r.Some? <==> var n := Split(s);
                         AllDigits(n.intPart) && AllDigits(n.fracPart) && |n.intPart| + |n.fracPart| > 0
    ensures r.Some? ==> Valid(r.value) && r.value.exponent == -|Split(s).fracPart| && r.value.exponent <= 0
    ensures r.Some? ==> r.value.coefficient == CoefficientOf(Split(s).intPart + Split(s).fracPart)
    ensures r.Some? ==> (r.value.negative <==> |s| > 0 && s[0] == '-')
  {
    var n := Split(s);
    if AllDigits(n.intPart) && AllDigits(n.fracPart) && |n.intPart| + |n.fracPart| > 0 then
      Some(Decimal(n.sign == "-", CoefficientOf(n.intPart + n.fracPart), -|n.fracPart|))
    else
      None
  }

  /** `Decimal(n)` for an integer. */
  function FromInt(n: int): (d: Decimal)
    ensures d.exponent == 0 && (d.negative <==> n < 0)
    ensures Valid(d)
  {
    Decimal(n < 0, NatToString(if n < 0 then -n else n), 0)
  }

  /** `str(d)`: plain notation when the exponent is at most zero and the
      adjusted exponent is at least -6, scientific notation otherwise. */
  function ToString(d: Decimal): (s: string)
    ensures |s| > 0
    ensures Valid(d) ==> (s[0] == '-' <==> d.negative)
  {
    var leftDigits := d.exponent + |d.coefficient|;
    var dotPlace := if d.exponent <= 0 && leftDigits > -6 then leftDigits else 1;
    (if d.negative then "-" else "") + PlaceDot(d.coefficient, dotPlace) + ExponentText(leftDigits - dotPlace)
  }

  /** The digits with the point placed `dotPlace` digits from their left end,
      padded with zeros on whichever side needs them. */
  function PlaceDot(digits: string, dotPlace: int): (s: string)
    ensures digits != [] ==> |s| > 0 && s[0] == (if dotPlace <= 0 then '0' else digits[0])
  {
    if dotPlace <= 0 then "0." + Zeros(-dotPlace) + digits
    else if dotPlace >= |digits| then digits + Zeros(dotPlace - |digits|)
    else digits[..dotPlace] + "." + digits[dotPlace..]
  }

  /** The exponent suffix of scientific notation, empty for a zero shift. */
  function ExponentText(e: int): string {
    if e == 0 then "" else "E" + SignedIntToString(e)
  }

  /** Numerals that `str(Decimal(s))` gives back unchanged: an optional '-', an
      integer part without superfluous leading zeros, and, when a point is
      present, at least one digit after it; below one, the point is followed
      by at most five zeros before the first non-zero digit (at most six
      digits when all of them are zero). */
  predicate Canonical(s: string) {
    var n := Split(s);
    && (|s| > 0 ==> s[0] != '+')
    && AllDigits(n.intPart) && AllDigits(n.fracPart)
    && |n.intPart| > 0
    && (n.intPart[0] == '0' ==> n.intPart == "0")
    && (n.point == "." ==> |n.fracPart| > 0)
    && (n.intPart == "0" ==>
          var significant := DropLeadingZeros(n.fracPart);
          if significant == [] then |n.fracPart| <= 6 else |n.fracPart| - |significant| <= 5)
  }

  lemma {:induction false} ZerosThenSignificant(s: string)
    requires AllDigits(s)
    ensures s == Zeros(|s| - |DropLeadingZeros(s)|) + DropLeadingZeros(s)
    decreases |s|
  {
    if |s| > 0 && s[0] == '0' {
      ZerosThenSignificant(s[1..]);
      assert Zeros(|s| - |DropLeadingZeros(s)|) == ['0'] + Zeros(|s| - 1 - |DropLeadingZeros(s[1..])|);
    } else {
      assert Zeros(0) == [];
    }
  }

  /** Plain notation of a numeral whose integer part starts with a non-zero digit. */
  lemma PlainAtLeastOne(negative: bool, intPart: string, point: string, fracPart: string)
    requires |intPart| > 0 && intPart[0] != '0'
    requires point == "." <==> |fracPart| > 0
    requires point == "" || point == "."
    ensures ToString(Decimal(negative, intPart + fracPart, -|fracPart|))
            == (if negative then "-" else "") + intPart + point + fracPart
  {
    var digits := intPart + fracPart;
    assert PlaceDot(digits, |intPart|) == intPart + point + fracPart by {
      if point == "." {
        assert digits[..|intPart|] == intPart;
        assert digits[|intPart|..] == fracPart;
      } else {
        assert Zeros(0) == [] && digits == intPart;
      }
    }
  }

  /** Plain notation of a numeral below one: "0." then the zeros, then the significant digits. */
  lemma PlainBelowOne(negative: bool, fracPart: string)
    requires |fracPart| > 0 && AllDigits(fracPart)
    requires var significant := DropLeadingZeros(fracPart);
             if significant == [] then |fracPart| <= 6 else |fracPart| - |significant| <= 5
    ensures ToString(Decimal(negative, CoefficientOf(fracPart), -|fracPart|))
            == (if negative then "-" else "") + "0." + fracPart
  {
    var c := CoefficientOf(fracPart);
    PointBelowOne(fracPart);
    PlainShape(negative, c, -|fracPart|);
    Prefixed(if negative then "-" else "", PlaceDot(c, -|fracPart| + |c|), "0.", fracPart);
  }

  lemma PointBelowOne(fracPart: string)
    requires |fracPart| > 0 && AllDigits(fracPart)
    requires var significant := DropLeadingZeros(fracPart);
             if significant == [] then |fracPart| <= 6 else |fracPart| - |significant| <= 5
    ensures var c := CoefficientOf(fracPart);
            -6 < -|fracPart| + |c| <= 0 && PlaceDot(c, -|fracPart| + |c|) == "0." + fracPart
  {
    var significant := DropLeadingZeros(fracPart);
    ZerosThenSignificant(fracPart);
    if significant == [] {
      BelowOneZero(fracPart);
    } else {
      BelowOneSignificant(fracPart, significant);
    }
  }


  lemma Prefixed(sign: string, whole: string, head: string, tail: string)
    requires whole == head + tail
    ensures sign + whole == sign + head + tail
  {
  }

  lemma BelowOneZero(fracPart: string)
    requires |fracPart| > 0
    requires fracPart == Zeros(|fracPart| - 1) + "0"
    ensures PlaceDot("0", 1 - |fracPart|) == "0." + fracPart
  {
  }

  lemma BelowOneSignificant(fracPart: string, significant: string)
    requires |significant| <= |fracPart| && fracPart == Zeros(|fracPart| - |significant|) + significant
    requires significant != []
    ensures PlaceDot(significant, -(|fracPart| - |significant|)) == "0." + fracPart
  {
  }

  /** In the plain range `str` is the sign followed by the digits with the point placed. */
  lemma PlainShape(negative: bool, coefficient: string, exponent: int)
    requires exponent <= 0 && exponent + |coefficient| > -6
    ensures ToString(Decimal(negative, coefficient, exponent))
            == (if negative then "-" else "") + PlaceDot(coefficient, exponent + |coefficient|)
  {
    assert ExponentText(0) == "";
  }

  /** A canonical numeral survives the trip through Decimal and back. */
  lemma {:induction false} StringRoundTrip(s: string)
    requires Canonical(s)
    ensures FromString(s).Some? && ToString(FromString(s).value) == s
  {
    var n := Split(s);
    if n.intPart[0] != '0' {
      RoundTripAtLeastOne(s, n);
    } else if n.point == "" {
      RoundTripZero(s, n);
    } else {
      RoundTripBelowOne(s, n);
    }
  }

  lemma RoundTripAtLeastOne(s: string, n: Numeral)
    requires Canonical(s) && n == Split(s) && n.intPart[0] != '0'
    ensures FromString(s).Some? && ToString(FromString(s).value) == s
  {
    var negative := n.sign == "-";
    assert FromString(s).value == Decimal(negative, n.intPart + n.fracPart, -|n.fracPart|) by {
      assert DropLeadingZeros(n.intPart + n.fracPart) == n.intPart + n.fracPart;
    }
    PlainAtLeastOne(negative, n.intPart, n.point, n.fracPart);
  }

  lemma RoundTripZero(s: string, n: Numeral)
    requires Canonical(s) && n == Split(s) && n.intPart[0] == '0' && n.point == ""
    ensures FromString(s).Some? && ToString(FromString(s).value) == s
  {
    var negative := n.sign == "-";
    assert FromString(s).value == Decimal(negative, "0", 0);
    assert PlaceDot("0", 1) == "0" && ExponentText(0) == "";
  }

  lemma RoundTripBelowOne(s: string, n: Numeral)
    requires Canonical(s) && n == Split(s) && n.intPart[0] == '0' && n.point == "."
    ensures FromString(s).Some? && ToString(FromString(s).value) == s
  {
    var negative := n.sign == "-";
    ParseBelowOne(s, n);
    PlainBelowOne(negative, n.fracPart);
    Prefixed(n.sign, "0.", "0", ".");
  }

  lemma ParseBelowOne(s: string, n: Numeral)
    requires Canonical(s) && n == Split(s) && n.intPart[0] == '0'
    ensures n.intPart == "0"
    ensures FromString(s) == Some(Decimal(n.sign == "-", CoefficientOf(n.fracPart), -|n.fracPart|))
  {
    assert DropLeadingZeros(n.intPart + n.fracPart) == DropLeadingZeros(n.fracPart) by {
      assert (n.intPart + n.fracPart)[1..] == n.fracPart;
    }
  }

  /** A bare trailing point is dropped: `str(Decimal("1."))` is "1". */
  lemma TrailingPointExample()
    ensures FromString("1.") == Some(Decimal(false, "1", 0)) && ToString(Decimal(false, "1", 0)) == "1"
  {
    assert IndexOfDot("1.") == 1;
    assert Split("1.") == Numeral("", "1", ".", "");
    assert DropLeadingZeros("1") == "1";
    assert PlaceDot("1", 1) == "1" && ExponentText(0) == "";
  }

  /** A value below 10^-6 prints in scientific notation: `str(Decimal("0.0000001"))` is "1E-7". */
  lemma ScientificExample()
    ensures ToString(Decimal(false, "1", -7)) == "1E-7"
  {
    assert NatToString(7) == "7";
    assert PlaceDot("1", 1) == "1";
  }

  /** Numerals outside the grammar are refused. */
  lemma RefusedExamples()
    ensures FromString("1,5") == None && FromString(".") == None && FromString("") == None
  {
    assert Split("1,5").intPart == "1,5";
    assert IndexOfDot(".") == 0;
    assert Split(".") == Numeral("", "", ".", "");
  }

  /** A leading zero does not change the value of a digit string. */
  lemma {:induction false} LeadingZeroValue(t: string)
    requires AllDigits(t)
    ensures AllDigits("0" + t) && DigitsValue("0" + t) == DigitsValue(t)
    decreases |t|
  {
    var z := "0" + t;
    if t != [] {
      LeadingZeroValue(t[..|t| - 1]);
      assert z[..|z| - 1] == "0" + t[..|t| - 1];
      assert z[|z| - 1] == t[|t| - 1];
    } else {
      assert DigitsValue(z) == 10 * DigitsValue([]) + DigitValue('0');
    }
  }

  lemma {:induction false} DropLeadingZerosValue(s: string)
    requires AllDigits(s)
    ensures DigitsValue(DropLeadingZeros(s)) == DigitsValue(s)
    decreases |s|
  {
    if |s| > 0 && s[0] == '0' {
      DropLeadingZerosValue(s[1..]);
      LeadingZeroValue(s[1..]);
      assert s == "0" + s[1..];
    }
  }

  /** `Decimal(s)` denotes the number written: its coefficient is the value of
      all the digits of `s`, its exponent places the point, its sign is s's. */
  lemma FromStringValue(s: string)
    requires FromString(s).Some?
    ensures var n := Split(s); var d := FromString(s).value;
            && DigitsValue(d.coefficient) == DigitsValue(n.intPart + n.fracPart)
            && d.exponent == -|n.fracPart|
            && (d.negative <==> n.sign == "-")
  {
    var n := Split(s);
    DropLeadingZerosValue(n.intPart + n.fracPart);
  }

  lemma {:induction false} NatToStringValue(n: nat)
    ensures DigitsValue(NatToString(n)) == n
    decreases n
  {
    var t := NatToString(n);
    if n >= 10 {
      NatToStringValue(n / 10);
      assert t[..|t| - 1] == NatToString(n / 10);
    }
  }

  /** `Decimal(n)` denotes n. */
  lemma FromIntValue(n: int)
    ensures var d := FromInt(n);
            (if d.negative then -(DigitsValue(d.coefficient) as int) else DigitsValue(d.coefficient) as int) == n
  {
    NatToStringValue(if n < 0 then -n else n);
  }

  /** `str(Decimal(n))` is `str(n)`. */
  lemma IntToString(n: int)
    ensures ToString(FromInt(n)) == (if n < 0 then "-" else "") + NatToString(if n < 0 then -n else n)
  {
    var c := NatToString(if n < 0 then -n else n);
    assert PlaceDot(c, |c|) == c by {
      assert Zeros(0) == [];
    }
    assert ExponentText(0) == "";
  }

  /** Numerals `str` does not give back: a '+' sign, no integer digit, leading zeros. */
  lemma NonCanonicalExamples()
    ensures FromString("+5") == Some(Decimal(false, "5", 0))
    ensures FromString(".5") == Some(Decimal(false, "5", -1)) && ToString(Decimal(false, "5", -1)) == "0.5"
    ensures FromString("007") == Some(Decimal(false, "7", 0))
  {
    assert "+5"[1..] == "5" && IndexOfDot("5") == 1;
    assert Split("+5") == Numeral("+", "5", "", "");
    assert "5" + "" == "5";
    assert DropLeadingZeros("5") == "5";
    assert IndexOfDot(".5") == 0;
    assert Split(".5") == Numeral("", "", ".", "5");
    assert "" + "5" == "5";
    assert PlaceDot("5", 0) == "0.5" by {
      assert Zeros(0) == [];
    }
    assert IndexOfDot("7") == 1 && IndexOfDot("07") == 2 && IndexOfDot("007") == 3;
    assert "007" + "" == "007";
    assert Split("007") == Numeral("", "007", "", "");
    assert DropLeadingZeros("007") == "7" by {
      assert "007"[1..] == "07" && "07"[1..] == "7";
      assert DropLeadingZeros("7") == "7";
    }
  }
}
