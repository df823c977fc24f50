/** The decimal text form of an amount, in which request bodies carry money. */
module MoneyText {
  import opened Wrappers
  import opened MoneyValue

  predicate IsDigit(c: char) { '0' <= c <= '9' }

  predicate AllDigits(s: string) { forall i :: 0 <= i < |s| ==> IsDigit(s[i]) }

  function DigitValue(c: char): nat
    requires IsDigit(c)
  {
    c as int - '0' as int
  }

  function DigitChar(n: nat): char
    requires n < 10
  {
    (n + '0' as int) as char
  }

  /** The number that a string of decimal digits denotes. */
  function Value(s: string): nat
    requires AllDigits(s)
  {
    if s == "" then 0 else 10 * Value(s[..|s| - 1]) + DigitValue(s[|s| - 1])
  }

  function Decimal(n: nat): (s: string)
    ensures s != "" && AllDigits(s)
  {
    if n < 10 then [DigitChar(n)] else Decimal(n / 10) + [DigitChar(n % 10)]
  }

  /** The index of the first point, or the length when there is none. */
  function PointAt(s: string): (k: nat)
    ensures k <= |s| && (k < |s| ==> s[k] == '.')
    ensures forall i :: 0 <= i < k ==> s[i] != '.'
  {
    if s == "" || s[0] == '.' then 0
    else
      var k := PointAt(s[1..]);
      assert forall i :: 1 <= i < 1 + k ==> s[i] == s[1..][i - 1];
      1 + k
  }

  function WholePart(s: string): string { s[..PointAt(s)] }

  function FractionalPart(s: string): string
  {
    if PointAt(s) < |s| then s[PointAt(s) + 1..] else ""
  }

  function PadEnd(s: string, width: nat, c: char): string
    decreases width - |s|
  {
    if |s| < width then PadEnd(s + [c], width, c) else s
  }

  function PadStart(s: string, width: nat, c: char): string
    decreases width - |s|
  {
    if |s| < width then PadStart([c] + s, width, c) else s
  }

  predicate Accepted(s: string)
  {
    WholePart(s) != "" && AllDigits(WholePart(s)) && AllDigits(FractionalPart(s)) &&
    (PointAt(s) < |s| ==> 1 <= |FractionalPart(s)| <= 2)
  }

  /** Digits, then optionally a point and one or two digits. */
  ghost predicate Written(s: string, whole: string, fraction: string)
  {
    whole != "" && AllDigits(whole) && AllDigits(fraction) && |fraction| <= 2 &&
    s == whole + (if fraction == "" then "" else "." + fraction)
  }

  function FromDecimalString(s: string, currency: Currency): Result<Money, MoneyError>
  {
    if !Accepted(s) then Failure(InvalidDecimal)
    else
      PaddedDigits(FractionalPart(s));
      Success(Money(Value(WholePart(s)) * 100 + Value(PadEnd(FractionalPart(s), 2, '0')), currency))
  }

  function ToMajorUnitsString(m: Money): string
  {
    Decimal(m.minorUnits / 100) + "." + PadStart(Decimal(m.minorUnits % 100), 2, '0')
  }

  function StripZeros(s: string): string
  {
    if |s| > 1 && s[0] == '0' then StripZeros(s[1..]) else s
  }

  /** Leading zeros dropped, exactly two decimals. */
  function Canonical(s: string): string
  {
    StripZeros(WholePart(s)) + "." + PadEnd(FractionalPart(s), 2, '0')
  }

  lemma PaddedDigits(f: string)
    requires AllDigits(f)
    ensures AllDigits(PadEnd(f, 2, '0'))
    ensures |f| <= 2 ==> |PadEnd(f, 2, '0')| == 2
    decreases 2 - |f|
  {
    if |f| < 2 { PaddedDigits(f + "0"); }
  }

  // ---- the accepted texts are exactly those of the grammar

  lemma PointAtIs(s: string, k: nat)
    requires k <= |s| && (k < |s| ==> s[k] == '.')
    requires forall i :: 0 <= i < k ==> s[i] != '.'
    ensures PointAt(s) == k
  {
  }

  lemma SplitOfWritten(s: string, whole: string, fraction: string)
    requires Written(s, whole, fraction)
    ensures WholePart(s) == whole && FractionalPart(s) == fraction
    ensures PointAt(s) < |s| <==> fraction != ""
  {
    assert forall i :: 0 <= i < |whole| ==> s[i] == whole[i] && IsDigit(whole[i]);
    PointAtIs(s, |whole|);
  }

  lemma AcceptedIffWritten(s: string)
    ensures Accepted(s) <==> exists whole, fraction :: Written(s, whole, fraction)
  {
    if Accepted(s) {
      assert Written(s, WholePart(s), FractionalPart(s));
    }
    forall whole, fraction | Written(s, whole, fraction)
      ensures Accepted(s)
    {
      SplitOfWritten(s, whole, fraction);
    }
  }

  // ---- digits and numbers

  lemma {:induction false} ValueOfDecimal(n: nat)
    ensures Value(Decimal(n)) == n
  {
    if n >= 10 {
      ValueOfDecimal(n / 10);
      var s := Decimal(n);
      assert s[..|s| - 1] == Decimal(n / 10);
    }
  }

  lemma {:induction false} ValueAfterFirst(s: string)
    requires s != "" && AllDigits(s)
    ensures s[0] == '0' ==> Value(s) == Value(s[1..])
    ensures s[0] != '0' ==> Value(s) > 0
  {
    if |s| > 1 {
      ValueAfterFirst(s[..|s| - 1]);
      assert s[1..][..|s[1..]| - 1] == s[..|s| - 1][1..];
    }
  }

  lemma {:induction false} StripZerosAppend(s: string, c: char)
    requires s != "" && AllDigits(s) && IsDigit(c)
    ensures StripZeros(s + [c]) == if Value(s) == 0 then [c] else StripZeros(s) + [c]
  {
    ValueAfterFirst(s);
    assert (s + [c])[1..] == s[1..] + [c];
    if s[0] == '0' && |s| > 1 {
      StripZerosAppend(s[1..], c);
    }
  }

  lemma {:induction false} DecimalOfValue(s: string)
    requires s != "" && AllDigits(s)
    ensures Decimal(Value(s)) == StripZeros(s)
  {
    if |s| > 1 {
      var front, last := s[..|s| - 1], s[|s| - 1];
      DecimalOfValue(front);
      StripZerosAppend(front, last);
      assert s == front + [last];
    }
  }

  /** Two digits are what their value is printed as. */
  lemma TwoDigits(s: string)
    requires |s| == 2 && AllDigits(s)
    ensures Value(s) < 100 && PadStart(Decimal(Value(s)), 2, '0') == s
  {
    DecimalOfValue(s);
    assert s[..1] == [s[0]];
    assert Value(s[..1]) == DigitValue(s[0]);
    if s[0] == '0' {
      assert StripZeros(s) == s[1..] == [s[1]];
      assert PadStart([s[1]], 2, '0') == ['0'] + [s[1]] == s;
    }
  }

  lemma MinorDigits(n: nat)
    requires n < 100
    ensures var s := PadStart(Decimal(n), 2, '0');
            |s| == 2 && AllDigits(s) && Value(s) == n
  {
    ValueOfDecimal(n);
    var s := Decimal(n);
    if n < 10 {
      assert PadStart(s, 2, '0') == ['0'] + s;
      assert (['0'] + s)[..1] == "0";
    } else {
      assert |Decimal(n / 10)| == 1;
    }
  }

  // ---- the round trips

  lemma ParseAfterPrint(m: Money)
    ensures FromDecimalString(ToMajorUnitsString(m), m.currency) == Success(m)
  {
    var whole := Decimal(m.minorUnits / 100);
    var fraction := PadStart(Decimal(m.minorUnits % 100), 2, '0');
    MinorDigits(m.minorUnits % 100);
    ValueOfDecimal(m.minorUnits / 100);
    SplitOfWritten(ToMajorUnitsString(m), whole, fraction);
  }

  lemma PrintAfterParse(s: string, currency: Currency)
    requires Accepted(s)
    ensures FromDecimalString(s, currency).Success?
    ensures FromDecimalString(s, currency).value.currency == currency
    ensures ToMajorUnitsString(FromDecimalString(s, currency).value) == Canonical(s)
  {
    var whole, padded := WholePart(s), PadEnd(FractionalPart(s), 2, '0');
    PaddedDigits(FractionalPart(s));
    TwoDigits(padded);
    DecimalOfValue(whole);
    PrintOf(FromDecimalString(s, currency).value, StripZeros(whole), padded, Value(whole), Value(padded));
  }

  lemma PrintOf(m: Money, whole: string, fraction: string, major: nat, minor: nat)
    requires minor < 100 && m.minorUnits == major * 100 + minor
    requires Decimal(major) == whole && PadStart(Decimal(minor), 2, '0') == fraction
    ensures ToMajorUnitsString(m) == whole + "." + fraction
  {
    assert m.minorUnits / 100 == major && m.minorUnits % 100 == minor;
  }

  /** Two texts mean the same amount exactly when they have the same canonical form. */
  lemma SameAmountIffSameCanonical(a: string, b: string, currency: Currency)
    requires Accepted(a) && Accepted(b)
    ensures FromDecimalString(a, currency) == FromDecimalString(b, currency)
        <==> Canonical(a) == Canonical(b)
  {
    PrintAfterParse(a, currency);
    PrintAfterParse(b, currency);
    ParseAfterPrint(FromDecimalString(a, currency).value);
    ParseAfterPrint(FromDecimalString(b, currency).value);
  }
}
