/** KYC tiers and the limits each of them carries, in minor units. */
module KycTiers {
  import opened Wrappers
  import opened MoneyValue
  import opened MoneyText

  datatype KycTier = TIER_1 | TIER_2 | TIER_3 {
    function Rank(): nat {
      match this
      case TIER_1 => 1
      case TIER_2 => 2
      case TIER_3 => 3
    }
  }

  datatype KycTierLimits = KycTierLimits(perTransaction: Option<nat>, daily: Option<nat>, maxBalance: Option<nat>)

  function DefaultLimits(tier: KycTier): KycTierLimits {
    match tier
    case TIER_1 => KycTierLimits(Some(5000000), Some(5000000), Some(30000000))
    case TIER_2 => KycTierLimits(Some(20000000), Some(20000000), Some(50000000))
    case TIER_3 => KycTierLimits(Some(500000000), Some(500000000), None)
  }

  /** `limit && !(limit >= value)` is the source's test for exceeding; no limit means no cap. */
  predicate Within(value: int, limit: Option<nat>) {
    limit.Some? ==> value <= limit.value
  }

  /** A higher tier never has a tighter limit of any kind. */
  lemma LimitsRiseWithTier(low: KycTier, high: KycTier, value: int)
    requires low.Rank() <= high.Rank()
    ensures Within(value, DefaultLimits(low).perTransaction) ==> Within(value, DefaultLimits(high).perTransaction)
    ensures Within(value, DefaultLimits(low).daily) ==> Within(value, DefaultLimits(high).daily)
    ensures Within(value, DefaultLimits(low).maxBalance) ==> Within(value, DefaultLimits(high).maxBalance)
  {
  }

  /** The limit that a decimal text in naira stands for, or no limit. */
  function Naira(text: string): Option<nat> {
    match FromDecimalString(text, NGN)
    case Success(money) => Some(money.minorUnits)
    case Failure(_) => None
  }

  lemma ValueAppend(s: string, c: char)
    requires AllDigits(s) && IsDigit(c)
    ensures AllDigits(s + [c]) && Value(s + [c]) == 10 * Value(s) + DigitValue(c)
  {
    assert (s + [c])[..|s|] == s;
  }

  lemma NoFraction()
    ensures AllDigits(PadEnd("", 2, '0')) && Value(PadEnd("", 2, '0')) == 0
  {
    ValueAppend([], '0');
    ValueAppend([] + ['0'], '0');
    assert PadEnd("", 2, '0') == [] + ['0'] + ['0'];
  }

  lemma NairaOf(whole: string, padded: string)
    requires Accepted(whole) && WholePart(whole) == whole
    requires padded == PadEnd(FractionalPart(whole), 2, '0') && AllDigits(padded) && Value(padded) == 0
    ensures Naira(whole) == Some(Value(whole) * 100)
  {
    var m := FromDecimalString(whole, NGN);
    assert m == Success(Money(Value(whole) * 100 + Value(padded), NGN));
  }

  /** A digit and `n` zeros, and the number that makes. */
  function Round(c: char, n: nat): string {
    if n == 0 then [c] else Round(c, n - 1) + ['0']
  }

  function Scaled(d: nat, n: nat): nat { if n == 0 then d else 10 * Scaled(d, n - 1) }

  lemma OneDigit(c: char)
    requires IsDigit(c)
    ensures AllDigits([c]) && Value([c]) == DigitValue(c)
  {
    ValueAppend([], c);
    assert [] + [c] == [c];
  }

  lemma ZeroAppended(s: string)
    requires AllDigits(s)
    ensures AllDigits(s + ['0']) && Value(s + ['0']) == 10 * Value(s)
  {
    ValueAppend(s, '0');
  }

  lemma {:induction false} RoundValue(c: char, n: nat)
    requires IsDigit(c)
    ensures Round(c, n) != "" && AllDigits(Round(c, n)) && Value(Round(c, n)) == Scaled(DigitValue(c), n)
  {
    OneDigit(c);
    if n > 0 {
      RoundValue(c, n - 1);
      ZeroAppended(Round(c, n - 1));
    }
  }

  lemma RoundNaira(c: char, n: nat)
    requires IsDigit(c)
    ensures Naira(Round(c, n)) == Some(Scaled(DigitValue(c), n) * 100)
  {
    var text := Round(c, n);
    RoundValue(c, n);
    assert Written(text, text, "");
    SplitOfWritten(text, text, "");
    AcceptedIffWritten(text);
    NoFraction();
    NairaOf(text, PadEnd("", 2, '0'));
  }

  lemma RoundTexts()
    ensures "50000" == Round('5', 4) && "300000" == Round('3', 5) && "200000" == Round('2', 5)
    ensures "500000" == Round('5', 5) && "5000000" == Round('5', 6)
    ensures Scaled(5, 4) == 50000 && Scaled(3, 5) == 300000 && Scaled(2, 5) == 200000
    ensures Scaled(5, 5) == 500000 && Scaled(5, 6) == 5000000
  {
  }

  /** The table as the policy writes it, in naira. */
  lemma DefaultLimitsInNaira()
    ensures DefaultLimits(TIER_1) == KycTierLimits(Naira("50000"), Naira("50000"), Naira("300000"))
    ensures DefaultLimits(TIER_2) == KycTierLimits(Naira("200000"), Naira("200000"), Naira("500000"))
    ensures DefaultLimits(TIER_3) == KycTierLimits(Naira("5000000"), Naira("5000000"), None)
  {
    RoundTexts();
    RoundNaira('5', 4);
    RoundNaira('3', 5);
    RoundNaira('2', 5);
    RoundNaira('5', 5);
    RoundNaira('5', 6);
  }
}
