/** Money as exact minor units, and its decimal text form. */
module MoneyValue {
  import opened Wrappers

  datatype Currency = NGN | USD | GBP | EUR

  datatype MoneyError = NegativeAmount | InvalidDecimal | Mismatch | NegativeResult

  datatype Money = Money(minorUnits: nat, currency: Currency) {

    function Add(other: Money): Result<Money, MoneyError> {
      if currency != other.currency then Failure(Mismatch)
      else Success(Money(minorUnits + other.minorUnits, currency))
    }

    function Subtract(other: Money): Result<Money, MoneyError> {
      if currency != other.currency then Failure(Mismatch)
      else if minorUnits < other.minorUnits then Failure(NegativeResult)
      else Success(Money(minorUnits - other.minorUnits, currency))
    }

    function AtLeast(other: Money): Result<bool, MoneyError> {
      if currency != other.currency then Failure(Mismatch)
      else Success(minorUnits >= other.minorUnits)
    }
  }
}
