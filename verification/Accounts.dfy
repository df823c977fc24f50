/** Account rows: what each mutator and the versioned save mean. */
module Accounts {
  import opened Wrappers
  import opened MoneyValue

  datatype AccountStatus = ACTIVE | DORMANT | FROZEN | CLOSED | PENDING_VERIFICATION

  /** What one `accounts` row, or one loaded copy of it, holds. */
  datatype AccountRow = AccountRow(id: Id, owner: Id, currency: Currency, balance: nat,
                                   status: AccountStatus, version: nat)

  /** The mutators of the aggregate, as data. */
  datatype AccountOp = Credit(money: Money) | Debit(money: Money) | Activate | Freeze | Unfreeze | Close

  datatype AccountError = NotActive | CurrencyMismatch | InsufficientFunds | ClosureNotAllowed

  /** Meaning of one mutator on a row: the changed row, or the exception it throws. */
  function Apply(row: AccountRow, op: AccountOp): (r: Result<AccountRow, AccountError>)
    ensures r.Success? ==> r.value.version == row.version + 1
    ensures r.Success? ==> r.value.id == row.id && r.value.owner == row.owner && r.value.currency == row.currency
    ensures r.Success? ==> r.value.balance == row.balance + Delta(op)
    ensures r.Success? && (op.Credit? || op.Debit?) ==> op.money.currency == row.currency
  {
    match op
    case Credit(money) =>
      if row.status != ACTIVE then Failure(NotActive)
      else if money.currency != row.currency then Failure(CurrencyMismatch)
      else Success(row.(balance := row.balance + money.minorUnits, version := row.version + 1))
    case Debit(money) =>
      if row.status != ACTIVE then Failure(NotActive)
      else if money.currency != row.currency then Failure(CurrencyMismatch)
      else if row.balance < money.minorUnits then Failure(InsufficientFunds)
      else Success(row.(balance := row.balance - money.minorUnits, version := row.version + 1))
    case Activate => Success(row.(status := ACTIVE, version := row.version + 1))
    case Freeze => Success(row.(status := FROZEN, version := row.version + 1))
    case Unfreeze => Success(row.(status := ACTIVE, version := row.version + 1))
    case Close =>
      if row.balance != 0 then Failure(ClosureNotAllowed)
      else Success(row.(status := CLOSED, version := row.version + 1))
  }

  /** What a mutator adds to the balance. */
  function Delta(op: AccountOp): int {
    match op
    case Credit(money) => money.minorUnits as int
    case Debit(money) => -(money.minorUnits as int)
    case _ => 0
  }

  /** The contract every mutator of the class meets: `Apply`, and no change at all when it throws. */
  predicate Did(before: AccountRow, op: AccountOp, after: AccountRow, thrown: Outcome<AccountError>) {
    match Apply(before, op)
    case Success(row) => thrown == Pass && after == row
    case Failure(e) => thrown == Fail(e) && after == before
  }

  /** `save`: create at version 0, otherwise compare-and-set on the previous version. */
  function Saved(rows: map<Id, AccountRow>, copy: AccountRow): Option<map<Id, AccountRow>> {
    if copy.version == 0 then
      if copy.id in rows then None else Some(rows[copy.id := copy])
    else if copy.id in rows && rows[copy.id].version == copy.version - 1 then
      Some(rows[copy.id := copy])
    else None
  }
}
