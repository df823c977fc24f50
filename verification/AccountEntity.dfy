/** The Account aggregate as the object whose methods update it, and the repository that stores its rows. */
module AccountEntity {
  import opened Wrappers
  import opened MoneyValue
  import opened Accounts

  class Account {
    const id: Id
    const owner: Id
    const currency: Currency
    var balance: Money
    var status: AccountStatus
    var version: nat

    ghost predicate Valid()
      reads this
    {
      balance.currency == currency
    }

    /** The row this in-memory copy would be persisted as. */
    function Row(): AccountRow
      reads this
    {
      AccountRow(id, owner, currency, balance.minorUnits, status, version)
    }

    constructor Open(id: Id, owner: Id, currency: Currency)
      ensures Valid() && Row() == AccountRow(id, owner, currency, 0, PENDING_VERIFICATION, 0)
    {
      this.id, this.owner, this.currency := id, owner, currency;
      balance, status, version := Money(0, currency), PENDING_VERIFICATION, 0;
    }

    constructor Reconstitute(row: AccountRow)
      ensures Valid() && Row() == row
    {
      id, owner, currency := row.id, row.owner, row.currency;
      balance, status, version := Money(row.balance, row.currency), row.status, row.version;
    }

    method Credit(money: Money) returns (thrown: Outcome<AccountError>)
      requires Valid()
      modifies this
      ensures Valid() && Did(old(Row()), AccountOp.Credit(money), Row(), thrown)
    {
      if status != ACTIVE { return Fail(NotActive); }
      if money.currency != currency { return Fail(CurrencyMismatch); }
      balance := balance.Add(money).value;
      Touch();
      thrown := Pass;
    }

    method Debit(money: Money) returns (thrown: Outcome<AccountError>)
      requires Valid()
      modifies this
      ensures Valid() && Did(old(Row()), AccountOp.Debit(money), Row(), thrown)
    {
      if status != ACTIVE { return Fail(NotActive); }
      if money.currency != currency { return Fail(CurrencyMismatch); }
      if !balance.AtLeast(money).value { return Fail(InsufficientFunds); }
      balance := balance.Subtract(money).value;
      Touch();
      thrown := Pass;
    }

    method Activate()
      requires Valid()
      modifies this
      ensures Valid() && Did(old(Row()), AccountOp.Activate, Row(), Pass)
    {
      status := ACTIVE;
      Touch();
    }

    method Freeze()
      requires Valid()
      modifies this
      ensures Valid() && Did(old(Row()), AccountOp.Freeze, Row(), Pass)
    {
      status := FROZEN;
      Touch();
    }

    method Unfreeze()
      requires Valid()
      modifies this
      ensures Valid() && Did(old(Row()), AccountOp.Unfreeze, Row(), Pass)
    {
      status := ACTIVE;
      Touch();
    }

    method Close() returns (thrown: Outcome<AccountError>)
      requires Valid()
      modifies this
      ensures Valid() && Did(old(Row()), AccountOp.Close, Row(), thrown)
    {
      if balance.minorUnits != 0 { return Fail(ClosureNotAllowed); }
      status := CLOSED;
      Touch();
      thrown := Pass;
    }

    method Touch()
      modifies this`version
      ensures version == old(version) + 1
    {
      version := version + 1;
    }
  }

  class AccountRepository {
    var rows: map<Id, AccountRow>

    constructor ()
      ensures rows == map[]
    {
      rows := map[];
    }

    method FindById(id: Id) returns (account: Account?)
      ensures account == null <==> id !in rows
      ensures account != null ==> fresh(account) && account.Valid() && account.Row() == rows[id]
    {
      if id !in rows { return null; }
      account := new Account.Reconstitute(rows[id]);
    }

    /** `saved` is false when the source throws CONCURRENT_MODIFICATION or the insert collides. */
    method Save(account: Account) returns (saved: bool)
      modifies this
      ensures saved == Saved(old(rows), account.Row()).Some?
      ensures rows == if saved then Saved(old(rows), account.Row()).value else old(rows)
    {
      var data := account.Row();
      if data.version == 0 {
        if data.id in rows { return false; }
        rows := rows[data.id := data];
        return true;
      }
      var count := 0;
      if data.id in rows && rows[data.id].version == data.version - 1 {
        rows := rows[data.id := data];
        count := 1;
      }
      saved := count != 0;
    }
  }
}
