/** The append-only double-entry journal: legs, entries and the rows of one posting. */
module Ledger {
  import opened Wrappers
  import opened MoneyValue

  /** System accounts are synthetic strings in the source; they never coincide with a customer's UUID. */
  datatype LedgerAccount = Customer(id: Id) | FeeRevenue(c: Currency) | Clearing(c: Currency) | Settled(c: Currency)

  datatype Direction = DEBIT | CREDIT

  datatype Leg = Leg(account: LedgerAccount, direction: Direction, amount: Money, balanceAfter: Option<nat>)

  datatype Entry = Entry(account: LedgerAccount, direction: Direction, amount: Money, balanceAfter: int, reference: Id)

  /** Credit-normal sign, the convention `Account` itself uses. */
  function Signed(direction: Direction, amount: Money): int {
    if direction == CREDIT then amount.minorUnits as int else -(amount.minorUnits as int)
  }

  /** Net of the legs in one currency; zero in every currency means debits equal credits. */
  function NetLegs(legs: seq<Leg>, c: Currency): int {
    if legs == [] then 0
    else
      var leg := legs[|legs| - 1];
      NetLegs(legs[..|legs| - 1], c) + if leg.amount.currency == c then Signed(leg.direction, leg.amount) else 0
  }

  ghost predicate Balanced(legs: seq<Leg>) {
    forall c :: NetLegs(legs, c) == 0
  }

  /** Running balance of the account's latest entry, zero when it has none. */
  function Latest(journal: seq<Entry>, account: LedgerAccount): int {
    if journal == [] then 0
    else if journal[|journal| - 1].account == account then journal[|journal| - 1].balanceAfter
    else Latest(journal[..|journal| - 1], account)
  }

  function EntryFor(journal: seq<Entry>, leg: Leg, reference: Id): Entry {
    Entry(leg.account, leg.direction, leg.amount,
          if leg.balanceAfter.Some? then leg.balanceAfter.value
          else Latest(journal, leg.account) + Signed(leg.direction, leg.amount),
          reference)
  }

  /** The rows of one posting; every running balance is read before any of them is inserted. */
  function Rows(journal: seq<Entry>, legs: seq<Leg>, reference: Id): (rows: seq<Entry>)
    ensures |rows| == |legs|
    ensures forall i :: 0 <= i < |legs| ==> rows[i] == EntryFor(journal, legs[i], reference)
  {
    if legs == [] then []
    else Rows(journal, legs[..|legs| - 1], reference) + [EntryFor(journal, legs[|legs| - 1], reference)]
  }
}
