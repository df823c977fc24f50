/** Histories of account mutations. */
module AccountHistory {
  import opened Wrappers
  import opened Accounts

  /** Applies mutators in order; a mutator that throws ends the replay. */
  function Replay(row: AccountRow, ops: seq<AccountOp>): Result<AccountRow, AccountError> {
    if ops == [] then Success(row)
    else match Replay(row, ops[..|ops| - 1])
         case Success(before) => Apply(before, ops[|ops| - 1])
         case Failure(e) => Failure(e)
  }

  function SumDeltas(ops: seq<AccountOp>): int {
    if ops == [] then 0 else SumDeltas(ops[..|ops| - 1]) + Delta(ops[|ops| - 1])
  }

  /** A replay that succeeds adds every delta and counts every mutation in `version`. */
  lemma {:induction false} ReplayCountsAndSums(row: AccountRow, ops: seq<AccountOp>)
    requires Replay(row, ops).Success?
    ensures var last := Replay(row, ops).value;
            last.version == row.version + |ops| && last.balance == row.balance + SumDeltas(ops)
  {
    if ops != [] {
      ReplayCountsAndSums(row, ops[..|ops| - 1]);
    }
  }

  /** When a mutator goes through, and what it leaves; everything it does not mention stays. */
  lemma AppliesIff(row: AccountRow, op: AccountOp)
    ensures Apply(row, op).Success? <==>
              match op
              case Credit(money) => row.status == ACTIVE && money.currency == row.currency
              case Debit(money) =>
                row.status == ACTIVE && money.currency == row.currency && row.balance >= money.minorUnits
              case Close => row.balance == 0
              case _ => true
    ensures Apply(row, op).Success? ==>
              var next := Apply(row, op).value;
              && next.status == StatusAfter(row.status, op)
              && next.balance == row.balance + Delta(op) && next.version == row.version + 1
  {
  }

  function StatusAfter(status: AccountStatus, op: AccountOp): AccountStatus {
    match op
    case Activate => ACTIVE
    case Unfreeze => ACTIVE
    case Freeze => FROZEN
    case Close => CLOSED
    case _ => status
  }

  /** The status set by the last mutation that sets one. */
  function LastStatus(status: AccountStatus, ops: seq<AccountOp>): AccountStatus {
    if ops == [] then status else StatusAfter(LastStatus(status, ops[..|ops| - 1]), ops[|ops| - 1])
  }

  lemma {:induction false} StatusIsLastSet(row: AccountRow, ops: seq<AccountOp>)
    requires Replay(row, ops).Success?
    ensures Replay(row, ops).value.status == LastStatus(row.status, ops)
  {
    if ops != [] {
      StatusIsLastSet(row, ops[..|ops| - 1]);
      AppliesIff(Replay(row, ops[..|ops| - 1]).value, ops[|ops| - 1]);
    }
  }

  predicate Reopens(op: AccountOp) { op.Activate? || op.Unfreeze? }

  /** An account that is not active, and is not made so, takes no credit and no debit: its balance stands still. */
  lemma {:induction false} InactiveStandsStill(row: AccountRow, ops: seq<AccountOp>)
    requires Replay(row, ops).Success? && row.status != ACTIVE && forall op | op in ops :: !Reopens(op)
    ensures Replay(row, ops).value.balance == row.balance && Replay(row, ops).value.status != ACTIVE
    ensures forall op | op in ops :: !op.Credit? && !op.Debit?
  {
    if ops != [] {
      var before, op := ops[..|ops| - 1], ops[|ops| - 1];
      assert op in ops;
      InactiveStandsStill(row, before);
      AppliesIff(Replay(row, before).value, op);
      assert ops == before + [op];
    }
  }

  predicate ClosedIsEmpty(row: AccountRow) { row.status == CLOSED ==> row.balance == 0 }

  /** A closed account holds nothing, whatever happened before or since. */
  lemma {:induction false} ClosedStaysEmpty(row: AccountRow, ops: seq<AccountOp>)
    requires Replay(row, ops).Success? && ClosedIsEmpty(row)
    ensures ClosedIsEmpty(Replay(row, ops).value)
  {
    if ops != [] {
      ClosedStaysEmpty(row, ops[..|ops| - 1]);
      AppliesIff(Replay(row, ops[..|ops| - 1]).value, ops[|ops| - 1]);
    }
  }
}
