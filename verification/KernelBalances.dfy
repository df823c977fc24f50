/** The running balances of the system accounts, over every run of the kernel. */
module KernelBalances {
  import opened Wrappers
  import opened MoneyValue
  import A = Accounts
  import T = Transfers
  import opened L = Ledger
  import R = LedgerReconciliation
  import opened Kernel

  /** The legs leave the running balance of a system account to the recorder, and touch it at most once. */
  predicate Fits(legs: seq<Leg>, account: LedgerAccount) {
    R.Computed(legs, account) && R.TouchesOnce(legs, account)
  }

  lemma PostingsFit(t: T.TransferRow, balance: nat, src: A.AccountRow, dst: A.AccountRow, account: LedgerAccount)
    requires !account.Customer?
    ensures Fits(HoldLegs(t, balance), account) && Fits(SettlementLegs(t), account)
    ensures Fits(RefundLegs(t, balance), account) && Fits(InternalLegs(t, src, dst), account)
  {
  }

  lemma DecideFits(s: State, pc: Pc, reply: Reply, account: LedgerAccount)
    requires !account.Customer?
    ensures Decide(s, pc, reply).0.Append? ==> Fits(Decide(s, pc, reply).0.legs, account)
  {
    var none := A.AccountRow(0, 0, NGN, 0, A.ACTIVE, 0);
    match pc
    case PostHold(balance, t) => PostingsFit(t, balance, none, none, account);
    case PostSettlement(t) => PostingsFit(t, 0, none, none, account);
    case PostRefund(balance, t) => PostingsFit(t, balance, none, none, account);
    case PostSettled(t) => PostingsFit(t, 0, none, none, account);
    case _ =>
  }

  ghost predicate Exact(journal: seq<Entry>, account: LedgerAccount) {
    Latest(journal, account) == R.NetAccount(journal, account)
  }

  lemma PostedExact(journal: seq<Entry>, legs: seq<Leg>, reference: Id, account: LedgerAccount)
    requires Exact(journal, account) && Fits(legs, account)
    ensures Exact(journal + Rows(journal, legs, reference), account)
  {
    R.TouchedOnceIsLast(legs, account);
    R.RunningBalanceExactIff(journal, legs, reference, account);
  }

  lemma PerformExact(s: State, e: Effect, account: LedgerAccount)
    requires !account.Customer? && Exact(s.journal, account)
    requires e.Append? ==> Fits(e.legs, account)
    ensures Exact(Perform(s, e).journal, account)
  {
    match e
    case Append(legs, reference) => PostedExact(s.journal, legs, reference, account);
    case PutInternal(src, dst, t) =>
      PostingsFit(t, 0, src.copy, dst.copy, account);
      PostedExact(s.journal, InternalLegs(t, src.copy, dst.copy), t.id, account);
    case _ =>
  }

  /**
   * In every reachable state the latest running balance of each system account is the net of all its
   * entries, for any interleaving of requests whose postings are made one at a time.
   */
  lemma {:induction false} RunningBalancesExact(s: State, events: seq<Event>, account: LedgerAccount)
    requires Initial(s) && !account.Customer?
    ensures Latest(Run(s, events).journal, account) == R.NetAccount(Run(s, events).journal, account)
  {
    if events != [] {
      var before := Run(s, events[..|events| - 1]);
      var e := events[|events| - 1];
      RunningBalancesExact(s, events[..|events| - 1], account);
      if e.Advance? && e.actor in before.actors {
        DecideFits(before, before.actors[e.actor], e.reply, account);
        PerformExact(before, Decide(before, before.actors[e.actor], e.reply).0, account);
      }
    }
  }
}
