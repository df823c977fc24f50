/** What the laws and the invariant mean for every reachable state of the kernel. */
module KernelTheorems {
  import opened Wrappers
  import opened MoneyValue
  import opened Sums
  import A = Accounts
  import H = AccountHistory
  import T = Transfers
  import opened L = Ledger
  import R = LedgerReconciliation
  import opened Kernel
  import opened KernelInvariant
  import opened KernelLaws

  // ---- Conservation of money

  /** Balances of all customers in one currency. */
  ghost function CustomerFunds(rows: map<Id, A.AccountRow>, c: Currency): int {
    Sum(BalancesIn(rows, c))
  }

  function BalancesIn(rows: map<Id, A.AccountRow>, c: Currency): map<Id, int> {
    map id | id in rows :: if rows[id].currency == c then rows[id].balance as int else 0
  }

  /** Net of the three system accounts of one currency. */
  function SystemFunds(journal: seq<Entry>, c: Currency): int {
    R.NetAccount(journal, Clearing(c)) + R.NetAccount(journal, L.Settled(c)) + R.NetAccount(journal, FeeRevenue(c))
  }

  /** Committed admin credits less committed admin debits. */
  function AdminNet(log: seq<Commit>, c: Currency): int {
    if log == [] then 0
    else
      var last := log[|log| - 1];
      AdminNet(log[..|log| - 1], c)
      + if last.origin == Admin && (last.op.Credit? || last.op.Debit?)
          && last.op.money.currency == c then A.Delta(last.op) else 0
  }

  /** Debited but not yet posted to clearing, less credited back but not yet taken out of clearing. */
  ghost function HeldBetweenWrites(actors: map<Id, Pc>, c: Currency): int {
    Sum(HeldAmounts(actors, c))
  }

  function HeldAmounts(actors: map<Id, Pc>, c: Currency): map<Id, int> {
    map a | a in actors :: Held(actors[a], c)
  }

  function Held(pc: Pc, c: Currency): int {
    if (pc.Record? || pc.PostHold?) && pc.t.currency == c then pc.t.amount + pc.t.fee
    else if pc.PostRefund? && pc.t.currency == c then -(pc.t.amount + pc.t.fee)
    else 0
  }

  lemma {:induction false} ConservationEntries(journal: seq<Entry>, c: Currency)
    ensures Entries(Conservation(c), journal) == SystemFunds(journal, c)
  {
    if journal != [] { ConservationEntries(journal[..|journal| - 1], c); }
  }

  lemma {:induction false} ConservationCommits(log: seq<Commit>, c: Currency)
    ensures Commits(Conservation(c), log) == -AdminNet(log, c)
  {
    if log != [] { ConservationCommits(log[..|log| - 1], c); }
  }

  lemma {:induction false} NoAnomalyWeight(law: Law, anomalies: seq<Anomaly>)
    requires law.Conservation? || law.TrialBalance? || law.CustomerLaw?
    ensures Anomalies(law, anomalies) == 0
  {
    if anomalies != [] { NoAnomalyWeight(law, anomalies[..|anomalies| - 1]); }
  }

  lemma ConservationMeasure(s: State, c: Currency)
    ensures Measure(Conservation(c), s)
            == CustomerFunds(s.accounts, c) + SystemFunds(s.journal, c)
                + HeldBetweenWrites(s.actors, c) - AdminNet(s.log, c)
  {
    var law := Conservation(c);
    ConservationEntries(s.journal, c);
    ConservationCommits(s.log, c);
    NoAnomalyWeight(law, s.anomalies);
    SumOfZeros(TransferWeights(law, s.transfers));
    assert AccountWeights(law, s.accounts) == BalancesIn(s.accounts, c);
    assert PcWeights(law, s.actors) == HeldAmounts(s.actors, c);
  }

  /**
   * No interleaving of internal transfers, sagas, webhook deliveries, crashes and admin calls creates
   * or loses money: only admin credits and debits change the total.
   */
  lemma {:induction false} MoneyIsConserved(s: State, events: seq<Event>, c: Currency)
    requires Initial(s)
    ensures var s' := Run(s, events);
            CustomerFunds(s'.accounts, c) + SystemFunds(s'.journal, c) + HeldBetweenWrites(s'.actors, c)
            == CustomerFunds(s.accounts, c) + AdminNet(s'.log, c)
  {
    InitialInv(s);
    LawsHoldOverRuns(Conservation(c), s, events);
    ConservationMeasure(s, c);
    ConservationMeasure(Run(s, events), c);
  }

  // ---- The journal balances

  lemma {:induction false} TrialEntries(journal: seq<Entry>, c: Currency)
    ensures Entries(TrialBalance(c), journal) == R.NetJournal(journal, c)
  {
    if journal != [] { TrialEntries(journal[..|journal| - 1], c); }
  }

  lemma {:induction false} NoTrialCommits(log: seq<Commit>, c: Currency)
    ensures Commits(TrialBalance(c), log) == 0
  {
    if log != [] { NoTrialCommits(log[..|log| - 1], c); }
  }

  lemma TrialMeasure(s: State, c: Currency)
    ensures Measure(TrialBalance(c), s) == R.NetJournal(s.journal, c)
  {
    var law := TrialBalance(c);
    TrialEntries(s.journal, c);
    NoTrialCommits(s.log, c);
    NoAnomalyWeight(law, s.anomalies);
    SumOfZeros(AccountWeights(law, s.accounts));
    SumOfZeros(TransferWeights(law, s.transfers));
    SumOfZeros(PcWeights(law, s.actors));
  }

  /** Every posting the handlers make is balanced, so the whole journal is, in every reachable state. */
  lemma {:induction false} JournalBalances(s: State, events: seq<Event>, c: Currency)
    requires Initial(s)
    ensures R.NetJournal(Run(s, events).journal, c) == 0
  {
    InitialInv(s);
    LawsHoldOverRuns(TrialBalance(c), s, events);
    TrialMeasure(s, c);
    TrialMeasure(Run(s, events), c);
  }

  // ---- Clearing equals work in flight

  /** No request on a transfer in currency `c` is between two of its own writes. */
  ghost predicate QuietIn(s: State, c: Currency) {
    forall a :: a in s.actors ==> Settled(s.actors[a]) || s.actors[a].t.currency != c
  }

  /** No request on transfer `x` is between two of its own writes. */
  ghost predicate QuietOn(s: State, x: Id) {
    forall a :: a in s.actors ==> Settled(s.actors[a]) || s.actors[a].t.id != x
  }

  predicate Settled(pc: Pc) {
    !pc.Record? && !pc.PostHold? && !pc.PostRefund? && !pc.SaveReversed? && !pc.PostSettled? && !Settling(pc)
  }

  /** Amount plus fee over external transfers stored as PENDING or PROCESSING. */
  ghost function InFlightTotal(rows: map<Id, T.TransferRow>, c: Currency): int {
    Sum(InFlightAmounts(rows, c))
  }

  function InFlightAmounts(rows: map<Id, T.TransferRow>, c: Currency): map<Id, int> {
    map x | x in rows ::
      if rows[x].kind.EXTERNAL? && T.InFlight(rows[x].status)
          && rows[x].currency == c then rows[x].amount + rows[x].fee else 0
  }

  /** Postings whose outcome the stored rows never recorded. */
  function Unrecorded(anomalies: seq<Anomaly>, c: Currency): nat {
    if anomalies == [] then 0
    else
      var t := anomalies[|anomalies| - 1].t;
      Unrecorded(anomalies[..|anomalies| - 1], c) + if t.currency == c then t.amount + t.fee else 0
  }

  lemma {:induction false} SumNegated<K>(m: map<K, int>, n: map<K, int>)
    requires m.Keys == n.Keys && forall k :: k in m ==> m[k] == -n[k]
    ensures Sum(m) == -Sum(n)
    decreases |m|
  {
    if m == map[] {
      assert n == map[];
    } else {
      var k :| k in m && Sum(m) == m[k] + Sum(m - {k});
      SumWithout(n, k);
      SumNegated(m - {k}, n - {k});
    }
  }

  lemma {:induction false} ClearingEntries(journal: seq<Entry>, c: Currency)
    ensures Entries(ClearingLaw(c), journal) == R.NetAccount(journal, Clearing(c))
  {
    if journal != [] { ClearingEntries(journal[..|journal| - 1], c); }
  }

  lemma {:induction false} ClearingSequences(log: seq<Commit>, anomalies: seq<Anomaly>, c: Currency)
    ensures Commits(ClearingLaw(c), log) == 0 && Anomalies(ClearingLaw(c), anomalies) == Unrecorded(anomalies, c)
    decreases |log| + |anomalies|
  {
    if log != [] { ClearingSequences(log[..|log| - 1], anomalies, c); }
    if anomalies != [] { ClearingSequences(log, anomalies[..|anomalies| - 1], c); }
  }

  /** Posted to or taken out of clearing by requests whose row does not say so yet. */
  ghost function HeldInClearing(actors: map<Id, Pc>, c: Currency): int {
    Sum(HeldInClearingAmounts(actors, c))
  }

  function HeldInClearingAmounts(actors: map<Id, Pc>, c: Currency): map<Id, int> {
    map a | a in actors ::
      var pc := actors[a];
      if (pc.PostHold? || Settling(pc) || pc.SaveReversed?) && pc.t.currency == c then pc.t.amount + pc.t.fee
      else if pc.PostSettled? && pc.t.currency == c then -(pc.t.amount + pc.t.fee)
      else 0
  }

  lemma HeldInClearingWeights(actors: map<Id, Pc>, c: Currency)
    ensures PcWeights(ClearingLaw(c), actors) == HeldInClearingAmounts(actors, c)
  {
  }

  lemma ClearingMeasure(s: State, c: Currency)
    ensures Measure(ClearingLaw(c), s)
            == R.NetAccount(s.journal, Clearing(c)) - InFlightTotal(s.transfers, c) + Unrecorded(s.anomalies, c)
               + HeldInClearing(s.actors, c)
  {
    var law := ClearingLaw(c);
    ClearingEntries(s.journal, c);
    ClearingSequences(s.log, s.anomalies, c);
    SumOfZeros(AccountWeights(law, s.accounts));
    HeldInClearingWeights(s.actors, c);
    SumNegated(TransferWeights(law, s.transfers), InFlightAmounts(s.transfers, c));
  }

  /**
   * In every reachable state clearing, with what requests have moved ahead of their rows, holds the payouts in
   * flight, less exactly the postings no stored row will account for.
   */
  lemma {:induction false} ClearingIsInFlightLessUnrecorded(s: State, events: seq<Event>, c: Currency)
    requires Initial(s)
    ensures var s' := Run(s, events);
            R.NetAccount(s'.journal, Clearing(c)) + HeldInClearing(s'.actors, c)
            == InFlightTotal(s'.transfers, c) - Unrecorded(s'.anomalies, c)
  {
    InitialInv(s);
    LawsHoldOverRuns(ClearingLaw(c), s, events);
    ClearingMeasure(s, c);
    ClearingMeasure(Run(s, events), c);
    assert InFlightTotal(s.transfers, c) == 0;
  }

  lemma QuietHoldsNothing(s: State, c: Currency)
    requires QuietIn(s, c)
    ensures HeldInClearing(s.actors, c) == 0
  {
    SumOfZeros(HeldInClearingAmounts(s.actors, c));
  }

  lemma {:induction false} UnrecordedZeroIff(anomalies: seq<Anomaly>, c: Currency)
    ensures Unrecorded(anomalies, c) == 0 <==> NothingOwed(anomalies, c)
  {
    if anomalies != [] {
      var init := anomalies[..|anomalies| - 1];
      UnrecordedZeroIff(init, c);
      assert NothingOwed(anomalies, c) <==> NothingOwed(init, c) && !Owed(anomalies[|anomalies| - 1].t, c);
    }
  }

  predicate Owed(t: T.TransferRow, c: Currency) {
    t.currency == c && t.amount + t.fee > 0
  }

  predicate NothingOwed(anomalies: seq<Anomaly>, c: Currency) {
    forall i :: 0 <= i < |anomalies| ==> !Owed(anomalies[i].t, c)
  }

  /** No request on a transfer of a nonzero amount in the currency ever had its last save refused. */
  ghost predicate NeverRefusedIn(s: State, events: seq<Event>, c: Currency) {
    var rows := Run(s, events).transfers;
    forall x | x in rows && Owed(rows[x], c) :: NeverRefused(s, events, x)
  }

  lemma {:induction false} NothingOwedIff(s: State, events: seq<Event>, c: Currency)
    requires Initial(s)
    ensures NothingOwed(Run(s, events).anomalies, c) <==> NeverRefusedIn(s, events, c)
  {
    var s' := Run(s, events);
    OnlyDisturbedGoUnrecorded(s, events);
    forall x | x in s'.transfers && Owed(s'.transfers[x], c) && NothingOwed(s'.anomalies, c)
      ensures NeverRefused(s, events, x)
    {
      forall i | 0 <= i < |s'.anomalies| ensures s'.anomalies[i].t.id != x {
        assert Known(s', s'.anomalies[i]);
      }
      UnrecordedIffRefused(s, events, x);
    }
    forall i | 0 <= i < |s'.anomalies| && NeverRefusedIn(s, events, c) ensures !Owed(s'.anomalies[i].t, c) {
      assert Known(s', s'.anomalies[i]);
      UnrecordedIffRefused(s, events, s'.anomalies[i].t.id);
    }
  }

  /**
   * Clearing equals work in flight if and only if no request on a transfer of a nonzero amount in the currency
   * ever had its last save refused.
   */
  lemma {:induction false} ClearingExactIff(s: State, events: seq<Event>, c: Currency)
    requires Initial(s) && QuietIn(Run(s, events), c)
    ensures var s' := Run(s, events);
            R.NetAccount(s'.journal, Clearing(c)) == InFlightTotal(s'.transfers, c)
            <==> NeverRefusedIn(s, events, c)
  {
    ClearingIsInFlightLessUnrecorded(s, events, c);
    QuietHoldsNothing(Run(s, events), c);
    UnrecordedZeroIff(Run(s, events).anomalies, c);
    NothingOwedIff(s, events, c);
  }

  // ---- What goes unrecorded, and when nothing does

  /** A saga fault on `x`, or a delivery of `x` that started before an earlier one had finished. */
  predicate Disturbed(s: State, x: Id) {
    x in s.faulted || x in s.contended
  }

  /** An anomaly belongs to a disturbed transfer, and its copy has the terms of the stored row. */
  predicate Known(s: State, anomaly: Anomaly) {
    var x := anomaly.t.id;
    Disturbed(s, x) && x in s.transfers && SameTerms(anomaly.t, s.transfers[x])
  }

  ghost predicate AnomaliesKnown(s: State) {
    forall i :: 0 <= i < |s.anomalies| ==> Known(s, s.anomalies[i])
  }

  lemma DecideNotes(s: State, actor: Id, pc: Pc, reply: Reply)
    requires PcOk(s, actor, pc)
    ensures var e := Decide(s, pc, reply).0;
            (e.Note? ==> Known(s, e.anomaly))
            && (e.Fault? ==> |e.anomalies| <= 1 && forall i :: 0 <= i < |e.anomalies| ==>
                Known(Perform(s, e), e.anomalies[i]))
  {
  }

  lemma KnownStays(s: State, s': State, actor: Id, anomaly: Anomaly)
    requires Known(s, anomaly) && TransfersEvolve(s, s', actor)
    requires s.faulted <= s'.faulted && s.contended <= s'.contended
    ensures Known(s', anomaly)
  {
  }

  lemma PerformKnown(s: State, s': State, actor: Id, e: Effect)
    requires AnomaliesKnown(s) && TransfersEvolve(s, s', actor)
    requires s' == Perform(s, e) && s.faulted <= s'.faulted && s.contended <= s'.contended
    requires e.Note? ==> Known(s, e.anomaly)
    requires e.Fault? ==> forall i :: 0 <= i < |e.anomalies| ==> Known(s', e.anomalies[i])
    ensures AnomaliesKnown(s')
  {
    forall i | 0 <= i < |s'.anomalies| ensures Known(s', s'.anomalies[i]) {
      if i < |s.anomalies| {
        KnownStays(s, s', actor, s.anomalies[i]);
      } else if e.Note? {
        KnownStays(s, s', actor, e.anomaly);
      }
    }
  }

  lemma AdvanceKnown(s: State, actor: Id, reply: Reply)
    requires Inv(s) && AnomaliesKnown(s) && actor in s.actors
    ensures AnomaliesKnown(Step(s, Advance(actor, reply)))
  {
    var pc := s.actors[actor];
    var e := Decide(s, pc, reply).0;
    AdvanceSound(s, actor, reply);
    assert PcOk(s, actor, pc);
    DecideNotes(s, actor, pc, reply);
    PerformKnown(s, Perform(s, e), actor, e);
    AdvanceStep(s, actor, reply);
  }

  lemma {:induction false} OnlyDisturbedGoUnrecorded(s: State, events: seq<Event>)
    requires Initial(s)
    ensures AnomaliesKnown(Run(s, events))
  {
    if events != [] {
      var init := events[..|events| - 1];
      var e := events[|events| - 1];
      InitialInv(s);
      RunKeepsInv(s, init);
      OnlyDisturbedGoUnrecorded(s, init);
      if e.Advance? && e.actor in Run(s, init).actors {
        AdvanceKnown(Run(s, init), e.actor, e.reply);
      }
    }
  }

  /** Every posting of an undisturbed transfer is recorded by its row. */
  lemma {:induction false} NothingUnrecorded(s: State, events: seq<Event>, x: Id)
    requires Initial(s) && !Disturbed(Run(s, events), x)
    ensures NoneOf(Run(s, events).anomalies, x)
  {
    OnlyDisturbedGoUnrecorded(s, events);
    var s' := Run(s, events);
    forall i | 0 <= i < |s'.anomalies| ensures s'.anomalies[i].t.id != x {
      assert Known(s', s'.anomalies[i]);
    }
  }

  ghost predicate CalmIn(s: State, c: Currency) {
    forall x | x in s.transfers && Disturbed(s, x) :: s.transfers[x].currency != c
  }

  /** Clearing equals work in flight whenever no transfer in the currency is disturbed or between writes. */
  lemma {:induction false} ClearingEqualsInFlight(s: State, events: seq<Event>, c: Currency)
    requires Initial(s) && QuietIn(Run(s, events), c)
    requires CalmIn(Run(s, events), c)
    ensures R.NetAccount(Run(s, events).journal, Clearing(c)) == InFlightTotal(Run(s, events).transfers, c)
  {
    var s' := Run(s, events);
    OnlyDisturbedGoUnrecorded(s, events);
    forall i | 0 <= i < |s'.anomalies| ensures s'.anomalies[i].t.currency != c {
      assert Known(s', s'.anomalies[i]);
      assert Disturbed(s', s'.anomalies[i].t.id);
    }
    ClearingIsInFlightLessUnrecorded(s, events, c);
    QuietHoldsNothing(s', c);
    UnrecordedZeroIff(s'.anomalies, c);
  }

  /**
   * The request's last save is refused: the save of an immediate settlement throws, or the copy to be
   * marked REVERSED is terminal already or behind the stored row.
   */
  predicate LastSaveRefused(s: State, pc: Pc, reply: Reply) {
    || (pc.SaveOutcome? && pc.t.status == T.SUCCESSFUL && reply.Throws?)
    || (pc.SaveReversed? && pc.t.id in s.transfers
        && (T.Terminal(pc.t.status) || pc.t.version != s.transfers[pc.t.id].version))
  }

  predicate Refused(s: State, e: Event, x: Id) {
    e.Advance? && e.actor in s.actors
    && LastSaveRefused(s, s.actors[e.actor], e.reply) && s.actors[e.actor].t.id == x
  }

  /** The anomaly a step records, if any: exactly when a last save is refused, and of that transfer. */
  lemma DecideRefused(s: State, actor: Id, pc: Pc, reply: Reply) returns (added: seq<Anomaly>)
    requires PcOk(s, actor, pc)
    ensures Perform(s, Decide(s, pc, reply).0).anomalies == s.anomalies + added
    ensures |added| == if LastSaveRefused(s, pc, reply) then 1 else 0
    ensures added != [] ==> added[0].t.id == pc.t.id && (added[0].LostReversal? <==> pc.SaveReversed?)
  {
    var e := Decide(s, pc, reply).0;
    added := if e.Fault? then e.anomalies else if e.Note? then [e.anomaly] else [];
    if added == [] { assert s.anomalies + added == s.anomalies; }
  }

  lemma StepRefused(s: State, e: Event, x: Id)
    requires Inv(s)
    ensures NoneOf(Step(s, e).anomalies, x) <==> NoneOf(s.anomalies, x) && !Refused(s, e, x)
  {
    if e.Advance? && e.actor in s.actors {
      assert PcOk(s, e.actor, s.actors[e.actor]);
      AdvanceStep(s, e.actor, e.reply);
      var added := DecideRefused(s, e.actor, s.actors[e.actor], e.reply);
      NoneOfAppended(s.anomalies, added, x);
    }
  }

  lemma NoneOfAppended(anomalies: seq<Anomaly>, added: seq<Anomaly>, x: Id)
    ensures NoneOf(anomalies + added, x) <==> NoneOf(anomalies, x) && NoneOf(added, x)
  {
    var all := anomalies + added;
    assert forall i :: 0 <= i < |anomalies| ==> all[i] == anomalies[i];
    assert forall i :: 0 <= i < |added| ==> all[|anomalies| + i] == added[i];
  }

  predicate RefusedAt(s: State, events: seq<Event>, k: nat, x: Id)
    requires k < |events|
  {
    Refused(Run(s, events[..k]), events[k], x)
  }

  /** At no point of the run is the last save of a request on `x` refused. */
  ghost predicate NeverRefused(s: State, events: seq<Event>, x: Id) {
    forall k | 0 <= k < |events| :: !RefusedAt(s, events, k, x)
  }

  lemma {:induction false} UnrecordedIffRefused(s: State, events: seq<Event>, x: Id)
    requires Initial(s)
    ensures NoneOf(Run(s, events).anomalies, x) <==> NeverRefused(s, events, x)
  {
    if events != [] {
      var n := |events| - 1;
      InitialInv(s);
      RunKeepsInv(s, events[..n]);
      UnrecordedIffRefused(s, events[..n], x);
      StepRefused(Run(s, events[..n]), events[n], x);
      NeverRefusedSnoc(s, events, x);
    }
  }

  lemma RefusedPrefix(s: State, events: seq<Event>, n: nat, k: nat, x: Id)
    requires k < n <= |events|
    ensures RefusedAt(s, events[..n], k, x) <==> RefusedAt(s, events, k, x)
  {
    assert events[..n][..k] == events[..k];
  }

  lemma NeverRefusedSnoc(s: State, events: seq<Event>, x: Id)
    requires events != []
    ensures var n := |events| - 1;
            NeverRefused(s, events, x) <==> NeverRefused(s, events[..n], x) && !RefusedAt(s, events, n, x)
  {
    var n := |events| - 1;
    forall k | 0 <= k < n ensures RefusedAt(s, events[..n], k, x) <==> RefusedAt(s, events, k, x) {
      RefusedPrefix(s, events, n, k, x);
    }
  }

  // ---- What the settled and the fee accounts hold

  /** Amounts over external transfers stored as SUCCESSFUL. */
  ghost function PaidOutTotal(rows: map<Id, T.TransferRow>, c: Currency): int {
    Sum(PaidOutAmounts(rows, c))
  }

  function PaidOutAmounts(rows: map<Id, T.TransferRow>, c: Currency): map<Id, int> {
    map x | x in rows ::
      if rows[x].kind.EXTERNAL? && rows[x].status == T.SUCCESSFUL && rows[x].currency == c
      then rows[x].amount as int else 0
  }

  /** Fees over all transfers stored as SUCCESSFUL, internal ones included. */
  ghost function FeesTotal(rows: map<Id, T.TransferRow>, c: Currency): int {
    Sum(FeeAmounts(rows, c))
  }

  function FeeAmounts(rows: map<Id, T.TransferRow>, c: Currency): map<Id, int> {
    map x | x in rows :: if rows[x].status == T.SUCCESSFUL && rows[x].currency == c then rows[x].fee as int else 0
  }

  /** Amounts (or fees) settled by requests whose row does not say so yet, less those saved but not yet posted. */
  ghost function AheadOfRows(actors: map<Id, Pc>, c: Currency, fees: bool): int {
    Sum(AheadAmounts(actors, c, fees))
  }

  function AheadAmounts(actors: map<Id, Pc>, c: Currency, fees: bool): map<Id, int> {
    map a | a in actors ::
      var pc := actors[a];
      if !Settling(pc) && !pc.PostSettled? then 0
      else if pc.t.currency != c then 0
      else
        var share: int := if fees then pc.t.fee else pc.t.amount;
        if pc.PostSettled? then -share else share
  }

  /** Amounts (or fees) of settlements whose SUCCESSFUL row was never saved. */
  function UnsavedTotal(anomalies: seq<Anomaly>, c: Currency, fees: bool): nat {
    if anomalies == [] then 0
    else
      var last := anomalies[|anomalies| - 1];
      UnsavedTotal(anomalies[..|anomalies| - 1], c, fees)
      + if last.UnsavedSettlement? && last.t.currency == c then (if fees then last.t.fee else last.t.amount) else 0
  }

  lemma {:induction false} PayoutEntries(journal: seq<Entry>, c: Currency)
    ensures Entries(PayoutLaw(c), journal) == R.NetAccount(journal, L.Settled(c))
    ensures Entries(FeeLaw(c), journal) == R.NetAccount(journal, FeeRevenue(c))
  {
    if journal != [] { PayoutEntries(journal[..|journal| - 1], c); }
  }

  lemma {:induction false} PayoutSequences(log: seq<Commit>, anomalies: seq<Anomaly>, c: Currency)
    ensures Commits(PayoutLaw(c), log) == 0 && Commits(FeeLaw(c), log) == 0
    ensures Anomalies(PayoutLaw(c), anomalies) == 0 - UnsavedTotal(anomalies, c, false)
    ensures Anomalies(FeeLaw(c), anomalies) == 0 - UnsavedTotal(anomalies, c, true)
    decreases |log| + |anomalies|
  {
    if log != [] { PayoutSequences(log[..|log| - 1], anomalies, c); }
    if anomalies != [] { PayoutSequences(log, anomalies[..|anomalies| - 1], c); }
  }

  lemma PayoutMeasure(s: State, c: Currency)
    ensures Measure(PayoutLaw(c), s)
            == R.NetAccount(s.journal, L.Settled(c)) - PaidOutTotal(s.transfers, c)
               - AheadOfRows(s.actors, c, false) - UnsavedTotal(s.anomalies, c, false)
  {
    var law := PayoutLaw(c);
    PayoutEntries(s.journal, c);
    PayoutSequences(s.log, s.anomalies, c);
    SumOfZeros(AccountWeights(law, s.accounts));
    SumNegated(TransferWeights(law, s.transfers), PaidOutAmounts(s.transfers, c));
    SumNegated(PcWeights(law, s.actors), AheadAmounts(s.actors, c, false));
  }

  lemma FeeMeasure(s: State, c: Currency)
    ensures Measure(FeeLaw(c), s)
            == R.NetAccount(s.journal, FeeRevenue(c)) - FeesTotal(s.transfers, c)
               - AheadOfRows(s.actors, c, true) - UnsavedTotal(s.anomalies, c, true)
  {
    var law := FeeLaw(c);
    PayoutEntries(s.journal, c);
    PayoutSequences(s.log, s.anomalies, c);
    SumOfZeros(AccountWeights(law, s.accounts));
    SumNegated(TransferWeights(law, s.transfers), FeeAmounts(s.transfers, c));
    SumNegated(PcWeights(law, s.actors), AheadAmounts(s.actors, c, true));
  }

  /** In every reachable state the settled account holds exactly the amounts of the payouts that went through. */
  lemma {:induction false} SettledHoldsPayouts(s: State, events: seq<Event>, c: Currency)
    requires Initial(s)
    ensures var s' := Run(s, events);
            R.NetAccount(s'.journal, L.Settled(c))
            == PaidOutTotal(s'.transfers, c) + AheadOfRows(s'.actors, c, false) + UnsavedTotal(s'.anomalies, c, false)
  {
    InitialInv(s);
    LawsHoldOverRuns(PayoutLaw(c), s, events);
    PayoutMeasure(s, c);
    PayoutMeasure(Run(s, events), c);
    assert PaidOutTotal(s.transfers, c) == 0;
  }

  /** In every reachable state fee revenue holds exactly the fees of the transfers that went through. */
  lemma {:induction false} RevenueHoldsFees(s: State, events: seq<Event>, c: Currency)
    requires Initial(s)
    ensures var s' := Run(s, events);
            R.NetAccount(s'.journal, FeeRevenue(c))
            == FeesTotal(s'.transfers, c) + AheadOfRows(s'.actors, c, true) + UnsavedTotal(s'.anomalies, c, true)
  {
    InitialInv(s);
    LawsHoldOverRuns(FeeLaw(c), s, events);
    FeeMeasure(s, c);
    FeeMeasure(Run(s, events), c);
    assert FeesTotal(s.transfers, c) == 0;
  }

  // ---- Settlement or reversal, once

  /** Settlement postings of transfer `x`: each credits a settled account exactly once. */
  function Settlements(journal: seq<Entry>, x: Id): nat {
    if journal == [] then 0
    else
      var e := journal[|journal| - 1];
      Settlements(journal[..|journal| - 1], x) + if e.account.Settled? && e.reference == x then 1 else 0
  }

  /** Postings of transfer `x` that credit a customer: reversals, for an external transfer. */
  function CustomerCredits(journal: seq<Entry>, x: Id): nat {
    if journal == [] then 0
    else
      var e := journal[|journal| - 1];
      CustomerCredits(journal[..|journal| - 1], x) + if e.account.Customer? && e.direction == CREDIT
          && e.reference == x then 1 else 0
  }

  /** Committed compensating credits for transfer `x`. */
  function Refunds(log: seq<Commit>, x: Id): nat {
    if log == [] then 0 else Refunds(log[..|log| - 1], x) + if log[|log| - 1].origin == Refund(x) then 1 else 0
  }

  lemma {:induction false} SettlementSequences(journal: seq<Entry>, log: seq<Commit>, x: Id)
    ensures Entries(Settlement(x), journal) == Settlements(journal, x) && Commits(Settlement(x), log) == 0
    ensures Entries(Reversal(x), journal) == CustomerCredits(journal, x) && Commits(Reversal(x), log) == 0
    ensures Entries(Refunding(x), journal) == 0 && Commits(Refunding(x), log) == Refunds(log, x)
    decreases |journal| + |log|
  {
    if journal != [] { SettlementSequences(journal[..|journal| - 1], log, x); }
    if log != [] { SettlementSequences(journal, log[..|log| - 1], x); }
  }

  /** Only the row of `x` itself weighs anything under the three per-transfer laws. */
  lemma RowWeight(law: Law, s: State, x: Id)
    requires law == Settlement(x) || law == Reversal(x) || law == Refunding(x)
    requires RowsOk(s)
    ensures Sum(TransferWeights(law, s.transfers)) == if x in s.transfers then TransferWeight(law, s.transfers[x])
              else 0
    ensures Sum(AccountWeights(law, s.accounts)) == 0
  {
    SumOfOne(TransferWeights(law, s.transfers), x);
    SumOfZeros(AccountWeights(law, s.accounts));
  }

  predicate StoredAs(s: State, x: Id, status: T.TransferStatus) {
    x in s.transfers && s.transfers[x].kind.EXTERNAL? && s.transfers[x].status == status
  }

  /**
   * In any reachable state: postings and credits of a transfer against its stored outcome, the requests
   * on it that are between writes, and its recorded anomalies.
   */
  lemma {:induction false} PerTransferLaws(s: State, events: seq<Event>, x: Id)
    requires Initial(s)
    ensures var s' := Run(s, events);
            && Settlements(s'.journal, x) == (if StoredAs(s', x, T.SUCCESSFUL) then 1 else 0)
                                             - Sum(PcWeights(Settlement(x), s'.actors)) - Anomalies(Settlement(x),
                                                 s'.anomalies)
            && (x in s'.transfers && s'.transfers[x].kind.EXTERNAL? ==>
                  CustomerCredits(s'.journal, x) == (if StoredAs(s', x, T.REVERSED) then 1 else 0)
                                                    - Sum(PcWeights(Reversal(x), s'.actors)) - Anomalies(Reversal(x),
                                                        s'.anomalies))
            && Refunds(s'.log, x) == (if StoredAs(s', x, T.REVERSED) then 1 else 0)
                                     - Sum(PcWeights(Refunding(x), s'.actors)) - Anomalies(Refunding(x), s'.anomalies)
  {
    var s' := Run(s, events);
    InitialInv(s);
    RunKeepsInv(s, events);
    SettlementSequences(s'.journal, s'.log, x);
    OneTransferLaw(s, events, Settlement(x), x);
    OneTransferLaw(s, events, Reversal(x), x);
    OneTransferLaw(s, events, Refunding(x), x);
  }

  lemma OneTransferLaw(s: State, events: seq<Event>, law: Law, x: Id)
    requires Initial(s)
    requires law == Settlement(x) || law == Reversal(x) || law == Refunding(x)
    ensures var s' := Run(s, events);
            Entries(law, s'.journal) + Commits(law, s'.log) + Anomalies(law, s'.anomalies)
                + Sum(PcWeights(law, s'.actors))
            == -(if x in s'.transfers then TransferWeight(law, s'.transfers[x]) else 0)
  {
    InitialInv(s);
    RunKeepsInv(s, events);
    LawsHoldOverRuns(law, s, events);
    RowWeight(law, s, x);
    RowWeight(law, Run(s, events), x);
  }

  predicate NoneOf(anomalies: seq<Anomaly>, x: Id) {
    forall i :: 0 <= i < |anomalies| ==> anomalies[i].t.id != x
  }

  /** Settlements of `x` that were posted but whose outcome was never saved. */
  function UnsavedSettlements(anomalies: seq<Anomaly>, x: Id): nat {
    if anomalies == [] then 0
    else
      var last := anomalies[|anomalies| - 1];
      UnsavedSettlements(anomalies[..|anomalies| - 1], x) + if last.UnsavedSettlement? && last.t.id == x then 1 else 0
  }

  /** Compensations of `x` that were made but whose REVERSED row was never saved. */
  function LostReversals(anomalies: seq<Anomaly>, x: Id): nat {
    if anomalies == [] then 0
    else
      var last := anomalies[|anomalies| - 1];
      LostReversals(anomalies[..|anomalies| - 1], x) + if last.LostReversal? && last.t.id == x then 1 else 0
  }

  lemma {:induction false} AnomaliesCounted(anomalies: seq<Anomaly>, x: Id)
    ensures Anomalies(Settlement(x), anomalies) == 0 - UnsavedSettlements(anomalies, x)
    ensures Anomalies(Reversal(x), anomalies) == Anomalies(Refunding(x), anomalies) == 0 - LostReversals(anomalies, x)
  {
    if anomalies != [] { AnomaliesCounted(anomalies[..|anomalies| - 1], x); }
  }

  lemma {:induction false} CountedZeroIff(anomalies: seq<Anomaly>, x: Id)
    ensures UnsavedSettlements(anomalies, x) == 0 && LostReversals(anomalies, x) == 0 <==> NoneOf(anomalies, x)
  {
    if anomalies != [] {
      var init := anomalies[..|anomalies| - 1];
      CountedZeroIff(init, x);
      assert NoneOf(anomalies, x) <==> NoneOf(init, x) && anomalies[|anomalies| - 1].t.id != x;
    }
  }

  /**
   * When no request on an external transfer is between writes: exactly how often it was settled and how
   * often its source was credited back, in any run at all.
   */
  lemma {:induction false} OutcomesCounted(s: State, events: seq<Event>, x: Id)
    requires Initial(s) && QuietOn(Run(s, events), x)
    requires x in Run(s, events).transfers && Run(s, events).transfers[x].kind.EXTERNAL?
    ensures var s' := Run(s, events);
            var status := s'.transfers[x].status;
            var credited := (if status == T.REVERSED then 1 else 0) + LostReversals(s'.anomalies, x);
            && Settlements(s'.journal, x)
               == (if status == T.SUCCESSFUL then 1 else 0) + UnsavedSettlements(s'.anomalies, x)
            && CustomerCredits(s'.journal, x) == credited && Refunds(s'.log, x) == credited
  {
    var s' := Run(s, events);
    PerTransferLaws(s, events, x);
    AnomaliesCounted(s'.anomalies, x);
    QuietWeighsNothing(s', x);
  }

  lemma QuietWeighsNothing(s: State, x: Id)
    requires QuietOn(s, x)
    ensures Sum(PcWeights(Settlement(x), s.actors)) == 0 && Sum(PcWeights(Reversal(x), s.actors)) == 0
    ensures Sum(PcWeights(Refunding(x), s.actors)) == 0
  {
    SumOfZeros(PcWeights(Settlement(x), s.actors));
    SumOfZeros(PcWeights(Reversal(x), s.actors));
    SumOfZeros(PcWeights(Refunding(x), s.actors));
  }

  /** One settlement if SUCCESSFUL, one reversal and one compensating credit if REVERSED, none otherwise. */
  predicate PostedOnce(s: State, x: Id)
    requires x in s.transfers
  {
    var status := s.transfers[x].status;
    && Settlements(s.journal, x) == (if status == T.SUCCESSFUL then 1 else 0)
    && CustomerCredits(s.journal, x) == (if status == T.REVERSED then 1 else 0)
    && Refunds(s.log, x) == (if status == T.REVERSED then 1 else 0)
  }

  /**
   * A transfer is settled or compensated exactly as its stored row says if and only if no request on it
   * ever had its last save refused.
   */
  lemma {:induction false} OutcomePostedOnceIff(s: State, events: seq<Event>, x: Id)
    requires Initial(s) && QuietOn(Run(s, events), x)
    requires x in Run(s, events).transfers && Run(s, events).transfers[x].kind.EXTERNAL?
    ensures PostedOnce(Run(s, events), x) <==> NeverRefused(s, events, x)
  {
    UnrecordedIffRefused(s, events, x);
    OutcomesCounted(s, events, x);
    CountedZeroIff(Run(s, events).anomalies, x);
  }

  /** So it is whenever this one transfer is undisturbed, whatever happens to the others. */
  lemma {:induction false} OutcomePostedOnce(s: State, events: seq<Event>, x: Id)
    requires Initial(s) && QuietOn(Run(s, events), x) && !Disturbed(Run(s, events), x)
    requires x in Run(s, events).transfers && Run(s, events).transfers[x].kind.EXTERNAL?
    ensures PostedOnce(Run(s, events), x)
  {
    NothingUnrecorded(s, events, x);
    UnrecordedIffRefused(s, events, x);
    OutcomePostedOnceIff(s, events, x);
  }

  /** The request that has credited the source of `x` back but not yet saved the row, if there is one. */
  predicate Refunded(pc: Pc, x: Id) {
    (pc.PostRefund? || pc.SaveReversed?) && pc.t.id == x
  }

  /** The requests that have credited the source of `x` back but not yet saved the row. */
  function Returning(s: State, x: Id): set<Id> {
    set a | a in s.actors && Refunded(s.actors[a], x)
  }

  /** In every reachable state: how often the source of a payout was credited back. */
  lemma {:induction false} CreditsCounted(s: State, events: seq<Event>, x: Id)
    requires Initial(s)
    ensures var s' := Run(s, events);
            Refunds(s'.log, x)
            == (if StoredAs(s', x, T.REVERSED) then 1 else 0) + |Returning(s', x)| + LostReversals(s'.anomalies, x)
  {
    var s' := Run(s, events);
    PerTransferLaws(s, events, x);
    AnomaliesCounted(s'.anomalies, x);
    var weights := PcWeights(Refunding(x), s'.actors);
    SumCounts(weights);
    assert MinusOnes(weights) == Returning(s', x);
  }

  /** The refused save was to be that of a REVERSED row, after the credit. */
  predicate ReversalRefusedAt(s: State, events: seq<Event>, k: nat, x: Id)
    requires k < |events|
  {
    RefusedAt(s, events, k, x) && Run(s, events[..k]).actors[events[k].actor].SaveReversed?
  }

  ghost predicate NoReversalRefused(s: State, events: seq<Event>, x: Id) {
    forall k | 0 <= k < |events| :: !ReversalRefusedAt(s, events, k, x)
  }

  lemma NoReversalRefusedSnoc(s: State, events: seq<Event>, x: Id)
    requires events != []
    ensures var n := |events| - 1;
            NoReversalRefused(s, events, x)
            <==> NoReversalRefused(s, events[..n], x) && !ReversalRefusedAt(s, events, n, x)
  {
    var n := |events| - 1;
    forall k | 0 <= k < n ensures ReversalRefusedAt(s, events[..n], k, x) <==> ReversalRefusedAt(s, events, k, x) {
      assert events[..n][..k] == events[..k];
    }
  }

  lemma LostReversalsAppended(anomalies: seq<Anomaly>, added: seq<Anomaly>, x: Id)
    requires |added| <= 1
    ensures LostReversals(anomalies + added, x) == LostReversals(anomalies, x)
      + if added != [] && added[0].LostReversal? && added[0].t.id == x then 1 else 0
  {
    if added == [] {
      assert anomalies + added == anomalies;
    } else {
      assert (anomalies + added)[..|anomalies|] == anomalies;
    }
  }

  lemma StepLoses(s: State, e: Event, x: Id)
    requires Inv(s)
    ensures LostReversals(Step(s, e).anomalies, x) == LostReversals(s.anomalies, x)
      + if Refused(s, e, x) && s.actors[e.actor].SaveReversed? then 1 else 0
  {
    if e.Advance? && e.actor in s.actors {
      assert PcOk(s, e.actor, s.actors[e.actor]);
      AdvanceStep(s, e.actor, e.reply);
      var added := DecideRefused(s, e.actor, s.actors[e.actor], e.reply);
      LostReversalsAppended(s.anomalies, added, x);
    }
  }

  lemma {:induction false} LostIffRefused(s: State, events: seq<Event>, x: Id)
    requires Initial(s)
    ensures LostReversals(Run(s, events).anomalies, x) == 0 <==> NoReversalRefused(s, events, x)
  {
    if events != [] {
      var n := |events| - 1;
      InitialInv(s);
      RunKeepsInv(s, events[..n]);
      LostIffRefused(s, events[..n], x);
      StepLoses(Run(s, events[..n]), events[n], x);
      NoReversalRefusedSnoc(s, events, x);
    }
  }

  /**
   * By the end of the run the payout is REVERSED, or some request has credited it back and not saved its row yet,
   * or such a save was refused.
   */
  ghost predicate AlreadyReturned(s: State, events: seq<Event>, x: Id) {
    var now := Run(s, events);
    || StoredAs(now, x, T.REVERSED)
    || (exists a :: a in now.actors && Refunded(now.actors[a], x))
    || !NoReversalRefused(s, events, x)
  }

  /** The event commits a credit back to the source of `x`. */
  predicate CommitsCredit(s: State, e: Event, x: Id) {
    && e.Advance? && e.actor in s.actors && s.actors[e.actor].SaveRefund?
    && s.actors[e.actor].t.id == x && CanSave(s, s.actors[e.actor].w)
  }

  lemma {:induction false} ReturnedIffCredited(s: State, events: seq<Event>, x: Id)
    requires Initial(s)
    ensures AlreadyReturned(s, events, x) <==> Refunds(Run(s, events).log, x) > 0
  {
    var s' := Run(s, events);
    CreditsCounted(s, events, x);
    LostIffRefused(s, events, x);
    if a :| a in s'.actors && Refunded(s'.actors[a], x) {
      assert a in Returning(s', x);
    } else {
      assert Returning(s', x) == {};
    }
  }

  lemma PerformCredits(s: State, e: Effect, x: Id)
    ensures Refunds(Perform(s, e).log, x) == Refunds(s.log, x) + if e.PutAccount? && e.origin == Refund(x) then 1 else 0
  {
    if e.PutAccount? {
      RefundsSnoc(s.log, Commit(e.w.copy.id, e.w.op, e.origin), x);
    } else if e.PutInternal? {
      var src := Commit(e.src.copy.id, e.src.op, Movement(e.t.id));
      RefundsSnoc(s.log, src, x);
      RefundsSnoc(s.log + [src], Commit(e.dst.copy.id, e.dst.op, Movement(e.t.id)), x);
    }
  }

  lemma DecideCredits(s: State, pc: Pc, reply: Reply, x: Id)
    ensures var e := Decide(s, pc, reply).0;
            e.PutAccount? && e.origin == Refund(x) <==> pc.SaveRefund? && pc.t.id == x && CanSave(s, pc.w)
  {
  }

  lemma RefundsSnoc(log: seq<Commit>, commit: Commit, x: Id)
    ensures Refunds(log + [commit], x) == Refunds(log, x) + if commit.origin == Refund(x) then 1 else 0
  {
    assert (log + [commit])[..|log|] == log;
  }

  lemma StepCredits(s: State, e: Event, x: Id)
    ensures Refunds(Step(s, e).log, x) == Refunds(s.log, x) + if CommitsCredit(s, e, x) then 1 else 0
  {
    if e.Advance? && e.actor in s.actors {
      AdvanceStep(s, e.actor, e.reply);
      DecideCredits(s, s.actors[e.actor], e.reply, x);
      PerformCredits(s, Decide(s, s.actors[e.actor], e.reply).0, x);
    }
  }

  ghost predicate CreditedAgainAt(s: State, events: seq<Event>, k: nat, x: Id)
    requires k < |events|
  {
    CommitsCredit(Run(s, events[..k]), events[k], x) && AlreadyReturned(s, events[..k], x)
  }

  lemma CreditedAgainPrefix(s: State, events: seq<Event>, n: nat, k: nat, x: Id)
    requires k < n <= |events|
    ensures CreditedAgainAt(s, events[..n], k, x) <==> CreditedAgainAt(s, events, k, x)
  {
    assert events[..n][..k] == events[..k];
  }

  ghost predicate NeverCreditedAgain(s: State, events: seq<Event>, x: Id) {
    forall k | 0 <= k < |events| :: !CreditedAgainAt(s, events, k, x)
  }

  lemma NeverCreditedAgainSnoc(s: State, events: seq<Event>, x: Id)
    requires events != []
    ensures var n := |events| - 1;
            NeverCreditedAgain(s, events, x)
            <==> NeverCreditedAgain(s, events[..n], x) && !CreditedAgainAt(s, events, n, x)
  {
    var n := |events| - 1;
    forall k | 0 <= k < n ensures CreditedAgainAt(s, events[..n], k, x) <==> CreditedAgainAt(s, events, k, x) {
      CreditedAgainPrefix(s, events, n, k, x);
    }
  }

  /**
   * A payout is compensated at most once in a run if and only if no credit back commits in it while the payout
   * is REVERSED already, or after another request has credited it, its row being unsaved yet or its save refused.
   */
  lemma {:induction false} CompensatedOnceIff(s: State, events: seq<Event>, x: Id)
    requires Initial(s)
    ensures Refunds(Run(s, events).log, x) <= 1 <==> NeverCreditedAgain(s, events, x)
  {
    if events != [] {
      var n := |events| - 1;
      CompensatedOnceIff(s, events[..n], x);
      NeverCreditedAgainSnoc(s, events, x);
      ReturnedIffCredited(s, events[..n], x);
      StepCredits(Run(s, events[..n]), events[n], x);
    }
  }

  lemma AtMostOneRefunding(s: State, x: Id, a: Id)
    requires Inv(s) && !Disturbed(s, x)
    requires a in s.actors && Refunded(s.actors[a], x)
    ensures forall b :: b in s.actors && b != a ==> !Refunded(s.actors[b], x)
    ensures x in s.transfers && T.InFlight(s.transfers[x].status)
    ensures x in s.actors && Settling(s.actors[x]) ==> s.actors[x].t.id != x
  {
    assert PcOk(s, a, s.actors[a]) && OpenOn(s.actors[a], x);
    forall b | b in s.actors && b != a ensures !Refunded(s.actors[b], x) {
      assert PcOk(s, b, s.actors[b]);
      assert Refunded(s.actors[b], x) ==> OpenOn(s.actors[b], x);
    }
    if x in s.actors { assert PcOk(s, x, s.actors[x]); }
  }

  /** Only the saga itself can be about to save a settled outcome of its transfer. */
  lemma SettlingIsOwn(s: State, x: Id)
    requires Inv(s)
    ensures forall a :: a in s.actors && Settling(s.actors[a]) && s.actors[a].t.id == x
              ==> a == x && x in s.transfers && Untouched(s.transfers[x])
  {
    forall a | a in s.actors && Settling(s.actors[a]) && s.actors[a].t.id == x
      ensures a == x && x in s.transfers && Untouched(s.transfers[x])
    {
      assert PcOk(s, a, s.actors[a]);
    }
  }

  predicate OwnSettling(s: State, x: Id) {
    x in s.actors && Settling(s.actors[x]) && s.actors[x].t.id == x
  }

  lemma SettlementBound(s: State, x: Id)
    requires Inv(s)
    ensures -Sum(PcWeights(Settlement(x), s.actors)) <= if OwnSettling(s, x) then 1 else 0
    ensures OwnSettling(s, x) ==> x in s.transfers && Untouched(s.transfers[x])
  {
    SettlingIsOwn(s, x);
    SumAtLeast(PcWeights(Settlement(x), s.actors), x);
  }

  lemma RefundBound(s: State, x: Id)
    requires Inv(s) && !Disturbed(s, x)
    ensures var refunds := -Sum(PcWeights(Refunding(x), s.actors));
            refunds <= 0 || (refunds == 1 && x in s.transfers && T.InFlight(s.transfers[x].status)
                && !OwnSettling(s, x))
  {
    if a :| a in s.actors && Refunded(s.actors[a], x) {
      AtMostOneRefunding(s, x, a);
      SumAtLeast(PcWeights(Refunding(x), s.actors), a);
    } else {
      SumOfZeros(PcWeights(Refunding(x), s.actors));
    }
  }

  lemma UndisturbedCounts(s: State, events: seq<Event>, x: Id)
    requires Initial(s) && !Disturbed(Run(s, events), x)
    ensures var s' := Run(s, events);
            && Settlements(s'.journal, x)
               == (if StoredAs(s', x, T.SUCCESSFUL) then 1 else 0) - Sum(PcWeights(Settlement(x), s'.actors))
            && Refunds(s'.log, x)
               == (if StoredAs(s', x, T.REVERSED) then 1 else 0) - Sum(PcWeights(Refunding(x), s'.actors))
  {
    var anomalies := Run(s, events).anomalies;
    PerTransferLaws(s, events, x);
    NothingUnrecorded(s, events, x);
    AnomaliesCounted(anomalies, x);
    CountedZeroIff(anomalies, x);
  }

  /**
   * At every moment, not only in quiet states: at most one settlement posting or one compensating
   * credit has happened for an undisturbed transfer, and never both.
   */
  lemma {:induction false} NeverSettledAndRefunded(s: State, events: seq<Event>, x: Id)
    requires Initial(s) && !Disturbed(Run(s, events), x)
    ensures Settlements(Run(s, events).journal, x) + Refunds(Run(s, events).log, x) <= 1
  {
    var s' := Run(s, events);
    InitialInv(s);
    RunKeepsInv(s, events);
    UndisturbedCounts(s, events, x);
    SettlementBound(s', x);
    RefundBound(s', x);
  }

  // ---- Stored terminal status is final

  lemma StepKeepsTerminal(s: State, e: Event, x: Id)
    requires Inv(s) && x in s.transfers
    ensures x in Step(s, e).transfers
    ensures T.Terminal(s.transfers[x].status) ==> Step(s, e).transfers[x] == s.transfers[x]
  {
    if e.Advance? && e.actor in s.actors {
      var pc := s.actors[e.actor];
      assert PcOk(s, e.actor, pc);
      DecideOk(s, e.actor, pc, e.reply);
      PerformEvolves(s, e.actor, pc, Decide(s, pc, e.reply).0);
    }
  }

  /** No later run ever changes a stored SUCCESSFUL, FAILED, REVERSED or CANCELLED row, nor deletes any row. */
  lemma {:induction false} TerminalIsFinal(s: State, events: seq<Event>, x: Id)
    requires Inv(s) && x in s.transfers
    ensures x in Run(s, events).transfers
    ensures T.Terminal(s.transfers[x].status) ==> Run(s, events).transfers[x] == s.transfers[x]
  {
    if events != [] {
      var before := events[..|events| - 1];
      TerminalIsFinal(s, before, x);
      RunKeepsInv(s, before);
      StepKeepsTerminal(Run(s, before), events[|events| - 1], x);
    }
  }

  // ---- Optimistic saves serialise

  /** The committed mutations of one account, in commit order. */
  function OpsOf(log: seq<Commit>, account: Id): seq<A.AccountOp> {
    if log == [] then []
    else
      var last := log[|log| - 1];
      OpsOf(log[..|log| - 1], account) + if last.account == account then [last.op] else []
  }

  ghost predicate Serialised(s0: State, s: State) {
    forall account :: account in s0.accounts ==>
      account in s.accounts && H.Replay(s0.accounts[account], OpsOf(s.log, account)) == Success(s.accounts[account])
  }

  lemma WroteSerialises(s0: State, s: State, w: Write, origin: Origin)
    requires Serialised(s0, s) && Applied(s, w)
    ensures Serialised(s0, Wrote(s, w, origin))
  {
    var s' := Wrote(s, w, origin);
    forall account | account in s0.accounts
      ensures H.Replay(s0.accounts[account], OpsOf(s'.log, account)) == Success(s'.accounts[account])
    {
      assert s'.log[..|s'.log| - 1] == s.log;
      var ops := OpsOf(s.log, account);
      if account == w.copy.id {
        assert OpsOf(s'.log, account) == ops + [w.op];
        assert (ops + [w.op])[..|ops|] == ops;
      } else {
        assert OpsOf(s'.log, account) == ops;
      }
    }
  }

  lemma PerformSerialises(s0: State, s: State, actor: Id, pc: Pc, e: Effect)
    requires Serialised(s0, s) && EffectOk(s, actor, pc, e)
    ensures Serialised(s0, Perform(s, e))
  {
    match e
    case PutAccount(w, origin) => WroteSerialises(s0, s, w, origin);
    case PutInternal(src, dst, t) =>
      WroteSerialises(s0, s, src, Movement(t.id));
      WroteSerialises(s0, Wrote(s, src, Movement(t.id)), dst, Movement(t.id));
    case Nothing =>
    case PutTransfer(_) =>
    case Append(_, _) =>
    case Fault(_, _) =>
    case Note(_) =>
  }

  lemma {:induction false} RunSerialises(s: State, events: seq<Event>)
    requires Initial(s)
    ensures Serialised(s, Run(s, events))
  {
    if events != [] {
      var before := Run(s, events[..|events| - 1]);
      var e := events[|events| - 1];
      RunSerialises(s, events[..|events| - 1]);
      InitialInv(s);
      RunKeepsInv(s, events[..|events| - 1]);
      if e.Advance? && e.actor in before.actors {
        EffectSound(before, e.actor, before.actors[e.actor], e.reply);
        PerformSerialises(s, before, e.actor, before.actors[e.actor],
            Decide(before, before.actors[e.actor], e.reply).0);
      }
    }
  }

  /**
   * Whatever the interleaving, the stored account is the committed mutations applied one after another
   * to the row it started from: none is lost, and `version` counts them.
   */
  lemma {:induction false} SavesSerialise(s: State, events: seq<Event>, account: Id)
    requires Initial(s) && account in s.accounts
    ensures var s' := Run(s, events);
            var ops := OpsOf(s'.log, account);
            && account in s'.accounts
            && H.Replay(s.accounts[account], ops) == Success(s'.accounts[account])
            && s'.accounts[account].version == s.accounts[account].version + |ops|
            && s'.accounts[account].balance == s.accounts[account].balance + H.SumDeltas(ops)
  {
    RunSerialises(s, events);
    H.ReplayCountsAndSums(s.accounts[account], OpsOf(Run(s, events).log, account));
  }

  /** Over any run, an account that is not active and is not made so keeps its balance; a closed one holds nothing. */
  lemma {:induction false} InactiveAccountsStandStill(s: State, events: seq<Event>, account: Id)
    requires Initial(s) && account in s.accounts
    ensures var s' := Run(s, events);
            && account in s'.accounts
            && (s.accounts[account].status != A.ACTIVE
                && (forall op | op in OpsOf(s'.log, account) :: !op.Activate? && !op.Unfreeze?) ==>
                  s'.accounts[account].balance == s.accounts[account].balance)
            && ((s.accounts[account].status == A.CLOSED ==> s.accounts[account].balance == 0) ==>
                  s'.accounts[account].status == A.CLOSED ==> s'.accounts[account].balance == 0)
            && s'.accounts[account].status == H.LastStatus(s.accounts[account].status, OpsOf(s'.log, account))
  {
    SavesSerialise(s, events, account);
    var row, ops := s.accounts[account], OpsOf(Run(s, events).log, account);
    H.StatusIsLastSet(row, ops);
    if row.status != A.ACTIVE && forall op | op in ops :: !H.Reopens(op) { H.InactiveStandsStill(row, ops); }
    if H.ClosedIsEmpty(row) { H.ClosedStaysEmpty(row, ops); }
  }

  // ---- One customer's balance against its own entries

  function AdminNetOf(log: seq<Commit>, account: Id): int {
    if log == [] then 0
    else
      var last := log[|log| - 1];
      AdminNetOf(log[..|log| - 1], account) + if last.origin == Admin
          && last.account == account then A.Delta(last.op) else 0
  }

  lemma {:induction false} CustomerSequences(journal: seq<Entry>, log: seq<Commit>, account: Id)
    ensures Entries(CustomerLaw(account), journal) == -R.NetAccount(journal, Customer(account))
    ensures Commits(CustomerLaw(account), log) == -AdminNetOf(log, account)
    decreases |journal| + |log|
  {
    if journal != [] { CustomerSequences(journal[..|journal| - 1], log, account); }
    if log != [] { CustomerSequences(journal, log[..|log| - 1], account); }
  }

  /** Debited from the account but not yet posted, less credited back but not yet posted. */
  ghost function HeldOn(actors: map<Id, Pc>, account: Id): int {
    Sum(HeldOnAmounts(actors, account))
  }

  function HeldOnAmounts(actors: map<Id, Pc>, account: Id): map<Id, int> {
    map a | a in actors ::
      var pc := actors[a];
      if (pc.Record? || pc.PostHold?) && pc.t.source == account then pc.t.amount + pc.t.fee
      else if pc.PostRefund? && pc.t.source == account then -(pc.t.amount + pc.t.fee)
      else 0
  }

  lemma CustomerMeasure(s: State, account: Id)
    requires RowsOk(s) && account in s.accounts
    ensures Measure(CustomerLaw(account), s)
            == s.accounts[account].balance - R.NetAccount(s.journal, Customer(account)) - AdminNetOf(s.log, account)
               + HeldOn(s.actors, account)
  {
    CustomerSequences(s.journal, s.log, account);
    NoAnomalyWeight(CustomerLaw(account), s.anomalies);
    CustomerRowsWeight(s.accounts, s.transfers, account);
    HeldWeights(s.actors, account);
  }

  lemma CustomerRowsWeight(accounts: map<Id, A.AccountRow>, transfers: map<Id, T.TransferRow>, account: Id)
    requires account in accounts && forall id | id in accounts :: accounts[id].id == id
    ensures Sum(AccountWeights(CustomerLaw(account), accounts)) == accounts[account].balance
    ensures Sum(TransferWeights(CustomerLaw(account), transfers)) == 0
  {
    SumOfOne(AccountWeights(CustomerLaw(account), accounts), account);
    SumOfZeros(TransferWeights(CustomerLaw(account), transfers));
  }

  lemma HeldWeights(actors: map<Id, Pc>, account: Id)
    ensures PcWeights(CustomerLaw(account), actors) == HeldOnAmounts(actors, account)
  {
  }

  /**
   * In every reachable state each balance, with what requests hold on the account between their own
   * writes, is its start, plus the net of its own entries, plus the admin adjustments that post none.
   */
  lemma {:induction false} CustomerReconciles(s: State, events: seq<Event>, account: Id)
    requires Initial(s) && account in s.accounts
    ensures var s' := Run(s, events);
            account in s'.accounts
            && s'.accounts[account].balance + HeldOn(s'.actors, account)
               == s.accounts[account].balance + R.NetAccount(s'.journal, Customer(account))
                   + AdminNetOf(s'.log, account)
  {
    InitialInv(s);
    RunKeepsInv(s, events);
    SavesSerialise(s, events, account);
    LawsHoldOverRuns(CustomerLaw(account), s, events);
    CustomerMeasure(s, account);
    CustomerMeasure(Run(s, events), account);
  }
}
