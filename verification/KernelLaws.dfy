/**
 * Conservation laws of the kernel. Each law weighs every stored row, journal entry, committed
 * account mutation, recorded anomaly and running request; the total never changes in any run.
 */
module KernelLaws {
  import opened Wrappers
  import opened MoneyValue
  import opened Sums
  import A = Accounts
  import T = Transfers
  import opened L = Ledger
  import opened Kernel
  import opened KernelInvariant

  datatype Law =
    | Conservation(c: Currency)   // money held for customers or in system accounts
    | TrialBalance(c: Currency)   // debits against credits
    | ClearingLaw(c: Currency)    // the clearing account against payouts in flight
    | PayoutLaw(c: Currency)      // the settled account against successful payouts
    | FeeLaw(c: Currency)         // fee revenue against the fees of successful transfers
    | Settlement(x: Id)           // settlement postings of one transfer
    | Reversal(x: Id)             // reversal postings of one transfer
    | Refunding(x: Id)            // compensating credits of one transfer
    | CustomerLaw(account: Id)    // one balance against its own entries

  function AccountWeight(law: Law, row: A.AccountRow): int {
    match law
    case Conservation(c) => if row.currency == c then row.balance else 0
    case CustomerLaw(account) => if row.id == account then row.balance else 0
    case _ => 0
  }

  function EntryWeight(law: Law, account: LedgerAccount, direction: Direction, amount: Money, reference: Id): int {
    match law
    case Conservation(c) =>
      if account == FeeRevenue(c) || account == Clearing(c)
          || account == L.Settled(c) then Signed(direction, amount) else 0
    case TrialBalance(c) => if amount.currency == c then Signed(direction, amount) else 0
    case ClearingLaw(c) => if account == Clearing(c) then Signed(direction, amount) else 0
    case PayoutLaw(c) => if account == L.Settled(c) then Signed(direction, amount) else 0
    case FeeLaw(c) => if account == FeeRevenue(c) then Signed(direction, amount) else 0
    case Settlement(x) => if account.Settled? && reference == x then 1 else 0
    case Reversal(x) => if account.Customer? && direction == CREDIT && reference == x then 1 else 0
    case Refunding(_) => 0
    case CustomerLaw(id) => if account == Customer(id) then -Signed(direction, amount) else 0
  }

  function TransferWeight(law: Law, t: T.TransferRow): int {
    match law
    case ClearingLaw(c) => if t.kind.EXTERNAL? && T.InFlight(t.status)
        && t.currency == c then -(t.amount + t.fee) else 0
    case PayoutLaw(c) =>
      if t.kind.EXTERNAL? && t.status == T.SUCCESSFUL && t.currency == c then -(t.amount as int) else 0
    case FeeLaw(c) => if t.status == T.SUCCESSFUL && t.currency == c then -(t.fee as int) else 0
    case Settlement(x) => if t.id == x && t.kind.EXTERNAL? && t.status == T.SUCCESSFUL then -1 else 0
    case Reversal(x) =>
      if t.id == x && t.status == (if t.kind.EXTERNAL? then T.REVERSED else T.SUCCESSFUL) then -1 else 0
    case Refunding(x) => if t.id == x && t.kind.EXTERNAL? && t.status == T.REVERSED then -1 else 0
    case _ => 0
  }

  function CommitWeight(law: Law, commit: Commit): int {
    match law
    case Conservation(c) =>
      if commit.origin == Admin && (commit.op.Credit? || commit.op.Debit?) && commit.op.money.currency == c
      then -A.Delta(commit.op) else 0
    case Refunding(x) => if commit.origin == Refund(x) then 1 else 0
    case CustomerLaw(account) => if commit.origin == Admin && commit.account == account then -A.Delta(commit.op) else 0
    case _ => 0
  }

  function AnomalyWeight(law: Law, anomaly: Anomaly): int {
    var t := anomaly.t;
    match law
    case ClearingLaw(c) => if t.currency == c then t.amount + t.fee else 0
    case PayoutLaw(c) => if anomaly.UnsavedSettlement? && t.currency == c then -(t.amount as int) else 0
    case FeeLaw(c) => if anomaly.UnsavedSettlement? && t.currency == c then -(t.fee as int) else 0
    case Settlement(x) => if anomaly.UnsavedSettlement? && t.id == x then -1 else 0
    case Reversal(x) => if anomaly.LostReversal? && t.id == x then -1 else 0
    case Refunding(x) => if anomaly.LostReversal? && t.id == x then -1 else 0
    case _ => 0
  }

  /** What a request holds between two of its own writes. */
  function PcWeight(law: Law, pc: Pc): int {
    match law
    case Conservation(c) =>
      if (pc.Record? || pc.PostHold?) && pc.t.currency == c then pc.t.amount + pc.t.fee
      else if pc.PostRefund? && pc.t.currency == c then -(pc.t.amount + pc.t.fee)
      else 0
    case TrialBalance(_) => 0
    case ClearingLaw(c) =>
      if (pc.PostHold? || Settling(pc) || pc.SaveReversed?) && pc.t.currency == c then pc.t.amount + pc.t.fee
      else if pc.PostSettled? && pc.t.currency == c then -(pc.t.amount + pc.t.fee)
      else 0
    case PayoutLaw(c) =>
      if Settling(pc) && pc.t.currency == c then -(pc.t.amount as int)
      else if pc.PostSettled? && pc.t.currency == c then pc.t.amount
      else 0
    case FeeLaw(c) =>
      if Settling(pc) && pc.t.currency == c then -(pc.t.fee as int)
      else if pc.PostSettled? && pc.t.currency == c then pc.t.fee
      else 0
    case Settlement(x) =>
      if Settling(pc) && pc.t.id == x then -1 else if pc.PostSettled? && pc.t.id == x then 1 else 0
    case Reversal(x) => if pc.SaveReversed? && pc.t.id == x then -1 else 0
    case Refunding(x) => if (pc.PostRefund? || pc.SaveReversed?) && pc.t.id == x then -1 else 0
    case CustomerLaw(account) =>
      if (pc.Record? || pc.PostHold?) && pc.t.source == account then pc.t.amount + pc.t.fee
      else if pc.PostRefund? && pc.t.source == account then -(pc.t.amount + pc.t.fee)
      else 0
  }

  /** The saga has posted the settlement of an immediately settled payout but not yet saved the row. */
  predicate Settling(pc: Pc) {
    pc.SaveOutcome? && pc.t.status == T.SUCCESSFUL
  }

  // ---- Totals

  function AccountWeights(law: Law, rows: map<Id, A.AccountRow>): map<Id, int> {
    map id | id in rows :: AccountWeight(law, rows[id])
  }

  function TransferWeights(law: Law, rows: map<Id, T.TransferRow>): map<Id, int> {
    map id | id in rows :: TransferWeight(law, rows[id])
  }

  function PcWeights(law: Law, actors: map<Id, Pc>): map<Id, int> {
    map id | id in actors :: PcWeight(law, actors[id])
  }

  function Entries(law: Law, journal: seq<Entry>): int {
    if journal == [] then 0
    else
      var e := journal[|journal| - 1];
      Entries(law, journal[..|journal| - 1]) + EntryWeight(law, e.account, e.direction, e.amount, e.reference)
  }

  function Commits(law: Law, log: seq<Commit>): int {
    if log == [] then 0 else Commits(law, log[..|log| - 1]) + CommitWeight(law, log[|log| - 1])
  }

  function Anomalies(law: Law, anomalies: seq<Anomaly>): int {
    if anomalies == [] then 0
    else Anomalies(law, anomalies[..|anomalies| - 1]) + AnomalyWeight(law, anomalies[|anomalies| - 1])
  }

  ghost function Measure(law: Law, s: State): int {
    Sum(AccountWeights(law, s.accounts)) + Sum(TransferWeights(law, s.transfers)) + Entries(law, s.journal)
    + Commits(law, s.log) + Anomalies(law, s.anomalies) + Sum(PcWeights(law, s.actors))
  }

  // ---- How one update moves the total

  lemma AccountsPut(law: Law, rows: map<Id, A.AccountRow>, row: A.AccountRow)
    requires row.id in rows
    ensures Sum(AccountWeights(law, rows[row.id := row]))
            == Sum(AccountWeights(law, rows)) - AccountWeight(law, rows[row.id]) + AccountWeight(law, row)
  {
    SumUpdated(AccountWeights(law, rows), row.id, AccountWeight(law, row));
    assert AccountWeights(law, rows[row.id := row]) == AccountWeights(law, rows)[row.id := AccountWeight(law, row)];
  }

  lemma TransfersPut(law: Law, rows: map<Id, T.TransferRow>, t: T.TransferRow)
    ensures Sum(TransferWeights(law, rows[t.id := t]))
            == Sum(TransferWeights(law, rows)) - (if t.id in rows then TransferWeight(law, rows[t.id]) else 0)
                + TransferWeight(law, t)
  {
    SumUpdated(TransferWeights(law, rows), t.id, TransferWeight(law, t));
    assert TransferWeights(law, rows[t.id := t]) == TransferWeights(law, rows)[t.id := TransferWeight(law, t)];
  }

  lemma PcsPut(law: Law, actors: map<Id, Pc>, a: Id, pc: Pc)
    ensures Sum(PcWeights(law, actors[a := pc]))
            == Sum(PcWeights(law, actors)) - (if a in actors then PcWeight(law, actors[a]) else 0) + PcWeight(law, pc)
  {
    SumUpdated(PcWeights(law, actors), a, PcWeight(law, pc));
    assert PcWeights(law, actors[a := pc]) == PcWeights(law, actors)[a := PcWeight(law, pc)];
  }

  function LegsWeight(law: Law, legs: seq<Leg>, reference: Id): int {
    if legs == [] then 0
    else
      var leg := legs[|legs| - 1];
      LegsWeight(law, legs[..|legs| - 1], reference)
          + EntryWeight(law, leg.account, leg.direction, leg.amount, reference)
  }

  lemma {:induction false} EntriesAppend(law: Law, journal: seq<Entry>, base: seq<Entry>, legs: seq<Leg>, reference: Id)
    ensures Entries(law, journal + Rows(base, legs, reference))
              == Entries(law, journal) + LegsWeight(law, legs, reference)
  {
    var grown := journal + Rows(base, legs, reference);
    if legs == [] {
      assert grown == journal;
    } else {
      assert grown[..|grown| - 1] == journal + Rows(base, legs[..|legs| - 1], reference);
      EntriesAppend(law, journal, base, legs[..|legs| - 1], reference);
    }
  }

  lemma CommitsAppend(law: Law, log: seq<Commit>, commit: Commit)
    ensures Commits(law, log + [commit]) == Commits(law, log) + CommitWeight(law, commit)
  {
    assert (log + [commit])[..|log|] == log;
  }

  lemma AnomaliesAppend(law: Law, anomalies: seq<Anomaly>, anomaly: Anomaly)
    ensures Anomalies(law, anomalies + [anomaly]) == Anomalies(law, anomalies) + AnomalyWeight(law, anomaly)
  {
    assert (anomalies + [anomaly])[..|anomalies|] == anomalies;
  }

  lemma OneAnomaly(law: Law, anomaly: Anomaly)
    ensures Anomalies(law, [anomaly]) == AnomalyWeight(law, anomaly)
  {
    assert [anomaly][..0] == [];
  }

  // ---- The postings

  lemma TwoLegs(law: Law, a: Leg, b: Leg, reference: Id)
    ensures LegsWeight(law, [a, b], reference)
            == EntryWeight(law, a.account, a.direction, a.amount, reference)
                + EntryWeight(law, b.account, b.direction, b.amount, reference)
  {
    assert [a, b][..1] == [a];
    assert [a][..0] == [];
    assert LegsWeight(law, [a], reference) == EntryWeight(law, a.account, a.direction, a.amount, reference);
  }

  lemma LegsPlusFee(law: Law, a: Leg, b: Leg, t: T.TransferRow, reference: Id)
    ensures LegsWeight(law, [a, b] + FeeLeg(t), reference)
            == LegsWeight(law, [a, b], reference)
               + EntryWeight(law, FeeRevenue(t.currency), CREDIT, Money(t.fee, t.currency), reference)
  {
    if t.fee == 0 {
      assert [a, b] + FeeLeg(t) == [a, b];
    } else {
      assert ([a, b] + FeeLeg(t))[..2] == [a, b];
    }
  }

  // ---- How one effect moves the total

  function WriteChange(law: Law, s: State, w: Write, origin: Origin): int
    requires w.copy.id in s.accounts
  {
    AccountWeight(law, w.copy) - AccountWeight(law, s.accounts[w.copy.id])
        + CommitWeight(law, Commit(w.copy.id, w.op, origin))
  }

  function StoreChange(law: Law, s: State, t: T.TransferRow): int {
    TransferWeight(law, t) - if t.id in s.transfers then TransferWeight(law, s.transfers[t.id]) else 0
  }

  lemma WroteMeasure(law: Law, s: State, w: Write, origin: Origin)
    requires w.copy.id in s.accounts
    ensures Measure(law, Wrote(s, w, origin)) == Measure(law, s) + WriteChange(law, s, w, origin)
  {
    AccountsPut(law, s.accounts, w.copy);
    CommitsAppend(law, s.log, Commit(w.copy.id, w.op, origin));
  }

  lemma StoredMeasure(law: Law, s: State, t: T.TransferRow)
    ensures Measure(law, Stored(s, t)) == Measure(law, s) + StoreChange(law, s, t)
  {
    TransfersPut(law, s.transfers, t);
  }

  lemma PostedMeasure(law: Law, s: State, legs: seq<Leg>, reference: Id)
    ensures Measure(law, Posted(s, legs, reference)) == Measure(law, s) + LegsWeight(law, legs, reference)
  {
    EntriesAppend(law, s.journal, s.journal, legs, reference);
  }

  /** What the effect itself adds to the total. */
  function Change(law: Law, s: State, e: Effect): int
    requires e.PutAccount? ==> e.w.copy.id in s.accounts
    requires e.PutInternal? ==> e.src.copy.id in s.accounts && e.dst.copy.id in s.accounts
  {
    match e
    case Nothing => 0
    case PutAccount(w, origin) => WriteChange(law, s, w, origin)
    case PutTransfer(t) => StoreChange(law, s, t)
    case Append(legs, reference) => LegsWeight(law, legs, reference)
    case PutInternal(src, dst, t) =>
      WriteChange(law, s, src, Movement(t.id)) + WriteChange(law, s, dst, Movement(t.id))
      + LegsWeight(law, InternalLegs(t, src.copy, dst.copy), t.id) + StoreChange(law, s, t)
    case Fault(_, anomalies) => Anomalies(law, anomalies)
    case Note(anomaly) => AnomalyWeight(law, anomaly)
  }

  lemma InternalMeasure(law: Law, s: State, src: Write, dst: Write, t: T.TransferRow)
    requires src.copy.id in s.accounts && dst.copy.id in s.accounts && src.copy.id != dst.copy.id
    ensures Measure(law, Perform(s, PutInternal(src, dst, t)))
              == Measure(law, s) + Change(law, s, PutInternal(src, dst, t))
  {
    var one := Wrote(s, src, Movement(t.id));
    var two := Wrote(one, dst, Movement(t.id));
    WroteMeasure(law, s, src, Movement(t.id));
    WroteMeasure(law, one, dst, Movement(t.id));
    PostedMeasure(law, two, InternalLegs(t, src.copy, dst.copy), t.id);
    StoredMeasure(law, Posted(two, InternalLegs(t, src.copy, dst.copy), t.id), t);
  }

  lemma FaultAnomalies(law: Law, before: seq<Anomaly>, anomalies: seq<Anomaly>)
    requires |anomalies| <= 1
    ensures Anomalies(law, before + anomalies) == Anomalies(law, before) + Anomalies(law, anomalies)
  {
    if anomalies == [] {
      assert before + anomalies == before;
    } else {
      assert anomalies == [anomalies[0]];
      OneAnomaly(law, anomalies[0]);
      AnomaliesAppend(law, before, anomalies[0]);
    }
  }

  lemma PerformMeasure(law: Law, s: State, actor: Id, pc: Pc, e: Effect)
    requires EffectOk(s, actor, pc, e)
    requires e.Fault? ==> |e.anomalies| <= 1
    ensures Measure(law, Perform(s, e)) == Measure(law, s) + Change(law, s, e)
  {
    match e
    case Nothing =>
    case PutAccount(w, origin) => WroteMeasure(law, s, w, origin);
    case PutTransfer(t) => StoredMeasure(law, s, t);
    case Append(legs, reference) => PostedMeasure(law, s, legs, reference);
    case PutInternal(src, dst, t) => InternalMeasure(law, s, src, dst, t);
    case Fault(_, anomalies) => FaultAnomalies(law, s.anomalies, anomalies);
    case Note(anomaly) => AnomaliesAppend(law, s.anomalies, anomaly);
  }

  // ---- No step changes any total

  /** The program counter's share of the total plus the effect's change comes to nothing. */
  ghost predicate Even(law: Law, s: State, pc: Pc, next: (Effect, Pc))
    requires next.0.PutAccount? ==> next.0.w.copy.id in s.accounts
    requires next.0.PutInternal? ==> next.0.src.copy.id in s.accounts && next.0.dst.copy.id in s.accounts
  {
    Change(law, s, next.0) + PcWeight(law, next.1) == PcWeight(law, pc)
    && (next.0.Fault? ==> |next.0.anomalies| <= 1)
  }

  lemma HoldEven(law: Law, s: State, actor: Id, w: Write, t: T.TransferRow)
    requires PcOk(s, actor, SaveHold(w, t))
    ensures Even(law, s, SaveHold(w, t), AfterSaveHold(s, w, t))
  {
  }

  lemma RecordEven(law: Law, s: State, actor: Id, balance: nat, t: T.TransferRow)
    requires PcOk(s, actor, Record(balance, t))
    ensures Even(law, s, Record(balance, t), AfterRecord(s, balance, t))
  {
  }

  lemma PostHoldEven(law: Law, s: State, balance: nat, t: T.TransferRow)
    ensures Even(law, s, PostHold(balance, t), (Append(HoldLegs(t, balance), t.id), Pay(t)))
  {
    TwoLegs(law, HoldLegs(t, balance)[0], HoldLegs(t, balance)[1], t.id);
  }

  lemma SettlementWeight(law: Law, t: T.TransferRow)
    ensures LegsWeight(law, SettlementLegs(t), t.id)
            == EntryWeight(law, Clearing(t.currency), DEBIT, T.Total(t), t.id)
               + EntryWeight(law, L.Settled(t.currency), CREDIT, Money(t.amount, t.currency), t.id)
               + EntryWeight(law, FeeRevenue(t.currency), CREDIT, Money(t.fee, t.currency), t.id)
  {
    var a := Leg(Clearing(t.currency), DEBIT, T.Total(t), None);
    var b := Leg(L.Settled(t.currency), CREDIT, Money(t.amount, t.currency), None);
    TwoLegs(law, a, b, t.id);
    LegsPlusFee(law, a, b, t, t.id);
  }

  lemma SettlementEven(law: Law, s: State, actor: Id, t: T.TransferRow, reply: Reply)
    requires PcOk(s, actor, PostSettlement(t))
    ensures Even(law, s, PostSettlement(t), AfterPostSettlement(t, reply))
  {
    SettlementWeight(law, t);
  }

  lemma OutcomeEven(law: Law, s: State, actor: Id, t: T.TransferRow, reply: Reply)
    requires PcOk(s, actor, SaveOutcome(t))
    ensures Even(law, s, SaveOutcome(t), AfterSaveOutcome(s, t, reply))
  {
    var e := AfterSaveOutcome(s, t, reply).0;
    if e.Fault? && e.anomalies != [] {
      OneAnomaly(law, e.anomalies[0]);
    }
  }

  lemma LoadSourceEven(law: Law, s: State, actor: Id, t: T.TransferRow)
    requires PcOk(s, actor, LoadSource(t))
    ensures Even(law, s, LoadSource(t), (Nothing, AfterLoadSource(s, t)))
  {
  }

  lemma RefundEven(law: Law, s: State, actor: Id, w: Write, t: T.TransferRow)
    requires PcOk(s, actor, SaveRefund(w, t))
    ensures Even(law, s, SaveRefund(w, t), AfterSaveRefund(s, w, t))
  {
  }

  lemma PostRefundEven(law: Law, s: State, balance: nat, t: T.TransferRow)
    ensures Even(law, s, PostRefund(balance, t), (Append(RefundLegs(t, balance), t.id), SaveReversed(t)))
  {
    TwoLegs(law, RefundLegs(t, balance)[0], RefundLegs(t, balance)[1], t.id);
  }

  lemma ReversedEven(law: Law, s: State, actor: Id, t: T.TransferRow)
    requires PcOk(s, actor, SaveReversed(t))
    ensures Even(law, s, SaveReversed(t), (AfterSaveReversed(s, t), Done))
  {
  }

  lemma SettledEven(law: Law, s: State, actor: Id, t: T.TransferRow)
    requires PcOk(s, actor, SaveSettled(t))
    ensures Even(law, s, SaveSettled(t), AfterSaveSettled(s, t))
  {
  }

  lemma PostSettledEven(law: Law, s: State, t: T.TransferRow)
    ensures Even(law, s, PostSettled(t), (Append(SettlementLegs(t), t.id), Done))
  {
    SettlementWeight(law, t);
  }

  lemma InternalWeight(law: Law, t: T.TransferRow, src: A.AccountRow, dst: A.AccountRow)
    ensures LegsWeight(law, InternalLegs(t, src, dst), t.id)
            == EntryWeight(law, Customer(src.id), DEBIT, T.Total(t), t.id)
               + EntryWeight(law, Customer(dst.id), CREDIT, Money(t.amount, t.currency), t.id)
               + EntryWeight(law, FeeRevenue(t.currency), CREDIT, Money(t.fee, t.currency), t.id)
  {
    var a := Leg(Customer(src.id), DEBIT, T.Total(t), Some(src.balance));
    var b := Leg(Customer(dst.id), CREDIT, Money(t.amount, t.currency), Some(dst.balance));
    TwoLegs(law, a, b, t.id);
    LegsPlusFee(law, a, b, t, t.id);
  }

  /** A committed internal transfer moves every total by nothing. */
  lemma MovedChange(law: Law, s: State, src: Write, dst: Write, t: T.TransferRow)
    requires Applied(s, src) && Applied(s, dst)
    requires src.op == A.Debit(T.Total(t)) && dst.op == A.Credit(Money(t.amount, t.currency))
    requires t.id !in s.transfers && t.kind.INTERNAL? && t.status == T.SUCCESSFUL
    ensures Change(law, s, PutInternal(src, dst, t)) == 0
  {
    InternalWeight(law, t, src.copy, dst.copy);
  }

  lemma InternalEven(law: Law, s: State, actor: Id, src: Write, dst: Write, t: T.TransferRow, reply: Reply)
    requires PcOk(s, actor, CommitInternal(src, dst, t))
    ensures Even(law, s, CommitInternal(src, dst, t), AfterCommitInternal(s, src, dst, t, reply))
  {
    var e := AfterCommitInternal(s, src, dst, t, reply).0;
    if e.PutInternal? {
      InternalWritesDiffer(s, src, dst);
      MovedChange(law, s, src, dst, e.t);
    }
  }

  lemma SagaEven(law: Law, s: State, actor: Id, pc: Pc, reply: Reply)
    requires PcOk(s, actor, pc)
    requires pc.SaveHold? || pc.Record? || pc.PostHold? || pc.Pay? || pc.PostSettlement? || pc.SaveOutcome?
    requires EffectOk(s, actor, pc, Decide(s, pc, reply).0)
    ensures Even(law, s, pc, Decide(s, pc, reply))
  {
    match pc
    case SaveHold(w, t) => HoldEven(law, s, actor, w, t);
    case Record(balance, t) => RecordEven(law, s, actor, balance, t);
    case PostHold(balance, t) => PostHoldEven(law, s, balance, t);
    case Pay(t) =>
    case PostSettlement(t) => SettlementEven(law, s, actor, t, reply);
    case SaveOutcome(t) => OutcomeEven(law, s, actor, t, reply);
  }

  lemma DeliveryEven(law: Law, s: State, actor: Id, pc: Pc, reply: Reply)
    requires PcOk(s, actor, pc)
    requires Compensating(pc) || pc.SaveSettled? || pc.PostSettled?
    requires EffectOk(s, actor, pc, Decide(s, pc, reply).0)
    ensures Even(law, s, pc, Decide(s, pc, reply))
  {
    match pc
    case LoadSource(t) => LoadSourceEven(law, s, actor, t);
    case SaveRefund(w, t) => RefundEven(law, s, actor, w, t);
    case PostRefund(balance, t) => PostRefundEven(law, s, balance, t);
    case SaveReversed(t) => ReversedEven(law, s, actor, t);
    case SaveSettled(t) => SettledEven(law, s, actor, t);
    case PostSettled(t) => PostSettledEven(law, s, t);
  }

  lemma OtherEven(law: Law, s: State, actor: Id, pc: Pc, reply: Reply)
    requires PcOk(s, actor, pc)
    requires pc.Done? || pc.SaveAdmin? || pc.LoadDestination? || pc.SaveFailed?
    requires EffectOk(s, actor, pc, Decide(s, pc, reply).0)
    ensures Even(law, s, pc, Decide(s, pc, reply))
  {
  }

  lemma DecideEven(law: Law, s: State, actor: Id, pc: Pc, reply: Reply)
    requires PcOk(s, actor, pc)
    requires EffectOk(s, actor, pc, Decide(s, pc, reply).0)
    ensures Even(law, s, pc, Decide(s, pc, reply))
  {
    if pc.SaveHold? || pc.Record? || pc.PostHold? || pc.Pay? || pc.PostSettlement? || pc.SaveOutcome? {
      SagaEven(law, s, actor, pc, reply);
    } else if Compensating(pc) || pc.SaveSettled? || pc.PostSettled? {
      DeliveryEven(law, s, actor, pc, reply);
    } else if pc.CommitInternal? {
      InternalEven(law, s, actor, pc.src, pc.dst, pc.t, reply);
    } else {
      OtherEven(law, s, actor, pc, reply);
    }
  }

  lemma EffectSound(s: State, actor: Id, pc: Pc, reply: Reply)
    requires Inv(s) && actor in s.actors && s.actors[actor] == pc
    ensures PcOk(s, actor, pc) && EffectOk(s, actor, pc, Decide(s, pc, reply).0)
    ensures Perform(s, Decide(s, pc, reply).0).actors == s.actors
  {
    DecideOk(s, actor, pc, reply);
    PerformEvolves(s, actor, pc, Decide(s, pc, reply).0);
  }

  lemma ActorMoves(law: Law, s: State, actor: Id, pc: Pc)
    requires actor in s.actors
    ensures Measure(law, Start(s, actor, pc)) == Measure(law, s) - PcWeight(law, s.actors[actor]) + PcWeight(law, pc)
  {
    PcsPut(law, s.actors, actor, pc);
  }

  lemma AdvanceKeepsMeasure(law: Law, s: State, actor: Id, pc: Pc, reply: Reply, next: (Effect, Pc))
    requires actor in s.actors && s.actors[actor] == pc && PcOk(s, actor, pc)
    requires next == Decide(s, pc, reply) && EffectOk(s, actor, pc, next.0) && Perform(s, next.0).actors == s.actors
    ensures Measure(law, Start(Perform(s, next.0), actor, next.1)) == Measure(law, s)
  {
    DecideEven(law, s, actor, pc, reply);
    PerformMeasure(law, s, actor, pc, next.0);
    ActorMoves(law, Perform(s, next.0), actor, next.1);
  }

  /** A request holds nothing yet when it starts. */
  lemma StartWeighsNothing(law: Law, s: State, actor: Id, e: Event)
    requires !e.Advance? && !e.RaiseTier? && e.actor == actor && actor !in s.actors
    ensures var s' := Step(s, e);
            actor in s'.actors && PcWeight(law, s'.actors[actor]) == 0
            && s' == Start(s, actor, s'.actors[actor]).(contended := s'.contended)
  {
  }

  lemma StepKeepsMeasure(law: Law, s: State, e: Event)
    requires Inv(s)
    ensures Measure(law, Step(s, e)) == Measure(law, s)
  {
    if e.Advance? {
      if e.actor in s.actors {
        var pc := s.actors[e.actor];
        EffectSound(s, e.actor, pc, e.reply);
        AdvanceKeepsMeasure(law, s, e.actor, pc, e.reply, Decide(s, pc, e.reply));
      }
    } else if !e.RaiseTier? && e.actor !in s.actors {
      StartWeighsNothing(law, s, e.actor, e);
      PcsPut(law, s.actors, e.actor, Step(s, e).actors[e.actor]);
    }
  }

  /** Every law's total is the same after any run, under any interleaving, as before it. */
  lemma {:induction false} LawsHoldOverRuns(law: Law, s: State, events: seq<Event>)
    requires Inv(s)
    ensures Measure(law, Run(s, events)) == Measure(law, s)
  {
    if events != [] {
      var before := events[..|events| - 1];
      LawsHoldOverRuns(law, s, before);
      RunKeepsInv(s, before);
      StepKeepsMeasure(law, Run(s, before), events[|events| - 1]);
    }
  }
}
