/** What every step of the kernel keeps, for every actor, under every interleaving. */
module KernelInvariant {
  import opened Wrappers
  import opened MoneyValue
  import opened KycTiers
  import A = Accounts
  import T = Transfers
  import opened Kernel

  /**
   * A pending account write. If its compare-and-set can still succeed, the copy is the stored row
   * with that one mutator applied: nothing committed in between can be lost.
   */
  ghost predicate WriteOk(s: State, w: Write) {
    && w.copy.id in s.accounts
    && var row := s.accounts[w.copy.id];
    && w.copy.owner == row.owner && w.copy.currency == row.currency
    && 1 <= w.copy.version <= row.version + 1
    && (w.copy.version == row.version + 1 ==> A.Apply(row, w.op) == Success(w.copy))
    && ((w.op.Credit? || w.op.Debit?) ==> w.op.money.currency == row.currency)
  }

  /** A guarded credit was checked against the owner's tier, and tiers only rise. */
  ghost predicate GuardedOk(s: State, w: Write) {
    w.op.Credit? ==> WithinCap(s, w.copy, 0)
  }

  ghost predicate CopyOk(s: State, row: A.AccountRow) {
    && row.id in s.accounts
    && var stored := s.accounts[row.id];
    && row.owner == stored.owner && row.currency == stored.currency
    && row.version <= stored.version && (row.version == stored.version ==> row == stored)
  }

  predicate SameTerms(t: T.TransferRow, u: T.TransferRow) {
    t.id == u.id && t.kind == u.kind && t.source == u.source && t.amount == u.amount && t.fee == u.fee
        && t.currency == u.currency
  }

  /** Still exactly as its initiator first stored it. */
  predicate Untouched(t: T.TransferRow) {
    t.kind.EXTERNAL? && t.version == 0 && t.status == T.PENDING && t.providerRef == None
  }

  /** A transfer that only lives in its initiator's memory so far. */
  ghost predicate UnsavedOk(s: State, actor: Id, t: T.TransferRow) {
    t.id == actor && actor !in s.transfers && t.version == 0 && t.status == T.PENDING && t.providerRef == None
  }

  /** The saga between its first save of the transfer and the last. */
  ghost predicate SagaOk(s: State, actor: Id, t: T.TransferRow) {
    t.id == actor && actor in s.transfers && SameTerms(t, s.transfers[actor]) && Untouched(s.transfers[actor])
    && t.source in s.accounts
  }

  /** A webhook delivery's copy: never ahead of the row, and equal to it when not behind. */
  ghost predicate DeliveryOk(s: State, actor: Id, t: T.TransferRow) {
    && t.id != actor && t.id in s.transfers && t.kind.EXTERNAL? && t.source in s.accounts
    && var row := s.transfers[t.id];
    && SameTerms(t, row) && !T.Terminal(t.status)
    && 1 <= row.version && t.version <= row.version && (t.version == row.version ==> t == row)
  }

  ghost predicate RefundOk(s: State, actor: Id, t: T.TransferRow) {
    if t.id == actor then
      SagaOk(s, actor, t) && (t == s.transfers[actor] || (actor in s.faulted && t.version == 1))
    else
      DeliveryOk(s, actor, t) && (t.id !in s.contended ==> t == s.transfers[t.id])
  }

  ghost predicate PcOk(s: State, actor: Id, pc: Pc) {
    match pc
    case Done => true
    case SaveAdmin(w) => WriteOk(s, w) && GuardedOk(s, w)
    case SaveHold(w, t) =>
      UnsavedOk(s, actor, t) && t.kind.EXTERNAL? && WriteOk(s, w) && w.copy.id == t.source
          && w.op == A.Debit(T.Total(t))
    case Record(_, t) => UnsavedOk(s, actor, t) && t.kind.EXTERNAL? && t.source in s.accounts
    case PostHold(_, t) => SagaOk(s, actor, t) && t == s.transfers[actor]
    case Pay(t) => SagaOk(s, actor, t) && t == s.transfers[actor]
    case PostSettlement(t) => SagaOk(s, actor, t) && t.version == 1 && t.status == T.SUCCESSFUL
    case SaveOutcome(t) =>
      SagaOk(s, actor, t) && t.version == 1 && (t.status == T.SUCCESSFUL || t.status == T.PROCESSING)
    case LoadSource(t) => RefundOk(s, actor, t)
    case SaveRefund(w, t) =>
      RefundOk(s, actor, t) && WriteOk(s, w) && w.copy.id == t.source && w.op == A.Credit(T.Total(t))
    case PostRefund(_, t) => RefundOk(s, actor, t)
    case SaveReversed(t) => RefundOk(s, actor, t)
    case SaveSettled(t) => DeliveryOk(s, actor, t)
    case PostSettled(t) => t.kind.EXTERNAL? && t.status == T.SUCCESSFUL
    case LoadDestination(source, t) => UnsavedOk(s, actor, t) && t.kind.INTERNAL? && CopyOk(s, source)
        && source.id == t.source
    case CommitInternal(src, dst, t) =>
      && UnsavedOk(s, actor, t) && t.kind.INTERNAL?
      && WriteOk(s, src) && src.copy.id == t.source && src.op == A.Debit(T.Total(t))
      && WriteOk(s, dst) && dst.copy.id == t.kind.destination && dst.op == A.Credit(Money(t.amount, t.currency))
      && GuardedOk(s, dst)
    case SaveFailed(t) =>
      t.id == actor && actor !in s.transfers && t.version == 1 && t.status == T.FAILED && t.kind.INTERNAL?
      && t.providerRef == None
  }

  ghost predicate RowsOk(s: State) {
    && (forall id :: id in s.accounts ==> s.accounts[id].id == id)
    && (forall x :: x in s.transfers ==> s.transfers[x].id == x && x in s.actors)
    && (forall x :: x in s.transfers && s.transfers[x].kind.EXTERNAL? && s.transfers[x].version == 0 ==>
        Untouched(s.transfers[x]))
    && (forall x :: x in s.transfers && s.transfers[x].kind.EXTERNAL? ==> s.transfers[x].source in s.accounts)
    && (forall x :: x in s.transfers && s.transfers[x].kind.INTERNAL? ==>
          T.Terminal(s.transfers[x].status) && s.transfers[x].providerRef == None)
  }

  /** A webhook delivery that refunds, before its row is reversed. */
  predicate RefundingDelivery(actor: Id, pc: Pc) {
    Compensating(pc) && pc.t.id != actor
  }

  /** A refunding delivery of a transfer without contention is alone on it. */
  ghost predicate Exclusive(s: State) {
    forall a, b :: a in s.actors && b in s.actors && a != b && RefundingDelivery(a, s.actors[a])
                   && s.actors[a].t.id !in s.contended
                   ==> !OpenOn(s.actors[b], s.actors[a].t.id)
  }

  ghost predicate ActorsOk(s: State) {
    forall a :: a in s.actors ==> PcOk(s, a, s.actors[a])
  }

  ghost predicate Inv(s: State) {
    RowsOk(s) && ActorsOk(s) && Exclusive(s)
  }

  // ---- What other actors rely on

  /** Every committed account write moves the row by one version and keeps its owner and currency. */
  ghost predicate AccountsEvolve(s: State, s': State) {
    forall id :: id in s.accounts ==>
      && id in s'.accounts
      && s'.accounts[id].owner == s.accounts[id].owner && s'.accounts[id].currency == s.accounts[id].currency
      && (s'.accounts[id] == s.accounts[id] || s'.accounts[id].version == s.accounts[id].version + 1)
  }

  ghost predicate TiersRise(s: State, s': State) {
    forall user :: TierOf(s, user).Rank() <= TierOf(s', user).Rank()
  }

  /** What a step of `writer` may do to the transfer rows. */
  ghost predicate TransfersEvolve(s: State, s': State, writer: Id) {
    && (forall x :: x in s.transfers ==> x in s'.transfers)
    && (forall x :: x in s'.transfers && x !in s.transfers ==> x == writer)
    && (forall x :: x in s.transfers && s'.transfers[x] != s.transfers[x] ==>
          && SameTerms(s'.transfers[x], s.transfers[x]) && s'.transfers[x].version == s.transfers[x].version + 1
          && !T.Terminal(s.transfers[x].status)
          && (if x == writer then Untouched(s.transfers[x])
              else 1 <= s.transfers[x].version && writer in s.actors && OpenOn(s.actors[writer], x)))
  }

  /** What a step of another request may have done between `s` and `s'`. */
  ghost predicate Elsewhere(s: State, s': State, writer: Id) {
    AccountsEvolve(s, s') && TransfersEvolve(s, s', writer) && TiersRise(s, s') && s.faulted <= s'.faulted
  }

  lemma RefundKept(s: State, s': State, writer: Id, a: Id, t: T.TransferRow)
    requires RefundOk(s, a, t) && a != writer && Elsewhere(s, s', writer)
    requires s.contended <= s'.contended
    requires t.id != a && t.id !in s.contended && t.id in s.transfers ==> s'.transfers[t.id] == s.transfers[t.id]
    ensures RefundOk(s', a, t)
  {
  }

  lemma WriteKept(s: State, s': State, w: Write)
    requires WriteOk(s, w) && AccountsEvolve(s, s')
    ensures WriteOk(s', w)
  {
  }

  lemma CompensationKept(s: State, s': State, writer: Id, a: Id, pc: Pc)
    requires PcOk(s, a, pc) && a != writer && Compensating(pc)
    requires a in s.actors && s.actors[a] == pc
    requires Elsewhere(s, s', writer) && s.contended <= s'.contended
    requires Exclusive(s)
    ensures PcOk(s', a, pc)
  {
    if pc.t.id != a && pc.t.id !in s.contended {
      assert RefundingDelivery(a, s.actors[a]);
      assert s'.transfers[pc.t.id] == s.transfers[pc.t.id];
    }
    RefundKept(s, s', writer, a, pc.t);
    if pc.SaveRefund? { WriteKept(s, s', pc.w); }
  }

  predicate InSaga(pc: Pc) {
    pc.SaveHold? || pc.Record? || pc.PostHold? || pc.Pay? || pc.PostSettlement? || pc.SaveOutcome?
  }

  lemma SagaKept(s: State, s': State, writer: Id, a: Id, pc: Pc)
    requires PcOk(s, a, pc) && a != writer && InSaga(pc) && Elsewhere(s, s', writer)
    ensures PcOk(s', a, pc)
  {
  }

  lemma MoveKept(s: State, s': State, writer: Id, a: Id, pc: Pc)
    requires PcOk(s, a, pc) && a != writer && !InSaga(pc) && !Compensating(pc) && Elsewhere(s, s', writer)
    ensures PcOk(s', a, pc)
  {
  }

  lemma OthersKept(s: State, s': State, writer: Id, a: Id, pc: Pc)
    requires PcOk(s, a, pc) && a != writer
    requires a in s.actors && s.actors[a] == pc
    requires Elsewhere(s, s', writer) && s.contended <= s'.contended
    requires Exclusive(s)
    ensures PcOk(s', a, pc)
  {
    if Compensating(pc) {
      CompensationKept(s, s', writer, a, pc);
    } else if InSaga(pc) {
      SagaKept(s, s', writer, a, pc);
    } else {
      MoveKept(s, s', writer, a, pc);
    }
  }

  /** Two saves in one transaction commit only if they are to different rows. */
  lemma InternalWritesDiffer(s: State, src: Write, dst: Write)
    requires WriteOk(s, src) && WriteOk(s, dst)
    requires A.Saved(s.accounts, src.copy).Some? && A.Saved(A.Saved(s.accounts, src.copy).value, dst.copy).Some?
    ensures src.copy.id != dst.copy.id
    ensures A.Saved(s.accounts, dst.copy).Some?
  {
  }

  /** What an effect may be, given where the actor is. */
  ghost predicate EffectOk(s: State, actor: Id, pc: Pc, e: Effect) {
    match e
    case PutAccount(w, _) => Applied(s, w)
    case PutTransfer(t) => PutOk(s, actor, pc, t)
    case PutInternal(src, dst, t) =>
      src.copy.id != dst.copy.id && Applied(s, src) && Applied(s, dst)
      && t.id == actor && actor !in s.transfers && t.kind.INTERNAL? && T.Terminal(t.status) && t.providerRef == None
    case _ => true
  }

  ghost predicate Applied(s: State, w: Write) {
    w.copy.id in s.accounts && A.Apply(s.accounts[w.copy.id], w.op) == Success(w.copy)
  }

  ghost predicate PutOk(s: State, actor: Id, pc: Pc, t: T.TransferRow) {
    && (t.kind.EXTERNAL? ==> t.source in s.accounts)
    && (t.kind.INTERNAL? ==> T.Terminal(t.status) && t.providerRef == None)
    && if t.id !in s.transfers then t.id == actor && (t.kind.EXTERNAL? ==> Untouched(t))
       else
         var row := s.transfers[t.id];
         && SameTerms(t, row) && t.kind.EXTERNAL? && t.version == row.version + 1 && !T.Terminal(row.status)
         && (if t.id == actor then Untouched(row) else 1 <= row.version && OpenOn(pc, t.id))
  }

  /** A sound step: a permitted effect, then a program counter that is sound in the state it leaves. */
  ghost predicate StepOk(s: State, actor: Id, pc: Pc, next: (Effect, Pc)) {
    && EffectOk(s, actor, pc, next.0)
    && PcOk(Perform(s, next.0), actor, next.1)
    // Only the saga opens compensation, and only on its own transfer.
    && (Compensating(next.1) ==> next.1.t.id == actor || (Compensating(pc) && pc.t.id == next.1.t.id))
    && !next.1.SaveSettled?
  }

  lemma SaveHoldOk(s: State, actor: Id, w: Write, t: T.TransferRow)
    requires PcOk(s, actor, SaveHold(w, t))
    ensures StepOk(s, actor, SaveHold(w, t), AfterSaveHold(s, w, t))
  {
  }

  lemma RecordOk(s: State, actor: Id, balance: nat, t: T.TransferRow)
    requires PcOk(s, actor, Record(balance, t))
    ensures StepOk(s, actor, Record(balance, t), AfterRecord(s, balance, t))
  {
  }

  lemma PayOk(s: State, actor: Id, t: T.TransferRow, reply: Reply)
    requires PcOk(s, actor, Pay(t))
    ensures StepOk(s, actor, Pay(t), (Nothing, AfterPay(t, reply)))
  {
  }

  lemma PostSettlementOk(s: State, actor: Id, t: T.TransferRow, reply: Reply)
    requires PcOk(s, actor, PostSettlement(t))
    ensures StepOk(s, actor, PostSettlement(t), AfterPostSettlement(t, reply))
  {
  }

  lemma SaveOutcomeOk(s: State, actor: Id, t: T.TransferRow, reply: Reply)
    requires PcOk(s, actor, SaveOutcome(t))
    ensures StepOk(s, actor, SaveOutcome(t), AfterSaveOutcome(s, t, reply))
  {
  }

  lemma LoadSourceOk(s: State, actor: Id, t: T.TransferRow)
    requires PcOk(s, actor, LoadSource(t)) && RowsOk(s)
    ensures StepOk(s, actor, LoadSource(t), (Nothing, AfterLoadSource(s, t)))
  {
  }

  lemma SaveRefundOk(s: State, actor: Id, w: Write, t: T.TransferRow)
    requires PcOk(s, actor, SaveRefund(w, t))
    ensures StepOk(s, actor, SaveRefund(w, t), AfterSaveRefund(s, w, t))
  {
  }

  lemma SaveReversedOk(s: State, actor: Id, t: T.TransferRow)
    requires PcOk(s, actor, SaveReversed(t))
    ensures StepOk(s, actor, SaveReversed(t), (AfterSaveReversed(s, t), Done))
  {
  }

  lemma SaveSettledOk(s: State, actor: Id, t: T.TransferRow)
    requires PcOk(s, actor, SaveSettled(t))
    ensures StepOk(s, actor, SaveSettled(t), AfterSaveSettled(s, t))
  {
  }

  lemma LoadDestinationOk(s: State, actor: Id, source: A.AccountRow, t: T.TransferRow)
    requires PcOk(s, actor, LoadDestination(source, t)) && RowsOk(s)
    ensures StepOk(s, actor, LoadDestination(source, t), (Nothing, PrepareInternal(s, source, t)))
  {
  }

  lemma CommitInternalOk(s: State, actor: Id, src: Write, dst: Write, t: T.TransferRow, reply: Reply)
    requires PcOk(s, actor, CommitInternal(src, dst, t))
    ensures StepOk(s, actor, CommitInternal(src, dst, t), AfterCommitInternal(s, src, dst, t, reply))
  {
    if AfterCommitInternal(s, src, dst, t, reply).0.PutInternal? {
      InternalWritesDiffer(s, src, dst);
    }
  }

  lemma PostingsOk(s: State, actor: Id, pc: Pc, reply: Reply)
    requires PcOk(s, actor, pc) && (pc.PostHold? || pc.PostRefund? || pc.PostSettled?)
    ensures StepOk(s, actor, pc, Decide(s, pc, reply))
  {
  }

  lemma LastSavesOk(s: State, actor: Id, pc: Pc, reply: Reply)
    requires PcOk(s, actor, pc) && (pc.Done? || pc.SaveAdmin? || pc.SaveFailed?)
    ensures StepOk(s, actor, pc, Decide(s, pc, reply))
  {
  }

  lemma SagaStepOk(s: State, actor: Id, pc: Pc, reply: Reply)
    requires PcOk(s, actor, pc)
    requires pc.SaveHold? || pc.Record? || pc.Pay? || pc.PostSettlement? || pc.SaveOutcome?
    ensures StepOk(s, actor, pc, Decide(s, pc, reply))
  {
    match pc
    case SaveHold(w, t) => SaveHoldOk(s, actor, w, t);
    case Record(balance, t) => RecordOk(s, actor, balance, t);
    case Pay(t) => PayOk(s, actor, t, reply);
    case PostSettlement(t) => PostSettlementOk(s, actor, t, reply);
    case SaveOutcome(t) => SaveOutcomeOk(s, actor, t, reply);
  }

  lemma DeliveryStepOk(s: State, actor: Id, pc: Pc, reply: Reply)
    requires PcOk(s, actor, pc) && RowsOk(s)
    requires pc.LoadSource? || pc.SaveRefund? || pc.SaveReversed? || pc.SaveSettled?
    ensures StepOk(s, actor, pc, Decide(s, pc, reply))
  {
    match pc
    case LoadSource(t) => LoadSourceOk(s, actor, t);
    case SaveRefund(w, t) => SaveRefundOk(s, actor, w, t);
    case SaveReversed(t) => SaveReversedOk(s, actor, t);
    case SaveSettled(t) => SaveSettledOk(s, actor, t);
  }

  lemma MoveStepOk(s: State, actor: Id, pc: Pc, reply: Reply)
    requires PcOk(s, actor, pc) && RowsOk(s)
    requires pc.LoadDestination? || pc.CommitInternal?
    ensures StepOk(s, actor, pc, Decide(s, pc, reply))
  {
    match pc
    case LoadDestination(source, t) => LoadDestinationOk(s, actor, source, t);
    case CommitInternal(src, dst, t) => CommitInternalOk(s, actor, src, dst, t, reply);
  }

  lemma DecideOk(s: State, actor: Id, pc: Pc, reply: Reply)
    requires PcOk(s, actor, pc) && RowsOk(s)
    ensures StepOk(s, actor, pc, Decide(s, pc, reply))
  {
    if pc.SaveHold? || pc.Record? || pc.Pay? || pc.PostSettlement? || pc.SaveOutcome? {
      SagaStepOk(s, actor, pc, reply);
    } else if pc.LoadSource? || pc.SaveRefund? || pc.SaveReversed? || pc.SaveSettled? {
      DeliveryStepOk(s, actor, pc, reply);
    } else if pc.LoadDestination? || pc.CommitInternal? {
      MoveStepOk(s, actor, pc, reply);
    } else if pc.PostHold? || pc.PostRefund? || pc.PostSettled? {
      PostingsOk(s, actor, pc, reply);
    } else {
      LastSavesOk(s, actor, pc, reply);
    }
  }

  lemma WroteEvolves(s: State, w: Write, origin: Origin)
    requires RowsOk(s) && Applied(s, w)
    ensures var s' := Wrote(s, w, origin); AccountsEvolve(s, s') && RowsOk(s')
  {
  }

  lemma StoredKeepsRows(s: State, actor: Id, pc: Pc, t: T.TransferRow)
    requires RowsOk(s) && actor in s.actors && PutOk(s, actor, pc, t)
    ensures RowsOk(Stored(s, t))
  {
  }

  lemma StoredEvolves(s: State, actor: Id, pc: Pc, t: T.TransferRow)
    requires RowsOk(s) && actor in s.actors && s.actors[actor] == pc && PutOk(s, actor, pc, t)
    ensures TransfersEvolve(s, Stored(s, t), actor)
  {
  }

  lemma AccountPut(s: State, actor: Id, w: Write, origin: Origin)
    requires RowsOk(s) && Applied(s, w)
    ensures Evolves(s, Wrote(s, w, origin), actor)
  {
    WroteEvolves(s, w, origin);
  }

  lemma TransferPut(s: State, actor: Id, pc: Pc, t: T.TransferRow)
    requires RowsOk(s) && actor in s.actors && s.actors[actor] == pc && PutOk(s, actor, pc, t)
    ensures Evolves(s, Stored(s, t), actor)
  {
    StoredEvolves(s, actor, pc, t);
    StoredKeepsRows(s, actor, pc, t);
  }

  lemma PerformEvolves(s: State, actor: Id, pc: Pc, e: Effect)
    requires RowsOk(s) && actor in s.actors && s.actors[actor] == pc && EffectOk(s, actor, pc, e)
    ensures Evolves(s, Perform(s, e), actor) && Perform(s, e).actors == s.actors
  {
    match e
    case PutAccount(w, origin) => AccountPut(s, actor, w, origin);
    case PutTransfer(t) => TransferPut(s, actor, pc, t);
    case PutInternal(src, dst, t) => InternalEvolves(s, actor, pc, src, dst, t);
    case _ => RowsUntouched(s, Perform(s, e), actor);
  }

  lemma RowsUntouched(s: State, s': State, actor: Id)
    requires RowsOk(s)
    requires s' == s.(journal := s'.journal, anomalies := s'.anomalies, faulted := s.faulted + s'.faulted)
    ensures Evolves(s, s', actor)
  {
  }

  lemma InternalEvolves(s: State, actor: Id, pc: Pc, src: Write, dst: Write, t: T.TransferRow)
    requires RowsOk(s) && actor in s.actors && s.actors[actor] == pc && EffectOk(s, actor, pc, PutInternal(src, dst, t))
    ensures Evolves(s, Perform(s, PutInternal(src, dst, t)), actor)
  {
    var two := TwoWritesEvolve(s, src, dst, Movement(t.id));
    InternalStored(s, Posted(two, InternalLegs(t, src.copy, dst.copy), t.id), actor, t);
  }

  lemma InternalStored(s: State, posted: State, actor: Id, t: T.TransferRow)
    requires RowsOk(s) && AccountsEvolve(s, posted) && actor in s.actors
    requires posted == s.(accounts := posted.accounts, journal := posted.journal, log := posted.log)
    requires forall id :: id in posted.accounts ==> posted.accounts[id].id == id
    requires t.id == actor && actor !in s.transfers && t.kind.INTERNAL? && T.Terminal(t.status) && t.providerRef == None
    ensures Evolves(s, Stored(posted, t), actor)
  {
  }

  lemma TwoWritesEvolve(s: State, src: Write, dst: Write, origin: Origin) returns (two: State)
    requires RowsOk(s) && src.copy.id != dst.copy.id && Applied(s, src) && Applied(s, dst)
    ensures two == Wrote(Wrote(s, src, origin), dst, origin)
    ensures AccountsEvolve(s, two) && RowsOk(two)
  {
    two := Wrote(Wrote(s, src, origin), dst, origin);
    WroteEvolves(s, src, origin);
    WroteEvolves(Wrote(s, src, origin), dst, origin);
  }

  /** Everything the other actors and the rows may assume of one actor's step. */
  ghost predicate Evolves(s: State, s': State, actor: Id) {
    && AccountsEvolve(s, s') && TransfersEvolve(s, s', actor) && TiersRise(s, s') && RowsOk(s')
    && s.faulted <= s'.faulted && s'.contended == s.contended
  }

  lemma ActorStepped(s: State, s1: State, s': State, actor: Id, pc: Pc)
    requires Inv(s) && actor in s.actors
    requires Evolves(s, s1, actor) && s1.actors == s.actors && PcOk(s1, actor, pc)
    requires s' == s1.(actors := s1.actors[actor := pc])
    requires Compensating(pc) ==> pc.t.id == actor || (Compensating(s.actors[actor]) && s.actors[actor].t.id == pc.t.id)
    requires !pc.SaveSettled?
    ensures Inv(s')
  {
    forall a | a in s'.actors ensures PcOk(s', a, s'.actors[a]) {
      if a == actor {
        ActorsIrrelevant(s1, s', a, pc);
      } else {
        assert PcOk(s, a, s.actors[a]);
        OthersKept(s, s1, actor, a, s.actors[a]);
        ActorsIrrelevant(s1, s', a, s.actors[a]);
      }
    }
    AdvanceExclusive(s, s', actor, pc);
  }

  lemma AdvanceStep(s: State, actor: Id, reply: Reply)
    requires actor in s.actors
    ensures Step(s, Advance(actor, reply))
            == Start(Perform(s, Decide(s, s.actors[actor], reply).0), actor, Decide(s, s.actors[actor], reply).1)
  {
  }

  lemma AdvanceSound(s: State, actor: Id, reply: Reply)
    requires Inv(s) && actor in s.actors
    ensures var next := Decide(s, s.actors[actor], reply);
            StepOk(s, actor, s.actors[actor], next)
            && Evolves(s, Perform(s, next.0), actor) && Perform(s, next.0).actors == s.actors
  {
    var pc := s.actors[actor];
    assert PcOk(s, actor, pc);
    DecideOk(s, actor, pc, reply);
    PerformEvolves(s, actor, pc, Decide(s, pc, reply).0);
  }

  lemma AdvanceKeepsInv(s: State, actor: Id, reply: Reply)
    requires Inv(s) && actor in s.actors
    ensures Inv(Step(s, Advance(actor, reply)))
  {
    var next := Decide(s, s.actors[actor], reply);
    AdvanceSound(s, actor, reply);
    AdvanceStep(s, actor, reply);
    ActorStepped(s, Perform(s, next.0), Start(Perform(s, next.0), actor, next.1), actor, next.1);
  }

  lemma ActorsIrrelevant(s: State, s': State, a: Id, pc: Pc)
    requires PcOk(s, a, pc)
    requires s' == s.(actors := s'.actors)
    ensures PcOk(s', a, pc)
  {
  }

  lemma AdvanceExclusive(s: State, s': State, actor: Id, pc: Pc)
    requires Exclusive(s) && actor in s.actors && ActorsOk(s')
    requires s'.actors == s.actors[actor := pc] && s'.contended == s.contended
    requires Compensating(pc) ==> pc.t.id == actor || (Compensating(s.actors[actor]) && s.actors[actor].t.id == pc.t.id)
    requires !pc.SaveSettled?
    ensures Exclusive(s')
  {
    forall a, b | a in s'.actors && b in s'.actors && a != b && RefundingDelivery(a, s'.actors[a])
                    && s'.actors[a].t.id !in s'.contended
      ensures !OpenOn(s'.actors[b], s'.actors[a].t.id)
    {
      assert PcOk(s', a, s'.actors[a]) && PcOk(s', b, s'.actors[b]);
      if a == actor {
        assert RefundingDelivery(a, s.actors[a]);
      }
    }
  }

  /** A request starts: the stored rows do not change, and its first program counter is sound. */
  lemma StartKeepsInv(s: State, actor: Id, pc: Pc, contended: set<Id>)
    requires Inv(s) && actor !in s.actors
    requires s.contended <= contended
    requires PcOk(Start(s, actor, pc).(contended := contended), actor, pc)
    requires Exclusive(Start(s, actor, pc).(contended := contended))
    ensures Inv(Start(s, actor, pc).(contended := contended))
  {
    var s' := Start(s, actor, pc).(contended := contended);
    forall a | a in s'.actors ensures PcOk(s', a, s'.actors[a]) {
      if a != actor {
        assert PcOk(s, a, s.actors[a]);
        OthersKept(s, s', actor, a, s.actors[a]);
      }
    }
  }

  lemma StartExclusive(s: State, actor: Id, pc: Pc)
    requires Inv(s) && actor !in s.actors
    requires !Compensating(pc) && !pc.SaveSettled?
    ensures Exclusive(Start(s, actor, pc))
  {
  }

  lemma DeliverExclusive(s: State, actor: Id, row: T.TransferRow, success: bool)
    requires Inv(s) && actor !in s.actors && row.id in s.transfers
    ensures var pc := if success then SaveSettled(row) else LoadSource(row);
            Exclusive(Start(s, actor, pc).(contended := s.contended + Contention(s, row.id, success, pc)))
  {
    var pc := if success then SaveSettled(row) else LoadSource(row);
    var s' := Start(s, actor, pc).(contended := s.contended + Contention(s, row.id, success, pc));
    forall a, b | a in s'.actors && b in s'.actors && a != b && RefundingDelivery(a, s'.actors[a])
                  && s'.actors[a].t.id !in s'.contended
      ensures !OpenOn(s'.actors[b], s'.actors[a].t.id)
    {
      if a != actor {
        assert RefundingDelivery(a, s.actors[a]);
        assert OpenOn(s.actors[a], s.actors[a].t.id);
      }
    }
  }

  lemma DeliverStartsOk(s: State, actor: Id, transfer: Id, ref: T.ProviderRef, success: bool)
    requires RowsOk(s) && actor !in s.actors
    ensures PcOk(s, actor, StartDelivery(s, transfer, ref, success))
  {
  }

  lemma DeliverKeepsInv(s: State, actor: Id, transfer: Id, ref: T.ProviderRef, success: bool)
    requires Inv(s) && actor !in s.actors
    ensures Inv(Step(s, Deliver(actor, transfer, ref, success)))
  {
    var pc := StartDelivery(s, transfer, ref, success);
    var contended := s.contended + Contention(s, transfer, success, pc);
    DeliverStartsOk(s, actor, transfer, ref, success);
    if pc.Done? {
      StartExclusive(s, actor, pc);
    } else {
      DeliverExclusive(s, actor, s.transfers[transfer], success);
    }
    DeliveryRelabelled(s, actor, pc, contended);
    StartKeepsInv(s, actor, pc, contended);
  }

  lemma DeliveryRelabelled(s: State, actor: Id, pc: Pc, contended: set<Id>)
    requires PcOk(s, actor, pc) && s.contended <= contended
    ensures PcOk(Start(s, actor, pc).(contended := contended), actor, pc)
  {
  }

  lemma AdminStartsOk(s: State, actor: Id, account: Id, op: A.AccountOp)
    requires RowsOk(s) && actor !in s.actors
    ensures PcOk(s, actor, StartAdmin(s, account, op))
  {
  }

  lemma HoldStartsOk(s: State, actor: Id, account: Id, user: Id, amount: nat, fee: nat)
    requires RowsOk(s) && actor !in s.actors
    ensures PcOk(s, actor, StartHold(s, actor, account, user, amount, fee))
  {
  }

  lemma MoveStartsOk(s: State, actor: Id, t: T.TransferRow)
    requires RowsOk(s) && actor !in s.actors && UnsavedOk(s, actor, t) && t.kind.INTERNAL?
    ensures PcOk(s, actor, StartMove(s, t))
  {
  }

  /** A request other than a delivery starts. */
  lemma CallKeepsInv(s: State, actor: Id, pc: Pc)
    requires Inv(s) && actor !in s.actors && PcOk(s, actor, pc)
    requires !Compensating(pc) && !pc.SaveSettled?
    ensures Inv(Start(s, actor, pc))
  {
    assert Start(s, actor, pc) == Start(s, actor, pc).(contended := s.contended);
    ActorsIrrelevant(s, Start(s, actor, pc), actor, pc);
    StartExclusive(s, actor, pc);
    StartKeepsInv(s, actor, pc, s.contended);
  }

  lemma RequestKeepsInv(s: State, e: Event)
    requires Inv(s) && (e.AdminCall? || e.StartExternal? || e.StartInternal?) && e.actor !in s.actors
    ensures Inv(Step(s, e))
  {
    match e
    case AdminCall(actor, account, op) =>
      AdminStartsOk(s, actor, account, op);
      CallKeepsInv(s, actor, StartAdmin(s, account, op));
    case StartExternal(actor, account, user, amount, fee) =>
      HoldStartsOk(s, actor, account, user, amount, fee);
      CallKeepsInv(s, actor, StartHold(s, actor, account, user, amount, fee));
    case StartInternal(actor, src, dst, user, money, fee) =>
      var t := T.Initiated(actor, T.INTERNAL(dst), user, src, money.minorUnits, fee, money.currency);
      MoveStartsOk(s, actor, t);
      CallKeepsInv(s, actor, StartMove(s, t));
  }

  lemma {:induction false} StepKeepsInv(s: State, e: Event)
    requires Inv(s)
    ensures Inv(Step(s, e))
  {
    match e
    case Advance(actor, reply) => if actor in s.actors { AdvanceKeepsInv(s, actor, reply); }
    case RaiseTier(user, tier) => RaiseKeepsInv(s, Step(s, e).tiers);
    case Deliver(actor, transfer, ref, success) =>
      if actor !in s.actors { DeliverKeepsInv(s, actor, transfer, ref, success); }
    case _ => if e.actor !in s.actors { RequestKeepsInv(s, e); }
  }

  lemma RaiseKeepsInv(s: State, tiers: map<Id, KycTier>)
    requires Inv(s) && TiersRise(s, s.(tiers := tiers))
    ensures Inv(s.(tiers := tiers))
  {
    var s' := s.(tiers := tiers);
    forall a | a in s'.actors ensures PcOk(s', a, s'.actors[a]) {
      assert PcOk(s, a, s.actors[a]);
      OthersKept(s, s', a + 1, a, s.actors[a]);
    }
  }

  /** The invariant holds after any events, in any interleaving. */
  lemma {:induction false} RunKeepsInv(s: State, events: seq<Event>)
    requires Inv(s)
    ensures Inv(Run(s, events))
  {
    if events != [] {
      RunKeepsInv(s, events[..|events| - 1]);
      StepKeepsInv(Run(s, events[..|events| - 1]), events[|events| - 1]);
    }
  }

  lemma InitialInv(s: State)
    requires Initial(s)
    ensures Inv(s)
  {
  }
}
