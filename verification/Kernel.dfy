/**
 * The money-movement kernel as a state machine. Each running request is an actor with a program
 * counter; one step performs one database call, or the provider call, of one actor. Any number of
 * actors interleave. A crashed actor is one that is never scheduled again.
 */
module Kernel {
  import opened Wrappers
  import opened MoneyValue
  import opened KycTiers
  import A = Accounts
  import T = Transfers
  import opened L = Ledger

  /** A mutated in-memory copy that is about to be saved, with the mutator that produced it. */
  datatype Write = Write(copy: A.AccountRow, op: A.AccountOp)

  datatype Origin = Admin | Movement(transfer: Id) | Refund(transfer: Id)

  /** One committed account mutation. */
  datatype Commit = Commit(account: Id, op: A.AccountOp, origin: Origin)

  /** A posting that the stored transfer row will never account for. */
  datatype Anomaly = LostReversal(t: T.TransferRow) | UnsavedSettlement(t: T.TransferRow)

  /** Where a request is, with the locals it still needs. */
  datatype Pc =
    | Done
    | SaveAdmin(w: Write)
      // external saga
    | SaveHold(w: Write, t: T.TransferRow)
    | Record(balance: nat, t: T.TransferRow)
    | PostHold(balance: nat, t: T.TransferRow)
    | Pay(t: T.TransferRow)
    | PostSettlement(t: T.TransferRow)
    | SaveOutcome(t: T.TransferRow)
      // compensation, shared by the saga's catch block and the late-failure webhook
    | LoadSource(t: T.TransferRow)
    | SaveRefund(w: Write, t: T.TransferRow)
    | PostRefund(balance: nat, t: T.TransferRow)
    | SaveReversed(t: T.TransferRow)
      // success webhook
    | SaveSettled(t: T.TransferRow)
    | PostSettled(t: T.TransferRow)
      // internal executor
    | LoadDestination(source: A.AccountRow, t: T.TransferRow)
    | CommitInternal(src: Write, dst: Write, t: T.TransferRow)
    | SaveFailed(t: T.TransferRow)

  datatype State = State(
    accounts: map<Id, A.AccountRow>,
    transfers: map<Id, T.TransferRow>,
    journal: seq<Entry>,
    tiers: map<Id, KycTier>,
    actors: map<Id, Pc>,
    log: seq<Commit>,
    anomalies: seq<Anomaly>,
    faulted: set<Id>,    // transfers whose saga had a write inside its try block throw
    // transfers with a delivery that started before an earlier one had finished, a failure among them
    contended: set<Id>)

  /** How a call returns. `Settled` and `Accepted` are the provider's answers. */
  datatype Reply = Ok | Throws | ThrowsLate | Settled | Accepted(ref: T.ProviderRef)

  datatype Event =
    | AdminCall(actor: Id, account: Id, op: A.AccountOp)
    | StartExternal(actor: Id, account: Id, user: Id, amount: nat, fee: nat)
    | StartInternal(actor: Id, src: Id, dst: Id, user: Id, money: Money, fee: nat)
    | Deliver(actor: Id, transfer: Id, ref: T.ProviderRef, success: bool)
    | Advance(actor: Id, reply: Reply)
    | RaiseTier(user: Id, tier: KycTier)

  // ---- Postings

  function FeeLeg(t: T.TransferRow): seq<Leg> {
    if t.fee == 0 then [] else [Leg(FeeRevenue(t.currency), CREDIT, Money(t.fee, t.currency), None)]
  }

  function HoldLegs(t: T.TransferRow, balance: nat): seq<Leg> {
    [Leg(Customer(t.source), DEBIT, T.Total(t), Some(balance)), Leg(Clearing(t.currency), CREDIT, T.Total(t), None)]
  }

  function SettlementLegs(t: T.TransferRow): seq<Leg> {
    [Leg(Clearing(t.currency), DEBIT, T.Total(t), None),
     Leg(L.Settled(t.currency), CREDIT, Money(t.amount, t.currency), None)] + FeeLeg(t)
  }

  function RefundLegs(t: T.TransferRow, balance: nat): seq<Leg> {
    [Leg(Clearing(t.currency), DEBIT, T.Total(t), None), Leg(Customer(t.source), CREDIT, T.Total(t), Some(balance))]
  }

  function InternalLegs(t: T.TransferRow, src: A.AccountRow, dst: A.AccountRow): seq<Leg> {
    [Leg(Customer(src.id), DEBIT, T.Total(t), Some(src.balance)),
     Leg(Customer(dst.id), CREDIT, Money(t.amount, t.currency), Some(dst.balance))] + FeeLeg(t)
  }

  // ---- Effects of one step on the database

  datatype Effect =
    | Nothing
    | PutAccount(w: Write, origin: Origin)
    | PutTransfer(t: T.TransferRow)
    | Append(legs: seq<Leg>, reference: Id)
    | PutInternal(src: Write, dst: Write, t: T.TransferRow)
    | Fault(transfer: Id, anomalies: seq<Anomaly>)
    | Note(anomaly: Anomaly)

  function Wrote(s: State, w: Write, origin: Origin): State {
    s.(accounts := s.accounts[w.copy.id := w.copy], log := s.log + [Commit(w.copy.id, w.op, origin)])
  }

  function Stored(s: State, t: T.TransferRow): State {
    s.(transfers := s.transfers[t.id := t])
  }

  function Posted(s: State, legs: seq<Leg>, reference: Id): State {
    s.(journal := s.journal + Rows(s.journal, legs, reference))
  }

  function Perform(s: State, e: Effect): State {
    match e
    case Nothing => s
    case PutAccount(w, origin) => Wrote(s, w, origin)
    case PutTransfer(t) => Stored(s, t)
    case Append(legs, reference) => Posted(s, legs, reference)
    case PutInternal(src, dst, t) =>
      var moved := Wrote(Wrote(s, src, Movement(t.id)), dst, Movement(t.id));
      Stored(Posted(moved, InternalLegs(t, src.copy, dst.copy), t.id), t)
    case Fault(x, anomalies) => s.(faulted := s.faulted + {x}, anomalies := s.anomalies + anomalies)
    case Note(anomaly) => s.(anomalies := s.anomalies + [anomaly])
  }

  // ---- What each program counter does next

  function TierOf(s: State, user: Id): KycTier {
    if user in s.tiers then s.tiers[user] else TIER_1
  }

  /** The max-balance guard: the credited balance stays within the owner's current tier cap. */
  predicate WithinCap(s: State, row: A.AccountRow, amount: nat) {
    Within(row.balance + amount, DefaultLimits(TierOf(s, row.owner)).maxBalance)
  }

  /** An account save that commits replaces the row; otherwise the repository throws. */
  predicate CanSave(s: State, w: Write) {
    A.Saved(s.accounts, w.copy) != None
  }

  predicate CanPut(s: State, t: T.TransferRow) {
    T.Saved(s.transfers, t) != None
  }

  /** The executor's reads are over: debit, guard, credit, or a throw. */
  function PrepareInternal(s: State, source: A.AccountRow, t: T.TransferRow): Pc
    requires t.kind.INTERNAL?
  {
    var failed := SaveFailed(t.(status := T.FAILED, version := t.version + 1));
    if t.kind.destination !in s.accounts || source.owner != t.initiator then failed
    else
      var destination := s.accounts[t.kind.destination];
      var debit := A.Debit(T.Total(t));
      var credit := A.Credit(Money(t.amount, t.currency));
      var debited := A.Apply(source, debit);
      var credited := A.Apply(destination, credit);
      if debited.Failure? || !WithinCap(s, destination, t.amount) || credited.Failure? then failed
      else CommitInternal(Write(debited.value, debit), Write(credited.value, credit), t)
  }

  // The external saga, one function per await.

  function AfterSaveHold(s: State, w: Write, t: T.TransferRow): (Effect, Pc) {
    if CanSave(s, w) then (PutAccount(w, Movement(t.id)), Record(w.copy.balance, t)) else (Nothing, Done)
  }

  function AfterRecord(s: State, balance: nat, t: T.TransferRow): (Effect, Pc) {
    if CanPut(s, t) then (PutTransfer(t), PostHold(balance, t)) else (Nothing, Done)
  }

  /** The provider's answer: settled at once, accepted for later, or a throw that is caught. */
  function AfterPay(t: T.TransferRow, reply: Reply): Pc {
    match reply
    case Settled => (match T.Marked(t, T.SUCCESSFUL, None) case Some(m) => PostSettlement(m) case None => LoadSource(t))
    case Accepted(ref) =>
      (match T.Marked(t, T.PROCESSING, if ref != "" then Some(ref) else None)
       case Some(m) => SaveOutcome(m)
       case None => LoadSource(t))
    case _ => LoadSource(t)
  }

  function AfterPostSettlement(t: T.TransferRow, reply: Reply): (Effect, Pc) {
    if reply.Throws? then (Fault(t.id, []), LoadSource(t)) else (Append(SettlementLegs(t), t.id), SaveOutcome(t))
  }

  function AfterSaveOutcome(s: State, t: T.TransferRow, reply: Reply): (Effect, Pc) {
    if reply.Throws? || !CanPut(s, t) then
      (Fault(t.id, if t.status == T.SUCCESSFUL then [UnsavedSettlement(t)] else []), LoadSource(t))
    else (PutTransfer(t), Done)
  }

  // The compensating credit, identical in the saga's catch block and the late-failure webhook.

  function AfterLoadSource(s: State, t: T.TransferRow): Pc {
    if t.source !in s.accounts then SaveReversed(t)
    else
      match A.Apply(s.accounts[t.source], A.Credit(T.Total(t)))
      case Success(copy) => SaveRefund(Write(copy, A.Credit(T.Total(t))), t)
      case Failure(_) => Done
  }

  function AfterSaveRefund(s: State, w: Write, t: T.TransferRow): (Effect, Pc) {
    if CanSave(s, w) then (PutAccount(w, Refund(t.id)), PostRefund(w.copy.balance, t)) else (Nothing, Done)
  }

  function AfterSaveReversed(s: State, t: T.TransferRow): Effect {
    match T.Marked(t, T.REVERSED, None)
    case Some(m) => if CanPut(s, m) then PutTransfer(m) else Note(LostReversal(t))
    case None => Note(LostReversal(t))
  }

  /** The success webhook saves the row first and posts the settlement after. */
  function AfterSaveSettled(s: State, t: T.TransferRow): (Effect, Pc) {
    match T.Marked(t, T.SUCCESSFUL, None)
    case Some(m) => if CanPut(s, m) then (PutTransfer(m), PostSettled(m)) else (Nothing, Done)
    case None => (Nothing, Done)
  }

  /** The internal executor's transaction: both saves, the posting and the new row, or a rollback. */
  function AfterCommitInternal(s: State, src: Write, dst: Write, t: T.TransferRow, reply: Reply): (Effect, Pc) {
    var afterSource := A.Saved(s.accounts, src.copy);
    if afterSource == None || A.Saved(afterSource.value, dst.copy) == None || reply.Throws? then
      (Nothing, SaveFailed(t.(status := T.FAILED, version := t.version + 1)))
    // `markSuccessful` has run, so the catch block's `markFailed` throws as well.
    else if reply.ThrowsLate? || t.id in s.transfers then (Nothing, Done)
    else (PutInternal(src, dst, t.(status := T.SUCCESSFUL, version := t.version + 1)), Done)
  }

  function Decide(s: State, pc: Pc, reply: Reply): (Effect, Pc) {
    match pc
    case Done => (Nothing, Done)
    case SaveAdmin(w) => (if CanSave(s, w) then PutAccount(w, Admin) else Nothing, Done)
    case SaveHold(w, t) => AfterSaveHold(s, w, t)
    case Record(balance, t) => AfterRecord(s, balance, t)
    case PostHold(balance, t) => (Append(HoldLegs(t, balance), t.id), Pay(t))
    case Pay(t) => (Nothing, AfterPay(t, reply))
    case PostSettlement(t) => AfterPostSettlement(t, reply)
    case SaveOutcome(t) => AfterSaveOutcome(s, t, reply)
    case LoadSource(t) => (Nothing, AfterLoadSource(s, t))
    case SaveRefund(w, t) => AfterSaveRefund(s, w, t)
    case PostRefund(balance, t) => (Append(RefundLegs(t, balance), t.id), SaveReversed(t))
    case SaveReversed(t) => (AfterSaveReversed(s, t), Done)
    case SaveSettled(t) => AfterSaveSettled(s, t)
    case PostSettled(t) => (Append(SettlementLegs(t), t.id), Done)
    case LoadDestination(source, t) => (Nothing, if t.kind.INTERNAL? then PrepareInternal(s, source, t) else Done)
    case CommitInternal(src, dst, t) => AfterCommitInternal(s, src, dst, t, reply)
    case SaveFailed(t) => (if CanPut(s, t) then PutTransfer(t) else Nothing, Done)
  }

  /** Is this actor a webhook delivery, or the saga's own compensation, still working on transfer `x`? */
  predicate OpenOn(pc: Pc, x: Id) {
    (Compensating(pc) || pc.SaveSettled?) && pc.t.id == x
  }

  predicate Compensating(pc: Pc) {
    pc.LoadSource? || pc.SaveRefund? || pc.PostRefund? || pc.SaveReversed?
  }

  function Start(s: State, actor: Id, pc: Pc): State {
    s.(actors := s.actors[actor := pc])
  }

  // How each request starts: its first read, and the in-memory work up to its first write.

  function StartAdmin(s: State, account: Id, op: A.AccountOp): Pc {
    if account !in s.accounts then Done
    else if op.Credit? && !WithinCap(s, s.accounts[account], op.money.minorUnits) then Done
    else
      match A.Apply(s.accounts[account], op)
      case Success(copy) => SaveAdmin(Write(copy, op))
      case Failure(_) => Done
  }

  function StartHold(s: State, actor: Id, account: Id, user: Id, amount: nat, fee: nat): Pc {
    if account !in s.accounts || s.accounts[account].owner != user then Done
    else
      var row := s.accounts[account];
      var t := T.Initiated(actor, T.EXTERNAL, user, account, amount, fee, row.currency);
      match A.Apply(row, A.Debit(T.Total(t)))
      case Success(copy) => SaveHold(Write(copy, A.Debit(T.Total(t))), t)
      case Failure(_) => Done
  }

  function StartMove(s: State, t: T.TransferRow): Pc {
    if t.source !in s.accounts then SaveFailed(t.(status := T.FAILED, version := t.version + 1))
    else LoadDestination(s.accounts[t.source], t)
  }

  /** `transfer` is a row that carries the delivered provider reference. */
  function StartDelivery(s: State, transfer: Id, ref: T.ProviderRef, success: bool): Pc {
    if transfer !in s.transfers || s.transfers[transfer].providerRef != Some(ref) then Done
    else if T.Terminal(s.transfers[transfer].status) then Done
    else if success then SaveSettled(s.transfers[transfer])
    else LoadSource(s.transfers[transfer])
  }

  /**
   * Does a new delivery start before an earlier one of the same transfer has finished, with a failure among
   * them? One that crashed or threw half way has not finished.
   */
  predicate Overlaps(s: State, transfer: Id, success: bool) {
    exists b | b in s.actors :: OpenOn(s.actors[b], transfer) && (!success || !s.actors[b].SaveSettled?)
  }

  function Contention(s: State, transfer: Id, success: bool, pc: Pc): set<Id> {
    if !pc.Done? && Overlaps(s, transfer, success) then {transfer} else {}
  }

  /** One step of the whole system. An event that is not enabled changes nothing. */
  function Step(s: State, e: Event): State {
    match e
    case AdminCall(actor, account, op) =>
      if actor in s.actors then s else Start(s, actor, StartAdmin(s, account, op))
    case StartExternal(actor, account, user, amount, fee) =>
      if actor in s.actors then s else Start(s, actor, StartHold(s, actor, account, user, amount, fee))
    case StartInternal(actor, src, dst, user, money, fee) =>
      if actor in s.actors then s
      else Start(s, actor, StartMove(s,
          T.Initiated(actor, T.INTERNAL(dst), user, src, money.minorUnits, fee, money.currency)))
    case Deliver(actor, transfer, ref, success) =>
      if actor in s.actors then s
      else
        var pc := StartDelivery(s, transfer, ref, success);
        Start(s, actor, pc).(contended := s.contended + Contention(s, transfer, success, pc))
    case Advance(actor, reply) =>
      if actor !in s.actors then s
      else
        var (effect, pc) := Decide(s, s.actors[actor], reply);
        Start(Perform(s, effect), actor, pc)
    case RaiseTier(user, tier) =>
      if TierOf(s, user).Rank() <= tier.Rank() then s.(tiers := s.tiers[user := tier]) else s
  }

  function Run(s: State, events: seq<Event>): State {
    if events == [] then s else Step(Run(s, events[..|events| - 1]), events[|events| - 1])
  }

  /** Any accounts at all, nothing in progress and an empty journal. */
  predicate Initial(s: State) {
    && (forall id :: id in s.accounts ==> s.accounts[id].id == id)
    && s.transfers == map[] && s.journal == [] && s.actors == map[]
    && s.log == [] && s.anomalies == [] && s.faulted == {} && s.contended == {}
  }
}
