/** Whose money moves: over every run, only the owner of an account sends from it. */
module KernelOwnership {
  import opened Wrappers
  import T = Transfers
  import opened Kernel
  import opened KernelInvariant

  predicate Owned(s: State, account: Id, user: Id) {
    account in s.accounts && s.accounts[account].owner == user
  }

  predicate WentOut(t: T.TransferRow) {
    t.kind.EXTERNAL? || t.status == T.SUCCESSFUL
  }

  /** A payout, or an internal transfer that went through, was started by the owner of its source. */
  predicate ByOwner(s: State, t: T.TransferRow) {
    WentOut(t) ==> Owned(s, t.source, t.initiator)
  }

  predicate PcByOwner(s: State, pc: Pc) {
    && (!pc.Done? && !pc.SaveAdmin? ==> ByOwner(s, pc.t))
    && (pc.CommitInternal? ==> Owned(s, pc.t.source, pc.t.initiator))
  }

  /** A debit for transfer `x` was on its source; its row is stored, or its request is about to store it. */
  predicate DebitMatches(s: State, commit: Commit)
    requires commit.origin.Movement?
  {
    var x := commit.origin.transfer;
    if x in s.transfers then
      WentOut(s.transfers[x]) && commit.account == s.transfers[x].source
    else
      && x in s.actors && s.actors[x].Record?
      && WentOut(s.actors[x].t) && commit.account == s.actors[x].t.source
  }

  predicate MovementDebit(commit: Commit) {
    commit.origin.Movement? && commit.op.Debit?
  }

  ghost predicate AllByOwners(s: State) {
    && (forall x :: x in s.transfers ==> ByOwner(s, s.transfers[x]))
    && (forall a :: a in s.actors ==> PcByOwner(s, s.actors[a]))
    && (forall i :: 0 <= i < |s.log| && MovementDebit(s.log[i]) ==> DebitMatches(s, s.log[i]))
  }

  lemma OwnersStay(s: State, s': State, account: Id, user: Id)
    requires Owned(s, account, user) && AccountsEvolve(s, s')
    ensures Owned(s', account, user)
  {
  }

  /** What the effect puts into the store is the owner's, and a debit in it is on the right account. */
  ghost predicate EffectByOwner(s: State, actor: Id, pc: Pc, e: Effect) {
    match e
    case PutTransfer(t) =>
      && ByOwner(s, t)
      && (t.id in s.transfers ==> (t.kind.EXTERNAL? && t.source == s.transfers[t.id].source))
      && (t.id !in s.transfers ==> t.id == actor && (pc.Record? ==> t.kind.EXTERNAL? && t.source == pc.t.source))
    case PutInternal(src, dst, t) =>
      ByOwner(s, t) && t.status == T.SUCCESSFUL && src.copy.id == t.source && dst.op.Credit? && t.id == actor
    case PutAccount(w, origin) =>
      origin.Movement? ==> pc.SaveHold? && origin == Movement(actor) && w.copy.id == pc.t.source
    case _ => true
  }

  lemma DecideByOwner(s: State, actor: Id, pc: Pc, reply: Reply)
    requires PcOk(s, actor, pc) && PcByOwner(s, pc)
    ensures EffectByOwner(s, actor, pc, Decide(s, pc, reply).0)
    ensures PcByOwner(s, Decide(s, pc, reply).1)
  {
  }

  /** Where a request goes after an effect that leaves its transfer unstored. */
  lemma DecideRecords(s: State, actor: Id, pc: Pc, reply: Reply)
    requires PcOk(s, actor, pc)
    ensures var (e, next) := Decide(s, pc, reply);
            && (e.PutAccount? && e.origin.Movement? ==> next.Record? && next.t == pc.t)
            && (pc.Record? ==> e.PutTransfer? && e.t == pc.t)
  {
  }

  lemma RowsByOwner(s: State, s': State, actor: Id, pc: Pc, e: Effect)
    requires forall x :: x in s.transfers ==> ByOwner(s, s.transfers[x])
    requires s' == Perform(s, e) && EffectByOwner(s, actor, pc, e) && AccountsEvolve(s, s')
    ensures forall x :: x in s'.transfers ==> ByOwner(s', s'.transfers[x])
  {
    forall x | x in s'.transfers ensures ByOwner(s', s'.transfers[x]) {
      assert ByOwner(s, s'.transfers[x]);
    }
  }

  /** A debit made earlier still matches after one more call of some request. */
  lemma DebitStillMatches(s: State, actor: Id, pc: Pc, e: Effect, next: Pc, commit: Commit)
    requires MovementDebit(commit) && DebitMatches(s, commit) && actor in s.actors && s.actors[actor] == pc
    requires PcOk(s, actor, pc) && EffectByOwner(s, actor, pc, e) && (pc.Record? ==> e.PutTransfer? && e.t == pc.t)
    requires e.PutInternal? ==> e.t.id !in s.transfers
    ensures DebitMatches(Start(Perform(s, e), actor, next), commit)
  {
  }

  /** So does a debit that this call makes. */
  lemma NewDebitsMatch(s: State, actor: Id, pc: Pc, e: Effect, next: Pc, i: nat)
    requires PcOk(s, actor, pc) && EffectByOwner(s, actor, pc, e)
    requires e.PutAccount? && e.origin.Movement? ==> next.Record? && next.t == pc.t
    requires |s.log| <= i < |Perform(s, e).log| && MovementDebit(Perform(s, e).log[i])
    ensures DebitMatches(Start(Perform(s, e), actor, next), Perform(s, e).log[i])
  {
  }

  lemma DebitsMatch(s: State, actor: Id, pc: Pc, e: Effect, next: Pc)
    requires forall i :: 0 <= i < |s.log| && MovementDebit(s.log[i]) ==> DebitMatches(s, s.log[i])
    requires actor in s.actors && s.actors[actor] == pc && PcOk(s, actor, pc) && EffectByOwner(s, actor, pc, e)
    requires e.PutInternal? ==> e.t.id !in s.transfers
    requires e.PutAccount? && e.origin.Movement? ==> next.Record? && next.t == pc.t
    requires pc.Record? ==> e.PutTransfer? && e.t == pc.t
    ensures var s' := Start(Perform(s, e), actor, next);
            forall i :: 0 <= i < |s'.log| && MovementDebit(s'.log[i]) ==> DebitMatches(s', s'.log[i])
  {
    var s' := Start(Perform(s, e), actor, next);
    forall i | 0 <= i < |s'.log| && MovementDebit(s'.log[i]) ensures DebitMatches(s', s'.log[i]) {
      if i < |s.log| {
        LogGrows(s, e, i);
        DebitStillMatches(s, actor, pc, e, next, s.log[i]);
      } else {
        NewDebitsMatch(s, actor, pc, e, next, i);
      }
    }
  }

  lemma LogGrows(s: State, e: Effect, i: nat)
    requires i < |s.log|
    ensures i < |Perform(s, e).log| && Perform(s, e).log[i] == s.log[i]
  {
  }

  lemma ActorsByOwner(s: State, moved: State, actor: Id, next: Pc)
    requires forall a :: a in s.actors ==> PcByOwner(s, s.actors[a])
    requires AccountsEvolve(s, moved) && moved.actors == s.actors && PcByOwner(s, next)
    ensures var s' := Start(moved, actor, next); forall a :: a in s'.actors ==> PcByOwner(s', s'.actors[a])
  {
    var s' := Start(moved, actor, next);
    forall a | a in s'.actors ensures PcByOwner(s', s'.actors[a]) {
      if a != actor { assert PcByOwner(s, s.actors[a]); }
    }
  }

  lemma AdvanceByOwner(s: State, actor: Id, reply: Reply)
    requires Inv(s) && AllByOwners(s) && actor in s.actors
    ensures AllByOwners(Step(s, Advance(actor, reply)))
  {
    var pc := s.actors[actor];
    var next := Decide(s, pc, reply);
    AdvanceSound(s, actor, reply);
    assert PcOk(s, actor, pc);
    AdvanceStep(s, actor, reply);
    CallByOwner(s, actor, pc, reply, next.0, next.1);
  }

  lemma CallByOwner(s: State, actor: Id, pc: Pc, reply: Reply, e: Effect, next: Pc)
    requires AllByOwners(s) && actor in s.actors && s.actors[actor] == pc && PcOk(s, actor, pc)
    requires (e, next) == Decide(s, pc, reply) && EffectOk(s, actor, pc, e)
    requires AccountsEvolve(s, Perform(s, e)) && Perform(s, e).actors == s.actors
    ensures AllByOwners(Start(Perform(s, e), actor, next))
  {
    DecideByOwner(s, actor, pc, reply);
    DecideRecords(s, actor, pc, reply);
    RowsByOwner(s, Perform(s, e), actor, pc, e);
    ActorsByOwner(s, Perform(s, e), actor, next);
    DebitsMatch(s, actor, pc, e, next);
  }

  lemma NewPcByOwner(s: State, e: Event)
    requires Inv(s) && !e.Advance? && !e.RaiseTier? && e.actor !in s.actors
    requires forall x :: x in s.transfers ==> ByOwner(s, s.transfers[x])
    ensures e.actor in Step(s, e).actors && PcByOwner(s, Step(s, e).actors[e.actor])
  {
    if e.Deliver? && e.transfer in s.transfers { assert ByOwner(s, s.transfers[e.transfer]); }
  }

  lemma StartByOwner(s: State, e: Event)
    requires Inv(s) && AllByOwners(s) && !e.Advance?
    ensures AllByOwners(Step(s, e))
  {
    if !e.RaiseTier? && e.actor !in s.actors {
      NewPcByOwner(s, e);
      StartedByOwner(s, Step(s, e), e.actor);
    }
  }

  lemma StartedByOwner(s: State, s': State, actor: Id)
    requires AllByOwners(s) && actor !in s.actors && actor in s'.actors && PcByOwner(s, s'.actors[actor])
    requires s' == s.(actors := s.actors[actor := s'.actors[actor]], contended := s'.contended)
    ensures AllByOwners(s')
  {
    forall i | 0 <= i < |s'.log| && MovementDebit(s'.log[i]) ensures DebitMatches(s', s'.log[i]) {
      assert DebitMatches(s, s.log[i]);
    }
  }

  lemma {:induction false} RunByOwners(s: State, events: seq<Event>)
    requires Initial(s)
    ensures AllByOwners(Run(s, events))
  {
    if events != [] {
      var n := |events| - 1;
      InitialInv(s);
      RunKeepsInv(s, events[..n]);
      RunByOwners(s, events[..n]);
      if events[n].Advance? {
        if events[n].actor in Run(s, events[..n]).actors {
          AdvanceByOwner(Run(s, events[..n]), events[n].actor, events[n].reply);
        }
      } else {
        StartByOwner(Run(s, events[..n]), events[n]);
      }
    }
  }

  /** The transfer `commit` was made for: its stored row, or else the one its request is about to store. */
  function MadeFor(s: State, x: Id): Option<T.TransferRow> {
    if x in s.transfers then Some(s.transfers[x])
    else if x in s.actors && s.actors[x].Record? then Some(s.actors[x].t)
    else None
  }

  /**
   * In every reachable state each stored payout and each internal transfer that went through was started by the
   * owner of its source, and each account ever debited for a transfer is the source of one its owner started.
   */
  lemma {:induction false} OnlyOwnersSend(s: State, events: seq<Event>)
    requires Initial(s)
    ensures var s' := Run(s, events);
            && (forall x :: x in s'.transfers && WentOut(s'.transfers[x]) ==>
                  Owned(s', s'.transfers[x].source, s'.transfers[x].initiator))
            && (forall i :: 0 <= i < |s'.log| && MovementDebit(s'.log[i]) ==>
                  var t := MadeFor(s', s'.log[i].origin.transfer);
                  t.Some? && s'.log[i].account == t.value.source && Owned(s', t.value.source, t.value.initiator))
  {
    RunByOwners(s, events);
    var s' := Run(s, events);
    forall i | 0 <= i < |s'.log| && MovementDebit(s'.log[i])
      ensures var t := MadeFor(s', s'.log[i].origin.transfer);
              t.Some? && s'.log[i].account == t.value.source && Owned(s', t.value.source, t.value.initiator)
    {
      RecordOwned(s', s'.log[i].origin.transfer);
      assert DebitMatches(s', s'.log[i]);
    }
  }

  lemma RecordOwned(s: State, x: Id)
    requires AllByOwners(s)
    ensures x in s.actors && s.actors[x].Record? && WentOut(s.actors[x].t) ==>
              Owned(s, s.actors[x].t.source, s.actors[x].t.initiator)
  {
    if x in s.actors { assert PcByOwner(s, s.actors[x]); }
  }
}
