/** When a transfer counts as disturbed: exactly the faults and overlaps that the run contains. */
module KernelDisturbance {
  import opened Wrappers
  import T = Transfers
  import opened Kernel
  import opened KernelInvariant
  import opened KernelTheorems

  /** A write inside the try block of the saga of `x` throws. */
  predicate Faults(s: State, e: Event, x: Id) {
    && e.Advance? && e.reply.Throws? && e.actor in s.actors
    && (s.actors[e.actor].PostSettlement? || s.actors[e.actor].SaveOutcome?) && s.actors[e.actor].t.id == x
  }

  /** Some request is compensating transfer `x`, or about to store its success, whether it will ever go on or not. */
  predicate Unfinished(pc: Pc, x: Id) {
    && (pc.LoadSource? || pc.SaveRefund? || pc.PostRefund? || pc.SaveReversed? || pc.SaveSettled?)
    && pc.t.id == x
  }

  /** A delivery of an open transfer starts while another is unfinished, and they are not both of success. */
  ghost predicate Collides(s: State, e: Event, x: Id) {
    && e.Deliver? && e.transfer == x && e.actor !in s.actors
    && x in s.transfers && s.transfers[x].providerRef == Some(e.ref)
    && (s.transfers[x].status == T.PENDING || s.transfers[x].status == T.PROCESSING)
    && exists b :: b in s.actors && Unfinished(s.actors[b], x) && !(e.success && s.actors[b].SaveSettled?)
  }

  predicate FaultsBy(s: State, s': State, pc: Pc, reply: Reply, x: Id) {
    && s'.contended == s.contended
    && (x in s'.faulted <==>
          x in s.faulted || (reply.Throws? && (pc.PostSettlement? || pc.SaveOutcome?) && pc.t.id == x))
  }

  lemma SagaFaults(s: State, actor: Id, pc: Pc, reply: Reply, x: Id)
    requires PcOk(s, actor, pc) && InSaga(pc)
    ensures FaultsBy(s, Perform(s, Decide(s, pc, reply).0), pc, reply, x)
  {
  }

  lemma OthersDoNotFault(s: State, pc: Pc, reply: Reply, x: Id)
    requires !InSaga(pc)
    ensures FaultsBy(s, Perform(s, Decide(s, pc, reply).0), pc, reply, x)
  {
  }

  lemma DecideFaults(s: State, actor: Id, pc: Pc, reply: Reply, x: Id)
    requires PcOk(s, actor, pc)
    ensures FaultsBy(s, Perform(s, Decide(s, pc, reply).0), pc, reply, x)
  {
    if InSaga(pc) { SagaFaults(s, actor, pc, reply, x); } else { OthersDoNotFault(s, pc, reply, x); }
  }

  lemma StepFaults(s: State, e: Event, x: Id)
    requires Inv(s)
    ensures x in Step(s, e).faulted <==> x in s.faulted || Faults(s, e, x)
  {
    if e.Advance? && e.actor in s.actors {
      assert PcOk(s, e.actor, s.actors[e.actor]);
      AdvanceStep(s, e.actor, e.reply);
      DecideFaults(s, e.actor, s.actors[e.actor], e.reply, x);
    }
  }

  lemma StepCollides(s: State, e: Event, x: Id)
    requires Inv(s)
    ensures x in Step(s, e).contended <==> x in s.contended || Collides(s, e, x)
  {
    if e.Advance? && e.actor in s.actors {
      assert PcOk(s, e.actor, s.actors[e.actor]);
      AdvanceStep(s, e.actor, e.reply);
      DecideFaults(s, e.actor, s.actors[e.actor], e.reply, x);
    } else if e.Deliver? && e.actor !in s.actors && e.transfer == x {
      OverlapsIff(s, x, e.success);
    }
  }

  lemma OverlapsIff(s: State, x: Id, success: bool)
    ensures Overlaps(s, x, success)
        <==> exists b :: b in s.actors && Unfinished(s.actors[b], x) && !(success && s.actors[b].SaveSettled?)
  {
    if Overlaps(s, x, success) {
      var b :| b in s.actors && OpenOn(s.actors[b], x) && (!success || !s.actors[b].SaveSettled?);
      assert Unfinished(s.actors[b], x);
    }
    if b :| b in s.actors && Unfinished(s.actors[b], x) && !(success && s.actors[b].SaveSettled?) {
      assert OpenOn(s.actors[b], x);
    }
  }

  ghost predicate DisturbedAt(s: State, events: seq<Event>, k: nat, x: Id)
    requires k < |events|
  {
    Faults(Run(s, events[..k]), events[k], x) || Collides(Run(s, events[..k]), events[k], x)
  }

  lemma DisturbedPrefix(s: State, events: seq<Event>, n: nat, k: nat, x: Id)
    requires k < n <= |events|
    ensures DisturbedAt(s, events[..n], k, x) <==> DisturbedAt(s, events, k, x)
  {
    assert events[..n][..k] == events[..k];
  }

  /** A transfer is disturbed exactly when the run contains a fault of its saga or a collision of its deliveries. */
  lemma {:induction false} DisturbedIff(s: State, events: seq<Event>, x: Id)
    requires Initial(s)
    ensures Disturbed(Run(s, events), x) <==> exists k | 0 <= k < |events| :: DisturbedAt(s, events, k, x)
  {
    if events != [] {
      var n := |events| - 1;
      InitialInv(s);
      RunKeepsInv(s, events[..n]);
      DisturbedIff(s, events[..n], x);
      StepFaults(Run(s, events[..n]), events[n], x);
      StepCollides(Run(s, events[..n]), events[n], x);
      DisturbedSnoc(s, events, x);
    }
  }

  lemma DisturbedSnoc(s: State, events: seq<Event>, x: Id)
    requires events != []
    ensures var n := |events| - 1;
            (exists k | 0 <= k < |events| :: DisturbedAt(s, events, k, x))
            <==> (exists k | 0 <= k < n :: DisturbedAt(s, events[..n], k, x)) || DisturbedAt(s, events, n, x)
  {
    var n := |events| - 1;
    forall k | 0 <= k < n ensures DisturbedAt(s, events[..n], k, x) <==> DisturbedAt(s, events, k, x) {
      DisturbedPrefix(s, events, n, k, x);
    }
  }
}
