/** One request among others: what it does is fixed by the machine, what its calls answer and what the others do. */
module KernelRequests {
  import opened Wrappers
  import opened Kernel
  import opened KernelInvariant
  import opened KernelRuns

  /** What the environment answers one request: the provider, and the writes that may throw. */
  datatype Plan = Plan(payout: Reply, postThrows: bool, saveThrows: bool, commit: Reply)

  /** `others(k)` is everything that other requests do while this one awaits its call number `k`. */
  datatype Request = Request(id: Id, plan: Plan, others: nat -> seq<Event>)

  ghost predicate Foreign(r: Request) {
    forall k :: NoneBy(r.others(k), r.id)
  }

  function Answer(pc: Pc, plan: Plan): Reply {
    match pc
    case Pay(_) => plan.payout
    case PostSettlement(_) => if plan.postThrows then Throws else Ok
    case SaveOutcome(_) => if plan.saveThrows then Throws else Ok
    case CommitInternal(_, _, _) => plan.commit
    case _ => Ok
  }

  function PcOf(s: State, id: Id): Pc {
    if id in s.actors then s.actors[id] else Done
  }

  /** One call of a request: the state it found and the state it left. */
  datatype Turn = Turn(found: State, left: State)

  /** The call that the program counter prescribes, answered as planned. */
  function Call(s: State, r: Request): Event {
    Advance(r.id, Answer(PcOf(s, r.id), r.plan))
  }

  function Latest(s: State, past: seq<Turn>): State {
    if past == [] then s else past[|past| - 1].left
  }

  /**
   * The calls a request that started in `s` has made so far: each is the one that the machine prescribes, on the
   * state that the others left it, and none came after the request was done.
   */
  ghost predicate History(s: State, r: Request, past: seq<Turn>) {
    past == [] ||
    (var before, last := past[..|past| - 1], past[|past| - 1];
     && History(s, r, before)
     && last.found == Run(Latest(s, before), r.others(|before|)) && !PcOf(last.found, r.id).Done?
     && last.left == Step(last.found, Call(last.found, r)))
  }

  /** The request has got as far as `past`. */
  ghost predicate Underway(s: State, r: Request, past: seq<Turn>, now: State) {
    History(s, r, past) && now == Latest(s, past)
  }

  /** It is done after exactly those calls. */
  ghost predicate Completes(s: State, r: Request, past: seq<Turn>, now: State) {
    Underway(s, r, past, now) && PcOf(now, r.id).Done?
  }

  /** The others have left state `found` to the request's next call. */
  ghost predicate Awaited(s: State, r: Request, past: seq<Turn>, found: State) {
    History(s, r, past) && found == Run(Latest(s, past), r.others(|past|)) && !PcOf(found, r.id).Done?
  }

  lemma TookTurn(s: State, r: Request, past: seq<Turn>, found: State, left: State, reply: Reply)
    requires Awaited(s, r, past, found)
    requires reply == Answer(PcOf(found, r.id), r.plan) && left == Step(found, Advance(r.id, reply))
    ensures Underway(s, r, past + [Turn(found, left)], left)
  {
    var longer := past + [Turn(found, left)];
    assert longer[..|longer| - 1] == past;
  }

  lemma {:induction false} HistoryBefore(s: State, r: Request, past: seq<Turn>, k: nat)
    requires History(s, r, past) && k <= |past|
    ensures History(s, r, past[..k])
  {
    if k == |past| {
      assert past[..k] == past;
    } else {
      HistoryBefore(s, r, past[..|past| - 1], k);
      assert past[..|past| - 1][..k] == past[..k];
    }
  }

  lemma {:induction false} SameSoFar(s: State, r: Request, a: seq<Turn>, b: seq<Turn>)
    requires History(s, r, a) && History(s, r, b) && |a| == |b|
    ensures a == b
  {
    if a != [] {
      SameSoFar(s, r, a[..|a| - 1], b[..|b| - 1]);
      assert a == a[..|a| - 1] + [a[|a| - 1]] && b == b[..|b| - 1] + [b[|b| - 1]];
    }
  }

  lemma CompleteIsLongest(s: State, r: Request, a: seq<Turn>, b: seq<Turn>)
    requires Foreign(r) && History(s, r, b) && Completes(s, r, a, Latest(s, a))
    ensures |b| <= |a|
  {
    if |a| < |b| {
      HistoryBefore(s, r, b, |a|);
      SameSoFar(s, r, a, b[..|a|]);
      HistoryBefore(s, r, b, |a| + 1);
      assert b[..|a| + 1][..|a|] == b[..|a|];
      RunLeavesAlone(Latest(s, a), r.others(|a|), r.id);
    }
  }

  /** So one answer to every call and one behaviour of the others leave one possible history and outcome. */
  lemma OutcomeDetermined(s: State, r: Request, a: seq<Turn>, now: State, b: seq<Turn>, later: State)
    requires Foreign(r) && Completes(s, r, a, now) && Completes(s, r, b, later)
    ensures a == b && now == later
  {
    CompleteIsLongest(s, r, a, b);
    CompleteIsLongest(s, r, b, a);
    SameSoFar(s, r, a, b);
  }

  /** Is this an event of the request, or one of those the others were said to do? */
  ghost predicate Admitted(e: Event, r: Request) {
    By(e, r.id) || exists k :: e in r.others(k)
  }

  /** A request among others is a run of the machine, made of its own calls and of what the others do. */
  lemma {:induction false} HistoryIsRun(s: State, r: Request, past: seq<Turn>) returns (events: seq<Event>)
    requires History(s, r, past)
    ensures Run(s, events) == Latest(s, past)
    ensures forall e | e in events :: Admitted(e, r)
  {
    if past == [] {
      events := [];
    } else {
      var init, last := past[..|past| - 1], past[|past| - 1];
      var before := HistoryIsRun(s, r, init);
      var others := r.others(|init|);
      RunConcat(s, before, others);
      RunSnoc(s, before + others, Call(last.found, r));
      events := before + others + [Call(last.found, r)];
      forall e | e in events ensures Admitted(e, r) {
        if e !in before && e != Call(last.found, r) { assert e in r.others(|init|); }
      }
    }
  }

  lemma HistoryKeepsInv(s: State, r: Request, past: seq<Turn>)
    requires Inv(s) && History(s, r, past)
    ensures Inv(Latest(s, past))
  {
    var events := HistoryIsRun(s, r, past);
    RunKeepsInv(s, events);
  }

  /** Nothing stored changes. */
  predicate OnlyActors(before: State, after: State) {
    after == before.(actors := after.actors)
  }

  /** None of the calls changed anything stored. */
  predicate Idle(past: seq<Turn>) {
    forall turn | turn in past :: OnlyActors(turn.found, turn.left)
  }

  /** With nobody else about, a request that has written nothing has left everything stored as it was. */
  lemma {:induction false} AloneAndIdle(s: State, r: Request, past: seq<Turn>)
    requires History(s, r, past) && Idle(past) && forall k :: r.others(k) == []
    ensures OnlyActors(s, Latest(s, past))
  {
    if past != [] {
      AloneAndIdle(s, r, past[..|past| - 1]);
      assert past[|past| - 1] in past;
    }
  }
}
