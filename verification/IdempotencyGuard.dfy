/**
 * The guard and its repository as they run: `tryAcquire` with its recursive retry, then execute,
 * complete and release, with other callers doing anything at every await. Each makes exactly the calls
 * that the protocol's state machine prescribes.
 */
module IdempotencyGuard {
  import opened Wrappers
  import opened Idempotency

  datatype Acquisition = ACQUIRED | ALREADY(resource: Id) | DUPLICATE

  predicate By(e: Event, c: Id) {
    !e.Tick? && e.caller == c
  }

  predicate NoneBy(events: seq<Event>, c: Id) {
    forall e :: e in events ==> !By(e, c)
  }

  lemma {:induction false} RunLeavesAlone(s: State, events: seq<Event>, c: Id)
    requires NoneBy(events, c)
    ensures c in s.callers <==> c in Run(s, events).callers
    ensures c in s.callers ==> Run(s, events).callers[c] == s.callers[c]
  {
    if events != [] {
      RunLeavesAlone(s, events[..|events| - 1], c);
      assert events[|events| - 1] in events;
    }
  }

  /** What one guarded call does by itself: the resource `execute` returns, or None when it throws. */
  datatype Plan = Plan(outcome: Option<Id>, completeThrows: bool)

  /** `others[k]` is everything that other callers do while this one awaits its call number `k`; then they rest. */
  datatype Request = Request(id: Id, plan: Plan, others: seq<seq<Event>>)

  function OthersAt(r: Request, k: nat): seq<Event> {
    if k < |r.others| then r.others[k] else []
  }

  ghost predicate Foreign(r: Request) {
    forall k :: 0 <= k < |r.others| ==> NoneBy(r.others[k], r.id)
  }

  predicate Alone(r: Request) { r.others == [] }

  /** What `tryAcquire` answers when nobody else moves. */
  function AloneAnswer(s: State): Acquisition {
    match s.row
    case None => ACQUIRED
    case Some(row) =>
      if row.status.COMPLETED? then ALREADY(row.status.resource)
      else if Stale(s, row) then ACQUIRED else DUPLICATE
  }

  function AloneClaim(s: State): Option<Row> {
    if s.row.Some? then s.row else Some(Row(s.nextRow, IN_PROGRESS, s.now))
  }

  function Answer(pc: Pc, plan: Plan): Reply {
    match pc
    case Executing => if plan.outcome.Some? then Resource(plan.outcome.value) else Throws
    case Completing(_) => if plan.completeThrows then Throws else Ok
    case _ => Ok
  }

  function PcOf(s: State, c: Id): Pc {
    if c in s.callers then s.callers[c].pc else Threw
  }

  predicate Finished(pc: Pc) {
    pc.Replayed? || pc.Busy? || pc.Returned? || pc.Threw?
  }

  /** One call: the state it found and the state it left. */
  datatype Turn = Turn(found: State, left: State)

  function Latest(s: State, past: seq<Turn>): State {
    if past == [] then s else past[|past| - 1].left
  }

  /**
   * The calls made so far: each is the one that the protocol prescribes, on the state that the others left it, and
   * none came after the caller had finished.
   */
  ghost predicate History(s: State, r: Request, past: seq<Turn>) {
    past == [] ||
    (var before, last := past[..|past| - 1], past[|past| - 1];
     && History(s, r, before) && Awaited(s, r, before, last.found)
     && last.left == Step(last.found, Advance(r.id, Answer(PcOf(last.found, r.id), r.plan))))
  }

  /** The others have left state `found` to the next call. */
  ghost predicate Awaited(s: State, r: Request, past: seq<Turn>, found: State) {
    found == Run(Latest(s, past), OthersAt(r, |past|)) && !Finished(PcOf(found, r.id))
  }

  ghost predicate Underway(s: State, r: Request, past: seq<Turn>, now: State) {
    History(s, r, past) && now == Latest(s, past)
  }

  ghost predicate Completes(s: State, r: Request, past: seq<Turn>, now: State) {
    Underway(s, r, past, now) && Finished(PcOf(now, r.id))
  }

  lemma TookTurn(s: State, r: Request, past: seq<Turn>, found: State, left: State, reply: Reply)
    requires History(s, r, past) && Awaited(s, r, past, found)
    requires reply == Answer(PcOf(found, r.id), r.plan) && left == Step(found, Advance(r.id, reply))
    ensures Underway(s, r, past + [Turn(found, left)], left)
  {
    var longer := past + [Turn(found, left)];
    assert longer[..|longer| - 1] == past;
  }

  /** A guarded call among others is a run of the protocol, made of its own calls and of what the others do. */
  lemma {:induction false} HistoryIsRun(s: State, r: Request, past: seq<Turn>) returns (events: seq<Event>)
    requires History(s, r, past)
    ensures Run(s, events) == Latest(s, past)
    ensures forall e | e in events :: By(e, r.id) || exists k :: 0 <= k < |r.others| && e in r.others[k]
  {
    if past == [] {
      events := [];
    } else {
      var init, last := past[..|past| - 1], past[|past| - 1];
      var before := HistoryIsRun(s, r, init);
      var others := OthersAt(r, |init|);
      var call := Advance(r.id, Answer(PcOf(last.found, r.id), r.plan));
      RunConcat(s, before, others);
      events := Snoc(s, before + others, call);
      forall e | e in events ensures By(e, r.id) || exists k :: 0 <= k < |r.others| && e in r.others[k] {
        if e !in before && e != call { assert e in r.others[|init|]; }
      }
    }
  }

  lemma {:induction false} RunConcat(s: State, first: seq<Event>, later: seq<Event>)
    ensures Run(s, first + later) == Run(Run(s, first), later)
  {
    if later == [] {
      assert first + later == first;
    } else {
      RunConcat(s, first, later[..|later| - 1]);
      assert (first + later)[..|first + later| - 1] == first + later[..|later| - 1];
    }
  }

  class Repository {
    var row: Option<Row>
    var nextRow: Id
    var now: int
    // Bookkeeping the source does not have.
    var callers: map<Id, Caller>
    var executed: seq<Id>
    var acquired: nat
    var reclaims: nat
    var deleted: nat
    var completed: nat
    var failedCompletes: nat

    constructor (now: int)
      ensures Initial(Now())
    {
      row, nextRow, this.now, callers, executed := None, 0, now, map[], [];
      acquired, reclaims, deleted, completed, failedCompletes := 0, 0, 0, 0, 0;
    }

    function Now(): State
      reads this
    {
      State(row, nextRow, now, callers, executed, acquired, reclaims, deleted, completed, failedCompletes)
    }

    /** An await, during which the other callers do what the request says. */
    method AwaitTurn(r: Request, ghost s0: State, past: seq<Turn>) returns (found: State)
      requires Foreign(r) && Underway(s0, r, past, Now()) && r.id in callers && !Finished(callers[r.id].pc)
      modifies this
      ensures found == Now() && Awaited(s0, r, past, found)
      ensures r.id in callers && callers[r.id] == old(callers[r.id])
      ensures |past| >= |r.others| ==> Now() == old(Now())
    {
      RunLeavesAlone(Now(), OthersAt(r, |past|), r.id);
      found := Run(Now(), OthersAt(r, |past|));
      row, nextRow, now, callers, executed := found.row, found.nextRow, found.now, found.callers, found.executed;
      acquired, reclaims, deleted, completed := found.acquired, found.reclaims, found.deleted, found.completed;
      failedCompletes := found.failedCompletes;
    }

    method Move(c: Id, pc: Pc)
      requires c in callers
      modifies this`callers
      ensures callers == old(callers)[c := old(callers)[c].(pc := pc, seen := deleted + completed)]
    {
      callers := callers[c := callers[c].(pc := pc, seen := deleted + completed)];
    }

    /** The insert; `created` is false on a unique-constraint violation. */
    method Create(c: Id) returns (created: bool)
      requires c in callers && callers[c].pc == Creating
      modifies this
      ensures Now() == Step(old(Now()), Advance(c, Ok))
      ensures c in callers && callers[c].pc == (if created then Executing else Reading)
      ensures !created ==> row.Some?
    {
      created := row.None?;
      if created {
        Move(c, Executing);
        row, nextRow, acquired := Some(Row(nextRow, IN_PROGRESS, now)), nextRow + 1, acquired + 1;
      } else {
        Move(c, Reading);
      }
    }

    method FindUnique(c: Id) returns (existing: Option<Row>, stale: bool)
      requires c in callers && callers[c].pc == Reading
      modifies this
      ensures Now() == Step(old(Now()), Advance(c, Ok))
      ensures existing == old(row) && row == old(row) && c in callers
      ensures callers[c].pc == match existing
                               case None => Creating
                               case Some(r) => if r.status.COMPLETED? then Replayed(r.status.resource)
                                               else if stale then Reclaiming(r.id) else Busy
      ensures stale <==> existing.Some? && Stale(old(Now()), existing.value)
    {
      existing, stale := row, false;
      if existing.None? {
        callers := callers[c := callers[c].(pc := Creating, depth := callers[c].depth + 1)];
      } else if existing.value.status.COMPLETED? {
        Move(c, Replayed(existing.value.status.resource));
      } else {
        var ageMs := now - existing.value.createdAt;
        if ageMs < STALE_CLAIM_MS {
          Move(c, Busy);
        } else {
          stale := true;
          Move(c, Reclaiming(existing.value.id));
        }
      }
    }

    /** The conditional update that touches only `updatedAt`. */
    method Reclaim(c: Id, rowId: Id) returns (count: nat)
      requires c in callers && callers[c].pc == Reclaiming(rowId)
      modifies this
      ensures Now() == Step(old(Now()), Advance(c, Ok))
      ensures c in callers && callers[c].pc == (if count == 0 then Creating else Executing)
      ensures row == old(row) && count
                == (if row.Some? && row.value.id == rowId && row.value.status.IN_PROGRESS? then 1 else 0)
    {
      count := 0;
      if row.Some? && row.value.id == rowId && row.value.status.IN_PROGRESS? {
        count := 1;
        Move(c, Executing);
        acquired, reclaims := acquired + 1, reclaims + 1;
      } else {
        callers := callers[c := callers[c].(pc := Creating, depth := callers[c].depth + 1)];
      }
    }

    method TryAcquire(r: Request, ghost s0: State, past: seq<Turn>) returns (result: Acquisition, longer: seq<Turn>)
      requires r.id in callers && callers[r.id].pc == Creating
      requires Foreign(r) && Underway(s0, r, past, Now())
      modifies this
      ensures Underway(s0, r, longer, Now())
      ensures r.id in callers && callers[r.id].pc == match result
                                                     case ACQUIRED => Executing
                                                     case ALREADY(x) => Replayed(x)
                                                     case DUPLICATE => Busy
      ensures Alone(r) ==> result == AloneAnswer(old(Now())) && row == AloneClaim(old(Now()))
      ensures Alone(r) ==> executed == old(executed) && now == old(now)
      decreases if |past| < |r.others| then |r.others| - |past| else 0
    {
      var created;
      created, longer := CreateTurn(r, s0, past);
      if created { return ACQUIRED, longer; }
      var existing, stale;
      existing, stale, longer := FindTurn(r, s0, longer);
      if existing.Some? && existing.value.status.COMPLETED? {
        return ALREADY(existing.value.status.resource), longer;
      }
      if existing.Some? && !stale { return DUPLICATE, longer; }
      if existing.Some? {
        var count;
        count, longer := ReclaimTurn(r, existing.value.id, s0, longer);
        if count != 0 { return ACQUIRED, longer; }
      }
      // The row this attempt met is gone or completed, so another caller moved during an await.
      assert |past| < |r.others|;
      result, longer := TryAcquire(r, s0, longer);
    }

    /** `tryAcquire` with nobody else about: one answer for each state the key can be in. */
    method TryAcquireAlone(r: Request) returns (result: Acquisition)
      requires r.id in callers && callers[r.id].pc == Creating && Alone(r)
      modifies this
      ensures match old(row)
              case None =>
                result == ACQUIRED && row.Some? && row.value.status == IN_PROGRESS && row.value.createdAt == now
              case Some(existing) =>
                && row == old(row)
                && (existing.status.COMPLETED? ==> result == ALREADY(existing.status.resource))
                && (existing.status.IN_PROGRESS? && now - existing.createdAt < 120000 ==> result == DUPLICATE)
                && (existing.status.IN_PROGRESS? && now - existing.createdAt >= 120000 ==> result == ACQUIRED)
    {
      var calls;
      result, calls := TryAcquire(r, Now(), []);
    }

    method CreateTurn(r: Request, ghost s0: State, past: seq<Turn>) returns (created: bool, longer: seq<Turn>)
      requires r.id in callers && callers[r.id].pc == Creating
      requires Foreign(r) && Underway(s0, r, past, Now())
      modifies this
      ensures Underway(s0, r, longer, Now()) && |longer| == |past| + 1
      ensures r.id in callers && callers[r.id].pc == (if created then Executing else Reading)
      ensures !created ==> row.Some?
      ensures Alone(r) ==> created == old(row).None? && now == old(now) && executed == old(executed)
      ensures Alone(r) ==> row == if old(row).Some? then old(row) else Some(Row(old(nextRow), IN_PROGRESS, old(now)))
    {
      var found := AwaitTurn(r, s0, past);
      created := Create(r.id);
      longer := past + [Turn(found, Now())];
      TookTurn(s0, r, past, found, Now(), Ok);
    }

    method FindTurn(r: Request, ghost s0: State, past: seq<Turn>)
      returns (existing: Option<Row>, stale: bool, longer: seq<Turn>)
      requires r.id in callers && callers[r.id].pc == Reading
      requires Foreign(r) && Underway(s0, r, past, Now())
      modifies this
      ensures Underway(s0, r, longer, Now()) && |longer| == |past| + 1
      ensures existing == row && r.id in callers && (|past| >= |r.others| ==> row == old(row))
      ensures callers[r.id].pc == match existing
                                  case None => Creating
                                  case Some(x) => if x.status.COMPLETED? then Replayed(x.status.resource)
                                                  else if stale then Reclaiming(x.id) else Busy
      ensures stale <==> existing.Some? && Stale(longer[|past|].found, existing.value)
      ensures Alone(r) ==> longer[|past|].found == old(Now())
      ensures Alone(r) ==> row == old(row) && now == old(now) && executed == old(executed)
    {
      var found := AwaitTurn(r, s0, past);
      existing, stale := FindUnique(r.id);
      longer := past + [Turn(found, Now())];
      TookTurn(s0, r, past, found, Now(), Ok);
    }

    /** With nobody else moving, the stale row is still there and the reclaim wins. */
    method ReclaimTurn(r: Request, rowId: Id, ghost s0: State, past: seq<Turn>)
      returns (count: nat, longer: seq<Turn>)
      requires r.id in callers && callers[r.id].pc == Reclaiming(rowId)
      requires Foreign(r) && Underway(s0, r, past, Now())
      modifies this
      ensures Underway(s0, r, longer, Now()) && |longer| == |past| + 1
      ensures r.id in callers && callers[r.id].pc == (if count == 0 then Creating else Executing)
      ensures count == 0 && old(row).Some? && old(row).value.id == rowId && old(row).value.status.IN_PROGRESS? ==>
                |past| < |r.others|
      ensures Alone(r) ==> row == old(row) && now == old(now) && executed == old(executed)
    {
      var found := AwaitTurn(r, s0, past);
      count := Reclaim(r.id, rowId);
      longer := past + [Turn(found, Now())];
      TookTurn(s0, r, past, found, Now(), Ok);
    }

    method MarkCompleted(c: Id, resource: Id, throws: bool) returns (done: bool)
      requires c in callers && callers[c].pc == Completing(resource)
      modifies this
      ensures Now() == Step(old(Now()), Advance(c, if throws then Throws else Ok))
      ensures c in callers && callers[c].pc == (if done then Returned(resource) else Releasing)
      ensures done ==> !throws
    {
      done := !throws && row.Some?;
      if done {
        Move(c, Returned(resource));
        row, completed := Some(row.value.(status := COMPLETED(resource))), completed + 1;
      } else {
        Move(c, Releasing);
        failedCompletes := failedCompletes + 1;
      }
    }

    /** `deleteMany` by key, whoever owns the row. */
    method Release(c: Id)
      requires c in callers && callers[c].pc == Releasing
      modifies this
      ensures Now() == Step(old(Now()), Advance(c, Ok))
      ensures c in callers && callers[c].pc == Threw && row == None
    {
      Move(c, Threw);
      if row.Some? { deleted := deleted + 1; }
      row := None;
    }

    /** What `execute` did: it returned a resource or it threw. */
    method Executed(c: Id, outcome: Option<Id>)
      requires c in callers && callers[c].pc == Executing
      modifies this
      ensures Now() == Step(old(Now()), Advance(c, if outcome.Some? then Resource(outcome.value) else Throws))
      ensures c in callers && callers[c].pc == (if outcome.Some? then Completing(outcome.value) else Releasing)
    {
      if outcome.Some? {
        Move(c, Completing(outcome.value));
        executed := executed + [outcome.value];
      } else {
        Move(c, Releasing);
      }
    }

    /** `run`: the resource to answer with, or None when it throws. */
    method Guarded(r: Request) returns (answer: Option<Id>, calls: seq<Turn>)
      requires r.id !in callers && Foreign(r)
      modifies this
      ensures Completes(Step(old(Now()), Event.Call(r.id)), r, calls, Now()) && r.id in callers
      ensures answer.Some? ==>
                callers[r.id].pc == Returned(answer.value) || callers[r.id].pc == Replayed(answer.value)
      ensures answer.None? ==> callers[r.id].pc == Busy || callers[r.id].pc == Threw
    {
      callers := callers[r.id := Caller(Creating, 1, deleted + completed, deleted + completed)];
      ghost var s1 := Now();
      var result;
      result, calls := TryAcquire(r, s1, []);
      if result.ALREADY? { return Some(result.resource), calls; }
      if result.DUPLICATE? { return None, calls; }
      answer, calls := Finish(r, s1, calls);
    }

    /** The guard with nobody else about: what it answers, whether it executes, and what becomes of the key. */
    method GuardedAlone(r: Request) returns (answer: Option<Id>)
      requires r.id !in callers && Alone(r)
      modifies this
      ensures match old(row)
              case Some(existing) =>
                if existing.status.COMPLETED? then
                  answer == Some(existing.status.resource) && row == old(row) && executed == old(executed)
                else if old(now) - existing.createdAt < 120000 then
                  answer == None && row == old(row) && executed == old(executed)
                else Attempted(r.plan, old(executed), existing.id, answer)
              case None => Attempted(r.plan, old(executed), old(nextRow), answer)
    {
      ghost var before := Now();
      callers := callers[r.id := Caller(Creating, 1, deleted + completed, deleted + completed)];
      ghost var s1 := Now();
      var result, calls;
      result, calls := TryAcquire(r, s1, []);
      if result.ALREADY? { return Some(result.resource); }
      if result.DUPLICATE? { return None; }
      answer, calls := Finish(r, s1, calls);
    }

    /** The acquired key after `execute`: completed with its resource, or released if anything threw. */
    ghost predicate Attempted(plan: Plan, before: seq<Id>, rowId: Id, answer: Option<Id>)
      reads this
    {
      && executed == (if plan.outcome.Some? then before + [plan.outcome.value] else before)
      && answer == (if plan.completeThrows then None else plan.outcome)
      && (if answer.Some? then row.Some? && row.value.id == rowId && row.value.status == COMPLETED(answer.value)
          else row == None)
    }

    /** Execute and complete; the catch block releases the claim, also when completing threw. */
    method Finish(r: Request, ghost s0: State, past: seq<Turn>) returns (answer: Option<Id>, longer: seq<Turn>)
      requires r.id in callers && callers[r.id].pc == Executing
      requires Foreign(r) && Underway(s0, r, past, Now())
      modifies this
      ensures Completes(s0, r, longer, Now()) && r.id in callers
      ensures callers[r.id].pc == if answer.Some? then Returned(answer.value) else Threw
      ensures answer.Some? ==> answer == r.plan.outcome && !r.plan.completeThrows
      ensures Alone(r) && old(row).Some? ==> Attempted(r.plan, old(executed), old(row).value.id, answer)
    {
      answer := None;
      longer := ExecuteTurn(r, s0, past);
      if r.plan.outcome.Some? {
        var done;
        done, longer := CompleteTurn(r, r.plan.outcome.value, s0, longer);
        if done { return r.plan.outcome, longer; }
      }
      longer := ReleaseTurn(r, s0, longer);
    }

    method ExecuteTurn(r: Request, ghost s0: State, past: seq<Turn>) returns (longer: seq<Turn>)
      requires r.id in callers && callers[r.id].pc == Executing
      requires Foreign(r) && Underway(s0, r, past, Now())
      modifies this
      ensures Underway(s0, r, longer, Now()) && r.id in callers
      ensures callers[r.id].pc == if r.plan.outcome.Some? then Completing(r.plan.outcome.value) else Releasing
      ensures Alone(r) ==>
                && row == old(row)
                && executed == old(executed) + if r.plan.outcome.Some? then [r.plan.outcome.value] else []
    {
      var found := AwaitTurn(r, s0, past);
      Executed(r.id, r.plan.outcome);
      longer := past + [Turn(found, Now())];
      TookTurn(s0, r, past, found, Now(),
               if r.plan.outcome.Some? then Resource(r.plan.outcome.value) else Throws);
    }

    method CompleteTurn(r: Request, resource: Id, ghost s0: State, past: seq<Turn>)
      returns (done: bool, longer: seq<Turn>)
      requires r.id in callers && callers[r.id].pc == Completing(resource)
      requires Foreign(r) && Underway(s0, r, past, Now())
      modifies this
      ensures Underway(s0, r, longer, Now()) && r.id in callers && (done ==> !r.plan.completeThrows)
      ensures callers[r.id].pc == if done then Returned(resource) else Releasing
      ensures Alone(r) && old(row).Some? ==>
                && executed == old(executed) && done == !r.plan.completeThrows
                && row == if done then Some(old(row).value.(status := COMPLETED(resource))) else old(row)
    {
      var found := AwaitTurn(r, s0, past);
      done := MarkCompleted(r.id, resource, r.plan.completeThrows);
      longer := past + [Turn(found, Now())];
      TookTurn(s0, r, past, found, Now(), if r.plan.completeThrows then Throws else Ok);
    }

    method ReleaseTurn(r: Request, ghost s0: State, past: seq<Turn>) returns (longer: seq<Turn>)
      requires r.id in callers && callers[r.id].pc == Releasing
      requires Foreign(r) && Underway(s0, r, past, Now())
      modifies this
      ensures Underway(s0, r, longer, Now()) && r.id in callers && callers[r.id].pc == Threw
      ensures row == None && (Alone(r) ==> executed == old(executed))
    {
      var found := AwaitTurn(r, s0, past);
      Release(r.id);
      longer := past + [Turn(found, Now())];
      TookTurn(s0, r, past, found, Now(), Ok);
    }
  }
}
