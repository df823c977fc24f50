/**
 * The idempotency protocol for one (user, scope, key): insert-if-absent, read, stale reclaim,
 * complete, release and recursive retry. Each database call is one step; any number of callers
 * interleave, and a caller that crashes is never scheduled again.
 */
module Idempotency {
  import opened Wrappers

  const STALE_CLAIM_MS := 2 * 60 * 1000

  datatype Status = IN_PROGRESS | COMPLETED(resource: Id)

  datatype Row = Row(id: Id, status: Status, createdAt: int)

  datatype Pc =
    // inside tryAcquire
    | Creating | Reading | Reclaiming(rowId: Id)
      // ACQUIRED: between acquiring and complete or release
    | Executing | Completing(resource: Id) | Releasing
      // finished
    | Replayed(resource: Id) | Busy | Returned(resource: Id) | Threw

  /**
   * `depth` counts the nested tryAcquire calls, `began` and `seen` the removals before the call and before its last
   * look.
   */
  datatype Caller = Caller(pc: Pc, depth: nat, began: nat, seen: nat)

  datatype State = State(
    row: Option<Row>,
    nextRow: Id,
    now: int,
    callers: map<Id, Caller>,
    executed: seq<Id>,       // resources returned by `execute`, in order
    acquired: nat,           // ACQUIRED results
    reclaims: nat,           // of which through a stale row
    deleted: nat,            // rows deleted by `release`
    completed: nat,          // successful `markCompleted` calls
    failedCompletes: nat)    // `markCompleted` calls that threw

  datatype Reply = Ok | Resource(id: Id) | Throws

  datatype Event = Call(caller: Id) | Advance(caller: Id, reply: Reply) | Tick(ms: nat)

  /** Steps that can make a claimed key stop being claimed: rows deleted or completed. */
  function Removals(s: State): nat {
    s.deleted + s.completed
  }

  function At(s: State, c: Id, pc: Pc): State
    requires c in s.callers
  {
    s.(callers := s.callers[c := s.callers[c].(pc := pc, seen := Removals(s))])
  }

  function Retry(s: State, c: Id): State
    requires c in s.callers
  {
    s.(callers := s.callers[c := s.callers[c].(pc := Creating, depth := s.callers[c].depth + 1)])
  }

  function AfterCreate(s: State, c: Id): State
    requires c in s.callers
  {
    if s.row.None? then
      At(s, c, Executing).(row := Some(Row(s.nextRow, IN_PROGRESS, s.now)), nextRow := s.nextRow + 1,
          acquired := s.acquired + 1)
    else At(s, c, Reading)
  }

  function AfterRead(s: State, c: Id): State
    requires c in s.callers
  {
    match s.row
    case None => Retry(s, c)
    case Some(row) =>
      if row.status.COMPLETED? then At(s, c, Replayed(row.status.resource))
      else if s.now - row.createdAt < STALE_CLAIM_MS then At(s, c, Busy)
      else At(s, c, Reclaiming(row.id))
  }

  function AfterReclaim(s: State, c: Id, rowId: Id): State
    requires c in s.callers
  {
    // Only `updatedAt` changes: the row stays exactly as it was read.
    if s.row.Some? && s.row.value.id == rowId && s.row.value.status.IN_PROGRESS? then
      At(s, c, Executing).(acquired := s.acquired + 1, reclaims := s.reclaims + 1)
    else Retry(s, c)
  }

  function AfterComplete(s: State, c: Id, resource: Id, reply: Reply): State
    requires c in s.callers
  {
    if reply.Throws? || s.row.None? then At(s, c, Releasing).(failedCompletes := s.failedCompletes + 1)
    else At(s, c, Returned(resource)).(row := Some(s.row.value.(status := COMPLETED(resource))),
        completed := s.completed + 1)
  }

  function AfterRelease(s: State, c: Id): State
    requires c in s.callers
  {
    At(s, c, Threw).(row := None, deleted := s.deleted + if s.row.Some? then 1 else 0)
  }

  function Step(s: State, e: Event): State {
    match e
    case Tick(ms) => s.(now := s.now + ms)
    case Call(c) =>
      if c in s.callers then s else s.(callers := s.callers[c := Caller(Creating, 1, Removals(s), Removals(s))])
    case Advance(c, reply) =>
      if c !in s.callers then s
      else
        match s.callers[c].pc
        case Creating => AfterCreate(s, c)
        case Reading => AfterRead(s, c)
        case Reclaiming(rowId) => AfterReclaim(s, c, rowId)
        case Executing =>
          if reply.Resource? then At(s, c, Completing(reply.id)).(executed := s.executed + [reply.id])
          else if reply.Throws? then At(s, c, Releasing)
          else s
        case Completing(resource) => AfterComplete(s, c, resource, reply)
        case Releasing => AfterRelease(s, c)
        case _ => s
  }

  function Run(s: State, events: seq<Event>): State {
    if events == [] then s else Step(Run(s, events[..|events| - 1]), events[|events| - 1])
  }

  predicate Initial(s: State) {
    s.row == None && s.callers == map[] && s.executed == [] && s.acquired == 0 && s.reclaims == 0
    && s.deleted == 0 && s.completed == 0 && s.failedCompletes == 0
  }

  // ---- Exactly once

  predicate Holding(pc: Pc) {
    pc.Executing? || pc.Completing? || pc.Releasing?
  }

  /** No stale row was ever reclaimed and `markCompleted` never threw. */
  predicate Clean(s: State) {
    s.reclaims == 0 && s.failedCompletes == 0
  }

  ghost predicate OneHolder(s: State) {
    forall a, b :: a in s.callers && b in s.callers && Holding(s.callers[a].pc) && Holding(s.callers[b].pc) ==> a == b
  }

  /** What each caller's position says about the row and about what has been executed. */
  ghost predicate CallerOk(s: State, pc: Pc) {
    match pc
    case Executing => s.row.Some? && s.row.value.status == IN_PROGRESS && s.executed == []
    case Releasing => s.row.Some? && s.row.value.status == IN_PROGRESS && s.executed == []
    case Completing(r) => s.row.Some? && s.row.value.status == IN_PROGRESS && s.executed == [r]
    case Replayed(r) => s.row.Some? && s.row.value.status == COMPLETED(r)
    case Returned(r) => s.row.Some? && s.row.value.status == COMPLETED(r)
    case _ => true
  }

  /** While the key is claimed it has a holder; while it is not, nobody holds it. */
  ghost predicate RowOk(s: State) {
    && (s.row.None? ==> s.executed == [])
    && (s.row.Some? && s.row.value.status.COMPLETED? ==> s.executed == [s.row.value.status.resource])
    && (s.row.Some? && s.row.value.status.IN_PROGRESS? ==>
          exists c :: c in s.callers && Holding(s.callers[c].pc))
  }

  ghost predicate ExactlyOnce(s: State) {
    OneHolder(s) && RowOk(s) && forall c :: c in s.callers ==> CallerOk(s, s.callers[c].pc)
  }

  lemma StepClean(s: State, e: Event)
    ensures Clean(Step(s, e)) ==> Clean(s)
  {
  }

  lemma StepOneHolder(s: State, e: Event)
    requires ExactlyOnce(s) && Clean(Step(s, e))
    ensures OneHolder(Step(s, e))
  {
    var s' := Step(s, e);
    forall a, b | a in s'.callers && b in s'.callers && Holding(s'.callers[a].pc)
        && Holding(s'.callers[b].pc) ensures a == b {
      if a in s.callers { assert CallerOk(s, s.callers[a].pc); }
      if b in s.callers { assert CallerOk(s, s.callers[b].pc); }
    }
  }

  lemma StepCallersOk(s: State, e: Event, c: Id)
    requires ExactlyOnce(s) && Clean(Step(s, e)) && c in Step(s, e).callers
    ensures CallerOk(Step(s, e), Step(s, e).callers[c].pc)
  {
    if c in s.callers { assert CallerOk(s, s.callers[c].pc); }
    if e.Advance? && e.caller in s.callers { assert CallerOk(s, s.callers[e.caller].pc); }
  }

  lemma StepRowOk(s: State, e: Event)
    requires ExactlyOnce(s) && Clean(Step(s, e))
    ensures RowOk(Step(s, e))
  {
    var s' := Step(s, e);
    if e.Advance? && e.caller in s.callers { assert CallerOk(s, s.callers[e.caller].pc); }
    if s'.row.Some? && s'.row.value.status.IN_PROGRESS? {
      if s.row.None? {
        assert Holding(s'.callers[e.caller].pc);
      } else {
        var c :| c in s.callers && Holding(s.callers[c].pc);
        assert c in s'.callers && Holding(s'.callers[c].pc);
      }
    }
  }

  lemma StepExactlyOnce(s: State, e: Event)
    requires ExactlyOnce(s) && Clean(Step(s, e))
    ensures ExactlyOnce(Step(s, e))
  {
    StepOneHolder(s, e);
    StepRowOk(s, e);
    forall c | c in Step(s, e).callers ensures CallerOk(Step(s, e), Step(s, e).callers[c].pc) {
      StepCallersOk(s, e, c);
    }
  }

  /**
   * For any number of concurrent or retried callers of one key, crashed ones included: at most one is
   * between ACQUIRED and complete or release, `execute` returns a resource at most once, and every
   * replay and every success reports that resource.
   */
  lemma {:induction false} ExecutesExactlyOnce(s: State, events: seq<Event>)
    requires Initial(s) && Clean(Run(s, events))
    ensures var s' := Run(s, events);
            && ExactlyOnce(s')
            && |s'.executed| <= 1
            && (forall c :: c in s'.callers && (s'.callers[c].pc.Replayed? || s'.callers[c].pc.Returned?)
                            ==> s'.executed == [s'.callers[c].pc.resource])
  {
    var s' := Run(s, events);
    if events != [] {
      StepClean(Run(s, events[..|events| - 1]), events[|events| - 1]);
      ExecutesExactlyOnce(s, events[..|events| - 1]);
      StepExactlyOnce(Run(s, events[..|events| - 1]), events[|events| - 1]);
    }
    forall c | c in s'.callers && (s'.callers[c].pc.Replayed? || s'.callers[c].pc.Returned?)
      ensures s'.executed == [s'.callers[c].pc.resource]
    {
      assert CallerOk(s', s'.callers[c].pc);
    }
  }

  lemma {:induction false} RunClean(s: State, events: seq<Event>)
    ensures Clean(Run(s, events)) ==> Clean(s)
  {
    if events != [] {
      RunClean(s, events[..|events| - 1]);
      StepClean(Run(s, events[..|events| - 1]), events[|events| - 1]);
    }
  }

  /** A COMPLETED row is permanent: nothing that happens later changes or deletes it. */
  lemma {:induction false} CompletedIsPermanent(s: State, events: seq<Event>)
    requires ExactlyOnce(s) && Clean(Run(s, events))
    requires s.row.Some? && s.row.value.status.COMPLETED?
    ensures Run(s, events).row == s.row && Run(s, events).executed == s.executed && ExactlyOnce(Run(s, events))
  {
    if events != [] {
      var before := Run(s, events[..|events| - 1]);
      var e := events[|events| - 1];
      StepClean(before, e);
      CompletedIsPermanent(s, events[..|events| - 1]);
      StepExactlyOnce(before, e);
      if e.Advance? && e.caller in before.callers {
        assert CallerOk(before, before.callers[e.caller].pc);
      }
    }
  }

  // ---- Mutual exclusion, exactly

  /** The key is claimed exactly while somebody holds it, and then one caller does. */
  ghost predicate Held(s: State) {
    && OneHolder(s)
    && (forall c :: c in s.callers && Holding(s.callers[c].pc) ==> s.row.Some? && s.row.value.status == IN_PROGRESS)
    && (s.row.Some? && s.row.value.status.IN_PROGRESS? ==> exists c :: c in s.callers && Holding(s.callers[c].pc))
  }

  lemma StepHeld(s: State, e: Event)
    requires Held(s) && Step(s, e).reclaims == s.reclaims
    ensures Held(Step(s, e))
  {
    var s' := Step(s, e);
    if s'.row.Some? && s'.row.value.status.IN_PROGRESS? {
      if s.row.None? {
        assert Holding(s'.callers[e.caller].pc);
      } else {
        var c :| c in s.callers && Holding(s.callers[c].pc);
        assert c in s'.callers && Holding(s'.callers[c].pc);
      }
    }
  }

  /** A reclaim that wins makes its caller a second holder. */
  lemma ReclaimDoubles(s: State, e: Event)
    requires Held(s) && Step(s, e).reclaims != s.reclaims
    ensures !OneHolder(Step(s, e))
  {
    var s' := Step(s, e);
    var c :| c in s.callers && Holding(s.callers[c].pc);
    assert c != e.caller && Holding(s'.callers[c].pc) && Holding(s'.callers[e.caller].pc);
  }

  lemma {:induction false} HeldWithoutReclaims(s: State, events: seq<Event>)
    requires Initial(s) && Run(s, events).reclaims == 0
    ensures Held(Run(s, events))
  {
    if events != [] {
      HeldWithoutReclaims(s, events[..|events| - 1]);
      StepHeld(Run(s, events[..|events| - 1]), events[|events| - 1]);
    }
  }

  lemma {:induction false} ReclaimsDouble(s: State, events: seq<Event>) returns (k: nat)
    requires Initial(s) && Run(s, events).reclaims > 0
    ensures k <= |events| && !OneHolder(Run(s, events[..k]))
  {
    var init := events[..|events| - 1];
    if Run(s, init).reclaims > 0 {
      k := ReclaimsDouble(s, init);
      assert init[..k] == events[..k];
    } else {
      HeldWithoutReclaims(s, init);
      ReclaimDoubles(Run(s, init), events[|events| - 1]);
      k := |events|;
      assert events[..k] == events;
    }
  }

  lemma {:induction false} ReclaimsOnlyGrow(s: State, events: seq<Event>, k: nat)
    requires k <= |events|
    ensures Run(s, events[..k]).reclaims <= Run(s, events).reclaims
  {
    if k == |events| {
      assert events[..k] == events;
    } else {
      ReclaimsOnlyGrow(s, events[..|events| - 1], k);
      assert events[..|events| - 1][..k] == events[..k];
    }
  }

  /**
   * The key has at most one holder throughout a run if and only if no stale row was reclaimed in it: a
   * reclaim always makes a second holder, since the first may only be slow, and nothing else does.
   */
  lemma {:induction false} OneHolderAlwaysIff(s: State, events: seq<Event>)
    requires Initial(s)
    ensures (forall k | 0 <= k <= |events| :: OneHolder(Run(s, events[..k]))) <==> Run(s, events).reclaims == 0
  {
    if Run(s, events).reclaims == 0 {
      forall k | 0 <= k <= |events| ensures OneHolder(Run(s, events[..k])) {
        ReclaimsOnlyGrow(s, events, k);
        HeldWithoutReclaims(s, events[..k]);
      }
    } else {
      var k := ReclaimsDouble(s, events);
    }
  }

  // ---- Only stale rows are reclaimed

  /** An unfinished claim made two minutes ago or earlier. */
  predicate Stale(s: State, row: Row) {
    row.status.IN_PROGRESS? && row.createdAt + 120000 <= s.now
  }

  /** A caller about to reclaim a row read it as stale, and it is as old as it was: only its status may have changed. */
  ghost predicate ReclaimersSawStale(s: State) {
    && (s.row.Some? ==> s.row.value.id < s.nextRow)
    && forall c :: c in s.callers && s.callers[c].pc.Reclaiming? ==>
         var id := s.callers[c].pc.rowId;
         id < s.nextRow && (s.row.Some? && s.row.value.id == id ==> s.row.value.createdAt + 120000 <= s.now)
  }

  lemma StepSawStale(s: State, e: Event)
    requires ReclaimersSawStale(s)
    ensures ReclaimersSawStale(Step(s, e))
  {
  }

  lemma {:induction false} RunSawStale(s: State, events: seq<Event>)
    requires Initial(s)
    ensures ReclaimersSawStale(Run(s, events))
  {
    if events != [] {
      RunSawStale(s, events[..|events| - 1]);
      StepSawStale(Run(s, events[..|events| - 1]), events[|events| - 1]);
    }
  }

  /** A reclaim wins only on a stale row. */
  lemma {:induction false} OnlyStaleRowsReclaimed(s: State, events: seq<Event>, e: Event)
    requires Initial(s) && Step(Run(s, events), e).reclaims != Run(s, events).reclaims
    ensures Run(s, events).row.Some? && Stale(Run(s, events), Run(s, events).row.value)
  {
    RunSawStale(s, events);
  }

  /** At no point of the run is an unfinished claim two minutes old. */
  ghost predicate InTime(s: State, events: seq<Event>) {
    forall k | 0 <= k <= |events| :: var now := Run(s, events[..k]); now.row.Some? ==> !Stale(now, now.row.value)
  }

  lemma InTimePrefix(s: State, events: seq<Event>)
    requires InTime(s, events) && events != []
    ensures InTime(s, events[..|events| - 1])
  {
    var init := events[..|events| - 1];
    forall k | 0 <= k <= |init|
      ensures var now := Run(s, init[..k]); now.row.Some? ==> !Stale(now, now.row.value)
    {
      assert init[..k] == events[..k];
    }
  }

  lemma {:induction false} InTimeNoReclaims(s: State, events: seq<Event>)
    requires Initial(s) && InTime(s, events)
    ensures Run(s, events).reclaims == 0
  {
    if events != [] {
      var init := events[..|events| - 1];
      InTimePrefix(s, events);
      InTimeNoReclaims(s, init);
      assert events[..|init|] == init;
      if Run(s, events).reclaims != Run(s, init).reclaims {
        OnlyStaleRowsReclaimed(s, init, events[|events| - 1]);
      }
    }
  }

  /** While every claim is finished or released within two minutes, the key has at most one holder. */
  lemma {:induction false} OneHolderInTime(s: State, events: seq<Event>)
    requires Initial(s) && InTime(s, events)
    ensures OneHolder(Run(s, events))
  {
    InTimeNoReclaims(s, events);
    HeldWithoutReclaims(s, events);
  }

  /** And then, if `markCompleted` never throws, `execute` succeeds once and everybody is told its resource. */
  lemma {:induction false} ExecutesOnceInTime(s: State, events: seq<Event>)
    requires Initial(s) && InTime(s, events) && Run(s, events).failedCompletes == 0
    ensures var s' := Run(s, events);
            && |s'.executed| <= 1
            && (forall c :: c in s'.callers && (s'.callers[c].pc.Replayed? || s'.callers[c].pc.Returned?)
                            ==> s'.executed == [s'.callers[c].pc.resource])
  {
    InTimeNoReclaims(s, events);
    ExecutesExactlyOnce(s, events);
  }

  // ---- Accounting, with no assumption about staleness

  ghost predicate Accounted(s: State) {
    s.acquired == s.reclaims + s.deleted + if s.row.Some? then 1 else 0
  }

  lemma StepAccounted(s: State, e: Event)
    requires Accounted(s)
    ensures Accounted(Step(s, e))
  {
  }

  /** ACQUIRED results: one per reclaim, one per row `release` deleted, and one if the key is still claimed. */
  lemma {:induction false} AcquisitionsAccounted(s: State, events: seq<Event>)
    requires Initial(s)
    ensures Accounted(Run(s, events))
    ensures Run(s, events).acquired <= 1 + Run(s, events).deleted + Run(s, events).reclaims
  {
    if events != [] {
      AcquisitionsAccounted(s, events[..|events| - 1]);
      StepAccounted(Run(s, events[..|events| - 1]), events[|events| - 1]);
    }
  }

  /** Each retry is paid for by a removal that happened during the call, after the caller last looked. */
  ghost predicate DepthOk(s: State, c: Caller) {
    && c.began <= c.seen <= Removals(s)
    && (c.pc.Creating? ==> c.depth <= 1 + (Removals(s) - c.began))
    && (c.pc.Reading? || c.pc.Reclaiming? ==> c.depth <= 1 + (c.seen - c.began))
    && (c.pc.Reading? ==> s.row.Some? || c.seen < Removals(s))
    && (c.pc.Reclaiming? ==>
          (s.row.Some? && s.row.value.id == c.pc.rowId && s.row.value.status.IN_PROGRESS?) || c.seen < Removals(s))
    && c.depth <= 1 + (Removals(s) - c.began)
  }

  ghost predicate DepthsOk(s: State) {
    forall c :: c in s.callers ==> DepthOk(s, s.callers[c])
  }

  lemma OwnDepthOk(s: State, c: Id, reply: Reply)
    requires c in s.callers && DepthOk(s, s.callers[c])
    ensures DepthOk(Step(s, Advance(c, reply)), Step(s, Advance(c, reply)).callers[c])
  {
  }

  lemma OtherDepthOk(s: State, e: Event, c: Id)
    requires c in s.callers && DepthOk(s, s.callers[c]) && (e.Advance? ==> e.caller != c)
    ensures c in Step(s, e).callers && DepthOk(Step(s, e), Step(s, e).callers[c])
  {
  }

  lemma StepDepthsOk(s: State, e: Event)
    requires DepthsOk(s)
    ensures DepthsOk(Step(s, e))
  {
    var s' := Step(s, e);
    forall c | c in s'.callers ensures DepthOk(s', s'.callers[c]) {
      if c in s.callers {
        assert DepthOk(s, s.callers[c]);
        if e.Advance? && e.caller == c { OwnDepthOk(s, c, e.reply); } else { OtherDepthOk(s, e, c); }
      }
    }
  }

  lemma {:induction false} DepthsOkOverRuns(s: State, events: seq<Event>)
    requires Initial(s)
    ensures DepthsOk(Run(s, events))
  {
    if events != [] {
      DepthsOkOverRuns(s, events[..|events| - 1]);
      StepDepthsOk(Run(s, events[..|events| - 1]), events[|events| - 1]);
    }
  }

  /**
   * The recursion of one tryAcquire call is at most one level deeper than the number of rows released
   * or completed since the call began, stale reclaims or not. So it ends whenever the others do.
   */
  lemma RetriesArePaidFor(s: State, events: seq<Event>, c: Id)
    requires Initial(s) && c in Run(s, events).callers
    ensures var s' := Run(s, events); s'.callers[c].depth <= 1 + (Removals(s') - s'.callers[c].began)
  {
    DepthsOkOverRuns(s, events);
    assert DepthOk(Run(s, events), Run(s, events).callers[c]);
  }

  // ---- Why the conditions are needed

  lemma Snoc(s: State, events: seq<Event>, e: Event) returns (longer: seq<Event>)
    ensures longer == events + [e] && Run(s, longer) == Step(Run(s, events), e)
  {
    longer := events + [e];
    assert longer[..|events|] == events;
  }

  const FRESH := State(None, 0, 0, map[], [], 0, 0, 0, 0, 0)

  /** A reclaim leaves the row as stale as it found it, so two callers can both win it. */
  lemma StaleRowReclaimedTwice() returns (events: seq<Event>)
    ensures Initial(FRESH) && !OneHolder(Run(FRESH, events)) && Run(FRESH, events).failedCompletes == 0
    ensures Run(FRESH, events).reclaims == 2 && Run(FRESH, events).deleted == 0
  {
    events := Claimed();
    events := Reclaimed(events, 2);
    events := Reclaimed(events, 3);
  }

  lemma CreateClaims(s: State, c: Id)
    requires c in s.callers && s.callers[c].pc == Creating && s.row == None
    ensures var s' := Step(s, Advance(c, Ok));
            s'.row == Some(Row(s.nextRow, IN_PROGRESS, s.now)) && s'.callers.Keys == s.callers.Keys && s'.now == s.now
            && s'.failedCompletes == s.failedCompletes && s'.reclaims == s.reclaims && s'.deleted == s.deleted
  {
  }

  /** A caller claims the key and is not heard of again until the claim is stale. */
  lemma Claimed() returns (events: seq<Event>)
    ensures var s := Run(FRESH, events);
            s.row == Some(Row(0, IN_PROGRESS, 0)) && s.now == STALE_CLAIM_MS && s.callers.Keys == {1}
            && s.failedCompletes == 0 && s.reclaims == 0 && s.deleted == 0
  {
    events := Snoc(FRESH, [], Call(1));
    var called := FRESH.(callers := map[1 := Caller(Creating, 1, 0, 0)]);
    assert Run(FRESH, events) == called;
    events := Snoc(FRESH, events, Advance(1, Ok));
    CreateClaims(called, 1);
    events := Snoc(FRESH, events, Tick(STALE_CLAIM_MS));
  }

  /** One more caller finds the stale row and reclaims it. */
  lemma Reclaimed(events: seq<Event>, c: Id) returns (longer: seq<Event>)
    requires var s := Run(FRESH, events);
             s.row == Some(Row(0, IN_PROGRESS, 0)) && s.now == STALE_CLAIM_MS && c !in s.callers
                 && s.failedCompletes == 0
    ensures var s, s' := Run(FRESH, events), Run(FRESH, longer);
            && s'.row == s.row && s'.now == s.now && s'.callers.Keys == s.callers.Keys + {c} && s'.failedCompletes == 0
            && s'.callers[c].pc == Executing && s'.reclaims == s.reclaims + 1 && s'.deleted == s.deleted
            && (forall d :: d in s.callers ==> s'.callers[d] == s.callers[d])
  {
    longer := Snoc(FRESH, events, Call(c));
    longer := Snoc(FRESH, longer, Advance(c, Ok));
    longer := Snoc(FRESH, longer, Advance(c, Ok));
    longer := Snoc(FRESH, longer, Advance(c, Ok));
  }
}
