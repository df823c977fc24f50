/** The per-request limit check, and what it implies for every 24-hour window of every history. */
module TransferLimits {
  import opened Wrappers
  import opened KycTiers
  import T = Transfers

  const ROLLING_WINDOW_MS := 24 * 60 * 60 * 1000

  /** What the check reads of one stored transfer. */
  datatype Sent = Sent(account: Id, createdAt: int, amount: nat, status: T.TransferStatus)

  datatype LimitError = PerTransaction | Daily

  /** The statuses `sumSourceAmountSince` adds up. */
  predicate Counted(status: T.TransferStatus) {
    status == T.SUCCESSFUL || status == T.PROCESSING
  }

  function SumSince(rows: seq<Sent>, account: Id, since: int): nat {
    if rows == [] then 0
    else
      var r := rows[|rows| - 1];
      SumSince(rows[..|rows| - 1], account, since)
      + if r.account == account && Counted(r.status) && r.createdAt >= since then r.amount else 0
  }

  /** `assertWithinLimits` for a user of the given tier, at clock time `now`. */
  function AssertWithinLimits(rows: seq<Sent>, tier: KycTier, account: Id, amount: nat, now: int): Outcome<LimitError> {
    var limits := DefaultLimits(tier);
    if !Within(amount, limits.perTransaction) then Fail(PerTransaction)
    else if !Within(SumSince(rows, account, now - ROLLING_WINDOW_MS) + amount, limits.daily) then Fail(Daily)
    else Pass
  }

  /** A request whose check has passed; `since` is what others have sent from the account after that check. */
  datatype Passed = Passed(account: Id, amount: nat, now: int, since: nat)

  /**
   * `Check` is the check of one request, `Record` the save that makes its transfer count (or leaves it FAILED or
   * REVERSED); anything may come in between. `Webhook` is a later change of a PROCESSING row.
   */
  datatype Event =
    | Check(request: Id, account: Id, amount: nat, now: int)
    | Record(request: Id, createdAt: int, status: T.TransferStatus)
    | Webhook(index: nat, success: bool)
    | RaiseTier(user: Id, tier: KycTier)

  /** `overlap`: per account, the largest `since` of a request that was recorded. */
  datatype State = State(rows: seq<Sent>, owners: map<Id, Id>, tiers: map<Id, KycTier>,
                         passed: map<Id, Passed>, overlap: map<Id, nat>)

  function TierOf(s: State, account: Id): KycTier {
    if account in s.owners && s.owners[account] in s.tiers then s.tiers[s.owners[account]] else TIER_1
  }

  function Overlap(s: State, account: Id): nat {
    if account in s.overlap then s.overlap[account] else 0
  }

  function Sooner(passed: map<Id, Passed>, row: Sent): map<Id, Passed> {
    map r | r in passed ::
      if passed[r].account == row.account && Counted(row.status)
      then passed[r].(since := passed[r].since + row.amount) else passed[r]
  }

  function Recorded(s: State, request: Id, row: Sent): State
    requires request in s.passed
  {
    var p := s.passed[request];
    s.(rows := s.rows + [row],
       passed := Sooner(s.passed - {request}, row),
       overlap := s.overlap[p.account := if Overlap(s, p.account) < p.since then p.since else Overlap(s, p.account)])
  }

  function Step(s: State, e: Event): State {
    match e
    case Check(request, account, amount, now) =>
      if AssertWithinLimits(s.rows, TierOf(s, account), account, amount, now).Fail? then s
      else s.(passed := s.passed[request := Passed(account, amount, now, 0)])
    case Record(request, createdAt, status) =>
      // The row is created after its request was checked.
      if request !in s.passed || createdAt < s.passed[request].now then s
      else Recorded(s, request, Sent(s.passed[request].account, createdAt, s.passed[request].amount, status))
    case Webhook(index, success) =>
      if index < |s.rows| && s.rows[index].status == T.PROCESSING then
        s.(rows := s.rows[index := s.rows[index].(status := if success then T.SUCCESSFUL else T.REVERSED)])
      else s
    case RaiseTier(user, tier) =>
      if (if user in s.tiers then s.tiers[user] else TIER_1).Rank() <= tier.Rank()
      then s.(tiers := s.tiers[user := tier]) else s
  }

  function Run(s: State, events: seq<Event>): State {
    if events == [] then s else Step(Run(s, events[..|events| - 1]), events[|events| - 1])
  }

  /** SUCCESSFUL and PROCESSING principal sent from the account in the closed window of 24 hours from `start`. */
  function InWindow(rows: seq<Sent>, account: Id, start: int): nat {
    if rows == [] then 0
    else
      var r := rows[|rows| - 1];
      InWindow(rows[..|rows| - 1], account, start)
      + if r.account == account && (r.status == T.SUCCESSFUL || r.status == T.PROCESSING)
           && start <= r.createdAt <= start + 86400000 then r.amount else 0
  }

  lemma {:induction false} WindowWithinSince(rows: seq<Sent>, account: Id, start: int, since: int)
    requires since <= start
    ensures InWindow(rows, account, start) <= SumSince(rows, account, since)
  {
    if rows != [] { WindowWithinSince(rows[..|rows| - 1], account, start, since); }
  }

  /** Changing the status of one row cannot raise a window's sum unless the row starts to count. */
  lemma {:induction false} WindowAfterStatus(rows: seq<Sent>, index: nat, status: T.TransferStatus, account: Id,
      start: int)
    requires index < |rows| && (Counted(status) ==> Counted(rows[index].status))
    ensures InWindow(rows[index := rows[index].(status := status)], account, start) <= InWindow(rows, account, start)
  {
    var changed := rows[index := rows[index].(status := status)];
    if index < |rows| - 1 {
      assert changed[..|rows| - 1] == rows[..|rows| - 1][index := rows[index].(status := status)];
      WindowAfterStatus(rows[..|rows| - 1], index, status, account, start);
    } else {
      assert changed[..|rows| - 1] == rows[..|rows| - 1];
    }
  }

  function DailyLimit(s: State, account: Id): Option<nat> {
    DefaultLimits(TierOf(s, account)).daily
  }

  /** Every window stays within the limit, up to what was sent while some request stood checked but unrecorded. */
  ghost predicate WindowsWithin(s: State, account: Id) {
    forall start :: Within(InWindow(s.rows, account, start) - Overlap(s, account), DailyLimit(s, account))
  }

  /** A request that passed still fits into every window it can fall into, up to what was sent since. */
  ghost predicate Fits(s: State, p: Passed) {
    forall start | p.now - ROLLING_WINDOW_MS <= start ::
      Within(InWindow(s.rows, p.account, start) + p.amount - p.since, DailyLimit(s, p.account))
  }

  ghost predicate Limited(s: State, account: Id) {
    WindowsWithin(s, account) && forall r | r in s.passed && s.passed[r].account == account :: Fits(s, s.passed[r])
  }

  lemma CheckKeepsLimits(s: State, e: Event, account: Id)
    requires Limited(s, account) && e.Check?
    ensures Limited(Step(s, e), account)
  {
    var s' := Step(s, e);
    forall r | r in s'.passed && s'.passed[r].account == account ensures Fits(s', s'.passed[r]) {
      var p := s'.passed[r];
      if r == e.request && s'.passed != s.passed {
        forall start | p.now - ROLLING_WINDOW_MS <= start
          ensures Within(InWindow(s'.rows, account, start) + p.amount - p.since, DailyLimit(s', account))
        {
          WindowWithinSince(s.rows, account, start, p.now - ROLLING_WINDOW_MS);
        }
      } else {
        assert Fits(s, s.passed[r]);
      }
    }
  }

  lemma WindowAfterRow(rows: seq<Sent>, row: Sent, account: Id, start: int)
    ensures InWindow(rows + [row], account, start) == InWindow(rows, account, start)
      + if row.account == account && Counted(row.status) && start <= row.createdAt <= start + ROLLING_WINDOW_MS
        then row.amount else 0
  {
    assert (rows + [row])[..|rows|] == rows;
  }

  lemma RecordKeepsWindows(s: State, request: Id, row: Sent, account: Id)
    requires Limited(s, account) && request in s.passed
    requires var p := s.passed[request]; row.account == p.account && row.amount == p.amount && p.now <= row.createdAt
    ensures WindowsWithin(Recorded(s, request, row), account)
  {
    var s' := Recorded(s, request, row);
    forall start ensures Within(InWindow(s'.rows, account, start) - Overlap(s', account), DailyLimit(s', account)) {
      WindowAfterRow(s.rows, row, account, start);
      if row.account == account && row.createdAt <= start + ROLLING_WINDOW_MS {
        assert Fits(s, s.passed[request]);
      }
    }
  }

  lemma RecordKeepsFits(s: State, request: Id, row: Sent, r: Id)
    requires request in s.passed && r in s.passed && r != request && Fits(s, s.passed[r])
    ensures Fits(Recorded(s, request, row), Recorded(s, request, row).passed[r])
  {
    var s' := Recorded(s, request, row);
    var p := s'.passed[r];
    forall start | p.now - ROLLING_WINDOW_MS <= start
      ensures Within(InWindow(s'.rows, p.account, start) + p.amount - p.since, DailyLimit(s', p.account))
    {
      WindowAfterRow(s.rows, row, p.account, start);
    }
  }

  lemma RecordKeepsLimits(s: State, e: Event, account: Id)
    requires Limited(s, account) && e.Record?
    ensures Limited(Step(s, e), account)
  {
    var s' := Step(s, e);
    if s' != s {
      var row := Sent(s.passed[e.request].account, e.createdAt, s.passed[e.request].amount, e.status);
      RecordKeepsWindows(s, e.request, row, account);
      forall r | r in s'.passed && s'.passed[r].account == account ensures Fits(s', s'.passed[r]) {
        assert Fits(s, s.passed[r]);
        RecordKeepsFits(s, e.request, row, r);
      }
    }
  }

  lemma WebhookKeepsLimits(s: State, e: Event, account: Id)
    requires Limited(s, account) && e.Webhook?
    ensures Limited(Step(s, e), account)
  {
    var s' := Step(s, e);
    forall start ensures InWindow(s'.rows, account, start) <= InWindow(s.rows, account, start) {
      if s' != s { WindowAfterStatus(s.rows, e.index, if e.success then T.SUCCESSFUL else T.REVERSED, account, start); }
    }
    forall start ensures Within(InWindow(s'.rows, account, start) - Overlap(s', account), DailyLimit(s', account)) {
      assert Within(InWindow(s.rows, account, start) - Overlap(s, account), DailyLimit(s, account));
    }
    forall r | r in s'.passed && s'.passed[r].account == account ensures Fits(s', s'.passed[r]) {
      assert Fits(s, s.passed[r]);
    }
  }

  lemma RaiseKeepsLimits(s: State, e: Event, account: Id)
    requires Limited(s, account) && e.RaiseTier?
    ensures Limited(Step(s, e), account)
  {
    var s' := Step(s, e);
    forall value: int ensures Within(value, DailyLimit(s, account)) ==> Within(value, DailyLimit(s', account)) {
      LimitsRiseWithTier(TierOf(s, account), TierOf(s', account), value);
    }
    forall start ensures Within(InWindow(s'.rows, account, start) - Overlap(s', account), DailyLimit(s', account)) {
      assert Within(InWindow(s.rows, account, start) - Overlap(s, account), DailyLimit(s, account));
    }
    forall r | r in s'.passed && s'.passed[r].account == account ensures Fits(s', s'.passed[r]) {
      assert Fits(s, s.passed[r]);
    }
  }

  /**
   * For any interleaving of checks and records: a window exceeds the daily limit by no more than what other
   * requests sent from the account between the check and the record of one request.
   */
  lemma {:induction false} OverlapBoundsExcess(s: State, events: seq<Event>, account: Id)
    requires s.rows == [] && s.passed == map[]
    ensures Limited(Run(s, events), account)
    ensures forall start ::
              Within(InWindow(Run(s, events).rows, account, start) - Overlap(Run(s, events), account),
                     DailyLimit(Run(s, events), account))
  {
    if events != [] {
      var before := Run(s, events[..|events| - 1]);
      var e := events[|events| - 1];
      OverlapBoundsExcess(s, events[..|events| - 1], account);
      match e
      case Check(_, _, _, _) => CheckKeepsLimits(before, e, account);
      case Record(_, _, _) => RecordKeepsLimits(before, e, account);
      case Webhook(_, _) => WebhookKeepsLimits(before, e, account);
      case RaiseTier(_, _) => RaiseKeepsLimits(before, e, account);
    }
  }

  /**
   * The check looks back from each request only; still, when no request on the account was recorded between
   * the check and the record of another, and tiers only rise, no 24-hour window exceeds the daily limit.
   */
  lemma {:induction false} EveryWindowWithinDailyLimit(s: State, events: seq<Event>, account: Id, start: int)
    requires s.rows == [] && s.passed == map[] && Overlap(Run(s, events), account) == 0
    ensures Within(InWindow(Run(s, events).rows, account, start), DailyLimit(Run(s, events), account))
  {
    OverlapBoundsExcess(s, events, account);
    assert Within(InWindow(Run(s, events).rows, account, start) - 0, DailyLimit(Run(s, events), account));
  }

  /** Counted rows of the account, each checked again against the rows recorded before it. */
  ghost predicate EachFits(rows: seq<Sent>, account: Id, limit: Option<nat>) {
    forall k | 0 <= k < |rows| && rows[k].account == account && Counted(rows[k].status) :: FitsAt(rows, k, limit)
  }

  predicate FitsAt(rows: seq<Sent>, k: nat, limit: Option<nat>)
    requires k < |rows|
  {
    Within(SumSince(rows[..k], rows[k].account, rows[k].createdAt - ROLLING_WINDOW_MS) + rows[k].amount, limit)
  }

  predicate InOrder(rows: seq<Sent>) {
    forall i, j :: 0 <= i < j < |rows| ==> rows[i].createdAt <= rows[j].createdAt
  }

  lemma {:induction false} WindowOfPrefix(rows: seq<Sent>, n: nat, account: Id, start: int)
    requires n <= |rows|
    ensures InWindow(rows[..n], account, start) <= InWindow(rows, account, start)
  {
    if n == |rows| {
      assert rows[..n] == rows;
    } else {
      WindowOfPrefix(rows[..|rows| - 1], n, account, start);
      assert rows[..|rows| - 1][..n] == rows[..n];
    }
  }

  lemma {:induction false} WindowIsSince(rows: seq<Sent>, account: Id, now: int)
    requires forall i :: 0 <= i < |rows| ==> rows[i].createdAt <= now
    ensures InWindow(rows, account, now - ROLLING_WINDOW_MS) == SumSince(rows, account, now - ROLLING_WINDOW_MS)
  {
    if rows != [] { WindowIsSince(rows[..|rows| - 1], account, now); }
  }

  lemma WindowsFit(rows: seq<Sent>, k: nat, account: Id, limit: Option<nat>)
    requires InOrder(rows) && k < |rows| && rows[k].account == account && Counted(rows[k].status)
    requires Within(InWindow(rows, account, rows[k].createdAt - ROLLING_WINDOW_MS), limit)
    ensures FitsAt(rows, k, limit)
  {
    var start := rows[k].createdAt - ROLLING_WINDOW_MS;
    WindowIsSince(rows[..k], account, rows[k].createdAt);
    WindowOfPrefix(rows, k + 1, account, start);
    assert rows[..k + 1][..k] == rows[..k];
  }

  lemma {:induction false} FitsBoundWindow(rows: seq<Sent>, account: Id, limit: Option<nat>, start: int)
    requires EachFits(rows, account, limit)
    ensures Within(InWindow(rows, account, start), limit)
  {
    if rows != [] {
      var n := |rows| - 1;
      var last := rows[n];
      if last.account == account && Counted(last.status) && start <= last.createdAt <= start + ROLLING_WINDOW_MS {
        assert FitsAt(rows, n, limit);
        WindowWithinSince(rows[..n], account, start, last.createdAt - ROLLING_WINDOW_MS);
      } else {
        assert forall k :: 0 <= k < n && FitsAt(rows, k, limit) ==> rows[..n][..k] == rows[..k];
        FitsBoundWindow(rows[..n], account, limit, start);
      }
    }
  }

  ghost predicate AllWithin(rows: seq<Sent>, account: Id, limit: Option<nat>) {
    forall start :: Within(InWindow(rows, account, start), limit)
  }

  lemma WindowsFitEach(rows: seq<Sent>, account: Id, limit: Option<nat>)
    requires InOrder(rows) && AllWithin(rows, account, limit)
    ensures EachFits(rows, account, limit)
  {
    forall k | 0 <= k < |rows| && rows[k].account == account && Counted(rows[k].status)
      ensures FitsAt(rows, k, limit)
    {
      WindowsFit(rows, k, account, limit);
    }
  }

  /**
   * However the checks overlapped: all windows of a history are within a limit if and only if every counted
   * transfer would have passed the daily check made again, at its creation, over the ones created before it.
   */
  lemma OverlappingChecksIff(rows: seq<Sent>, account: Id, limit: Option<nat>)
    requires InOrder(rows)
    ensures AllWithin(rows, account, limit) <==> EachFits(rows, account, limit)
  {
    if AllWithin(rows, account, limit) {
      WindowsFitEach(rows, account, limit);
    } else {
      var start :| !Within(InWindow(rows, account, start), limit);
      if EachFits(rows, account, limit) { FitsBoundWindow(rows, account, limit, start); }
    }
  }

  /**
   * The check passes exactly when the amount is within the transaction limit and, added to what was sent in the
   * 24 hours that end now, within the daily limit; older transfers do not count against it.
   */
  lemma CheckPassesIff(rows: seq<Sent>, tier: KycTier, account: Id, amount: nat, now: int)
    requires forall i :: 0 <= i < |rows| ==> rows[i].createdAt <= now
    ensures var limits := DefaultLimits(tier);
            var answer := AssertWithinLimits(rows, tier, account, amount, now);
            && (answer == Fail(PerTransaction)
                <==> limits.perTransaction.Some? && amount > limits.perTransaction.value)
            && (answer == Pass
                <==> && (limits.perTransaction.Some? ==> amount <= limits.perTransaction.value)
                     && (limits.daily.Some? ==>
                           InWindow(rows, account, now - 86400000) + amount <= limits.daily.value))
  {
    WindowIsSince(rows, account, now);
  }

  lemma {:induction false} OldRowsDoNotCount(rows: seq<Sent>, older: seq<Sent>, account: Id, now: int)
    requires forall r | r in older :: r.createdAt < now - 86400000
    ensures InWindow(older + rows, account, now - 86400000) == InWindow(rows, account, now - 86400000)
  {
    if rows == [] {
      assert older + rows == older;
      OnlyOldRows(older, account, now);
    } else {
      OldRowsDoNotCount(rows[..|rows| - 1], older, account, now);
      assert (older + rows)[..|older + rows| - 1] == older + rows[..|rows| - 1];
    }
  }

  lemma {:induction false} OnlyOldRows(older: seq<Sent>, account: Id, now: int)
    requires forall r | r in older :: r.createdAt < now - 86400000
    ensures InWindow(older, account, now - 86400000) == 0
  {
    if older != [] {
      assert older[|older| - 1] in older;
      OnlyOldRows(older[..|older| - 1], account, now);
    }
  }

  /** And it can fail: two requests of the whole daily limit, each passing alone. */
  lemma OverlappingChecksExceed()
    ensures AssertWithinLimits([], TIER_1, 0, 5000000, 0) == Pass
    ensures AssertWithinLimits([Sent(0, 0, 5000000, T.SUCCESSFUL)], TIER_1, 0, 5000000, 0) == Fail(Daily)
  {
    assert [Sent(0, 0, 5000000, T.SUCCESSFUL)][..0] == [];
    assert SumSince([], 0, -ROLLING_WINDOW_MS) == 0;
  }
}
