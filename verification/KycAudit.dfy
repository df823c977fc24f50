/** KYC tier progression, the audit rows written beside it, and sanctions screening after a verification. */
module KycAudit {
  import opened Wrappers
  import opened KycTiers

  datatype VerificationType = BVN | NIN

  datatype Profile = Profile(
    tier: KycTier,
    bvnVerifiedAt: Option<nat>,
    ninVerifiedAt: Option<nat>,
    sanctionsFlaggedAt: Option<nat>,
    sanctionsClearedAt: Option<nat>,
    version: nat)
  {
    function VerifiedAt(t: VerificationType): Option<nat> {
      if t == BVN then bvnVerifiedAt else ninVerifiedAt
    }

    predicate FlagOpen() { sanctionsFlaggedAt.Some? && sanctionsClearedAt.None? }
  }

  const DEFAULT := Profile(TIER_1, None, None, None, None, 0)

  datatype DomainEvent =
    | ProfileCreated
    | VerificationPassed(t: VerificationType)
    | VerificationFailed(t: VerificationType)
    | TierUpgraded(newTier: KycTier)
    | SanctionsFlagged
    | SanctionsFlagCleared

  datatype KycError = AlreadyPassed | IdentityMismatch | FlagNotOpen | ConcurrentModification

  datatype AuditRow =
    | VerificationAttempt(t: VerificationType, passed: bool, byStaff: bool)
    | TierChange(previousTier: KycTier, newTier: KycTier)
    | SanctionsScreening(passed: bool, byStaff: bool)

  // ---- what the aggregate does

  function BvnVerified(p: Profile, at: nat): Profile
  {
    p.(bvnVerifiedAt := Some(at), version := p.version + 1,
       tier := if p.tier == TIER_1 then TIER_2 else p.tier)
  }

  function NinVerified(p: Profile, at: nat): Profile
  {
    p.(ninVerifiedAt := Some(at), version := p.version + 1,
       tier := if p.tier == TIER_2 && p.bvnVerifiedAt.Some? then TIER_3 else p.tier)
  }

  function Verified(p: Profile, t: VerificationType, at: nat): Profile
  {
    if t == BVN then BvnVerified(p, at) else NinVerified(p, at)
  }

  function VerifiedEvents(p: Profile, t: VerificationType, at: nat): seq<DomainEvent>
  {
    [VerificationPassed(t)] +
    if Verified(p, t, at).tier != p.tier then [TierUpgraded(Verified(p, t, at).tier)] else []
  }

  function Flagged(p: Profile, at: nat): Profile
  {
    if p.FlagOpen() then p
    else p.(sanctionsFlaggedAt := Some(at), sanctionsClearedAt := None, version := p.version + 1)
  }

  // ---- what the repository, the recorder and the handlers do

  function Saved(stored: Profile, p: Profile): Option<Profile>
  {
    if p.version > 0 && stored.version == p.version - 1 then Some(p) else None
  }

  function DerivedPrevious(newTier: KycTier): KycTier
  {
    if newTier == TIER_3 then TIER_2 else TIER_1
  }

  function Recorded(events: seq<DomainEvent>): seq<AuditRow>
  {
    if events == [] then []
    else
      Recorded(events[..|events| - 1]) +
      match events[|events| - 1]
      case VerificationPassed(t) => [VerificationAttempt(t, true, false)]
      case VerificationFailed(t) => [VerificationAttempt(t, false, false)]
      case TierUpgraded(newTier) => [TierChange(DerivedPrevious(newTier), newTier)]
      case _ => []
  }

  function TierChangesOf(events: seq<DomainEvent>): seq<DomainEvent>
  {
    if events == [] then []
    else
      TierChangesOf(events[..|events| - 1]) +
      if events[|events| - 1].TierUpgraded? then [events[|events| - 1]] else []
  }

  datatype Desk = Desk(profile: Profile, log: seq<AuditRow>)

  /** A stored profile with its log, and whether the call threw. */
  datatype Result = Result(desk: Desk, thrown: Outcome<KycError>)

  /** `nameMatches` and `listed` are the answers of the identity and the screening provider. */
  datatype Request =
    | Submit(t: VerificationType, nameMatches: bool, listed: bool, at: nat)
    | Override(t: VerificationType, listed: bool, at: nat)
    | ClearFlag(at: nat)

  /** Screening with the profile that was just saved. */
  function Screened(d: Desk, p: Profile, listed: bool, at: nat): Result
  {
    if !listed then Result(d.(log := d.log + [SanctionsScreening(true, false)]), Pass)
    else match Saved(d.profile, Flagged(p, at))
         case None => Result(d, Fail(ConcurrentModification))
         case Some(q) => Result(Desk(q, d.log + [SanctionsScreening(false, false)]), Pass)
  }

  function Rows(p: Profile, r: Request): seq<AuditRow>
    requires !r.ClearFlag?
  {
    var events := VerifiedEvents(p, r.t, r.at);
    if r.Submit? then Recorded(events)
    else [VerificationAttempt(r.t, true, true)] + Recorded(TierChangesOf(events))
  }

  function Handle(d: Desk, r: Request): Result
  {
    var p := d.profile;
    if r.ClearFlag? then
      if !p.FlagOpen() then Result(d, Fail(FlagNotOpen))
      else Result(Desk(p.(sanctionsClearedAt := Some(r.at), version := p.version + 1),
                       d.log + [SanctionsScreening(true, true)]), Pass)
    else if r.Submit? && !r.nameMatches then
      Result(Desk(p.(version := p.version + 1), d.log + Recorded([VerificationFailed(r.t)])), Fail(IdentityMismatch))
    else if p.VerifiedAt(r.t).Some? then Result(d, Fail(AlreadyPassed))
    else
      var q := Verified(p, r.t, r.at);
      Screened(Desk(q, d.log + Rows(p, r)), q, r.listed, r.at)
  }

  const REGISTERED := Desk(DEFAULT, [])

  function Run(requests: seq<Request>): Desk
  {
    if requests == [] then REGISTERED
    else Handle(Run(requests[..|requests| - 1]), requests[|requests| - 1]).desk
  }

  // ---- one request at a time

  /** The request passes the provider's check, so it verifies unless that was done before. */
  predicate Passes(r: Request, t: VerificationType)
  {
    !r.ClearFlag? && r.t == t && (r.Submit? ==> r.nameMatches)
  }

  predicate Accepted(p: Profile, r: Request)
  {
    !r.ClearFlag? && Passes(r, r.t) && p.VerifiedAt(r.t).None?
  }

  lemma RecordedOne(e: DomainEvent)
    ensures e.VerificationPassed? ==>
              Recorded([e]) == [VerificationAttempt(e.t, true, false)] && TierChangesOf([e]) == []
    ensures e.VerificationFailed? ==> Recorded([e]) == [VerificationAttempt(e.t, false, false)]
    ensures e.TierUpgraded? ==>
      Recorded([e]) == [TierChange(DerivedPrevious(e.newTier), e.newTier)] && TierChangesOf([e]) == [e]
  {
    assert [e][..0] == [];
    assert Recorded([]) == [] && TierChangesOf([]) == [];
  }

  lemma RecordedTwo(a: DomainEvent, b: DomainEvent)
    ensures Recorded([a, b]) == Recorded([a]) + Recorded([b])
    ensures TierChangesOf([a, b]) == TierChangesOf([a]) + TierChangesOf([b])
  {
    assert [a, b][..1] == [a] && [b][..0] == [];
    assert Recorded([]) == [] && TierChangesOf([]) == [];
  }

  lemma RowsOf(p: Profile, r: Request)
    requires !r.ClearFlag?
    ensures Rows(p, r) == [VerificationAttempt(r.t, true, r.Override?)] +
      var q := Verified(p, r.t, r.at);
      if q.tier != p.tier then [TierChange(DerivedPrevious(q.tier), q.tier)] else []
  {
    var events := VerifiedEvents(p, r.t, r.at);
    RecordedOne(events[0]);
    if |events| == 2 {
      RecordedOne(events[1]);
      RecordedTwo(events[0], events[1]);
      assert events == [events[0], events[1]];
    } else {
      assert events == [events[0]];
    }
  }

  /** A request changes tier and verification marks only by being accepted, and then as the aggregate says. */
  lemma HandleVerifies(d: Desk, r: Request)
    ensures var p, q := d.profile, Handle(d, r).desk.profile;
            var v := if Accepted(p, r) then Verified(p, r.t, r.at) else p;
            q.tier == v.tier && q.bvnVerifiedAt == v.bvnVerifiedAt && q.ninVerifiedAt == v.ninVerifiedAt
  {
  }

  /** The row a request adds about verification; at most one tier change follows it. */
  function VerificationRows(p: Profile, r: Request): seq<AuditRow>
  {
    if Accepted(p, r) then Rows(p, r)
    else if !r.ClearFlag? && !Passes(r, r.t) then [VerificationAttempt(r.t, false, false)]
    else []
  }

  function ScreeningRows(p: Profile, r: Request): seq<AuditRow>
  {
    if r.ClearFlag? then (if p.FlagOpen() then [SanctionsScreening(true, true)] else [])
    else if !Accepted(p, r) || (r.listed && p.FlagOpen()) then []
    else [SanctionsScreening(!r.listed, false)]
  }

  lemma HandleLogs(d: Desk, r: Request)
    ensures Handle(d, r).desk.log == d.log + VerificationRows(d.profile, r) + ScreeningRows(d.profile, r)
  {
    if !r.ClearFlag? && !Passes(r, r.t) { RecordedOne(VerificationFailed(r.t)); }
  }

  // ---- the audit log replays to the stored tier

  /** Walks the tier-change rows, refusing a row whose previous tier is not the tier reached. */
  function Replay(log: seq<AuditRow>): Option<KycTier>
  {
    if log == [] then Some(TIER_1)
    else
      var before, row := Replay(log[..|log| - 1]), log[|log| - 1];
      if !row.TierChange? then before
      else if before == Some(row.previousTier) then Some(row.newTier)
      else None
  }

  function Passed(log: seq<AuditRow>, t: VerificationType): nat
  {
    if log == [] then 0
    else
      Passed(log[..|log| - 1], t) +
      var row := log[|log| - 1];
      if row.VerificationAttempt? && row.passed && row.t == t then 1 else 0
  }

  lemma ReplayOne(log: seq<AuditRow>, row: AuditRow, t: VerificationType)
    ensures Replay(log + [row]) == if !row.TierChange? then Replay(log)
                                   else if Replay(log) == Some(row.previousTier) then Some(row.newTier) else None
    ensures Passed(log + [row], t) == Passed(log, t) +
      if row.VerificationAttempt? && row.passed && row.t == t then 1 else 0
  {
    assert (log + [row])[..|log|] == log;
  }

  lemma ScreeningRowsDoNotMatter(log: seq<AuditRow>, p: Profile, r: Request, t: VerificationType)
    ensures Replay(log + ScreeningRows(p, r)) == Replay(log)
    ensures Passed(log + ScreeningRows(p, r), t) == Passed(log, t)
  {
    var rows := ScreeningRows(p, r);
    if rows == [] {
      assert log + rows == log;
    } else {
      ReplayOne(log, rows[0], t);
      assert log + rows == log + [rows[0]];
    }
  }

  ghost predicate TiersFit(p: Profile)
  {
    (p.tier == TIER_1 <==> p.bvnVerifiedAt.None?) && (p.tier == TIER_3 ==> p.ninVerifiedAt.Some?)
  }

  lemma RowsReplay(p: Profile, log: seq<AuditRow>, r: Request, t: VerificationType)
    requires TiersFit(p) && Accepted(p, r) && Replay(log) == Some(p.tier)
    ensures Replay(log + Rows(p, r)) == Some(Verified(p, r.t, r.at).tier)
    ensures Passed(log + Rows(p, r), t) == Passed(log, t) + if r.t == t then 1 else 0
  {
    RowsOf(p, r);
    var attempt := VerificationAttempt(r.t, true, r.Override?);
    var q := Verified(p, r.t, r.at);
    ReplayOne(log, attempt, t);
    if q.tier == p.tier {
      assert log + Rows(p, r) == log + [attempt];
    } else {
      var change := TierChange(DerivedPrevious(q.tier), q.tier);
      ReplayOne(log + [attempt], change, t);
      assert log + Rows(p, r) == log + [attempt] + [change];
    }
  }

  ghost predicate Faithful(d: Desk, t: VerificationType)
  {
    TiersFit(d.profile) && Replay(d.log) == Some(d.profile.tier) &&
    Passed(d.log, t) == if d.profile.VerifiedAt(t).Some? then 1 else 0
  }

  lemma VerificationRowsReplay(p: Profile, log: seq<AuditRow>, r: Request, t: VerificationType)
    requires TiersFit(p) && Replay(log) == Some(p.tier)
    ensures Replay(log + VerificationRows(p, r)) == Some(if Accepted(p, r) then Verified(p, r.t, r.at).tier else p.tier)
    ensures Passed(log + VerificationRows(p, r), t) == Passed(log, t) + if Accepted(p, r) && r.t == t then 1 else 0
  {
    if Accepted(p, r) {
      RowsReplay(p, log, r, t);
    } else if !r.ClearFlag? && !Passes(r, r.t) {
      ReplayOne(log, VerificationAttempt(r.t, false, false), t);
    } else {
      assert log + VerificationRows(p, r) == log;
    }
  }

  lemma FaithfulAfter(d: Desk, r: Request, e: Desk, t: VerificationType)
    requires Faithful(d, t)
    requires e.log == d.log + VerificationRows(d.profile, r) + ScreeningRows(d.profile, r)
    requires var v := if Accepted(d.profile, r) then Verified(d.profile, r.t, r.at) else d.profile;
             e.profile.tier == v.tier && e.profile.bvnVerifiedAt == v.bvnVerifiedAt
                 && e.profile.ninVerifiedAt == v.ninVerifiedAt
    ensures Faithful(e, t)
  {
    VerificationRowsReplay(d.profile, d.log, r, t);
    ScreeningRowsDoNotMatter(d.log + VerificationRows(d.profile, r), d.profile, r, t);
  }

  lemma HandleStaysFaithful(d: Desk, r: Request, t: VerificationType)
    requires Faithful(d, t)
    ensures Faithful(Handle(d, r).desk, t)
  {
    HandleVerifies(d, r);
    HandleLogs(d, r);
    FaithfulAfter(d, r, Handle(d, r).desk, t);
  }

  /** After any requests, each tier-change row names the tier held until then, the rows lead from
      TIER_1 to the stored tier, and a verification stands exactly when the log has its one passed row. */
  lemma {:induction false} AuditLogReplays(requests: seq<Request>, t: VerificationType)
    ensures var d := Run(requests);
            Replay(d.log) == Some(d.profile.tier) &&
            Passed(d.log, t) == (if d.profile.VerifiedAt(t).Some? then 1 else 0)
    ensures Faithful(Run(requests), t)
  {
    if requests != [] {
      AuditLogReplays(requests[..|requests| - 1], t);
      HandleStaysFaithful(Run(requests[..|requests| - 1]), requests[|requests| - 1], t);
    }
  }

  // ---- the tier, from the requests alone

  /** The position of the first request that passed the provider's check of type `t`. */
  function FirstPass(requests: seq<Request>, t: VerificationType): Option<nat>
  {
    if requests == [] then None
    else
      var before := FirstPass(requests[..|requests| - 1], t);
      if before.Some? then before
      else if Passes(requests[|requests| - 1], t) then Some(|requests| - 1)
      else None
  }

  lemma {:induction false} FirstPassBounds(requests: seq<Request>, t: VerificationType)
    ensures FirstPass(requests, t).Some? ==> FirstPass(requests, t).value < |requests|
  {
    if requests != [] { FirstPassBounds(requests[..|requests| - 1], t); }
  }

  /** TIER_1 holds exactly while BVN is unverified, TIER_3 exactly when NIN was verified after BVN. */
  lemma {:induction false} TierFollowsHistory(requests: seq<Request>)
    ensures var p, bvn, nin := Run(requests).profile, FirstPass(requests, BVN), FirstPass(requests, NIN);
            (p.bvnVerifiedAt.Some? <==> bvn.Some?) && (p.ninVerifiedAt.Some? <==> nin.Some?) &&
            (p.tier == TIER_1 <==> bvn.None?) &&
            (p.tier == TIER_3 <==> bvn.Some? && nin.Some? && bvn.value < nin.value)
  {
    if requests != [] {
      var before, r := requests[..|requests| - 1], requests[|requests| - 1];
      TierFollowsHistory(before);
      HandleVerifies(Run(before), r);
      FirstPassBounds(before, BVN);
      FirstPassBounds(before, NIN);
    }
  }

  lemma {:induction false} FirstPassStays(requests: seq<Request>, later: seq<Request>, t: VerificationType)
    requires FirstPass(requests, t).Some?
    ensures FirstPass(requests + later, t) == FirstPass(requests, t)
  {
    if later == [] {
      assert requests + later == requests;
    } else {
      FirstPassStays(requests, later[..|later| - 1], t);
      assert (requests + later)[..|requests + later| - 1] == requests + later[..|later| - 1];
    }
  }

  /** Verifying NIN first leaves a user below TIER_3 for good: NIN cannot be verified a second time. */
  lemma {:induction false} EarlyNinNeverReachesTier3(requests: seq<Request>, later: seq<Request>)
    requires Run(requests).profile.ninVerifiedAt.Some? && Run(requests).profile.tier != TIER_3
    ensures Run(requests + later).profile.tier != TIER_3
  {
    TierFollowsHistory(requests);
    TierFollowsHistory(requests + later);
    FirstPassStays(requests, later, NIN);
    FirstPassBounds(requests, NIN);
    if FirstPass(requests, BVN).Some? {
      FirstPassStays(requests, later, BVN);
    } else {
      LatePass(requests, later, BVN);
    }
  }

  lemma {:induction false} LatePass(requests: seq<Request>, later: seq<Request>, t: VerificationType)
    requires FirstPass(requests, t).None?
    ensures FirstPass(requests + later, t).Some? ==> FirstPass(requests + later, t).value >= |requests|
  {
    if later == [] {
      assert requests + later == requests;
    } else {
      LatePass(requests, later[..|later| - 1], t);
      assert (requests + later)[..|requests + later| - 1] == requests + later[..|later| - 1];
    }
  }

  lemma {:induction false} TierNeverFalls(requests: seq<Request>, later: seq<Request>)
    ensures Run(requests).profile.tier.Rank() <= Run(requests + later).profile.tier.Rank()
  {
    if later == [] {
      assert requests + later == requests;
    } else {
      var all := requests + later;
      TierNeverFalls(requests, later[..|later| - 1]);
      assert all[..|all| - 1] == requests + later[..|later| - 1];
      HandleVerifies(Run(all[..|all| - 1]), all[|all| - 1]);
    }
  }

  // ---- the answers and the rows, from the requests alone

  /** A request that verifies a type not verified before. */
  predicate FirstTime(before: seq<Request>, r: Request)
  {
    !r.ClearFlag? && Passes(r, r.t) && FirstPass(before, r.t).None?
  }

  /** A flag is open once a listed user verifies something, until staff clear it. */
  predicate FlagRaised(requests: seq<Request>)
  {
    requests != [] &&
    var before, r := requests[..|requests| - 1], requests[|requests| - 1];
    !r.ClearFlag? && (FlagRaised(before) || (FirstTime(before, r) && r.listed))
  }

  lemma {:induction false} FlagFollowsHistory(requests: seq<Request>)
    ensures Run(requests).profile.FlagOpen() <==> FlagRaised(requests)
  {
    if requests != [] {
      FlagFollowsHistory(requests[..|requests| - 1]);
      TierFollowsHistory(requests[..|requests| - 1]);
    }
  }

  /** After any requests, when each answer is thrown. */
  lemma AnswersFollowHistory(requests: seq<Request>, r: Request)
    ensures var thrown := Handle(Run(requests), r).thrown;
            (thrown == Fail(IdentityMismatch) <==> r.Submit? && !r.nameMatches) &&
            (thrown == Fail(AlreadyPassed) <==>
              !r.ClearFlag? && Passes(r, r.t) && FirstPass(requests, r.t).Some?) &&
            (thrown == Fail(FlagNotOpen) <==> r.ClearFlag? && !FlagRaised(requests)) &&
            (thrown == Fail(ConcurrentModification) <==>
              FirstTime(requests, r) && r.listed && FlagRaised(requests))
  {
    FlagFollowsHistory(requests);
    TierFollowsHistory(requests);
  }

  /** The row is one that request `r`, coming after `before`, must leave. */
  predicate Logs(before: seq<Request>, r: Request, row: AuditRow)
  {
    match row
    case VerificationAttempt(t, passed, byStaff) =>
      !r.ClearFlag? && r.t == t && byStaff == r.Override? &&
      if passed then FirstTime(before, r) else r.Submit? && !r.nameMatches
    case SanctionsScreening(passed, byStaff) =>
      if byStaff then passed && r.ClearFlag? && FlagRaised(before)
      else FirstTime(before, r) && r.listed != passed && !(r.listed && FlagRaised(before))
    case TierChange(previousTier, newTier) =>
      FirstTime(before, r) &&
      if r.t == BVN then previousTier == TIER_1 && newTier == TIER_2
      else previousTier == TIER_2 && newTier == TIER_3 && FirstPass(before, BVN).Some?
  }

  function TimesLogged(requests: seq<Request>, row: AuditRow): nat
  {
    if requests == [] then 0
    else
      var before, r := requests[..|requests| - 1], requests[|requests| - 1];
      TimesLogged(before, row) + if Logs(before, r, row) then 1 else 0
  }

  /** What each request adds, from the profile it meets. */
  lemma RowsAdded(p: Profile, r: Request, row: AuditRow)
    requires !row.SanctionsScreening?
    ensures multiset(VerificationRows(p, r))[row] == if AddsRow(p, r, row) then 1 else 0
  {
    if Accepted(p, r) {
      var attempt, change := VerificationAttempt(r.t, true, r.Override?), Verified(p, r.t, r.at).tier;
      RowsOf(p, r);
      VerifiedTier(p, r.t, r.at);
      if change == p.tier {
        assert Rows(p, r) == [attempt];
      } else {
        assert Rows(p, r) == [attempt, TierChange(DerivedPrevious(change), change)];
      }
    }
  }

  predicate AddsRow(p: Profile, r: Request, row: AuditRow)
    requires !row.SanctionsScreening?
  {
    match row
    case VerificationAttempt(t, passed, byStaff) =>
      !r.ClearFlag? && r.t == t && byStaff == r.Override? &&
      if passed then Accepted(p, r) else r.Submit? && !r.nameMatches
    case TierChange(previousTier, newTier) =>
      Accepted(p, r) && newTier == Verified(p, r.t, r.at).tier != p.tier && previousTier == DerivedPrevious(newTier)
  }

  lemma FirstTimeIffAccepted(before: seq<Request>, r: Request)
    ensures FirstTime(before, r) <==> Accepted(Run(before).profile, r)
  {
    TierFollowsHistory(before);
  }

  lemma VerificationRowsLogged(before: seq<Request>, r: Request, row: AuditRow)
    ensures multiset(VerificationRows(Run(before).profile, r))[row]
         == if Logs(before, r, row) && !row.SanctionsScreening? then 1 else 0
  {
    var p := Run(before).profile;
    FirstTimeIffAccepted(before, r);
    if !row.SanctionsScreening? {
      RowsAdded(p, r, row);
      TierFollowsHistory(before);
      if Accepted(p, r) { VerifiedTier(p, r.t, r.at); }
    } else if Accepted(p, r) {
      RowsOf(p, r);
    }
  }

  lemma VerifiedTier(p: Profile, t: VerificationType, at: nat)
    ensures Verified(p, t, at).tier ==
      if t == BVN && p.tier == TIER_1 then TIER_2
      else if t == NIN && p.tier == TIER_2 && p.bvnVerifiedAt.Some? then TIER_3
      else p.tier
  {
  }

  lemma ScreeningRowsLogged(before: seq<Request>, r: Request, row: AuditRow)
    ensures multiset(ScreeningRows(Run(before).profile, r))[row]
         == if Logs(before, r, row) && row.SanctionsScreening? then 1 else 0
  {
    TierFollowsHistory(before);
    FlagFollowsHistory(before);
  }

  /** The log holds each row exactly as often as the requests call for it. */
  lemma {:induction false} LogFollowsHistory(requests: seq<Request>, row: AuditRow)
    ensures multiset(Run(requests).log)[row] == TimesLogged(requests, row)
  {
    if requests != [] {
      LogFollowsHistory(requests[..|requests| - 1], row);
      HandleLogs(Run(requests[..|requests| - 1]), requests[|requests| - 1]);
      VerificationRowsLogged(requests[..|requests| - 1], requests[|requests| - 1], row);
      ScreeningRowsLogged(requests[..|requests| - 1], requests[|requests| - 1], row);
    }
  }

  // ---- screening does not always leave a verification undisturbed

  /** The save after screening fails exactly when a listed name meets a flag that is still open:
      flagging then changes nothing, so the version does not move. The verification itself is stored
      and logged, but no screening row is. */
  lemma ScreeningThrowsIffFlagOpen(d: Desk, r: Request)
    ensures Handle(d, r).thrown == Fail(ConcurrentModification)
        <==> Accepted(d.profile, r) && r.listed && d.profile.FlagOpen()
    ensures Handle(d, r).thrown == Fail(ConcurrentModification) ==>
      Handle(d, r).desk == Desk(Verified(d.profile, r.t, r.at), d.log + Rows(d.profile, r))
  {
  }

  /** It happens to a listed user who verifies BVN and then NIN. */
  lemma ListedUserSecondVerificationThrows(at: nat)
    ensures var first := Run([Submit(BVN, true, true, at)]);
            Handle(first, Submit(NIN, true, true, at)).thrown == Fail(ConcurrentModification) &&
            Handle(first, Submit(NIN, true, true, at)).desk.profile.tier == TIER_3
  {
    var r := Submit(BVN, true, true, at);
    assert [r][..0] == [];
    assert Run([r]) == Handle(REGISTERED, r).desk;
  }
}
