/** The KYC profile aggregate, the audit recorder and the handlers, as they update what they hold. */
module KycHandlers {
  import opened Wrappers
  import opened KycTiers
  import opened KycAudit

  class KycProfile {
    var props: Profile
    var domainEvents: seq<DomainEvent>

    constructor CreateDefault()
      ensures props == DEFAULT && domainEvents == [ProfileCreated]
    {
      props, domainEvents := DEFAULT, [ProfileCreated];
    }

    constructor Reconstitute(props: Profile)
      ensures this.props == props && domainEvents == []
    {
      this.props, domainEvents := props, [];
    }

    method RecordBvnVerified(now: nat) returns (thrown: Outcome<KycError>)
      modifies this
      ensures if old(props).bvnVerifiedAt.Some?
              then thrown == Fail(AlreadyPassed) && props == old(props) && domainEvents == old(domainEvents)
              else thrown == Pass && props == BvnVerified(old(props), now) &&
                   domainEvents == old(domainEvents) + VerifiedEvents(old(props), BVN, now)
    {
      if props.bvnVerifiedAt.Some? { return Fail(AlreadyPassed); }
      props := props.(bvnVerifiedAt := Some(now));
      Touch();
      domainEvents := domainEvents + [VerificationPassed(BVN)];
      if props.tier == TIER_1 {
        props := props.(tier := TIER_2);
        domainEvents := domainEvents + [TierUpgraded(TIER_2)];
      }
      thrown := Pass;
    }

    method RecordNinVerified(now: nat) returns (thrown: Outcome<KycError>)
      modifies this
      ensures if old(props).ninVerifiedAt.Some?
              then thrown == Fail(AlreadyPassed) && props == old(props) && domainEvents == old(domainEvents)
              else thrown == Pass && props == NinVerified(old(props), now) &&
                   domainEvents == old(domainEvents) + VerifiedEvents(old(props), NIN, now)
    {
      if props.ninVerifiedAt.Some? { return Fail(AlreadyPassed); }
      props := props.(ninVerifiedAt := Some(now));
      Touch();
      domainEvents := domainEvents + [VerificationPassed(NIN)];
      if props.tier == TIER_2 && props.bvnVerifiedAt.Some? {
        props := props.(tier := TIER_3);
        domainEvents := domainEvents + [TierUpgraded(TIER_3)];
      }
      thrown := Pass;
    }

    method RecordVerificationFailed(t: VerificationType)
      modifies this
      ensures props == old(props).(version := old(props).version + 1)
      ensures domainEvents == old(domainEvents) + [VerificationFailed(t)]
    {
      Touch();
      domainEvents := domainEvents + [VerificationFailed(t)];
    }

    method FlagForSanctionsReview(now: nat)
      modifies this
      ensures props == Flagged(old(props), now)
      ensures domainEvents == old(domainEvents) + if old(props).FlagOpen() then [] else [SanctionsFlagged]
    {
      if props.FlagOpen() { return; }
      props := props.(sanctionsFlaggedAt := Some(now), sanctionsClearedAt := None);
      Touch();
      domainEvents := domainEvents + [SanctionsFlagged];
    }

    method ClearSanctionsFlag(now: nat) returns (thrown: Outcome<KycError>)
      modifies this
      ensures thrown == if old(props).FlagOpen() then Pass else Fail(FlagNotOpen)
      ensures props == if thrown.Fail? then old(props)
                       else old(props).(sanctionsClearedAt := Some(now), version := old(props).version + 1)
      ensures domainEvents == old(domainEvents) + if thrown.Fail? then [] else [SanctionsFlagCleared]
    {
      if !props.FlagOpen() { return Fail(FlagNotOpen); }
      props := props.(sanctionsClearedAt := Some(now));
      Touch();
      domainEvents := domainEvents + [SanctionsFlagCleared];
      thrown := Pass;
    }

    method Touch()
      modifies this`props
      ensures props == old(props).(version := old(props).version + 1)
    {
      props := props.(version := props.version + 1);
    }

    method PullDomainEvents() returns (events: seq<DomainEvent>)
      modifies this`domainEvents
      ensures events == old(domainEvents) && domainEvents == []
    {
      events := domainEvents;
      domainEvents := [];
    }
  }

  class KycAuditRecorder {
    var log: seq<AuditRow>

    constructor ()
      ensures log == []
    {
      log := [];
    }

    method SaveRow(row: AuditRow)
      modifies this
      ensures log == old(log) + [row]
    {
      log := log + [row];
    }

    method RecordDomainEvents(events: seq<DomainEvent>)
      modifies this
      ensures log == old(log) + Recorded(events)
    {
      assert events[..|events|] == events;
      for i := 0 to |events|
        invariant log == old(log) + Recorded(events[..i])
      {
        assert events[..i + 1][..i] == events[..i];
        match events[i] {
          case VerificationPassed(t) => SaveRow(VerificationAttempt(t, true, false));
          case VerificationFailed(t) => SaveRow(VerificationAttempt(t, false, false));
          case TierUpgraded(newTier) =>
            var previousTier := if newTier == TIER_3 then TIER_2 else TIER_1;
            SaveRow(TierChange(previousTier, newTier));
          case _ =>
        }
      }
    }
  }

  /** One user's stored profile, the audit log, and the command handlers run one at a time. */
  class Compliance {
    var stored: Profile
    const recorder: KycAuditRecorder

    constructor ()
      ensures fresh(recorder) && Now() == REGISTERED
    {
      stored := DEFAULT;
      recorder := new KycAuditRecorder();
    }

    function Now(): Desk
      reads this, recorder
    {
      Desk(stored, recorder.log)
    }

    method Save(profile: KycProfile) returns (saved: bool)
      modifies this
      ensures saved == Saved(old(stored), profile.props).Some?
      ensures stored == if saved then profile.props else old(stored)
    {
      // The row exists since registration, so inserting a version-0 profile again collides.
      if profile.props.version == 0 { return false; }
      if stored.version != profile.props.version - 1 { return false; }
      stored := profile.props;
      saved := true;
    }

    method ScreenAndFlag(profile: KycProfile, listed: bool, now: nat) returns (thrown: Outcome<KycError>)
      modifies this, recorder, profile
      ensures KycAudit.Result(Now(), thrown) == Screened(old(Now()), old(profile.props), listed, now)
    {
      if !listed {
        recorder.SaveRow(SanctionsScreening(true, false));
        return Pass;
      }
      profile.FlagForSanctionsReview(now);
      var saved := Save(profile);
      if !saved { return Fail(ConcurrentModification); }
      recorder.SaveRow(SanctionsScreening(false, false));
      thrown := Pass;
    }

    method Verify(profile: KycProfile, t: VerificationType, now: nat) returns (thrown: Outcome<KycError>)
      requires profile.domainEvents == []
      modifies profile
      ensures if old(profile.props).VerifiedAt(t).Some?
              then thrown == Fail(AlreadyPassed)
              else thrown == Pass && profile.props == Verified(old(profile.props), t, now) &&
                   profile.domainEvents == VerifiedEvents(old(profile.props), t, now)
    {
      if t == BVN { thrown := profile.RecordBvnVerified(now); }
      else { thrown := profile.RecordNinVerified(now); }
    }

    method SubmitVerification(t: VerificationType, nameMatches: bool, listed: bool, now: nat)
      returns (thrown: Outcome<KycError>)
      modifies this, recorder
      ensures KycAudit.Result(Now(), thrown) == Handle(old(Now()), Submit(t, nameMatches, listed, now))
    {
      var profile := new KycProfile.Reconstitute(stored);
      if !nameMatches {
        profile.RecordVerificationFailed(t);
        var saved := Save(profile);
        assert saved;
        var failures := profile.PullDomainEvents();
        recorder.RecordDomainEvents(failures);
        return Fail(IdentityMismatch);
      }
      thrown := Verify(profile, t, now);
      if thrown.Fail? { return; }
      var saved := Save(profile);
      assert saved;
      var events := profile.PullDomainEvents();
      recorder.RecordDomainEvents(events);
      thrown := ScreenAndFlag(profile, listed, now);
    }

    method OverrideVerification(t: VerificationType, listed: bool, now: nat) returns (thrown: Outcome<KycError>)
      modifies this, recorder
      ensures KycAudit.Result(Now(), thrown) == Handle(old(Now()), Override(t, listed, now))
    {
      var profile := new KycProfile.Reconstitute(stored);
      thrown := Verify(profile, t, now);
      if thrown.Fail? { return; }
      var saved := Save(profile);
      assert saved;
      var events := profile.PullDomainEvents();
      recorder.SaveRow(VerificationAttempt(t, true, true));
      recorder.RecordDomainEvents(TierChangesOf(events));
      thrown := ScreenAndFlag(profile, listed, now);
    }

    method ClearFlag(now: nat) returns (thrown: Outcome<KycError>)
      modifies this, recorder
      ensures KycAudit.Result(Now(), thrown) == Handle(old(Now()), Request.ClearFlag(now))
    {
      var profile := new KycProfile.Reconstitute(stored);
      thrown := profile.ClearSanctionsFlag(now);
      if thrown.Fail? { return; }
      var saved := Save(profile);
      assert saved;
      recorder.SaveRow(SanctionsScreening(true, true));
    }
  }
}
