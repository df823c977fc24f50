/** The KYC balance cap over every run, and the one thing that can lift a balance above it. */
module KernelCap {
  import opened Wrappers
  import opened KycTiers
  import T = Transfers
  import opened Kernel
  import opened KernelInvariant
  import opened KernelRuns

  /** Total of the compensating credits an account has received. */
  function Compensation(log: seq<Commit>, account: Id): nat {
    if log == [] then 0
    else
      var last := log[|log| - 1];
      Compensation(log[..|log| - 1], account)
      + if last.origin.Refund? && last.account == account && last.op.Credit? then last.op.money.minorUnits else 0
  }

  /** Balance at most the owner's current cap plus the compensation received. */
  ghost predicate Capped(s: State, account: Id)
    requires account in s.accounts
  {
    var row := s.accounts[account];
    Within(row.balance - Compensation(s.log, account), DefaultLimits(TierOf(s, row.owner)).maxBalance)
  }

  ghost predicate AllCapped(s: State) {
    forall account :: account in s.accounts ==> Capped(s, account)
  }

  /** A guarded credit lands within the cap; any other mutation except a refund does not raise the balance. */
  ghost predicate Guarded(s: State, w: Write, origin: Origin) {
    && (origin.Refund? ==> w.op.Credit?)
    && (!origin.Refund? && w.op.Credit? ==> WithinCap(s, w.copy, 0))
  }

  lemma WroteCapped(s: State, w: Write, origin: Origin)
    requires AllCapped(s) && Applied(s, w) && w.copy.id == s.accounts[w.copy.id].id && Guarded(s, w, origin)
    ensures AllCapped(Wrote(s, w, origin))
  {
    var s' := Wrote(s, w, origin);
    assert s'.log[..|s'.log| - 1] == s.log;
    forall account | account in s'.accounts ensures Capped(s', account) {
      assert account in s.accounts && Capped(s, account);
    }
  }

  /** Every account write a request makes is guarded in this sense. */
  ghost predicate EffectGuarded(s: State, e: Effect) {
    && (e.PutAccount? ==> Guarded(s, e.w, e.origin))
    && (e.PutInternal? ==> Guarded(s, e.src, Movement(e.t.id)) && Guarded(s, e.dst, Movement(e.t.id)))
  }

  lemma DecideGuarded(s: State, actor: Id, pc: Pc, reply: Reply)
    requires PcOk(s, actor, pc)
    ensures EffectGuarded(s, Decide(s, pc, reply).0)
  {
  }

  lemma PerformCapped(s: State, actor: Id, pc: Pc, e: Effect)
    requires AllCapped(s) && RowsOk(s) && EffectOk(s, actor, pc, e) && EffectGuarded(s, e)
    ensures AllCapped(Perform(s, e))
  {
    match e
    case PutAccount(w, origin) => WroteCapped(s, w, origin);
    case PutInternal(src, dst, t) =>
      WroteCapped(s, src, Movement(t.id));
      WroteCapped(Wrote(s, src, Movement(t.id)), dst, Movement(t.id));
    case _ =>
  }

  lemma RaiseCapped(s: State, user: Id, tier: KycTier)
    requires AllCapped(s)
    ensures AllCapped(Step(s, RaiseTier(user, tier)))
  {
    var s' := Step(s, RaiseTier(user, tier));
    forall account | account in s'.accounts ensures Capped(s', account) {
      assert Capped(s, account);
      var owner := s.accounts[account].owner;
      LimitsRiseWithTier(TierOf(s, owner), TierOf(s', owner),
          s.accounts[account].balance - Compensation(s.log, account));
    }
  }

  lemma StepCapped(s: State, e: Event)
    requires Inv(s) && AllCapped(s)
    ensures AllCapped(Step(s, e))
  {
    if e.RaiseTier? {
      RaiseCapped(s, e.user, e.tier);
    } else if e.Advance? && e.actor in s.actors {
      var pc := s.actors[e.actor];
      assert PcOk(s, e.actor, pc);
      DecideOk(s, e.actor, pc, e.reply);
      DecideGuarded(s, e.actor, pc, e.reply);
      PerformCapped(s, e.actor, pc, Decide(s, pc, e.reply).0);
    }
  }

  /**
   * In every reachable state a balance is at most its owner's current tier cap plus the compensating
   * credits the account has received, despite concurrent credits and tier upgrades.
   */
  lemma {:induction false} BalancesStayCapped(s: State, events: seq<Event>)
    requires Initial(s) && AllCapped(s)
    ensures AllCapped(Run(s, events))
  {
    if events != [] {
      var before := events[..|events| - 1];
      BalancesStayCapped(s, before);
      InitialInv(s);
      RunKeepsInv(s, before);
      StepCapped(Run(s, before), events[|events| - 1]);
    }
  }

  // ---- Refunds, which skip the guard

  lemma StepRaisesTiers(s: State, e: Event)
    ensures TiersRise(s, Step(s, e))
  {
  }

  lemma {:induction false} RunRaisesTiers(s: State, events: seq<Event>)
    ensures TiersRise(s, Run(s, events))
  {
    if events != [] {
      RunRaisesTiers(s, events[..|events| - 1]);
      StepRaisesTiers(Run(s, events[..|events| - 1]), events[|events| - 1]);
    }
  }

  /** A refunding request loads the source, anything happens, and then the save of its credit commits. */
  ghost predicate RefundCommits(s: State, a: Id, t: T.TransferRow, others: seq<Event>) {
    && a in s.actors && s.actors[a] == LoadSource(t) && NoneBy(others, a)
    && var loaded := Step(s, Advance(a, Ok));
    && loaded.actors[a].SaveRefund?
    && CanSave(Run(loaded, others), loaded.actors[a].w)
  }

  function AfterRefund(s: State, a: Id, others: seq<Event>): State {
    Step(Run(Step(s, Advance(a, Ok)), others), Advance(a, Ok))
  }

  lemma RefundLoads(s: State, a: Id, t: T.TransferRow)
    requires Inv(s) && a in s.actors && s.actors[a] == LoadSource(t) && Step(s, Advance(a, Ok)).actors[a].SaveRefund?
    ensures var w := Step(s, Advance(a, Ok)).actors[a].w;
            && t.source in s.accounts && w.copy.id == t.source && w.copy.owner == s.accounts[t.source].owner
            && w.copy.balance == s.accounts[t.source].balance + (t.amount + t.fee)
  {
    assert PcOk(s, a, s.actors[a]);
    AdvanceStep(s, a, Ok);
  }

  lemma RefundSaves(s: State, a: Id, w: Write, t: T.TransferRow)
    requires a in s.actors && s.actors[a] == SaveRefund(w, t) && CanSave(s, w)
    ensures var after := Step(s, Advance(a, Ok));
            w.copy.id in after.accounts && after.accounts[w.copy.id] == w.copy && after.tiers == s.tiers
  {
    AdvanceStep(s, a, Ok);
  }

  /**
   * A committed refund leaves the balance within the owner's cap if the guard would have allowed it when the
   * account was loaded, and, the owner's tier being the same still, only if it would have.
   */
  lemma RefundWithinCapIff(s: State, a: Id, t: T.TransferRow, others: seq<Event>)
    requires Inv(s) && RefundCommits(s, a, t, others)
    ensures var after := AfterRefund(s, a, others);
            && t.source in s.accounts && t.source in after.accounts
            && var owner := s.accounts[t.source].owner;
            && var allowed := WithinCap(s, s.accounts[t.source], t.amount + t.fee);
            && after.accounts[t.source].owner == owner
            && (allowed ==> WithinCap(after, after.accounts[t.source], 0))
            && (TierOf(after, owner) == TierOf(s, owner) ==>
                  (WithinCap(after, after.accounts[t.source], 0) <==> allowed))
  {
    var loaded := Step(s, Advance(a, Ok));
    var later := Run(loaded, others);
    RefundLoads(s, a, t);
    RunLeavesAlone(loaded, others, a);
    RefundSaves(later, a, loaded.actors[a].w, loaded.actors[a].t);
    var owner := s.accounts[t.source].owner;
    TiersAcross(s, a, others, owner);
    var after := AfterRefund(s, a, others);
    LimitsRiseWithTier(TierOf(s, owner), TierOf(after, owner), after.accounts[t.source].balance);
  }

  lemma TiersAcross(s: State, a: Id, others: seq<Event>, owner: Id)
    ensures TierOf(s, owner).Rank() <= TierOf(AfterRefund(s, a, others), owner).Rank()
  {
    var loaded := Step(s, Advance(a, Ok));
    var later := Run(loaded, others);
    StepRaisesTiers(s, Advance(a, Ok));
    RunRaisesTiers(loaded, others);
    StepRaisesTiers(later, Advance(a, Ok));
    assert TierOf(s, owner).Rank() <= TierOf(loaded, owner).Rank() <= TierOf(later, owner).Rank();
  }
}
