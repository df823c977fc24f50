/**
 * What each request does when nobody else is about, from its arguments and the stored rows alone: exactly when it
 * goes through, and every balance, row and ledger total it leaves.
 */
module KernelSolo {
  import opened Wrappers
  import opened MoneyValue
  import opened KycTiers
  import A = Accounts
  import T = Transfers
  import opened L = Ledger
  import R = LedgerReconciliation
  import opened Kernel
  import opened KernelInvariant
  import opened KernelRuns
  import opened KernelRequests

  ghost predicate Alone(r: Request) {
    forall k :: r.others(k) == []
  }

  /** Accounts, transfers and journal are as they were. */
  predicate SameStored(before: State, after: State) {
    after.accounts == before.accounts && after.transfers == before.transfers && after.journal == before.journal
  }

  // ---- One call at a time

  lemma SagaIgnoresActors(b: State, actors: map<Id, Pc>, pc: Pc, reply: Reply)
    requires InSaga(pc)
    ensures Decide(b.(actors := actors), pc, reply) == Decide(b, pc, reply)
  {
  }

  lemma DeliveryIgnoresActors(b: State, actors: map<Id, Pc>, pc: Pc, reply: Reply)
    requires Compensating(pc) || pc.SaveSettled? || pc.PostSettled?
    ensures Decide(b.(actors := actors), pc, reply) == Decide(b, pc, reply)
  {
  }

  lemma MoveIgnoresActors(b: State, actors: map<Id, Pc>, pc: Pc, reply: Reply)
    requires pc.Done? || pc.SaveAdmin? || pc.LoadDestination? || pc.CommitInternal? || pc.SaveFailed?
    ensures Decide(b.(actors := actors), pc, reply) == Decide(b, pc, reply)
  {
  }

  lemma DecideIgnoresActors(b: State, actors: map<Id, Pc>, pc: Pc, reply: Reply)
    ensures Decide(b.(actors := actors), pc, reply) == Decide(b, pc, reply)
  {
    if InSaga(pc) {
      SagaIgnoresActors(b, actors, pc, reply);
    } else if Compensating(pc) || pc.SaveSettled? || pc.PostSettled? {
      DeliveryIgnoresActors(b, actors, pc, reply);
    } else {
      MoveIgnoresActors(b, actors, pc, reply);
    }
  }

  lemma PerformIgnoresActors(b: State, actors: map<Id, Pc>, e: Effect)
    ensures Perform(b.(actors := actors), e) == Perform(b, e).(actors := actors) && Perform(b, e).actors == b.actors
  {
  }

  lemma StartStep(b: State, id: Id, pc: Pc, reply: Reply, e: Effect, next: Pc)
    requires Decide(b, pc, reply) == (e, next)
    ensures Step(Start(b, id, pc), Advance(id, reply)) == Start(Perform(b, e), id, next)
  {
    var actors := b.actors[id := pc];
    assert Start(b, id, pc) == b.(actors := actors);
    DecideIgnoresActors(b, actors, pc, reply);
    PerformIgnoresActors(b, actors, e);
    AdvanceStep(Start(b, id, pc), id, reply);
    assert actors[id := next] == b.actors[id := next];
  }

  /** The request's next call, nobody having come between. */
  lemma SoloTurn(s0: State, r: Request, past: seq<Turn>, b: State, pc: Pc, e: Effect, next: Pc)
    returns (longer: seq<Turn>)
    requires Alone(r) && Underway(s0, r, past, Start(b, r.id, pc)) && !pc.Done?
    requires Decide(b, pc, Answer(pc, r.plan)) == (e, next)
    ensures Underway(s0, r, longer, Start(Perform(b, e), r.id, next))
    ensures longer != [] && longer[|longer| - 1].found == Start(b, r.id, pc)
  {
    var found := Start(b, r.id, pc);
    var reply := Answer(pc, r.plan);
    assert r.others(|past|) == [];
    assert Run(found, []) == found;
    StartStep(b, r.id, pc, reply, e, next);
    TookTurn(s0, r, past, found, Start(Perform(b, e), r.id, next), reply);
    longer := past + [Turn(found, Start(Perform(b, e), r.id, next))];
  }

  /** Alone, a request with this plan at program counter `pc` over `b` comes to `next` over `after`. */
  ghost predicate Leads(b: State, pc: Pc, plan: Plan, after: State, next: Pc) {
    forall s0, r, past {:trigger Underway(s0, r, past, Start(b, r.id, pc))}
      | Alone(r) && r.plan == plan && Underway(s0, r, past, Start(b, r.id, pc)) ::
      exists longer :: Underway(s0, r, longer, Start(after, r.id, next))
  }

  lemma Here(b: State, pc: Pc, plan: Plan)
    ensures Leads(b, pc, plan, b, pc)
  {
  }

  lemma Follow(b: State, pc: Pc, plan: Plan, mid: State, at: Pc, after: State, next: Pc)
    requires Leads(b, pc, plan, mid, at) && Leads(mid, at, plan, after, next)
    ensures Leads(b, pc, plan, after, next)
  {
    forall s0, r, past | Alone(r) && r.plan == plan && Underway(s0, r, past, Start(b, r.id, pc))
      ensures exists longer :: Underway(s0, r, longer, Start(after, r.id, next))
    {
      var longer :| Underway(s0, r, longer, Start(mid, r.id, at));
    }
  }

  lemma OneCall(b: State, pc: Pc, plan: Plan, e: Effect, next: Pc)
    requires !pc.Done? && Decide(b, pc, Answer(pc, plan)) == (e, next)
    ensures Leads(b, pc, plan, Perform(b, e), next)
  {
    forall s0, r, past | Alone(r) && r.plan == plan && Underway(s0, r, past, Start(b, r.id, pc))
      ensures exists longer :: Underway(s0, r, longer, Start(Perform(b, e), r.id, next))
    {
      var longer := SoloTurn(s0, r, past, b, pc, e, next);
    }
  }

  /** One more call. */
  lemma AndThen(b: State, pc: Pc, plan: Plan, mid: State, at: Pc, e: Effect, next: Pc)
    requires Leads(b, pc, plan, mid, at) && !at.Done? && Decide(mid, at, Answer(at, plan)) == (e, next)
    ensures Leads(b, pc, plan, Perform(mid, e), next)
  {
    OneCall(mid, at, plan, e, next);
    Follow(b, pc, plan, mid, at, Perform(mid, e), next);
  }

  /** So a completed request ends where its first program counter leads. */
  lemma EndsThere(s: State, s0: State, r: Request, pc: Pc, calls: seq<Turn>, after: State, done: State)
    requires Alone(r) && s0 == Start(s, r.id, pc) && Completes(s0, r, calls, after)
    requires Leads(s, pc, r.plan, done, Done)
    ensures after == Start(done, r.id, Done)
  {
    assert Underway(s0, r, [], Start(s, r.id, pc));
    var mine :| Underway(s0, r, mine, Start(done, r.id, Done));
    OutcomeDetermined(s0, r, calls, after, mine, Start(done, r.id, Done));
  }

  /** The call at `at` over `mid` is the request's last, and leaves `done`. */
  predicate LastCall(mid: State, at: Pc, plan: Plan, done: State) {
    && !at.Done?
    && var (e, next) := Decide(mid, at, Answer(at, plan));
    && next.Done? && done == Perform(mid, e)
  }

  /** And its last call is the one that the program counter before it prescribes. */
  lemma EndsWith(s: State, s0: State, r: Request, pc: Pc, calls: seq<Turn>, after: State, mid: State, at: Pc,
                 done: State)
    requires Alone(r) && s0 == Start(s, r.id, pc) && Completes(s0, r, calls, after)
    requires Leads(s, pc, r.plan, mid, at) && LastCall(mid, at, r.plan, done)
    ensures after == Start(done, r.id, Done) && calls != [] && calls[|calls| - 1].found == Start(mid, r.id, at)
  {
    assert Underway(s0, r, [], Start(s, r.id, pc));
    var before :| Underway(s0, r, before, Start(mid, r.id, at));
    var e := Decide(mid, at, Answer(at, r.plan)).0;
    var mine := SoloTurn(s0, r, before, mid, at, e, Done);
    OutcomeDetermined(s0, r, calls, after, mine, Start(done, r.id, Done));
  }

  // ---- Ledger totals of the postings

  lemma {:induction false} NetAppend(journal: seq<Entry>, base: seq<Entry>, legs: seq<Leg>, reference: Id,
                                     a: LedgerAccount)
    ensures R.NetAccount(journal + Rows(base, legs, reference), a) == R.NetAccount(journal, a) + R.LegsOn(legs, a)
  {
    var grown := journal + Rows(base, legs, reference);
    if legs == [] {
      assert grown == journal;
    } else {
      assert grown[..|grown| - 1] == journal + Rows(base, legs[..|legs| - 1], reference);
      NetAppend(journal, base, legs[..|legs| - 1], reference, a);
    }
  }

  function On(leg: Leg, a: LedgerAccount): int {
    if leg.account == a then Signed(leg.direction, leg.amount) else 0
  }

  lemma LegsOnTwo(x: Leg, y: Leg, a: LedgerAccount)
    ensures R.LegsOn([x, y], a) == On(x, a) + On(y, a)
  {
    assert [x, y][..1] == [x] && [x][..0] == [];
    assert R.LegsOn([x], a) == On(x, a);
  }

  lemma LegsOnFee(x: Leg, y: Leg, t: T.TransferRow, a: LedgerAccount)
    ensures R.LegsOn([x, y] + FeeLeg(t), a) == On(x, a) + On(y, a) + if a == FeeRevenue(t.currency) then t.fee else 0
  {
    LegsOnTwo(x, y, a);
    if t.fee == 0 {
      assert [x, y] + FeeLeg(t) == [x, y];
    } else {
      assert ([x, y] + FeeLeg(t))[..2] == [x, y];
    }
  }

  lemma HoldNets(t: T.TransferRow, balance: nat, a: LedgerAccount)
    ensures R.LegsOn(HoldLegs(t, balance), a)
            == if a == Customer(t.source) then -(t.amount + t.fee)
               else if a == Clearing(t.currency) then t.amount + t.fee else 0
  {
    LegsOnTwo(HoldLegs(t, balance)[0], HoldLegs(t, balance)[1], a);
  }

  lemma RefundNets(t: T.TransferRow, balance: nat, a: LedgerAccount)
    ensures R.LegsOn(RefundLegs(t, balance), a)
            == if a == Customer(t.source) then t.amount + t.fee
               else if a == Clearing(t.currency) then -(t.amount + t.fee) else 0
  {
    LegsOnTwo(RefundLegs(t, balance)[0], RefundLegs(t, balance)[1], a);
  }

  lemma SettlementNets(t: T.TransferRow, a: LedgerAccount)
    ensures R.LegsOn(SettlementLegs(t), a)
            == if a == Clearing(t.currency) then -(t.amount + t.fee)
               else if a == L.Settled(t.currency) then t.amount
               else if a == FeeRevenue(t.currency) then t.fee else 0
  {
    LegsOnFee(SettlementLegs(t)[0], SettlementLegs(t)[1], t, a);
  }

  lemma InternalNets(t: T.TransferRow, src: A.AccountRow, dst: A.AccountRow, a: LedgerAccount)
    requires src.id != dst.id
    ensures R.LegsOn(InternalLegs(t, src, dst), a)
            == if a == Customer(src.id) then -(t.amount + t.fee)
               else if a == Customer(dst.id) then t.amount
               else if a == FeeRevenue(t.currency) then t.fee else 0
  {
    LegsOnFee(InternalLegs(t, src, dst)[0], InternalLegs(t, src, dst)[1], t, a);
  }

  /** The ledger totals of `after` are those of `before` plus `moved`. */
  ghost predicate Nets(before: State, after: State, moved: LedgerAccount -> int) {
    forall a :: R.NetAccount(after.journal, a) == R.NetAccount(before.journal, a) + moved(a)
  }

  // ---- Payouts

  /** The total is still held: the customer's entries are down by it, clearing is up. */
  function HeldNets(account: Id, c: Currency, amount: nat, fee: nat): LedgerAccount -> int {
    a => if a == Customer(account) then -(amount + fee) else if a == Clearing(c) then amount + fee else 0
  }

  /** The payout went through: the amount is settled, the fee earned. */
  function PaidNets(account: Id, c: Currency, amount: nat, fee: nat): LedgerAccount -> int {
    a => if a == Customer(account) then -(amount + fee)
         else if a == L.Settled(c) then amount
         else if a == FeeRevenue(c) then fee else 0
  }

  /** Clearing was relieved and the payout booked as settled. */
  function SettledNets(c: Currency, amount: nat, fee: nat): LedgerAccount -> int {
    a => if a == Clearing(c) then -(amount + fee)
         else if a == L.Settled(c) then amount
         else if a == FeeRevenue(c) then fee else 0
  }

  function NoNets(): LedgerAccount -> int { a => 0 }

  /** Somebody may pay out of an account: it is theirs, it is active, and it covers amount and fee. */
  predicate MayPayOut(s: State, account: Id, user: Id, total: nat) {
    && account in s.accounts && s.accounts[account].owner == user
    && s.accounts[account].status == A.ACTIVE && s.accounts[account].balance >= total
  }

  /** The customer's row after `total` has left it (and perhaps come back) in `writes` writes. */
  function Charged(row: A.AccountRow, total: nat, writes: nat): A.AccountRow
    requires row.balance >= total
  {
    A.AccountRow(row.id, row.owner, row.currency, row.balance - total, A.ACTIVE, row.version + writes)
  }

  /** What one payout request leaves, for each answer of the provider and each write that throws. */
  ghost predicate PayoutOutcome(s: State, after: State, r: Request, account: Id, user: Id, amount: nat, fee: nat) {
    if !MayPayOut(s, account, user, amount + fee) then SameStored(s, after)
    else
      var row := s.accounts[account];
      var t := (status, ref, version) =>
        T.TransferRow(r.id, T.EXTERNAL, user, account, amount, fee, row.currency, status, ref, version);
      var plan := r.plan;
      var left := Charged(row, amount + fee, 1);
      var back := Charged(row, 0, 2);
      if plan.payout.Settled? && !plan.postThrows && !plan.saveThrows then
        && after.accounts == s.accounts[account := left]
        && after.transfers == s.transfers[r.id := t(T.SUCCESSFUL, None, 1)]
        && Nets(s, after, PaidNets(account, row.currency, amount, fee))
      else if plan.payout.Accepted? && !plan.saveThrows then
        && after.accounts == s.accounts[account := left]
        && after.transfers
           == s.transfers[r.id := t(T.PROCESSING, if plan.payout.ref == "" then None else Some(plan.payout.ref), 1)]
        && Nets(s, after, HeldNets(account, row.currency, amount, fee))
      else if !plan.payout.Settled? && !plan.payout.Accepted? then
        && after.accounts == s.accounts[account := back]
        && after.transfers == s.transfers[r.id := t(T.REVERSED, None, 1)]
        && Nets(s, after, NoNets())
      else
        && after.accounts == s.accounts[account := back]
        && after.transfers == s.transfers[r.id := t(T.PENDING, None, 0)]
        && Nets(s, after, if plan.payout.Settled? && !plan.postThrows
                          then SettledNets(row.currency, amount, fee) else NoNets())
  }

  /** Debit saved, row recorded, hold posted. */
  lemma SoloHold(b: State, w: Write, t: T.TransferRow, plan: Plan) returns (held: State)
    requires CanSave(b, w) && t.id !in b.transfers && t.version == 0
    ensures held == Posted(Stored(Wrote(b, w, Movement(t.id)), t), HoldLegs(t, w.copy.balance), t.id)
    ensures Leads(b, SaveHold(w, t), plan, held, Pay(t))
  {
    var first := SaveHold(w, t);
    var balance := w.copy.balance;
    OneCall(b, first, plan, PutAccount(w, Movement(t.id)), Record(balance, t));
    var saved := Wrote(b, w, Movement(t.id));
    AndThen(b, first, plan, saved, Record(balance, t), PutTransfer(t), PostHold(balance, t));
    var stored := Stored(saved, t);
    AndThen(b, first, plan, stored, PostHold(balance, t), Append(HoldLegs(t, balance), t.id), Pay(t));
    held := Posted(stored, HoldLegs(t, balance), t.id);
  }

  /** The compensation up to its last save: credit saved and posted. */
  lemma SoloReturn(b: State, t: T.TransferRow, copy: A.AccountRow, plan: Plan) returns (returned: State)
    requires t.source in b.accounts && b.accounts[t.source].id == t.source
    requires A.Apply(b.accounts[t.source], A.Credit(T.Total(t))) == Success(copy)
    ensures returned
            == Posted(Wrote(b, Write(copy, A.Credit(T.Total(t))), Refund(t.id)), RefundLegs(t, copy.balance), t.id)
    ensures Leads(b, LoadSource(t), plan, returned, SaveReversed(t))
  {
    var w := Write(copy, A.Credit(T.Total(t)));
    OneCall(b, LoadSource(t), plan, Nothing, SaveRefund(w, t));
    assert CanSave(b, w);
    AndThen(b, LoadSource(t), plan, b, SaveRefund(w, t), PutAccount(w, Refund(t.id)), PostRefund(copy.balance, t));
    var credited := Wrote(b, w, Refund(t.id));
    AndThen(b, LoadSource(t), plan, credited, PostRefund(copy.balance, t),
            Append(RefundLegs(t, copy.balance), t.id), SaveReversed(t));
    returned := Posted(credited, RefundLegs(t, copy.balance), t.id);
  }

  // ---- From the arguments to the first program counter

  function PayoutRow(id: Id, user: Id, row: A.AccountRow, account: Id, amount: nat, fee: nat): T.TransferRow {
    T.TransferRow(id, T.EXTERNAL, user, account, amount, fee, row.currency, T.PENDING, None, 0)
  }

  lemma StartsHold(s: State, id: Id, account: Id, user: Id, amount: nat, fee: nat)
    ensures StartHold(s, id, account, user, amount, fee)
            == if !MayPayOut(s, account, user, amount + fee) then Done
               else
                 var row := s.accounts[account];
                 SaveHold(Write(Charged(row, amount + fee, 1), A.Debit(Money(amount + fee, row.currency))),
                          PayoutRow(id, user, row, account, amount, fee))
  {
  }

  lemma PostedNets(b: State, legs: seq<Leg>, reference: Id)
    ensures forall a :: R.NetAccount(Posted(b, legs, reference).journal, a)
                        == R.NetAccount(b.journal, a) + R.LegsOn(legs, a)
  {
    forall a ensures R.NetAccount(Posted(b, legs, reference).journal, a)
                     == R.NetAccount(b.journal, a) + R.LegsOn(legs, a)
    {
      NetAppend(b.journal, b.journal, legs, reference, a);
    }
  }

  /** After the hold: one row charged, one PENDING row, the total in clearing. */
  ghost predicate HeldState(s: State, held: State, id: Id, account: Id, user: Id, amount: nat, fee: nat)
    requires MayPayOut(s, account, user, amount + fee)
  {
    var row := s.accounts[account];
    && held.accounts == s.accounts[account := Charged(row, amount + fee, 1)]
    && held.transfers == s.transfers[id := PayoutRow(id, user, row, account, amount, fee)]
    && Nets(s, held, HeldNets(account, row.currency, amount, fee))
  }

  lemma HoldAlone(s: State, id: Id, plan: Plan, account: Id, user: Id, amount: nat, fee: nat) returns (held: State)
    requires Inv(s) && id !in s.actors && MayPayOut(s, account, user, amount + fee)
    ensures HeldState(s, held, id, account, user, amount, fee)
    ensures Leads(s, StartHold(s, id, account, user, amount, fee), plan,
                  held, Pay(PayoutRow(id, user, s.accounts[account], account, amount, fee)))
  {
    var row := s.accounts[account];
    var t := PayoutRow(id, user, row, account, amount, fee);
    var w := Write(Charged(row, amount + fee, 1), A.Debit(Money(amount + fee, row.currency)));
    StartsHold(s, id, account, user, amount, fee);
    assert CanSave(s, w);
    held := SoloHold(s, w, t, plan);
    PostedNets(Stored(Wrote(s, w, Movement(t.id)), t), HoldLegs(t, w.copy.balance), t.id);
    forall a ensures R.NetAccount(held.journal, a)
                     == R.NetAccount(s.journal, a) + HeldNets(account, row.currency, amount, fee)(a)
    {
      HoldNets(t, w.copy.balance, a);
    }
  }

  // ---- From the provider's answer to the end

  /** A PENDING payout as its saga first stored it. */
  predicate Fresh(b: State, t: T.TransferRow) {
    && t.status == T.PENDING && t.version == 0 && t.providerRef == None
    && t.id in b.transfers && b.transfers[t.id] == t
  }

  /** The source account takes a credit in the transfer's currency. */
  predicate Creditable(b: State, t: T.TransferRow) {
    && t.source in b.accounts && b.accounts[t.source].id == t.source
    && b.accounts[t.source].status == A.ACTIVE && b.accounts[t.source].currency == t.currency
  }

  function Credited(row: A.AccountRow, total: nat): A.AccountRow {
    row.(balance := row.balance + total, version := row.version + 1)
  }

  lemma SettlementPostedNets(b: State, m: T.TransferRow)
    ensures Nets(b, Posted(b, SettlementLegs(m), m.id), SettledNets(m.currency, m.amount, m.fee))
  {
    PostedNets(b, SettlementLegs(m), m.id);
    forall a ensures R.NetAccount(Posted(b, SettlementLegs(m), m.id).journal, a)
                     == R.NetAccount(b.journal, a) + SettledNets(m.currency, m.amount, m.fee)(a)
    {
      SettlementNets(m, a);
    }
  }

  lemma SettleHeld(held: State, t: T.TransferRow, plan: Plan) returns (mid: State, at: Pc, done: State)
    requires plan.payout.Settled? && !plan.postThrows && !plan.saveThrows && Fresh(held, t)
    ensures Leads(held, Pay(t), plan, mid, at) && LastCall(mid, at, plan, done) && at.SaveOutcome?
    ensures done.accounts == held.accounts
    ensures done.transfers == held.transfers[t.id := t.(status := T.SUCCESSFUL, version := 1)]
    ensures Nets(held, done, SettledNets(t.currency, t.amount, t.fee))
  {
    var m := t.(status := T.SUCCESSFUL, version := 1);
    OneCall(held, Pay(t), plan, Nothing, PostSettlement(m));
    AndThen(held, Pay(t), plan, held, PostSettlement(m), Append(SettlementLegs(m), m.id), SaveOutcome(m));
    mid, at := Posted(held, SettlementLegs(m), m.id), SaveOutcome(m);
    done := Stored(mid, m);
    SettlementPostedNets(held, m);
  }

  function AcceptedRow(t: T.TransferRow, ref: T.ProviderRef): T.TransferRow {
    t.(status := T.PROCESSING, providerRef := if ref == "" then None else Some(ref), version := 1)
  }

  lemma AcceptHeld(held: State, t: T.TransferRow, plan: Plan) returns (mid: State, at: Pc, done: State)
    requires plan.payout.Accepted? && !plan.saveThrows && Fresh(held, t)
    ensures Leads(held, Pay(t), plan, mid, at) && LastCall(mid, at, plan, done) && at.SaveOutcome?
    ensures done.accounts == held.accounts && done.journal == held.journal
    ensures done.transfers == held.transfers[t.id := AcceptedRow(t, plan.payout.ref)]
  {
    var m := AcceptedRow(t, plan.payout.ref);
    OneCall(held, Pay(t), plan, Nothing, SaveOutcome(m));
    mid, at, done := held, SaveOutcome(m), Stored(held, m);
  }

  /** The total goes from clearing back to the customer. */
  function ReturnedNets(account: Id, c: Currency, amount: nat, fee: nat): LedgerAccount -> int {
    a => if a == Customer(account) then amount + fee else if a == Clearing(c) then -(amount + fee) else 0
  }

  /** What the compensation has restored before its last save. */
  lemma ReturnHeld(b: State, t: T.TransferRow, plan: Plan) returns (returned: State)
    requires Creditable(b, t)
    ensures Leads(b, LoadSource(t), plan, returned, SaveReversed(t)) && returned.transfers == b.transfers
    ensures returned.accounts == b.accounts[t.source := Credited(b.accounts[t.source], t.amount + t.fee)]
    ensures Nets(b, returned, ReturnedNets(t.source, t.currency, t.amount, t.fee))
  {
    var copy := Credited(b.accounts[t.source], t.amount + t.fee);
    returned := SoloReturn(b, t, copy, plan);
    PostedNets(Wrote(b, Write(copy, A.Credit(T.Total(t))), Refund(t.id)), RefundLegs(t, copy.balance), t.id);
    forall a ensures R.NetAccount(returned.journal, a)
                     == R.NetAccount(b.journal, a) + ReturnedNets(t.source, t.currency, t.amount, t.fee)(a)
    {
      RefundNets(t, copy.balance, a);
    }
  }

  /** The money goes back and the row is marked REVERSED. */
  lemma Reverse(b: State, t: T.TransferRow, plan: Plan) returns (mid: State, at: Pc, done: State)
    requires Creditable(b, t) && !T.Terminal(t.status) && t.id in b.transfers && b.transfers[t.id] == t
    ensures Leads(b, LoadSource(t), plan, mid, at) && LastCall(mid, at, plan, done) && at.SaveReversed?
    ensures done.accounts == b.accounts[t.source := Credited(b.accounts[t.source], t.amount + t.fee)]
    ensures done.transfers == b.transfers[t.id := t.(status := T.REVERSED, version := t.version + 1)]
    ensures Nets(b, done, ReturnedNets(t.source, t.currency, t.amount, t.fee))
  {
    mid := ReturnHeld(b, t, plan);
    at, done := SaveReversed(t), Stored(mid, t.(status := T.REVERSED, version := t.version + 1));
  }

  lemma RefuseHeld(held: State, t: T.TransferRow, plan: Plan) returns (mid: State, at: Pc, done: State)
    requires !plan.payout.Settled? && !plan.payout.Accepted? && Fresh(held, t) && Creditable(held, t)
    ensures Leads(held, Pay(t), plan, mid, at) && LastCall(mid, at, plan, done) && at.SaveReversed?
    ensures done.accounts == held.accounts[t.source := Credited(held.accounts[t.source], t.amount + t.fee)]
    ensures done.transfers == held.transfers[t.id := t.(status := T.REVERSED, version := 1)]
    ensures Nets(held, done, ReturnedNets(t.source, t.currency, t.amount, t.fee))
  {
    OneCall(held, Pay(t), plan, Nothing, LoadSource(t));
    mid, at, done := Reverse(held, t, plan);
    Follow(held, Pay(t), plan, held, LoadSource(t), mid, at);
  }

  /** A marked copy that was never saved: the money goes back, but the row stays PENDING. */
  lemma LoseReversal(b: State, m: T.TransferRow, plan: Plan) returns (mid: State, at: Pc, done: State)
    requires Creditable(b, m) && m.version == 1 && m.id in b.transfers && b.transfers[m.id].version == 0
    ensures Leads(b, LoadSource(m), plan, mid, at) && LastCall(mid, at, plan, done) && at.SaveReversed?
    ensures done.transfers == b.transfers
    ensures done.accounts == b.accounts[m.source := Credited(b.accounts[m.source], m.amount + m.fee)]
    ensures Nets(b, done, ReturnedNets(m.source, m.currency, m.amount, m.fee))
  {
    mid := ReturnHeld(b, m, plan);
    at, done := SaveReversed(m), Perform(mid, Note(LostReversal(m)));
  }

  predicate Faults(plan: Plan) {
    (plan.payout.Settled? && (plan.postThrows || plan.saveThrows)) || (plan.payout.Accepted? && plan.saveThrows)
  }

  /** The settlement was posted, or not, and a throw leads to the compensation with the marked copy. */
  lemma FaultHeld(held: State, t: T.TransferRow, plan: Plan) returns (b: State, m: T.TransferRow)
    requires Faults(plan) && Fresh(held, t)
    ensures Leads(held, Pay(t), plan, b, LoadSource(m))
    ensures m == t.(status := m.status, providerRef := m.providerRef, version := 1)
    ensures b.accounts == held.accounts && b.transfers == held.transfers
    ensures Nets(held, b, if plan.payout.Settled? && !plan.postThrows
                          then SettledNets(t.currency, t.amount, t.fee) else NoNets())
  {
    if plan.payout.Accepted? {
      m := AcceptedRow(t, plan.payout.ref);
      OneCall(held, Pay(t), plan, Nothing, SaveOutcome(m));
      AndThen(held, Pay(t), plan, held, SaveOutcome(m), Fault(m.id, []), LoadSource(m));
      b := Perform(held, Fault(m.id, []));
    } else {
      m := t.(status := T.SUCCESSFUL, version := 1);
      OneCall(held, Pay(t), plan, Nothing, PostSettlement(m));
      if plan.postThrows {
        AndThen(held, Pay(t), plan, held, PostSettlement(m), Fault(m.id, []), LoadSource(m));
        b := Perform(held, Fault(m.id, []));
      } else {
        b := FaultAfterPosting(held, t, m, plan);
      }
    }
  }

  lemma FaultAfterPosting(held: State, t: T.TransferRow, m: T.TransferRow, plan: Plan) returns (b: State)
    requires Leads(held, Pay(t), plan, held, PostSettlement(m)) && m == t.(status := T.SUCCESSFUL, version := 1)
    requires !plan.postThrows && plan.saveThrows
    ensures Leads(held, Pay(t), plan, b, LoadSource(m))
    ensures b.accounts == held.accounts && b.transfers == held.transfers
    ensures Nets(held, b, SettledNets(t.currency, t.amount, t.fee))
  {
    AndThen(held, Pay(t), plan, held, PostSettlement(m), Append(SettlementLegs(m), m.id), SaveOutcome(m));
    var posted := Posted(held, SettlementLegs(m), m.id);
    var e := Fault(m.id, [UnsavedSettlement(m)]);
    AndThen(held, Pay(t), plan, posted, SaveOutcome(m), e, LoadSource(m));
    b := Perform(posted, e);
    SettlementPostedNets(held, m);
  }

  // ---- A payout alone

  /** The provider settled or accepted the payout, and nothing threw before its outcome was saved. */
  predicate Answered(plan: Plan) {
    (plan.payout.Settled? && !plan.postThrows && !plan.saveThrows) || (plan.payout.Accepted? && !plan.saveThrows)
  }

  lemma AnswerAlone(s: State, r: Request, account: Id, user: Id, amount: nat, fee: nat, held: State)
    returns (mid: State, at: Pc, done: State)
    requires MayPayOut(s, account, user, amount + fee) && s.accounts[account].id == account
    requires HeldState(s, held, r.id, account, user, amount, fee)
    ensures Leads(held, Pay(PayoutRow(r.id, user, s.accounts[account], account, amount, fee)), r.plan, mid, at)
    ensures LastCall(mid, at, r.plan, done) && (at.SaveOutcome? <==> Answered(r.plan))
    ensures PayoutOutcome(s, Start(done, r.id, Done), r, account, user, amount, fee)
  {
    var t := PayoutRow(r.id, user, s.accounts[account], account, amount, fee);
    if Faults(r.plan) {
      mid, at, done := AnswerFaults(s, r, account, user, amount, fee, held, t);
    } else if r.plan.payout.Settled? {
      mid, at, done := SettleHeld(held, t, r.plan);
    } else if r.plan.payout.Accepted? {
      mid, at, done := AcceptHeld(held, t, r.plan);
    } else {
      mid, at, done := RefuseHeld(held, t, r.plan);
    }
  }

  lemma AnswerFaults(s: State, r: Request, account: Id, user: Id, amount: nat, fee: nat, held: State,
                     t: T.TransferRow) returns (mid: State, at: Pc, done: State)
    requires MayPayOut(s, account, user, amount + fee) && s.accounts[account].id == account
    requires HeldState(s, held, r.id, account, user, amount, fee) && Faults(r.plan)
    requires t == PayoutRow(r.id, user, s.accounts[account], account, amount, fee)
    ensures Leads(held, Pay(t), r.plan, mid, at) && LastCall(mid, at, r.plan, done) && at.SaveReversed?
    ensures PayoutOutcome(s, Start(done, r.id, Done), r, account, user, amount, fee)
  {
    var b, m;
    b, m := FaultHeld(held, t, r.plan);
    mid, at, done := LoseReversal(b, m, r.plan);
    Follow(held, Pay(t), r.plan, b, LoadSource(m), mid, at);
  }

  /**
   * A payout request with nobody else about stores something if and only if the account is the user's, active and
   * covers amount and fee; and then it leaves exactly what the provider's answer calls for.
   */
  lemma PayoutAlone(s: State, r: Request, account: Id, user: Id, amount: nat, fee: nat, calls: seq<Turn>, after: State)
    requires Inv(s) && r.id !in s.actors && Alone(r)
    requires Completes(Step(s, StartExternal(r.id, account, user, amount, fee)), r, calls, after)
    ensures PayoutOutcome(s, after, r, account, user, amount, fee)
    ensures SameStored(s, after) <==> !MayPayOut(s, account, user, amount + fee)
    ensures calls != [] && PcOf(calls[|calls| - 1].found, r.id).SaveOutcome?
        <==> MayPayOut(s, account, user, amount + fee) && Answered(r.plan)
  {
    var s0 := Step(s, StartExternal(r.id, account, user, amount, fee));
    var pc := StartHold(s, r.id, account, user, amount, fee);
    StartsHold(s, r.id, account, user, amount, fee);
    if !MayPayOut(s, account, user, amount + fee) {
      OutcomeDetermined(s0, r, calls, after, [], s0);
    } else {
      var t := PayoutRow(r.id, user, s.accounts[account], account, amount, fee);
      var held := HoldAlone(s, r.id, r.plan, account, user, amount, fee);
      var mid, at, done;
      mid, at, done := AnswerAlone(s, r, account, user, amount, fee, held);
      Follow(s, pc, r.plan, held, Pay(t), mid, at);
      EndsWith(s, s0, r, pc, calls, after, mid, at, done);
    }
  }

  // ---- A delivery alone

  /** What one delivery leaves for the transfer that carries its reference. */
  ghost predicate DeliveryOutcome(s: State, after: State, x: Id, success: bool)
    requires x in s.transfers
  {
    var row := s.transfers[x];
    var total := row.amount + row.fee;
    if row.status != T.PENDING && row.status != T.PROCESSING then SameStored(s, after)
    else if success then
      && after.accounts == s.accounts
      && after.transfers == s.transfers[x := row.(status := T.SUCCESSFUL, version := row.version + 1)]
      && Nets(s, after, SettledNets(row.currency, row.amount, row.fee))
    else if Creditable(s, row) then
      && after.accounts == s.accounts[row.source := Credited(s.accounts[row.source], total)]
      && after.transfers == s.transfers[x := row.(status := T.REVERSED, version := row.version + 1)]
      && Nets(s, after, ReturnedNets(row.source, row.currency, row.amount, row.fee))
    else SameStored(s, after)
  }

  lemma SettledThenPosted(b: State, t: T.TransferRow, m: T.TransferRow, plan: Plan)
    requires !T.Terminal(t.status) && t.id in b.transfers && b.transfers[t.id] == t
    requires m == t.(status := T.SUCCESSFUL, version := t.version + 1)
    ensures Leads(b, SaveSettled(t), plan, Posted(Stored(b, m), SettlementLegs(m), m.id), Done)
  {
    OneCall(b, SaveSettled(t), plan, PutTransfer(m), PostSettled(m));
    AndThen(b, SaveSettled(t), plan, Stored(b, m), PostSettled(m), Append(SettlementLegs(m), m.id), Done);
  }

  lemma SettleDelivered(b: State, t: T.TransferRow, plan: Plan) returns (done: State)
    requires !T.Terminal(t.status) && t.id in b.transfers && b.transfers[t.id] == t
    ensures Leads(b, SaveSettled(t), plan, done, Done) && done.accounts == b.accounts
    ensures done.transfers == b.transfers[t.id := t.(status := T.SUCCESSFUL, version := t.version + 1)]
    ensures Nets(b, done, SettledNets(t.currency, t.amount, t.fee))
  {
    var m := t.(status := T.SUCCESSFUL, version := t.version + 1);
    SettledThenPosted(b, t, m, plan);
    done := Posted(Stored(b, m), SettlementLegs(m), m.id);
    SettlementPostedNets(Stored(b, m), m);
  }

  /** An inactive source makes the compensation throw before it writes anything. */
  lemma ReturnThrows(b: State, t: T.TransferRow, plan: Plan)
    requires t.source in b.accounts && b.accounts[t.source].id == t.source && !Creditable(b, t)
    ensures Leads(b, LoadSource(t), plan, b, Done)
  {
    OneCall(b, LoadSource(t), plan, Nothing, Done);
  }

  lemma DeliveryLeads(b: State, row: T.TransferRow, success: bool, plan: Plan) returns (done: State)
    requires row.id in b.transfers && b.transfers[row.id] == row && !T.Terminal(row.status)
    requires row.source in b.accounts && b.accounts[row.source].id == row.source
    ensures Leads(b, if success then SaveSettled(row) else LoadSource(row), plan, done, Done)
    ensures DeliveryOutcome(b, done, row.id, success)
  {
    if success {
      done := SettleDelivered(b, row, plan);
    } else if Creditable(b, row) {
      var mid, at;
      mid, at, done := Reverse(b, row, plan);
      AndThen(b, LoadSource(row), plan, mid, at, Decide(mid, at, Answer(at, plan)).0, Done);
    } else {
      ReturnThrows(b, row, plan);
      done := b;
    }
  }

  function DeliveryPc(row: T.TransferRow, success: bool): Pc {
    if row.status != T.PENDING && row.status != T.PROCESSING then Done
    else if success then SaveSettled(row) else LoadSource(row)
  }

  lemma StartsDelivery(s: State, id: Id, x: Id, ref: T.ProviderRef, success: bool)
    requires id !in s.actors && x in s.transfers && s.transfers[x].providerRef == Some(ref)
    ensures var pc := DeliveryPc(s.transfers[x], success);
            Step(s, Deliver(id, x, ref, success))
            == Start(s.(contended := s.contended + Contention(s, x, success, pc)), id, pc)
  {
  }

  lemma DeliveryLeadsFrom(s: State, b: State, x: Id, success: bool, plan: Plan) returns (done: State)
    requires RowsOk(s) && x in s.transfers && b == s.(contended := b.contended)
    requires s.transfers[x].kind.EXTERNAL? || T.Terminal(s.transfers[x].status)
    ensures Leads(b, DeliveryPc(s.transfers[x], success), plan, done, Done)
    ensures DeliveryOutcome(s, done, x, success)
  {
    var row := s.transfers[x];
    if T.Terminal(row.status) {
      Here(b, Done, plan);
      done := b;
    } else {
      done := DeliveryLeads(b, row, success, plan);
    }
  }

  /**
   * A delivery with nobody else about: nothing for a transfer that has its outcome; else success stores it and moves
   * the total from clearing to settled and fees, and failure gives the total back to an active source.
   */
  lemma DeliveryAlone(s: State, r: Request, x: Id, ref: T.ProviderRef, success: bool, calls: seq<Turn>, after: State)
    requires Inv(s) && r.id !in s.actors && Alone(r) && x in s.transfers && s.transfers[x].providerRef == Some(ref)
    requires Completes(Step(s, Deliver(r.id, x, ref, success)), r, calls, after)
    ensures DeliveryOutcome(s, after, x, success)
  {
    var pc := DeliveryPc(s.transfers[x], success);
    var b := s.(contended := s.contended + Contention(s, x, success, pc));
    StartsDelivery(s, r.id, x, ref, success);
    var done := DeliveryLeadsFrom(s, b, x, success, r.plan);
    EndsThere(b, Start(b, r.id, pc), r, pc, calls, after, done);
  }

  lemma NothingDelivered(s: State, r: Request, x: Id, ref: T.ProviderRef, success: bool, calls: seq<Turn>, after: State)
    requires Inv(s) && r.id !in s.actors && Alone(r)
    requires x in s.transfers ==> s.transfers[x].providerRef != Some(ref)
    requires Completes(Step(s, Deliver(r.id, x, ref, success)), r, calls, after)
    ensures SameStored(s, after)
  {
    assert StartDelivery(s, x, ref, success) == Done;
    var b := s.(contended := s.contended + Contention(s, x, success, Done));
    Here(b, Done, r.plan);
    EndsThere(b, Start(b, r.id, Done), r, Done, calls, after, b);
  }

  // ---- An internal transfer alone

  /** The owner's tier has no cap, or the balance stays within it. */
  predicate HasRoom(s: State, account: Id, amount: nat)
    requires account in s.accounts
  {
    var owner := s.accounts[account].owner;
    var cap := DefaultLimits(if owner in s.tiers then s.tiers[owner] else TIER_1).maxBalance;
    cap.Some? ==> s.accounts[account].balance + amount <= cap.value
  }

  /** Both accounts exist, the source is the user's and covers the total, the destination has room. */
  predicate MayPrepare(s: State, src: Id, dst: Id, user: Id, money: Money, fee: nat) {
    && src in s.accounts && dst in s.accounts && s.accounts[src].owner == user
    && s.accounts[src].status == A.ACTIVE && s.accounts[dst].status == A.ACTIVE
    && s.accounts[src].currency == money.currency && s.accounts[dst].currency == money.currency
    && s.accounts[src].balance >= money.minorUnits + fee
    && HasRoom(s, dst, money.minorUnits)
  }

  predicate MayMove(s: State, src: Id, dst: Id, user: Id, money: Money, fee: nat) {
    src != dst && MayPrepare(s, src, dst, user, money, fee)
  }

  function MovedNets(src: Id, dst: Id, c: Currency, amount: nat, fee: nat): LedgerAccount -> int {
    a => if a == Customer(src) then -(amount + fee)
         else if a == Customer(dst) then amount
         else if a == FeeRevenue(c) then fee else 0
  }

  function MoveRow(id: Id, src: Id, dst: Id, user: Id, money: Money, fee: nat): T.TransferRow {
    T.TransferRow(id, T.INTERNAL(dst), user, src, money.minorUnits, fee, money.currency, T.PENDING, None, 0)
  }

  /** What one internal transfer leaves, for each way its commit may answer. */
  ghost predicate MoveOutcome(s: State, after: State, r: Request, src: Id, dst: Id, user: Id, money: Money, fee: nat) {
    var t := MoveRow(r.id, src, dst, user, money, fee);
    if !MayMove(s, src, dst, user, money, fee) || r.plan.commit.Throws? then
      && after.accounts == s.accounts && after.journal == s.journal
      && after.transfers == s.transfers[r.id := t.(status := T.FAILED, version := 1)]
    else if r.plan.commit.ThrowsLate? then SameStored(s, after)
    else
      && after.accounts == s.accounts[src := Charged(s.accounts[src], money.minorUnits + fee, 1)]
                                     [dst := Credited(s.accounts[dst], money.minorUnits)]
      && after.transfers == s.transfers[r.id := t.(status := T.SUCCESSFUL, version := 1)]
      && Nets(s, after, MovedNets(src, dst, money.currency, money.minorUnits, fee))
  }

  lemma Prepares(s: State, id: Id, src: Id, dst: Id, user: Id, money: Money, fee: nat)
    requires src in s.accounts
    ensures var t := MoveRow(id, src, dst, user, money, fee);
            PrepareInternal(s, s.accounts[src], t)
            == if !MayPrepare(s, src, dst, user, money, fee) then SaveFailed(t.(status := T.FAILED, version := 1))
               else
                 CommitInternal(Write(Charged(s.accounts[src], money.minorUnits + fee, 1),
                                      A.Debit(Money(money.minorUnits + fee, money.currency))),
                                Write(Credited(s.accounts[dst], money.minorUnits), A.Credit(money)), t)
  {
  }

  lemma FailureLeads(b: State, t: T.TransferRow, plan: Plan)
    requires t.version == 1 && t.id !in b.transfers
    ensures Leads(b, SaveFailed(t), plan, Stored(b, t), Done)
  {
    OneCall(b, SaveFailed(t), plan, PutTransfer(t), Done);
  }

  lemma CommitLeads(b: State, src: Write, dst: Write, t: T.TransferRow, plan: Plan) returns (done: State)
    requires t.version == 0 && t.id !in b.transfers && src.copy.id != dst.copy.id
    requires CanSave(b, src) && CanSave(b, dst) && src.copy.version > 0 && dst.copy.version > 0
    requires !plan.commit.Throws? && !plan.commit.ThrowsLate?
    ensures Leads(b, CommitInternal(src, dst, t), plan, done, Done)
    ensures done.accounts == b.accounts[src.copy.id := src.copy][dst.copy.id := dst.copy]
    ensures done.transfers == b.transfers[t.id := t.(status := T.SUCCESSFUL, version := 1)]
    ensures forall a :: R.NetAccount(done.journal, a)
                        == R.NetAccount(b.journal, a) + R.LegsOn(InternalLegs(t, src.copy, dst.copy), a)
  {
    var m := t.(status := T.SUCCESSFUL, version := 1);
    OneCall(b, CommitInternal(src, dst, t), plan, PutInternal(src, dst, m), Done);
    done := Perform(b, PutInternal(src, dst, m));
    PostedNets(Wrote(Wrote(b, src, Movement(m.id)), dst, Movement(m.id)), InternalLegs(m, src.copy, dst.copy), m.id);
  }

  lemma RollbackLeads(b: State, src: Write, dst: Write, t: T.TransferRow, plan: Plan)
    requires t.version == 0 && t.id !in b.transfers && src.copy.version > 0 && dst.copy.version > 0
    requires (src.copy.id == dst.copy.id && src.copy.version == dst.copy.version) || plan.commit.Throws?
    ensures Leads(b, CommitInternal(src, dst, t), plan,
                  Stored(b, t.(status := T.FAILED, version := 1)), Done)
  {
    var failed := t.(status := T.FAILED, version := 1);
    OneCall(b, CommitInternal(src, dst, t), plan, Nothing, SaveFailed(failed));
    FailureLeads(b, failed, plan);
    Follow(b, CommitInternal(src, dst, t), plan, b, SaveFailed(failed), Stored(b, failed), Done);
  }

  lemma LateLeads(b: State, src: Write, dst: Write, t: T.TransferRow, plan: Plan)
    requires src.copy.id != dst.copy.id && src.copy.version > 0 && dst.copy.version > 0
    requires CanSave(b, src) && CanSave(b, dst) && plan.commit.ThrowsLate?
    ensures Leads(b, CommitInternal(src, dst, t), plan, b, Done)
  {
    OneCall(b, CommitInternal(src, dst, t), plan, Nothing, Done);
  }

  /** From the prepared copies to the end. */
  lemma MoveCommits(s: State, r: Request, src: Id, dst: Id, user: Id, money: Money, fee: nat) returns (done: State)
    requires RowsOk(s) && r.id !in s.transfers && MayPrepare(s, src, dst, user, money, fee)
    ensures var t := MoveRow(r.id, src, dst, user, money, fee);
            Leads(s, PrepareInternal(s, s.accounts[src], t), r.plan, done, Done)
    ensures MoveOutcome(s, Start(done, r.id, Done), r, src, dst, user, money, fee)
  {
    var t := MoveRow(r.id, src, dst, user, money, fee);
    var out := Write(Charged(s.accounts[src], money.minorUnits + fee, 1),
                     A.Debit(Money(money.minorUnits + fee, money.currency)));
    var into := Write(Credited(s.accounts[dst], money.minorUnits), A.Credit(money));
    Prepares(s, r.id, src, dst, user, money, fee);
    assert CanSave(s, out) && CanSave(s, into);
    if src == dst || r.plan.commit.Throws? {
      RollbackLeads(s, out, into, t, r.plan);
      done := Stored(s, t.(status := T.FAILED, version := 1));
    } else if r.plan.commit.ThrowsLate? {
      LateLeads(s, out, into, t, r.plan);
      done := s;
    } else {
      done := CommitLeads(s, out, into, t, r.plan);
      forall a ensures R.NetAccount(done.journal, a)
                       == R.NetAccount(s.journal, a) + MovedNets(src, dst, money.currency, money.minorUnits, fee)(a)
      {
        InternalNets(t, out.copy, into.copy, a);
      }
    }
  }

  lemma MoveLeads(s: State, r: Request, src: Id, dst: Id, user: Id, money: Money, fee: nat) returns (done: State)
    requires RowsOk(s) && r.id !in s.transfers && src in s.accounts
    ensures var t := MoveRow(r.id, src, dst, user, money, fee);
            Leads(s, LoadDestination(s.accounts[src], t), r.plan, done, Done)
    ensures MoveOutcome(s, Start(done, r.id, Done), r, src, dst, user, money, fee)
  {
    var t := MoveRow(r.id, src, dst, user, money, fee);
    var failed := t.(status := T.FAILED, version := 1);
    var next := PrepareInternal(s, s.accounts[src], t);
    OneCall(s, LoadDestination(s.accounts[src], t), r.plan, Nothing, next);
    if MayPrepare(s, src, dst, user, money, fee) {
      done := MoveCommits(s, r, src, dst, user, money, fee);
    } else {
      Prepares(s, r.id, src, dst, user, money, fee);
      FailureLeads(s, failed, r.plan);
      done := Stored(s, failed);
    }
    Follow(s, LoadDestination(s.accounts[src], t), r.plan, s, next, done, Done);
  }

  /**
   * An internal transfer with nobody else about goes through if and only if both accounts exist and differ, the
   * source is the user's, both are active and in the currency, the source covers amount and fee, the destination
   * has room under its owner's cap, and the commit throws nothing.
   */
  lemma MoveAlone(s: State, r: Request, src: Id, dst: Id, user: Id, money: Money, fee: nat,
                  calls: seq<Turn>, after: State)
    requires Inv(s) && r.id !in s.actors && Alone(r)
    requires Completes(Step(s, StartInternal(r.id, src, dst, user, money, fee)), r, calls, after)
    ensures MoveOutcome(s, after, r, src, dst, user, money, fee)
  {
    var s0 := Step(s, StartInternal(r.id, src, dst, user, money, fee));
    var t := MoveRow(r.id, src, dst, user, money, fee);
    assert T.Initiated(r.id, T.INTERNAL(dst), user, src, money.minorUnits, fee, money.currency) == t;
    var pc := StartMove(s, t);
    var done;
    if src in s.accounts {
      done := MoveLeads(s, r, src, dst, user, money, fee);
    } else {
      FailureLeads(s, t.(status := T.FAILED, version := 1), r.plan);
      done := Stored(s, t.(status := T.FAILED, version := 1));
    }
    EndsThere(s, s0, r, pc, calls, after, done);
  }

  // ---- A staff credit or debit alone

  /** A credit needs an active account in the currency with room; a debit an active one that covers it. */
  predicate MayAdjust(s: State, account: Id, credit: bool, money: Money) {
    && account in s.accounts && s.accounts[account].status == A.ACTIVE
    && s.accounts[account].currency == money.currency
    && (if credit then HasRoom(s, account, money.minorUnits) else s.accounts[account].balance >= money.minorUnits)
  }

  ghost predicate AdjustOutcome(s: State, after: State, account: Id, credit: bool, money: Money) {
    if !MayAdjust(s, account, credit, money) then SameStored(s, after)
    else
      var row := s.accounts[account];
      && after.transfers == s.transfers && after.journal == s.journal
      && after.accounts == s.accounts[account := if credit then Credited(row, money.minorUnits)
                                                 else Charged(row, money.minorUnits, 1)]
  }

  function Adjustment(credit: bool, money: Money): A.AccountOp {
    if credit then A.Credit(money) else A.Debit(money)
  }

  lemma StartsAdjusting(s: State, account: Id, credit: bool, money: Money)
    ensures StartAdmin(s, account, Adjustment(credit, money))
            == if !MayAdjust(s, account, credit, money) then Done
               else
                 var row := s.accounts[account];
                 SaveAdmin(Write(if credit then Credited(row, money.minorUnits) else Charged(row, money.minorUnits, 1),
                                 Adjustment(credit, money)))
  {
  }

  /** A staff credit or debit with nobody else about changes the one balance exactly when it may, and nothing else. */
  lemma AdjustAlone(s: State, r: Request, account: Id, credit: bool, money: Money, calls: seq<Turn>, after: State)
    requires Inv(s) && r.id !in s.actors && Alone(r)
    requires Completes(Step(s, AdminCall(r.id, account, Adjustment(credit, money))), r, calls, after)
    ensures AdjustOutcome(s, after, account, credit, money)
    ensures MayAdjust(s, account, credit, money) <==>
              calls != [] && PcOf(calls[|calls| - 1].found, r.id).SaveAdmin?
              && CanSave(calls[|calls| - 1].found, PcOf(calls[|calls| - 1].found, r.id).w)
  {
    var s0 := Step(s, AdminCall(r.id, account, Adjustment(credit, money)));
    var pc := StartAdmin(s, account, Adjustment(credit, money));
    StartsAdjusting(s, account, credit, money);
    var done := s;
    if MayAdjust(s, account, credit, money) {
      var w := pc.w;
      assert CanSave(s, w);
      Here(s, pc, r.plan);
      done := Wrote(s, w, Admin);
      EndsWith(s, s0, r, pc, calls, after, s, pc, done);
    } else {
      OutcomeDetermined(s0, r, calls, after, [], s0);
    }
  }
}
