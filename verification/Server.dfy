/**
 * The handlers as they run: sequences of repository, ledger and provider calls on entity objects,
 * with any number of other requests doing anything at every await. Each one is shown to make exactly the
 * calls that the kernel's state machine prescribes, so whatever holds over runs holds of the handlers.
 */
module Server {
  import opened Wrappers
  import opened MoneyValue
  import opened MoneyText
  import opened KycTiers
  import A = Accounts
  import T = Transfers
  import opened L = Ledger
  import opened AccountEntity
  import opened TransferEntity
  import opened LedgerRecording
  import opened Kernel
  import opened KernelInvariant
  import opened KernelRuns
  import opened KernelRequests
  import Solo = KernelSolo

  lemma SettlementSteps(s: State, id: Id, t: T.TransferRow, throws: bool)
    requires id in s.actors && s.actors[id] == PostSettlement(t)
    ensures Step(s, Advance(id, if throws then Throws else Ok))
            == if throws then Start(s.(faulted := s.faulted + {t.id}), id, LoadSource(t))
               else Start(Posted(s, SettlementLegs(t), t.id), id, SaveOutcome(t))
  {
    assert s.anomalies + [] == s.anomalies;
  }

  lemma DeliverySteps(s: State, id: Id, row: T.TransferRow, ref: T.ProviderRef, success: bool)
    requires id !in s.actors && row.id in s.transfers && s.transfers[row.id] == row
    requires row.providerRef == Some(ref) && !T.Terminal(row.status)
    ensures var pc := if success then SaveSettled(row) else LoadSource(row);
            Step(s, Deliver(id, row.id, ref, success))
            == Start(s, id, pc).(contended := s.contended + Contention(s, row.id, success, pc))
  {
  }

  lemma OutcomeSteps(s: State, id: Id, t: T.TransferRow, throws: bool)
    requires id in s.actors && s.actors[id] == SaveOutcome(t)
    ensures Step(s, Advance(id, if throws then Throws else Ok))
            == if !throws && CanPut(s, t) then Start(Stored(s, t), id, Done)
               else Start(s.(faulted := s.faulted + {t.id},
                             anomalies := s.anomalies + if t.status == T.SUCCESSFUL then [UnsavedSettlement(t)]
                                 else []),
                          id, LoadSource(t))
  {
  }

  /** Both saves of the executor's transaction, one after the other. */
  function SavedBoth(rows: map<Id, A.AccountRow>, src: A.AccountRow, dst: A.AccountRow): Option<map<Id, A.AccountRow>> {
    match A.Saved(rows, src)
    case None => None
    case Some(first) => A.Saved(first, dst)
  }

  /** What the invariant says of an executor about to commit. */
  ghost predicate Planned(s: State, src: Write, dst: Write, t: T.TransferRow) {
    && WriteOk(s, src) && WriteOk(s, dst) && t.id !in s.transfers && t.kind.INTERNAL?
    && src.copy.id == t.source && src.op == A.Debit(T.Total(t))
    && dst.copy.id == t.kind.destination && dst.op == A.Credit(Money(t.amount, t.currency))
  }

  lemma InvPlans(s: State, id: Id)
    requires Inv(s) && id in s.actors && s.actors[id].CommitInternal?
    ensures var pc := s.actors[id]; Planned(s, pc.src, pc.dst, pc.t)
  {
    assert PcOk(s, id, s.actors[id]);
  }

  lemma InvAllows(s: State, id: Id)
    requires Inv(s) && id in s.actors
    ensures PcOk(s, id, s.actors[id])
  {
  }

  lemma CommitAmounts(s: State, src: Write, dst: Write, t: T.TransferRow, m: T.TransferRow)
    requires Planned(s, src, dst, t) && SavedBoth(s.accounts, src.copy, dst.copy).Some?
    requires m == t.(status := m.status, version := m.version)
    ensures MovedAmounts(s, m, src.copy, dst.copy)
  {
    InternalWritesDiffer(s, src, dst);
  }

  lemma CommitFails(s: State, id: Id, src: Write, dst: Write, t: T.TransferRow, reply: Reply)
    requires id in s.actors && s.actors[id] == CommitInternal(src, dst, t)
    requires SavedBoth(s.accounts, src.copy, dst.copy).None? || reply.Throws?
    ensures Step(s, Advance(id, reply)) == Start(s, id, SaveFailed(t.(status := T.FAILED, version := t.version + 1)))
  {
  }

  lemma CommitThrowsLate(s: State, id: Id, src: Write, dst: Write, t: T.TransferRow)
    requires id in s.actors && s.actors[id] == CommitInternal(src, dst, t)
    requires SavedBoth(s.accounts, src.copy, dst.copy).Some?
    ensures Step(s, Advance(id, ThrowsLate)) == Start(s, id, Done)
  {
  }

  lemma CommitSucceeds(s: State, id: Id, src: Write, dst: Write, t: T.TransferRow, m: T.TransferRow, reply: Reply)
    returns (after: State)
    requires id in s.actors && s.actors[id] == CommitInternal(src, dst, t) && Planned(s, src, dst, t)
    requires SavedBoth(s.accounts, src.copy, dst.copy).Some? && !reply.Throws? && !reply.ThrowsLate?
    requires m == t.(status := T.SUCCESSFUL, version := t.version + 1)
    ensures src.copy.id != dst.copy.id && m.id !in s.transfers
    ensures SavedBoth(s.accounts, src.copy, dst.copy).value
              == s.accounts[src.copy.id := src.copy][dst.copy.id := dst.copy]
    ensures after == Step(s, Advance(id, reply))
    ensures after
            == s.(accounts := s.accounts[src.copy.id := src.copy][dst.copy.id := dst.copy],
                  transfers := s.transfers[m.id := m],
                  journal := s.journal + Rows(s.journal, InternalLegs(m, src.copy, dst.copy), m.id),
                  log := s.log + [Commit(src.copy.id, src.op, Movement(m.id))]
                      + [Commit(dst.copy.id, dst.op, Movement(m.id))],
                  actors := s.actors[id := Done])
  {
    InternalWritesDiffer(s, src, dst);
    after := Step(s, Advance(id, reply));
  }

  const NO_ROW := A.AccountRow(0, 0, NGN, 0, A.ACTIVE, 0)

  // ---- Every posting the handlers build is balanced, so the recorder never refuses one

  lemma {:induction false} NetOfTwo(a: Leg, b: Leg, c: Currency)
    ensures NetLegs([a, b], c) == (if a.amount.currency == c then Signed(a.direction, a.amount) else 0)
                                  + if b.amount.currency == c then Signed(b.direction, b.amount) else 0
  {
    assert [a, b][..1] == [a];
    assert [a][..0] == [];
    assert NetLegs([a], c) == if a.amount.currency == c then Signed(a.direction, a.amount) else 0;
  }

  lemma NetPlusFee(a: Leg, b: Leg, t: T.TransferRow, c: Currency)
    ensures NetLegs([a, b] + FeeLeg(t), c) == NetLegs([a, b], c) + if t.currency == c then t.fee else 0
  {
    if t.fee == 0 {
      assert [a, b] + FeeLeg(t) == [a, b];
    } else {
      assert ([a, b] + FeeLeg(t))[..2] == [a, b];
    }
  }

  lemma PostingsBalance(t: T.TransferRow, balance: nat, src: A.AccountRow, dst: A.AccountRow)
    ensures Balanced(HoldLegs(t, balance)) && Balanced(SettlementLegs(t))
            && Balanced(RefundLegs(t, balance)) && Balanced(InternalLegs(t, src, dst))
  {
    forall c ensures NetLegs(HoldLegs(t, balance), c) == 0 && NetLegs(SettlementLegs(t), c) == 0
                     && NetLegs(RefundLegs(t, balance), c) == 0 && NetLegs(InternalLegs(t, src, dst), c) == 0
    {
      NetOfTwo(HoldLegs(t, balance)[0], HoldLegs(t, balance)[1], c);
      NetOfTwo(RefundLegs(t, balance)[0], RefundLegs(t, balance)[1], c);
      NetOfTwo(SettlementLegs(t)[0], SettlementLegs(t)[1], c);
      NetPlusFee(SettlementLegs(t)[0], SettlementLegs(t)[1], t, c);
      NetOfTwo(InternalLegs(t, src, dst)[0], InternalLegs(t, src, dst)[1], c);
      NetPlusFee(InternalLegs(t, src, dst)[0], InternalLegs(t, src, dst)[1], t, c);
    }
  }

  /** The database, and the bookkeeping that ties it to the state machine. */
  class Bank {
    const accounts: AccountRepository
    const transfers: TransferRepository
    const ledger: LedgerRecorder
    var tiers: map<Id, KycTier>
    var actors: map<Id, Pc>
    var log: seq<Commit>
    var anomalies: seq<Anomaly>
    var faulted: set<Id>
    var contended: set<Id>

    constructor ()
      ensures fresh(accounts) && fresh(transfers) && fresh(ledger)
      ensures Initial(Now()) && accounts.rows == map[]
    {
      accounts := new AccountRepository();
      transfers := new TransferRepository();
      ledger := new LedgerRecorder();
      tiers, actors, log, anomalies, faulted, contended := map[], map[], [], [], {}, {};
    }

    function Now(): State
      reads this, accounts, transfers, ledger
    {
      State(accounts.rows, transfers.rows, ledger.entries, tiers, actors, log, anomalies, faulted, contended)
    }

    /** Whatever the other requests do while this one waits. */
    method Await(id: Id, others: seq<Event>)
      requires NoneBy(others, id)
      modifies this, accounts, transfers, ledger
      ensures Now() == Run(old(Now()), others)
      ensures id in actors <==> id in old(actors)
      ensures id in actors ==> actors[id] == old(actors[id])
      ensures old(Inv(Now())) ==> Inv(Now())
    {
      RunLeavesAlone(Now(), others, id);
      if Inv(Now()) { RunKeepsInv(Now(), others); }
      var s := Run(Now(), others);
      accounts.rows, transfers.rows, ledger.entries := s.accounts, s.transfers, s.journal;
      tiers, actors, log, anomalies, faulted, contended := s.tiers, s.actors, s.log, s.anomalies, s.faulted,
          s.contended;
    }

    /** An await, after which the machine prescribes the request's next call. */
    method AwaitTurn(r: Request, ghost s0: State, past: seq<Turn>) returns (found: State)
      requires Foreign(r) && Underway(s0, r, past, Now()) && r.id in actors && !actors[r.id].Done?
      modifies this, accounts, transfers, ledger
      ensures found == Now() && r.id in actors && actors[r.id] == old(actors[r.id])
      ensures Awaited(s0, r, past, found)
      ensures old(Inv(Now())) ==> Inv(Now())
    {
      Await(r.id, r.others(|past|));
      found := Now();
    }

    // ---- The calls a request awaits, each one step of the state machine

    method SaveHeld(id: Id, account: Account, transfer: Transfer) returns (saved: bool)
      requires id in actors && actors[id]
                 == SaveHold(Write(account.Row(), A.Debit(T.Total(transfer.Row()))), transfer.Row())
      modifies this, accounts
      ensures Now() == Step(old(Now()), Advance(id, Ok))
      ensures actors == old(actors)[id := if saved then Record(account.Row().balance, transfer.Row()) else Done]
    {
      saved := accounts.Save(account);
      if saved {
        log := log + [Commit(account.id, A.Debit(T.Total(transfer.Row())), Movement(transfer.id))];
        actors := actors[id := Record(account.Row().balance, transfer.Row())];
      } else {
        actors := actors[id := Done];
      }
    }

    method HoldTurn(r: Request, account: Account, transfer: Transfer, ghost s0: State, past: seq<Turn>)
      returns (saved: bool, longer: seq<Turn>)
      requires r.id in actors
                 && actors[r.id] == SaveHold(Write(account.Row(), A.Debit(T.Total(transfer.Row()))), transfer.Row())
      requires Foreign(r) && Underway(s0, r, past, Now())
      modifies this, accounts, transfers, ledger
      ensures Underway(s0, r, longer, Now()) && Adds(past, longer, old(actors[r.id]), r.id)
      ensures r.id in actors && actors[r.id] == if saved then Record(account.Row().balance, transfer.Row()) else Done
    {
      var found := AwaitTurn(r, s0, past);
      saved := SaveHeld(r.id, account, transfer);
      TookTurn(s0, r, past, found, Now(), Ok);
      longer := past + [Turn(found, Now())];
    }

    method SaveNew(id: Id, balance: nat, transfer: Transfer) returns (saved: bool)
      requires id in actors && actors[id] == Record(balance, transfer.Row())
      modifies this, transfers
      ensures Now() == Step(old(Now()), Advance(id, Ok))
      ensures actors == old(actors)[id := if saved then PostHold(balance, transfer.Row()) else Done]
    {
      saved := transfers.Save(transfer);
      actors := actors[id := if saved then PostHold(balance, transfer.Row()) else Done];
    }

    method RecordTurn(r: Request, balance: nat, transfer: Transfer, ghost s0: State, past: seq<Turn>)
      returns (saved: bool, longer: seq<Turn>)
      requires r.id in actors && actors[r.id] == Record(balance, transfer.Row())
      requires Foreign(r) && Underway(s0, r, past, Now())
      modifies this, accounts, transfers, ledger
      ensures Underway(s0, r, longer, Now()) && Adds(past, longer, old(actors[r.id]), r.id)
      ensures r.id in actors && actors[r.id] == if saved then PostHold(balance, transfer.Row()) else Done
    {
      var found := AwaitTurn(r, s0, past);
      saved := SaveNew(r.id, balance, transfer);
      TookTurn(s0, r, past, found, Now(), Ok);
      longer := past + [Turn(found, Now())];
    }

    method PostHeld(id: Id, balance: nat, transfer: Transfer)
      requires id in actors && actors[id] == PostHold(balance, transfer.Row())
      requires transfer.fee.currency == transfer.amount.currency
      modifies this, ledger
      ensures Now() == Step(old(Now()), Advance(id, Ok))
      ensures actors == old(actors)[id := Pay(transfer.Row())]
    {
      var total := transfer.amount.Add(transfer.fee).value;
      var currency := transfer.amount.currency;
      var legs := [Leg(Customer(transfer.source), DEBIT, total, Some(balance)),
          Leg(Clearing(currency), CREDIT, total, None)];
      PostingsBalance(transfer.Row(), balance, NO_ROW, NO_ROW);
      assert legs == HoldLegs(transfer.Row(), balance);
      var posted := ledger.Post(legs, transfer.id);
      actors := actors[id := Pay(transfer.Row())];
    }

    method PostHoldTurn(r: Request, balance: nat, transfer: Transfer, ghost s0: State, past: seq<Turn>)
      returns (longer: seq<Turn>)
      requires r.id in actors && actors[r.id] == PostHold(balance, transfer.Row())
      requires transfer.fee.currency == transfer.amount.currency
      requires Foreign(r) && Underway(s0, r, past, Now())
      modifies this, accounts, transfers, ledger
      ensures Underway(s0, r, longer, Now()) && Adds(past, longer, old(actors[r.id]), r.id)
      ensures r.id in actors && actors[r.id] == Pay(transfer.Row())
    {
      var found := AwaitTurn(r, s0, past);
      PostHeld(r.id, balance, transfer);
      TookTurn(s0, r, past, found, Now(), Ok);
      longer := past + [Turn(found, Now())];
    }

    /** Clearing is relieved to the settled account and, if there is a fee, to fee revenue. */
    method PostSettlementLegs(transfer: Transfer)
      requires transfer.fee.currency == transfer.amount.currency
      modifies ledger
      ensures ledger.entries == old(ledger.entries)
                + Rows(old(ledger.entries), SettlementLegs(transfer.Row()), transfer.id)
    {
      var total := transfer.amount.Add(transfer.fee).value;
      var currency := transfer.amount.currency;
      var legs := [Leg(Clearing(currency), DEBIT, total, None),
          Leg(L.Settled(currency), CREDIT, transfer.amount, None)];
      if transfer.fee.minorUnits != 0 {
        legs := legs + [Leg(FeeRevenue(currency), CREDIT, transfer.fee, None)];
      }
      PostingsBalance(transfer.Row(), 0, NO_ROW, NO_ROW);
      assert legs == SettlementLegs(transfer.Row());
      var posted := ledger.Post(legs, transfer.id);
    }

    method PostOwnSettlement(id: Id, transfer: Transfer, throws: bool)
      requires id in actors && actors[id] == PostSettlement(transfer.Row())
      requires transfer.fee.currency == transfer.amount.currency
      modifies this, ledger
      ensures Now() == Step(old(Now()), Advance(id, if throws then Throws else Ok))
      ensures actors == old(actors)[id := if throws then LoadSource(transfer.Row()) else SaveOutcome(transfer.Row())]
    {
      SettlementSteps(Now(), id, transfer.Row(), throws);
      if throws {
        faulted := faulted + {transfer.id};
        actors := actors[id := LoadSource(transfer.Row())];
      } else {
        PostSettlementLegs(transfer);
        actors := actors[id := SaveOutcome(transfer.Row())];
      }
    }

    method SaveOwnOutcome(id: Id, transfer: Transfer, throws: bool) returns (saved: bool)
      requires id in actors && actors[id] == SaveOutcome(transfer.Row())
      modifies this, transfers
      ensures Now() == Step(old(Now()), Advance(id, if throws then Throws else Ok))
      ensures actors == old(actors)[id := if saved then Done else LoadSource(transfer.Row())]
      ensures saved ==> transfer.id in transfers.rows && transfers.rows[transfer.id] == transfer.Row()
    {
      OutcomeSteps(Now(), id, transfer.Row(), throws);
      saved := false;
      if !throws {
        saved := transfers.Save(transfer);
      }
      if saved {
        actors := actors[id := Done];
      } else {
        faulted := faulted + {transfer.id};
        anomalies := anomalies + if transfer.status == T.SUCCESSFUL then [UnsavedSettlement(transfer.Row())] else [];
        actors := actors[id := LoadSource(transfer.Row())];
      }
    }

    /** Reads the source account afresh and credits the total back to that copy. */
    method LoadForRefund(id: Id, transfer: Transfer) returns (account: Account?, thrown: bool)
      requires id in actors && actors[id] == LoadSource(transfer.Row())
      requires transfer.fee.currency == transfer.amount.currency
      modifies this
      ensures Now() == Step(old(Now()), Advance(id, Ok))
      ensures account == null || (fresh(account) && account.Valid())
      ensures actors == old(actors)[id := if account == null then SaveReversed(transfer.Row())
                                          else if thrown then Done
                                          else SaveRefund(Write(account.Row(), A.Credit(T.Total(transfer.Row()))),
                                              transfer.Row())]
    {
      account := accounts.FindById(transfer.source);
      thrown := false;
      if account == null {
        actors := actors[id := SaveReversed(transfer.Row())];
        return;
      }
      var outcome := account.Credit(transfer.amount.Add(transfer.fee).value);
      if outcome.Fail? {
        thrown := true;
        actors := actors[id := Done];
      } else {
        actors := actors[id := SaveRefund(Write(account.Row(), A.Credit(T.Total(transfer.Row()))), transfer.Row())];
      }
    }

    method SaveRefunded(id: Id, account: Account, transfer: Transfer) returns (saved: bool)
      requires id in actors && actors[id]
                 == SaveRefund(Write(account.Row(), A.Credit(T.Total(transfer.Row()))), transfer.Row())
      modifies this, accounts
      ensures Now() == Step(old(Now()), Advance(id, Ok))
      ensures actors == old(actors)[id := if saved then PostRefund(account.Row().balance, transfer.Row()) else Done]
    {
      saved := accounts.Save(account);
      if saved {
        log := log + [Commit(account.id, A.Credit(T.Total(transfer.Row())), Refund(transfer.id))];
        actors := actors[id := PostRefund(account.Row().balance, transfer.Row())];
      } else {
        actors := actors[id := Done];
      }
    }

    method RefundTurn(r: Request, account: Account, transfer: Transfer, ghost s0: State, past: seq<Turn>)
      returns (saved: bool, longer: seq<Turn>)
      requires r.id in actors
                 && actors[r.id] == SaveRefund(Write(account.Row(), A.Credit(T.Total(transfer.Row()))), transfer.Row())
      requires Foreign(r) && Underway(s0, r, past, Now())
      modifies this, accounts, transfers, ledger
      ensures Underway(s0, r, longer, Now()) && Adds(past, longer, old(actors[r.id]), r.id)
      ensures r.id in actors
      ensures actors[r.id] == if saved then PostRefund(account.Row().balance, transfer.Row()) else Done
    {
      var found := AwaitTurn(r, s0, past);
      saved := SaveRefunded(r.id, account, transfer);
      TookTurn(s0, r, past, found, Now(), Ok);
      longer := past + [Turn(found, Now())];
    }

    method PostRefunded(id: Id, balance: nat, transfer: Transfer)
      requires id in actors && actors[id] == PostRefund(balance, transfer.Row())
      requires transfer.fee.currency == transfer.amount.currency
      modifies this, ledger
      ensures Now() == Step(old(Now()), Advance(id, Ok))
      ensures actors == old(actors)[id := SaveReversed(transfer.Row())]
    {
      var total := transfer.amount.Add(transfer.fee).value;
      var legs := [Leg(Clearing(transfer.amount.currency), DEBIT, total, None),
          Leg(Customer(transfer.source), CREDIT, total, Some(balance))];
      PostingsBalance(transfer.Row(), balance, NO_ROW, NO_ROW);
      assert legs == RefundLegs(transfer.Row(), balance);
      var posted := ledger.Post(legs, transfer.id);
      actors := actors[id := SaveReversed(transfer.Row())];
    }

    method PostRefundTurn(r: Request, balance: nat, transfer: Transfer, ghost s0: State, past: seq<Turn>)
      returns (longer: seq<Turn>)
      requires r.id in actors && actors[r.id] == PostRefund(balance, transfer.Row())
      requires transfer.fee.currency == transfer.amount.currency
      requires Foreign(r) && Underway(s0, r, past, Now())
      modifies this, accounts, transfers, ledger
      ensures Underway(s0, r, longer, Now()) && Adds(past, longer, old(actors[r.id]), r.id)
      ensures r.id in actors && actors[r.id] == SaveReversed(transfer.Row())
    {
      var found := AwaitTurn(r, s0, past);
      PostRefunded(r.id, balance, transfer);
      TookTurn(s0, r, past, found, Now(), Ok);
      longer := past + [Turn(found, Now())];
    }

    /** `markReversed` and the last save; either may throw, and then the reversal stays unrecorded. */
    method SaveReversal(id: Id, transfer: Transfer) returns (saved: bool)
      requires id in actors && actors[id] == SaveReversed(transfer.Row())
      modifies this, transfers, transfer
      ensures Now() == Step(old(Now()), Advance(id, Ok))
      ensures actors == old(actors)[id := Done]
    {
      var loaded := transfer.Row();
      saved := MarkAndSaveReversed(transfer);
      if !saved {
        anomalies := anomalies + [LostReversal(loaded)];
      }
      actors := actors[id := Done];
    }

    method MarkAndSaveReversed(transfer: Transfer) returns (saved: bool)
      modifies transfers, transfer
      ensures var marked := T.Marked(old(transfer.Row()), T.REVERSED, None);
              var rows := if marked.Some? then T.Saved(old(transfers.rows), marked.value) else None;
              saved == rows.Some? && transfers.rows == if saved then rows.value else old(transfers.rows)
    {
      saved := transfer.MarkReversed();
      if saved { saved := transfers.Save(transfer); }
    }

    method LoadTurn(r: Request, transfer: Transfer, ghost s0: State, past: seq<Turn>)
      returns (account: Account?, thrown: bool, longer: seq<Turn>)
      requires r.id in actors && actors[r.id] == LoadSource(transfer.Row())
      requires transfer.fee.currency == transfer.amount.currency
      requires Foreign(r) && Underway(s0, r, past, Now())
      modifies this, accounts, transfers, ledger
      ensures Underway(s0, r, longer, Now()) && Adds(past, longer, old(actors[r.id]), r.id)
      ensures r.id in actors
      ensures actors[r.id] == if account == null then SaveReversed(transfer.Row())
                              else if thrown then Done
                              else SaveRefund(Write(account.Row(), A.Credit(T.Total(transfer.Row()))), transfer.Row())
      ensures account == null || (fresh(account) && account.Valid())
    {
      var found := AwaitTurn(r, s0, past);
      account, thrown := LoadForRefund(r.id, transfer);
      TookTurn(s0, r, past, found, Now(), Ok);
      longer := past + [Turn(found, Now())];
    }

    method ReverseTurn(r: Request, transfer: Transfer, ghost s0: State, past: seq<Turn>)
      returns (saved: bool, longer: seq<Turn>)
      requires r.id in actors && actors[r.id] == SaveReversed(transfer.Row())
      requires Foreign(r) && Underway(s0, r, past, Now())
      modifies this, accounts, transfers, ledger, transfer
      ensures Underway(s0, r, longer, Now()) && Adds(past, longer, old(actors[r.id]), r.id)
      ensures r.id in actors && actors[r.id] == Done
    {
      var found := AwaitTurn(r, s0, past);
      saved := SaveReversal(r.id, transfer);
      TookTurn(s0, r, past, found, Now(), Ok);
      longer := past + [Turn(found, Now())];
    }

    /** The credit back to the loaded copy is saved and posted; `returned` is false when the save throws. */
    method CreditBack(r: Request, account: Account, transfer: Transfer, ghost s0: State, past: seq<Turn>)
      returns (returned: bool, longer: seq<Turn>)
      requires r.id in actors
                 && actors[r.id] == SaveRefund(Write(account.Row(), A.Credit(T.Total(transfer.Row()))), transfer.Row())
      requires transfer.fee.currency == transfer.amount.currency
      requires Foreign(r) && Underway(s0, r, past, Now())
      modifies this, accounts, transfers, ledger
      ensures Underway(s0, r, longer, Now()) && !EndsInSave(longer, r.id)
      ensures r.id in actors && actors[r.id] == if returned then SaveReversed(transfer.Row()) else Done
    {
      returned, longer := RefundTurn(r, account, transfer, s0, past);
      if !returned { return; }
      longer := PostRefundTurn(r, account.Row().balance, transfer, s0, longer);
    }

    /** The compensation up to its last save. A missing source account is passed over. */
    method ReturnFunds(r: Request, transfer: Transfer, ghost s0: State, past: seq<Turn>)
      returns (returned: bool, longer: seq<Turn>)
      requires r.id in actors && actors[r.id] == LoadSource(transfer.Row())
      requires transfer.fee.currency == transfer.amount.currency
      requires Foreign(r) && Underway(s0, r, past, Now())
      modifies this, accounts, transfers, ledger
      ensures Underway(s0, r, longer, Now()) && !EndsInSave(longer, r.id)
      ensures r.id in actors && actors[r.id] == if returned then SaveReversed(transfer.Row()) else Done
    {
      var account, thrown;
      account, thrown, longer := LoadTurn(r, transfer, s0, past);
      returned := account == null;
      if account == null || thrown { return; }
      returned, longer := CreditBack(r, account, transfer, s0, longer);
    }

    /** The compensation that the saga's catch block and the late-failure webhook share. */
    method Compensate(r: Request, transfer: Transfer, ghost s0: State, past: seq<Turn>) returns (longer: seq<Turn>)
      requires r.id in actors && actors[r.id] == LoadSource(transfer.Row())
      requires transfer.fee.currency == transfer.amount.currency
      requires Foreign(r) && Underway(s0, r, past, Now())
      modifies this, accounts, transfers, ledger, transfer
      ensures Completes(s0, r, longer, Now()) && !EndsInSave(longer, r.id)
    {
      var returned;
      returned, longer := ReturnFunds(r, transfer, s0, past);
      if !returned { return; }
      returned, longer := ReverseTurn(r, transfer, s0, longer);
    }

    /** The saga's first read and its in-memory work: `transfer` is null when it throws before any write. */
    method OpenExternal(id: Id, accountId: Id, user: Id, units: nat, feeUnits: nat)
      returns (sourceAccount: Account?, transfer: Transfer?)
      requires id !in actors
      modifies this
      ensures Now() == Step(old(Now()), StartExternal(id, accountId, user, units, feeUnits))
      ensures transfer != null ==>
                fresh(transfer) && transfer.id == id && transfer.status == T.PENDING
                    && transfer.fee.currency == transfer.amount.currency
      ensures transfer != null ==> sourceAccount != null && fresh(sourceAccount)
      ensures actors == old(actors)[id :=
                if transfer == null then Done
                else SaveHold(Write(sourceAccount.Row(), A.Debit(T.Total(transfer.Row()))), transfer.Row())]
    {
      transfer := null;
      sourceAccount := accounts.FindById(accountId);
      if sourceAccount == null || sourceAccount.owner != user {
        actors := actors[id := Done];
        return;
      }
      transfer := DebitAndDraw(id, sourceAccount, accountId, user, units, feeUnits);
      actors := actors[id := if transfer == null then Done
                             else SaveHold(Write(sourceAccount.Row(), A.Debit(T.Total(transfer.Row()))),
                                 transfer.Row())];
    }

    /** Debits amount and fee from the copy and draws up the PENDING transfer, or throws. */
    method DebitAndDraw(id: Id, sourceAccount: Account, accountId: Id, user: Id, units: nat, feeUnits: nat)
      returns (transfer: Transfer?)
      requires sourceAccount.Valid()
      modifies sourceAccount
      ensures var t := T.Initiated(id, T.EXTERNAL, user, accountId, units, feeUnits, sourceAccount.currency);
              var debited := A.Apply(old(sourceAccount.Row()), A.Debit(T.Total(t)));
              if debited.Failure? then transfer == null
              else transfer != null && fresh(transfer) && transfer.Row() == t
                   && transfer.fee.currency == transfer.amount.currency
                   && sourceAccount.Row() == debited.value
    {
      var amount, fee := Money(units, sourceAccount.currency), Money(feeUnits, sourceAccount.currency);
      var totalDebit := amount.Add(fee).value;
      var outcome := sourceAccount.Debit(totalDebit);
      if outcome.Fail? { return null; }
      transfer := new Transfer.Initiate(id, T.EXTERNAL, user, accountId, amount, fee);
    }

    /**
     * The external payout saga; `r.plan` holds the provider's answer and says whether the settlement
     * posting and the last save throw. `resource` is the id returned, None when it throws.
     */
    method InitiateExternal(r: Request, accountId: Id, user: Id, units: nat, feeUnits: nat)
      returns (resource: Option<Id>, calls: seq<Turn>)
      requires r.id !in actors && Foreign(r)
      modifies this, accounts, transfers, ledger
      ensures Completes(Step(old(Now()), StartExternal(r.id, accountId, user, units, feeUnits)), r, calls, Now())
      ensures resource == if EndsInSave(calls, r.id) then Some(r.id) else None
      ensures resource.Some? ==> Responded(r.id, r.plan.payout, transfers.rows)
    {
      resource, calls := None, [];
      var sourceAccount, transfer := OpenExternal(r.id, accountId, user, units, feeUnits);
      ghost var s1 := Now();
      if transfer == null { return; }
      var held;
      held, calls := Hold(r, sourceAccount, transfer, s1);
      if !held { return; }
      resource, calls := Payout(r, transfer, s1, calls);
    }

    /** The saga with nobody else about: whether it pays, what it answers, and every balance, row and total. */
    method InitiateAlone(r: Request, accountId: Id, user: Id, units: nat, feeUnits: nat) returns (resource: Option<Id>)
      requires r.id !in actors && Inv(Now()) && Solo.Alone(r)
      modifies this, accounts, transfers, ledger
      ensures Solo.PayoutOutcome(old(Now()), Now(), r, accountId, user, units, feeUnits)
      ensures var may := old(Solo.MayPayOut(Now(), accountId, user, units + feeUnits));
              && (may <==> !Solo.SameStored(old(Now()), Now()))
              && resource == if may && Solo.Answered(r.plan) then Some(r.id) else None
    {
      ghost var before := Now();
      var calls;
      resource, calls := InitiateExternal(r, accountId, user, units, feeUnits);
      Solo.PayoutAlone(before, r, accountId, user, units, feeUnits, calls, Now());
    }

    /** Step 1 saves the debited account; step 2 records the instruction and posts the hold. */
    method Hold(r: Request, sourceAccount: Account, transfer: Transfer, ghost s0: State)
      returns (held: bool, longer: seq<Turn>)
      requires r.id in actors && actors[r.id]
                 == SaveHold(Write(sourceAccount.Row(), A.Debit(T.Total(transfer.Row()))), transfer.Row())
      requires transfer.fee.currency == transfer.amount.currency && Foreign(r) && Underway(s0, r, [], Now())
      modifies this, accounts, transfers, ledger
      ensures Underway(s0, r, longer, Now()) && !EndsInSave(longer, r.id)
      ensures r.id in actors && actors[r.id] == if held then Pay(transfer.Row()) else Done
    {
      held, longer := HoldTurn(r, sourceAccount, transfer, s0, []);
      if !held { return; }
      held, longer := RecordTurn(r, sourceAccount.Row().balance, transfer, s0, longer);
      if !held { return; }
      longer := PostHoldTurn(r, sourceAccount.Row().balance, transfer, s0, longer);
    }

    /** The provider answers: the transfer is marked in memory, or its exception is caught. */
    method CallProvider(id: Id, transfer: Transfer, payout: Reply)
      requires id in actors && actors[id] == Pay(transfer.Row()) && transfer.status == T.PENDING
      modifies this, transfer
      ensures Now() == Step(old(Now()), Advance(id, payout))
      ensures actors == old(actors)[id := if payout.Settled? then PostSettlement(transfer.Row())
                                          else if payout.Accepted? then SaveOutcome(transfer.Row())
                                          else LoadSource(transfer.Row())]
      ensures payout.Settled? ==> transfer.status == T.SUCCESSFUL
      ensures payout.Accepted? ==> transfer.status == T.PROCESSING
    {
      if payout.Settled? {
        var ok := transfer.MarkSuccessful();
        actors := actors[id := PostSettlement(transfer.Row())];
      } else if payout.Accepted? {
        var ok := transfer.MarkProcessing(payout.ref);
        actors := actors[id := SaveOutcome(transfer.Row())];
      } else {
        actors := actors[id := LoadSource(transfer.Row())];
      }
    }

    /** Step 3: the payout inside its try block, and the catch block that compensates. */
    method Payout(r: Request, transfer: Transfer, ghost s0: State, past: seq<Turn>)
      returns (resource: Option<Id>, longer: seq<Turn>)
      requires r.id in actors && actors[r.id] == Pay(transfer.Row()) && transfer.id == r.id
      requires transfer.status == T.PENDING && transfer.fee.currency == transfer.amount.currency
      requires Foreign(r) && Underway(s0, r, past, Now())
      modifies this, accounts, transfers, ledger, transfer
      ensures Completes(s0, r, longer, Now())
      ensures resource == if EndsInSave(longer, r.id) then Some(r.id) else None
      ensures resource.Some? ==> Responded(r.id, r.plan.payout, transfers.rows)
    {
      resource := None;
      var saved;
      saved, longer := TryPayout(r, transfer, s0, past);
      if saved { return Some(r.id), longer; }
      longer := Compensate(r, transfer, s0, longer);
    }

    method PayTurn(r: Request, transfer: Transfer, ghost s0: State, past: seq<Turn>)
      returns (longer: seq<Turn>)
      requires r.id in actors && actors[r.id] == Pay(transfer.Row()) && transfer.status == T.PENDING
      requires Foreign(r) && Underway(s0, r, past, Now())
      modifies this, accounts, transfers, ledger, transfer
      ensures Underway(s0, r, longer, Now()) && Adds(past, longer, old(actors[r.id]), r.id)
      ensures r.id in actors
      ensures actors[r.id] == if r.plan.payout.Settled? then PostSettlement(transfer.Row())
                              else if r.plan.payout.Accepted? then SaveOutcome(transfer.Row())
                              else LoadSource(transfer.Row())
      ensures r.plan.payout.Settled? ==> transfer.status == T.SUCCESSFUL
      ensures r.plan.payout.Accepted? ==> transfer.status == T.PROCESSING
    {
      var found := AwaitTurn(r, s0, past);
      CallProvider(r.id, transfer, r.plan.payout);
      TookTurn(s0, r, past, found, Now(), r.plan.payout);
      longer := past + [Turn(found, Now())];
    }

    method TryPayout(r: Request, transfer: Transfer, ghost s0: State, past: seq<Turn>)
      returns (saved: bool, longer: seq<Turn>)
      requires r.id in actors && actors[r.id] == Pay(transfer.Row()) && transfer.id == r.id
      requires transfer.status == T.PENDING && transfer.fee.currency == transfer.amount.currency
      requires Foreign(r) && Underway(s0, r, past, Now())
      modifies this, accounts, transfers, ledger, transfer
      ensures Underway(s0, r, longer, Now()) && (saved ==> EndsInSave(longer, r.id))
      ensures r.id in actors && actors[r.id] == if saved then Done else LoadSource(transfer.Row())
      ensures saved ==> Responded(r.id, r.plan.payout, transfers.rows)
    {
      longer := PayTurn(r, transfer, s0, past);
      saved := false;
      if r.plan.payout.Settled? {
        saved, longer := SettleAtOnce(r, transfer, s0, longer);
      } else if r.plan.payout.Accepted? {
        saved, longer := SaveLast(r, transfer, s0, longer);
      }
    }

    /** The try block's last call, saving the outcome. */
    method SaveLast(r: Request, transfer: Transfer, ghost s0: State, past: seq<Turn>)
      returns (saved: bool, longer: seq<Turn>)
      requires r.id in actors && actors[r.id] == SaveOutcome(transfer.Row())
      requires Foreign(r) && Underway(s0, r, past, Now())
      modifies this, accounts, transfers, ledger
      ensures Underway(s0, r, longer, Now()) && Adds(past, longer, old(actors[r.id]), r.id)
      ensures r.id in actors && actors[r.id] == if saved then Done else LoadSource(transfer.Row())
      ensures saved ==> transfer.id in transfers.rows && transfers.rows[transfer.id] == transfer.Row()
    {
      var found := AwaitTurn(r, s0, past);
      saved := SaveOwnOutcome(r.id, transfer, r.plan.saveThrows);
      TookTurn(s0, r, past, found, Now(), if r.plan.saveThrows then Throws else Ok);
      longer := past + [Turn(found, Now())];
    }

    method PostTurn(r: Request, transfer: Transfer, ghost s0: State, past: seq<Turn>)
      returns (longer: seq<Turn>)
      requires r.id in actors && actors[r.id] == PostSettlement(transfer.Row())
      requires transfer.fee.currency == transfer.amount.currency
      requires Foreign(r) && Underway(s0, r, past, Now())
      modifies this, accounts, transfers, ledger
      ensures Underway(s0, r, longer, Now()) && Adds(past, longer, old(actors[r.id]), r.id)
      ensures r.id in actors
      ensures actors[r.id] == if r.plan.postThrows then LoadSource(transfer.Row()) else SaveOutcome(transfer.Row())
    {
      var found := AwaitTurn(r, s0, past);
      PostOwnSettlement(r.id, transfer, r.plan.postThrows);
      TookTurn(s0, r, past, found, Now(), if r.plan.postThrows then Throws else Ok);
      longer := past + [Turn(found, Now())];
    }

    method SettleAtOnce(r: Request, transfer: Transfer, ghost s0: State, past: seq<Turn>)
      returns (saved: bool, longer: seq<Turn>)
      requires r.id in actors && actors[r.id] == PostSettlement(transfer.Row())
      requires transfer.fee.currency == transfer.amount.currency
      requires Foreign(r) && Underway(s0, r, past, Now())
      modifies this, accounts, transfers, ledger
      ensures Underway(s0, r, longer, Now()) && (saved ==> EndsInSave(longer, r.id))
      ensures r.id in actors && actors[r.id] == if saved then Done else LoadSource(transfer.Row())
      ensures saved ==> transfer.id in transfers.rows && transfers.rows[transfer.id] == transfer.Row()
    {
      longer := PostTurn(r, transfer, s0, past);
      saved := false;
      if r.plan.postThrows { return; }
      saved, longer := SaveLast(r, transfer, s0, longer);
    }

    method SaveSettlement(id: Id, transfer: Transfer, ghost loaded: T.TransferRow) returns (saved: bool)
      requires id in actors && actors[id] == SaveSettled(loaded)
                 && T.Marked(loaded, T.SUCCESSFUL, None) == Some(transfer.Row())
      modifies this, transfers
      ensures Now() == Step(old(Now()), Advance(id, Ok))
      ensures actors == old(actors)[id := if saved then PostSettled(transfer.Row()) else Done]
    {
      saved := transfers.Save(transfer);
      actors := actors[id := if saved then PostSettled(transfer.Row()) else Done];
    }

    /** The webhook's lookup: null when it has nothing to do, otherwise the row's copy, marked if settled. */
    method OpenDelivery(id: Id, ref: T.ProviderRef, success: bool)
      returns (transfer: Transfer?, ghost loaded: T.TransferRow, ghost x: Id)
      requires id !in actors && RowsOk(Now())
      modifies this
      ensures Now() == Step(old(Now()), Deliver(id, x, ref, success))
      ensures (exists y :: y in transfers.rows && transfers.rows[y].providerRef == Some(ref)) ==>
                x in transfers.rows && transfers.rows[x].providerRef == Some(ref)
      ensures transfer != null ==> fresh(transfer) && transfer.fee.currency == transfer.amount.currency
      ensures transfer != null ==>
                Some(transfer.Row()) == if success then T.Marked(loaded, T.SUCCESSFUL, None) else Some(loaded)
      ensures actors == old(actors)[id := if transfer == null then Done else if success then SaveSettled(loaded)
                else LoadSource(loaded)]
    {
      loaded, x := T.Initiated(0, T.EXTERNAL, 0, 0, 0, 0, NGN), 0;
      transfer := transfers.FindByProviderReference(ref);
      if transfer == null {
        actors := actors[id := Done];
        return;
      }
      loaded, x := transfer.Row(), transfer.id;
      if T.Terminal(transfer.status) {
        actors := actors[id := Done];
        return null, loaded, x;
      }
      var row := transfer.Row();
      var pc := if success then SaveSettled(row) else LoadSource(row);
      DeliverySteps(Now(), id, loaded, ref, success);
      contended := contended + Contention(Now(), transfer.id, success, pc);
      actors := actors[id := pc];
      if success { var ok := transfer.MarkSuccessful(); }
    }

    method PostDelivered(id: Id, transfer: Transfer)
      requires id in actors && actors[id] == PostSettled(transfer.Row())
                 && transfer.fee.currency == transfer.amount.currency
      modifies this, ledger
      ensures Now() == Step(old(Now()), Advance(id, Ok))
      ensures actors == old(actors)[id := Done]
    {
      PostSettlementLegs(transfer);
      actors := actors[id := Done];
    }

    method SettlementTurn(r: Request, transfer: Transfer, ghost loaded: T.TransferRow, ghost s0: State, past: seq<Turn>)
      returns (saved: bool, longer: seq<Turn>)
      requires r.id in actors && actors[r.id] == SaveSettled(loaded)
                 && T.Marked(loaded, T.SUCCESSFUL, None) == Some(transfer.Row())
      requires Foreign(r) && Underway(s0, r, past, Now())
      modifies this, accounts, transfers, ledger
      ensures Underway(s0, r, longer, Now()) && Adds(past, longer, old(actors[r.id]), r.id)
      ensures r.id in actors && actors[r.id] == if saved then PostSettled(transfer.Row()) else Done
    {
      var found := AwaitTurn(r, s0, past);
      saved := SaveSettlement(r.id, transfer, loaded);
      TookTurn(s0, r, past, found, Now(), Ok);
      longer := past + [Turn(found, Now())];
    }

    method DeliveredTurn(r: Request, transfer: Transfer, ghost s0: State, past: seq<Turn>)
      returns (longer: seq<Turn>)
      requires r.id in actors && actors[r.id] == PostSettled(transfer.Row())
                 && transfer.fee.currency == transfer.amount.currency
      requires Foreign(r) && Underway(s0, r, past, Now())
      modifies this, accounts, transfers, ledger
      ensures Underway(s0, r, longer, Now()) && Adds(past, longer, old(actors[r.id]), r.id)
      ensures r.id in actors && actors[r.id] == Done
    {
      var found := AwaitTurn(r, s0, past);
      PostDelivered(r.id, transfer);
      TookTurn(s0, r, past, found, Now(), Ok);
      longer := past + [Turn(found, Now())];
    }

    /** Success: save the row first, post the settlement after, and only if the save went through. */
    method SettleLate(r: Request, transfer: Transfer, ghost loaded: T.TransferRow, ghost s0: State)
      returns (calls: seq<Turn>)
      requires r.id in actors && actors[r.id] == SaveSettled(loaded)
                 && T.Marked(loaded, T.SUCCESSFUL, None) == Some(transfer.Row())
      requires transfer.fee.currency == transfer.amount.currency && Foreign(r) && Underway(s0, r, [], Now())
      modifies this, accounts, transfers, ledger
      ensures Completes(s0, r, calls, Now())
    {
      var saved;
      saved, calls := SettlementTurn(r, transfer, loaded, s0, []);
      if !saved { return; }
      calls := DeliveredTurn(r, transfer, s0, calls);
    }

    /** The webhook: settle a PROCESSING transfer, or compensate a late failure; terminal rows are ignored. */
    method ConfirmExternal(r: Request, ref: T.ProviderRef, success: bool) returns (ghost x: Id, calls: seq<Turn>)
      requires r.id !in actors && Foreign(r) && RowsOk(Now())
      modifies this, accounts, transfers, ledger
      ensures Completes(Step(old(Now()), Deliver(r.id, x, ref, success)), r, calls, Now())
      ensures (exists y :: y in old(transfers.rows) && old(transfers.rows)[y].providerRef == Some(ref)) ==>
                x in old(transfers.rows) && old(transfers.rows)[x].providerRef == Some(ref)
    {
      var transfer;
      ghost var loaded;
      calls := [];
      transfer, loaded, x := OpenDelivery(r.id, ref, success);
      ghost var s1 := Now();
      if transfer == null { return; }
      if success {
        calls := SettleLate(r, transfer, loaded, s1);
      } else {
        calls := Compensate(r, transfer, s1, []);
      }
    }

    /** A delivery with nobody else about, for a reference that one transfer carries, or none. */
    method ConfirmAlone(r: Request, ref: T.ProviderRef, success: bool)
      requires r.id !in actors && Inv(Now()) && Solo.Alone(r)
      requires forall x, y | x in transfers.rows && y in transfers.rows ::
                 transfers.rows[x].providerRef == transfers.rows[y].providerRef == Some(ref) ==> x == y
      modifies this, accounts, transfers, ledger
      ensures forall x :: x in old(transfers.rows) && old(transfers.rows)[x].providerRef == Some(ref) ==>
                Solo.DeliveryOutcome(old(Now()), Now(), x, success)
      ensures (forall x :: x in old(transfers.rows) ==> old(transfers.rows)[x].providerRef != Some(ref)) ==>
                Solo.SameStored(old(Now()), Now())
    {
      ghost var before := Now();
      ghost var x;
      var calls;
      x, calls := ConfirmExternal(r, ref, success);
      if x in before.transfers && before.transfers[x].providerRef == Some(ref) {
        Solo.DeliveryAlone(before, r, x, ref, success, calls, Now());
      } else {
        Solo.NothingDelivered(before, r, x, ref, success, calls, Now());
      }
    }

    // ---- Staff credits and debits

    /** Reads the account, checks the cap for a credit, and applies the operation to the copy. */
    method OpenAdmin(id: Id, accountId: Id, op: A.AccountOp) returns (account: Account?)
      requires id !in actors && (op.Credit? || op.Debit?)
      modifies this`actors
      ensures Now() == Step(old(Now()), AdminCall(id, accountId, op))
      ensures account != null ==> fresh(account) && account.Valid()
      ensures actors == old(actors)[id := if account == null then Done else SaveAdmin(Write(account.Row(), op))]
    {
      account := accounts.FindById(accountId);
      actors := actors[id := Done];
      if account == null { return; }
      if op.Credit? && !WithinCap(Now(), account.Row(), op.money.minorUnits) { return null; }
      var thrown;
      if op.Credit? { thrown := account.Credit(op.money); } else { thrown := account.Debit(op.money); }
      if thrown.Fail? { return null; }
      actors := actors[id := SaveAdmin(Write(account.Row(), op))];
    }

    method SaveAdminCopy(id: Id, account: Account, op: A.AccountOp) returns (saved: bool)
      requires id in actors && actors[id] == SaveAdmin(Write(account.Row(), op))
      modifies this, accounts
      ensures Now() == Step(old(Now()), Advance(id, Ok))
      ensures actors == old(actors)[id := Done]
      ensures saved ==> account.id in accounts.rows && accounts.rows[account.id] == account.Row()
      ensures saved <==> old(CanSave(Now(), Write(account.Row(), op)))
    {
      saved := accounts.Save(account);
      if saved { log := log + [Commit(account.id, op, Admin)]; }
      actors := actors[id := Done];
    }

    method AdminTurn(r: Request, account: Account, op: A.AccountOp, ghost s0: State, past: seq<Turn>)
      returns (saved: bool, longer: seq<Turn>)
      requires r.id in actors && actors[r.id] == SaveAdmin(Write(account.Row(), op))
      requires Foreign(r) && Underway(s0, r, past, Now())
      modifies this, accounts, transfers, ledger
      ensures Underway(s0, r, longer, Now()) && Adds(past, longer, old(actors[r.id]), r.id)
      ensures r.id in actors && actors[r.id] == Done
      ensures saved <==> CanSave(longer[|longer| - 1].found, Write(account.Row(), op))
    {
      var found := AwaitTurn(r, s0, past);
      saved := SaveAdminCopy(r.id, account, op);
      TookTurn(s0, r, past, found, Now(), Ok);
      longer := past + [Turn(found, Now())];
    }

    /** The credit and the debit command; the amount arrives as decimal text. */
    method CreditOrDebit(r: Request, accountId: Id, credit: bool, amount: string, currency: Currency)
      returns (done: bool, calls: seq<Turn>)
      requires r.id !in actors && Foreign(r)
      modifies this, accounts, transfers, ledger
      ensures FromDecimalString(amount, currency).Failure? ==> !done && Now() == old(Now())
      ensures FromDecimalString(amount, currency).Success? ==>
                var money := FromDecimalString(amount, currency).value;
                var op := if credit then A.Credit(money) else A.Debit(money);
                && Completes(Step(old(Now()), AdminCall(r.id, accountId, op)), r, calls, Now())
                && (done <==> calls != [] && Commits(calls[|calls| - 1].found, r.id))
    {
      done, calls := false, [];
      var money := FromDecimalString(amount, currency);
      if money.Failure? { return; }
      var op := if credit then A.Credit(money.value) else A.Debit(money.value);
      var account := OpenAdmin(r.id, accountId, op);
      ghost var s1 := Now();
      if account == null { return; }
      done, calls := AdminTurn(r, account, op, s1, []);
    }

    /** A staff credit or debit with nobody else about. */
    method AdjustAlone(r: Request, accountId: Id, credit: bool, amount: string, currency: Currency)
      returns (done: bool)
      requires r.id !in actors && Inv(Now()) && Solo.Alone(r)
      modifies this, accounts, transfers, ledger
      ensures FromDecimalString(amount, currency).Failure? ==> !done && Now() == old(Now())
      ensures FromDecimalString(amount, currency).Success? ==>
                var money := FromDecimalString(amount, currency).value;
                && Solo.AdjustOutcome(old(Now()), Now(), accountId, credit, money)
                && (done <==> old(Solo.MayAdjust(Now(), accountId, credit, money)))
    {
      ghost var before := Now();
      var calls;
      done, calls := CreditOrDebit(r, accountId, credit, amount, currency);
      var money := FromDecimalString(amount, currency);
      if money.Success? {
        Solo.AdjustAlone(before, r, accountId, credit, money.value, calls, Now());
      }
    }

    // ---- The internal executor

    method OpenInternal(id: Id, src: Id, dst: Id, user: Id, amount: Money, fee: Money)
      returns (transfer: Transfer, sourceAccount: Account?)
      requires id !in actors && amount.currency == fee.currency
      modifies this
      ensures Now() == Step(old(Now()), StartInternal(id, src, dst, user, amount, fee.minorUnits))
      ensures fresh(transfer) && transfer.amount == amount && transfer.fee == fee && transfer.initiator == user
      ensures SameTerms(transfer.Row(), Drawn(id, src, dst, user, amount, fee))
      ensures sourceAccount != null ==>
                fresh(sourceAccount) && sourceAccount.Valid() && transfer.kind == T.INTERNAL(dst)
                    && transfer.initiator == user
                && transfer.status == T.PENDING
      ensures actors == old(actors)[id := if sourceAccount == null then SaveFailed(transfer.Row())
                                          else LoadDestination(sourceAccount.Row(), transfer.Row())]
    {
      transfer := new Transfer.Initiate(id, T.INTERNAL(dst), user, src, amount, fee);
      sourceAccount := accounts.FindById(src);
      if sourceAccount == null {
        var ok := transfer.MarkFailed();
        actors := actors[id := SaveFailed(transfer.Row())];
      } else {
        actors := actors[id := LoadDestination(sourceAccount.Row(), transfer.Row())];
      }
    }

    /** Reads the destination, then debits, guards and credits the two copies; any throw marks FAILED. */
    method Prepare(id: Id, transfer: Transfer, sourceAccount: Account) returns (destinationAccount: Account?)
      requires id in actors && actors[id] == LoadDestination(sourceAccount.Row(), transfer.Row())
      requires sourceAccount.Valid() && transfer.kind.INTERNAL? && transfer.fee.currency == transfer.amount.currency
      requires transfer.status == T.PENDING
      modifies this, transfer, sourceAccount
      ensures Now() == Step(old(Now()), Advance(id, Ok)) && OnlyActors(old(Now()), Now())
      ensures destinationAccount != null ==> fresh(destinationAccount) && transfer.status == T.PENDING
      ensures actors == old(actors)[id :=
                if destinationAccount == null then SaveFailed(transfer.Row())
                else CommitInternal(Write(sourceAccount.Row(), A.Debit(T.Total(transfer.Row()))),
                                    Write(destinationAccount.Row(), A.Credit(transfer.amount)), transfer.Row())]
    {
      ghost var source, t := sourceAccount.Row(), transfer.Row();
      AdvanceStep(Now(), id, Ok);
      destinationAccount := accounts.FindById(transfer.kind.destination);
      if destinationAccount != null {
        var allowed := WithinCap(Now(), destinationAccount.Row(), transfer.amount.minorUnits);
        var moved := MoveCopies(transfer, sourceAccount, destinationAccount, allowed);
        if !moved { destinationAccount := null; }
      }
      if destinationAccount == null {
        var ok := transfer.MarkFailed();
        actors := actors[id := SaveFailed(transfer.Row())];
      } else {
        actors := actors[id := CommitInternal(Write(sourceAccount.Row(), A.Debit(T.Total(transfer.Row()))),
                                              Write(destinationAccount.Row(), A.Credit(transfer.amount)),
                                                  transfer.Row())];
      }
    }

    /** Ownership, debit, cap and credit, on the in-memory copies. */
    method MoveCopies(transfer: Transfer, sourceAccount: Account, destinationAccount: Account, allowed: bool)
      returns (moved: bool)
      requires sourceAccount != destinationAccount && sourceAccount.Valid() && destinationAccount.Valid()
      requires transfer.fee.currency == transfer.amount.currency
      modifies sourceAccount, destinationAccount
      ensures var debited := A.Apply(old(sourceAccount.Row()), A.Debit(T.Total(transfer.Row())));
              var credited := A.Apply(old(destinationAccount.Row()), A.Credit(transfer.amount));
              && (moved <==>
                    sourceAccount.owner == transfer.initiator && debited.Success? && allowed && credited.Success?)
              && (moved ==> sourceAccount.Row() == debited.value && destinationAccount.Row() == credited.value)
    {
      if sourceAccount.owner != transfer.initiator { return false; }
      var debited := sourceAccount.Debit(transfer.amount.Add(transfer.fee).value);
      if debited.Fail? || !allowed { return false; }
      var credited := destinationAccount.Credit(transfer.amount);
      moved := credited.Pass?;
    }

    /** Both versioned writes inside the transaction, undone together if either matches no row. */
    method SaveBoth(sourceAccount: Account, destinationAccount: Account) returns (saved: bool)
      modifies accounts
      ensures var both := SavedBoth(old(accounts.rows), sourceAccount.Row(), destinationAccount.Row());
              saved == both.Some? && accounts.rows == if saved then both.value else old(accounts.rows)
    {
      var rollback := accounts.rows;
      saved := accounts.Save(sourceAccount);
      if saved {
        saved := accounts.Save(destinationAccount);
        if !saved { accounts.rows := rollback; }
      }
    }

    /** The transaction's writes. On a throw everything is rolled back and the transfer is marked FAILED. */
    method CommitTransaction(id: Id, transfer: Transfer, sourceAccount: Account, destinationAccount: Account,
        reply: Reply)
      returns (committed: bool)
      requires id in actors
      requires actors[id] == CommitInternal(Write(sourceAccount.Row(), A.Debit(T.Total(transfer.Row()))),
                                            Write(destinationAccount.Row(), A.Credit(transfer.amount)), transfer.Row())
      requires transfer.status == T.PENDING && transfer.fee.currency == transfer.amount.currency
      requires Planned(Now(), Write(sourceAccount.Row(), A.Debit(T.Total(transfer.Row()))),
                       Write(destinationAccount.Row(), A.Credit(transfer.amount)), transfer.Row())
      modifies this, accounts, transfers, ledger, transfer
      ensures Now() == Step(old(Now()), Advance(id, reply))
      ensures committed ==> actors == old(actors)[id := Done] && !reply.ThrowsLate?
      ensures !committed ==>
                actors == old(actors)[id := SaveFailed(transfer.Row())]
                || (reply.ThrowsLate? && actors == old(actors)[id := Done] && BothMatch(old(Now()), id))
      ensures committed ==> AllMoved(old(Now()), Now(), transfer.Row(), sourceAccount.Row(), destinationAccount.Row())
      ensures committed ==> MovedAmounts(old(Now()), transfer.Row(), sourceAccount.Row(), destinationAccount.Row())
      ensures !committed ==> Now() == old(Now()).(actors := actors)
    {
      ghost var s, t := Now(), transfer.Row();
      ghost var src, dst := Write(sourceAccount.Row(), A.Debit(T.Total(t))),
          Write(destinationAccount.Row(), A.Credit(transfer.amount));
      var rollback := accounts.rows;
      committed := SaveBoth(sourceAccount, destinationAccount);
      if !committed || reply.Throws? || reply.ThrowsLate? {
        Abort(id, transfer, rollback, committed && reply.ThrowsLate?, reply, s, src, dst, t);
        return false;
      }
      var ok := transfer.MarkSuccessful();
      CommitAmounts(s, src, dst, t, transfer.Row());
      FinishCommit(id, transfer, sourceAccount, destinationAccount, reply, s, src, dst, t);
    }

    /** Rolls the accounts back. Late, the transfer is already marked and the catch block's own mark throws. */
    method Abort(id: Id, transfer: Transfer, rollback: map<Id, A.AccountRow>, late: bool, reply: Reply,
                 ghost s: State, ghost src: Write, ghost dst: Write, ghost t: T.TransferRow)
      requires id in s.actors && s.actors[id] == CommitInternal(src, dst, t) && transfer.Row() == t
                 && t.status == T.PENDING
      requires var saved := SavedBoth(s.accounts, src.copy, dst.copy).Some?;
               (saved ==> reply.Throws? || reply.ThrowsLate?) && (late <==> saved && reply.ThrowsLate?)
      requires rollback == s.accounts && s == Now().(accounts := s.accounts)
      modifies this, accounts, transfer
      ensures Now() == Step(s, Advance(id, reply))
      ensures actors == s.actors[id := if late then Done else SaveFailed(transfer.Row())]
                && Now() == s.(actors := actors)
    {
      accounts.rows := rollback;
      if late {
        CommitThrowsLate(s, id, src, dst, t);
        var ok := transfer.MarkSuccessful();
        ok := transfer.MarkFailed();
        actors := actors[id := Done];
      } else {
        CommitFails(s, id, src, dst, t, reply);
        var ok := transfer.MarkFailed();
        actors := actors[id := SaveFailed(transfer.Row())];
      }
    }

    method FinishCommit(id: Id, transfer: Transfer, sourceAccount: Account, destinationAccount: Account, reply: Reply,
                        ghost s: State, ghost src: Write, ghost dst: Write, ghost t: T.TransferRow)
      requires id in s.actors && s.actors[id] == CommitInternal(src, dst, t) && Planned(s, src, dst, t)
      requires src == Write(sourceAccount.Row(), A.Debit(T.Total(t)))
                 && dst == Write(destinationAccount.Row(), A.Credit(transfer.amount))
      requires transfer.Row() == t.(status := T.SUCCESSFUL, version := t.version + 1)
      requires SavedBoth(s.accounts, src.copy, dst.copy).Some? && !reply.Throws? && !reply.ThrowsLate?
      requires Now() == s.(accounts := SavedBoth(s.accounts, src.copy, dst.copy).value)
      requires transfer.fee.currency == transfer.amount.currency
      modifies this, transfers, ledger
      ensures Now() == Step(s, Advance(id, reply)) && actors == s.actors[id := Done]
      ensures AllMoved(s, Now(), transfer.Row(), sourceAccount.Row(), destinationAccount.Row())
    {
      ghost var after := CommitSucceeds(s, id, src, dst, t, transfer.Row(), reply);
      WriteMoved(id, transfer, sourceAccount, destinationAccount);
      assert Now() == after;
      MovedWhole(s, Now(), transfer.Row(), sourceAccount.Row(), destinationAccount.Row());
    }

    /** The posting and the new row, once both accounts are written. */
    method WriteMoved(id: Id, transfer: Transfer, sourceAccount: Account, destinationAccount: Account)
      requires transfer.fee.currency == transfer.amount.currency
      modifies this, transfers, ledger
      ensures var t, src, dst := transfer.Row(), sourceAccount.Row(), destinationAccount.Row();
              Now() == old(Now()).(transfers := old(transfers.rows)[t.id := t],
                                   journal := old(ledger.entries)
                                       + Rows(old(ledger.entries), InternalLegs(t, src, dst), t.id),
                                   log := old(log) + [Commit(src.id, A.Debit(T.Total(t)), Movement(t.id))]
                                          + [Commit(dst.id, A.Credit(transfer.amount), Movement(t.id))],
                                   actors := old(actors)[id := Done])
    {
      PostMoved(transfer, sourceAccount, destinationAccount);
      transfers.rows := transfers.rows[transfer.id := transfer.Row()];
      log := log + [Commit(sourceAccount.id, A.Debit(T.Total(transfer.Row())), Movement(transfer.id))]
             + [Commit(destinationAccount.id, A.Credit(transfer.amount), Movement(transfer.id))];
      actors := actors[id := Done];
    }

    method PostMoved(transfer: Transfer, sourceAccount: Account, destinationAccount: Account)
      requires transfer.fee.currency == transfer.amount.currency
      modifies ledger
      ensures Balanced(InternalLegs(transfer.Row(), sourceAccount.Row(), destinationAccount.Row()))
      ensures ledger.entries == old(ledger.entries)
              + Rows(old(ledger.entries), InternalLegs(transfer.Row(), sourceAccount.Row(), destinationAccount.Row()),
                  transfer.id)
    {
      var legs := [Leg(Customer(sourceAccount.id), DEBIT, transfer.amount.Add(transfer.fee).value,
          Some(sourceAccount.balance.minorUnits)),
                   Leg(Customer(destinationAccount.id), CREDIT, transfer.amount,
                       Some(destinationAccount.balance.minorUnits))];
      if transfer.fee.minorUnits != 0 {
        legs := legs + [Leg(FeeRevenue(transfer.fee.currency), CREDIT, transfer.fee, None)];
      }
      PostingsBalance(transfer.Row(), 0, sourceAccount.Row(), destinationAccount.Row());
      assert legs == InternalLegs(transfer.Row(), sourceAccount.Row(), destinationAccount.Row());
      var posted := ledger.Post(legs, transfer.id);
    }

    /** The audit row of a failed attempt, written outside the rolled-back transaction. */
    method SaveFailure(id: Id, transfer: Transfer)
      requires id in actors && actors[id] == SaveFailed(transfer.Row()) && PcOk(Now(), id, actors[id])
      modifies this, transfers
      ensures Now() == Step(old(Now()), Advance(id, Ok))
      ensures OnlyFailedRow(old(Now()), Now(), transfer.Row())
    {
      var saved := transfers.Save(transfer);
      actors := actors[id := Done];
    }

    /**
     * The internal executor, with other requests committing between its reads and its writes. Only its last
     * call writes, on the state that it finds; `moved` are the two new account rows when it succeeds.
     */
    method ExecuteInternal(r: Request, src: Id, dst: Id, user: Id, amount: Money, fee: Money)
      returns (ok: bool, transfer: Transfer, ghost moved: (A.AccountRow, A.AccountRow), calls: seq<Turn>)
      requires r.id !in actors && Foreign(r) && Inv(Now()) && amount.currency == fee.currency
      modifies this, accounts, transfers, ledger
      ensures Completes(Step(old(Now()), StartInternal(r.id, src, dst, user, amount, fee.minorUnits)), r, calls, Now())
      ensures calls != [] && Idle(calls[..|calls| - 1])
      ensures SameTerms(transfer.Row(), Drawn(r.id, src, dst, user, amount, fee)) && transfer.initiator == user
      ensures var before := calls[|calls| - 1].found;
              && (ok <==> PcOf(before, r.id).CommitInternal? && !r.plan.commit.ThrowsLate?)
              && (ok ==> AllMoved(before, Now(), transfer.Row(), moved.0, moved.1)
                         && MovedTo(before, src, dst, amount, fee, moved.0, moved.1))
              && (!ok && !PcOf(before, r.id).CommitInternal? ==> OnlyFailedRow(before, Now(), transfer.Row()))
              && (!ok && PcOf(before, r.id).CommitInternal? ==> OnlyActors(before, Now()) && BothMatch(before, r.id))
      ensures src == dst ==> !ok
    {
      ok, moved, calls := false, (NO_ROW, NO_ROW), [];
      StepKeepsInv(Now(), StartInternal(r.id, src, dst, user, amount, fee.minorUnits));
      var sourceAccount;
      transfer, sourceAccount := OpenInternal(r.id, src, dst, user, amount, fee);
      ghost var s1 := Now();
      if sourceAccount != null {
        ok, moved, calls := MoveInTransaction(r, transfer, sourceAccount, s1);
        if ok {
          CommittedMoves(calls[|calls| - 1].found, Now(), r, transfer.Row(), moved, src, dst, user, amount, fee);
        }
        if ok || actors[r.id] == Done { return; }
      }
      HistoryKeepsInv(s1, r, calls);
      calls := RecordFailure(r, transfer, s1, calls);
    }

    /** The same with nobody else about: a transfer moves everything, or leaves accounts and journal as they were. */
    method ExecuteAlone(r: Request, src: Id, dst: Id, user: Id, amount: Money, fee: Money)
      returns (ok: bool, transfer: Transfer)
      requires r.id !in actors && Inv(Now()) && amount.currency == fee.currency && Solo.Alone(r)
      modifies this, accounts, transfers, ledger
      ensures Solo.MoveOutcome(old(Now()), Now(), r, src, dst, user, amount, fee.minorUnits)
      ensures ok <==> old(Solo.MayMove(Now(), src, dst, user, amount, fee.minorUnits))
                      && !r.plan.commit.Throws? && !r.plan.commit.ThrowsLate?
      ensures SameTerms(transfer.Row(), Drawn(r.id, src, dst, user, amount, fee))
      ensures !ok ==> accounts.rows == old(accounts.rows) && ledger.entries == old(ledger.entries)
      ensures !ok && !r.plan.commit.ThrowsLate? ==>
                transfer.status == T.FAILED && transfers.rows == old(transfers.rows)[r.id := transfer.Row()]
      ensures ok ==>
                && src != dst && src in old(accounts.rows) && dst in old(accounts.rows)
                && src in accounts.rows && dst in accounts.rows
                && accounts.rows == old(accounts.rows)[src := accounts.rows[src]][dst := accounts.rows[dst]]
                && accounts.rows[src].balance
                   == old(accounts.rows)[src].balance - (amount.minorUnits + fee.minorUnits)
                && accounts.rows[dst].balance == old(accounts.rows)[dst].balance + amount.minorUnits
                && transfer.status == T.SUCCESSFUL && transfers.rows == old(transfers.rows)[r.id := transfer.Row()]
    {
      ghost var before := Now();
      ghost var moved;
      var calls;
      ok, transfer, moved, calls := ExecuteInternal(r, src, dst, user, amount, fee);
      FoundAlone(Step(before, StartInternal(r.id, src, dst, user, amount, fee.minorUnits)), r, calls);
      Solo.MoveAlone(before, r, src, dst, user, amount, fee.minorUnits, calls, Now());
    }

    method ReadAndPrepare(r: Request, transfer: Transfer, sourceAccount: Account, ghost s0: State)
      returns (destinationAccount: Account?, calls: seq<Turn>)
      requires r.id in actors && actors[r.id] == LoadDestination(sourceAccount.Row(), transfer.Row()) && Inv(Now())
      requires sourceAccount.Valid() && transfer.kind.INTERNAL? && transfer.fee.currency == transfer.amount.currency
      requires transfer.status == T.PENDING && Foreign(r) && Underway(s0, r, [], Now())
      modifies this, accounts, transfers, ledger, transfer, sourceAccount
      ensures Underway(s0, r, calls, Now()) && Idle(calls) && Inv(Now()) && r.id in actors
      ensures destinationAccount != null ==> fresh(destinationAccount) && transfer.status == T.PENDING
      ensures actors[r.id] == if destinationAccount == null then SaveFailed(transfer.Row())
                              else CommitInternal(Write(sourceAccount.Row(), A.Debit(T.Total(transfer.Row()))),
                                                  Write(destinationAccount.Row(), A.Credit(transfer.amount)),
                                                  transfer.Row())
    {
      var found := AwaitTurn(r, s0, []);
      StepKeepsInv(Now(), Advance(r.id, Ok));
      destinationAccount := Prepare(r.id, transfer, sourceAccount);
      TookTurn(s0, r, [], found, Now(), Ok);
      calls := [] + [Turn(found, Now())];
    }

    /** The transaction: read, change and write both accounts, or roll back. */
    method MoveInTransaction(r: Request, transfer: Transfer, sourceAccount: Account, ghost s0: State)
      returns (ok: bool, ghost moved: (A.AccountRow, A.AccountRow), calls: seq<Turn>)
      requires r.id in actors && actors[r.id] == LoadDestination(sourceAccount.Row(), transfer.Row()) && Inv(Now())
      requires sourceAccount.Valid() && transfer.kind.INTERNAL? && transfer.fee.currency == transfer.amount.currency
      requires transfer.status == T.PENDING && Foreign(r) && Underway(s0, r, [], Now())
      modifies this, accounts, transfers, ledger, transfer, sourceAccount
      ensures Underway(s0, r, calls, Now()) && calls != [] && r.id in actors
      ensures Idle(if ok || actors[r.id].Done? then calls[..|calls| - 1] else calls)
      ensures ok ==> CommittedOn(calls[|calls| - 1].found, Now(), r, transfer.Row(), moved.0, moved.1)
      ensures !ok ==> actors[r.id] == SaveFailed(transfer.Row())
                      || (actors[r.id] == Done && ThrewLate(calls[|calls| - 1].found, Now(), r))
    {
      ok, moved := false, (NO_ROW, NO_ROW);
      var destinationAccount;
      destinationAccount, calls := ReadAndPrepare(r, transfer, sourceAccount, s0);
      if destinationAccount == null { return; }
      ok, calls := CommitTurn(r, transfer, sourceAccount, destinationAccount, s0, calls);
      moved := (sourceAccount.Row(), destinationAccount.Row());
    }

    /** What follows a rollback: at some later time the FAILED row is stored. */
    method RecordFailure(r: Request, transfer: Transfer, ghost s0: State, past: seq<Turn>) returns (longer: seq<Turn>)
      requires r.id in actors && actors[r.id] == SaveFailed(transfer.Row()) && Inv(Now())
      requires Foreign(r) && Underway(s0, r, past, Now())
      modifies this, accounts, transfers, ledger
      ensures Completes(s0, r, longer, Now()) && longer != [] && longer[..|longer| - 1] == past
      ensures PcOf(longer[|longer| - 1].found, r.id).SaveFailed?
      ensures OnlyFailedRow(longer[|longer| - 1].found, Now(), transfer.Row())
    {
      var found := AwaitTurn(r, s0, past);
      InvAllows(Now(), r.id);
      SaveFailure(r.id, transfer);
      TookTurn(s0, r, past, found, Now(), Ok);
      longer := past + [Turn(found, Now())];
    }

    /** The writes, at whatever state they find. */
    method CommitTurn(r: Request, transfer: Transfer, sourceAccount: Account, destinationAccount: Account,
                      ghost s0: State, past: seq<Turn>)
      returns (committed: bool, longer: seq<Turn>)
      requires r.id in actors && Inv(Now())
      requires actors[r.id] == CommitInternal(Write(sourceAccount.Row(), A.Debit(T.Total(transfer.Row()))),
                                              Write(destinationAccount.Row(), A.Credit(transfer.amount)),
                                              transfer.Row())
      requires transfer.status == T.PENDING && transfer.fee.currency == transfer.amount.currency
      requires Foreign(r) && Underway(s0, r, past, Now())
      modifies this, accounts, transfers, ledger, transfer
      ensures Underway(s0, r, longer, Now()) && longer != [] && longer[..|longer| - 1] == past
      ensures r.id in actors
      ensures committed ==>
                CommittedOn(longer[|longer| - 1].found, Now(), r, transfer.Row(), sourceAccount.Row(),
                            destinationAccount.Row())
      ensures !committed ==>
                || (actors[r.id] == SaveFailed(transfer.Row()) && OnlyActors(longer[|longer| - 1].found, Now()))
                || (actors[r.id] == Done && ThrewLate(longer[|longer| - 1].found, Now(), r))
    {
      var found := AwaitTurn(r, s0, past);
      committed := CommitPlanned(r, transfer, sourceAccount, destinationAccount);
      TookTurn(s0, r, past, found, Now(), r.plan.commit);
      longer := past + [Turn(found, Now())];
    }

    method CommitPlanned(r: Request, transfer: Transfer, sourceAccount: Account, destinationAccount: Account)
      returns (committed: bool)
      requires r.id in actors && Inv(Now())
      requires actors[r.id] == CommitInternal(Write(sourceAccount.Row(), A.Debit(T.Total(transfer.Row()))),
                                              Write(destinationAccount.Row(), A.Credit(transfer.amount)),
                                              transfer.Row())
      requires transfer.status == T.PENDING && transfer.fee.currency == transfer.amount.currency
      modifies this, accounts, transfers, ledger, transfer
      ensures Now() == Step(old(Now()), Advance(r.id, r.plan.commit)) && r.id in actors
      ensures committed ==>
                CommittedOn(old(Now()), Now(), r, transfer.Row(), sourceAccount.Row(), destinationAccount.Row())
      ensures !committed ==>
                || (actors[r.id] == SaveFailed(transfer.Row()) && OnlyActors(old(Now()), Now()))
                || (actors[r.id] == Done && ThrewLate(old(Now()), Now(), r))
    {
      InvPlans(Now(), r.id);
      committed := CommitTransaction(r.id, transfer, sourceAccount, destinationAccount, r.plan.commit);
    }
  }

  /** The calls after `past` are one more, made at program counter `pc`. */
  predicate Adds(past: seq<Turn>, longer: seq<Turn>, pc: Pc, id: Id) {
    longer != [] && longer[..|longer| - 1] == past && PcOf(longer[|longer| - 1].found, id) == pc
  }

  /** The last call saved the outcome of a payout. */
  predicate EndsInSave(calls: seq<Turn>, id: Id) {
    calls != [] && PcOf(calls[|calls| - 1].found, id).SaveOutcome?
  }

  /** The request saves a staff credit or debit, and the stored row has the version it expects. */
  predicate Commits(s: State, id: Id) {
    id in s.actors && s.actors[id].SaveAdmin? && CanSave(s, s.actors[id].w)
  }

  ghost predicate CommittedOn(before: State, after: State, r: Request, t: T.TransferRow,
                              src: A.AccountRow, dst: A.AccountRow) {
    && AllMoved(before, after, t, src, dst) && MovedAmounts(before, t, src, dst)
    && PcOf(before, r.id).CommitInternal? && !r.plan.commit.ThrowsLate? && PcOf(after, r.id).Done?
  }

  /** Both writes matched, and a throw after `markSuccessful` rolled everything back for good. */
  predicate ThrewLate(before: State, after: State, r: Request) {
    BothMatch(before, r.id) && r.plan.commit.ThrowsLate? && OnlyActors(before, after)
  }

  predicate MovedTo(before: State, src: Id, dst: Id, amount: Money, fee: Money, s: A.AccountRow, d: A.AccountRow) {
    && s.id == src && d.id == dst && src in before.accounts && dst in before.accounts
    && s.balance == before.accounts[src].balance - (amount.minorUnits + fee.minorUnits)
    && d.balance == before.accounts[dst].balance + amount.minorUnits
  }

  lemma CommittedMoves(before: State, after: State, r: Request, t: T.TransferRow, moved: (A.AccountRow, A.AccountRow),
                       src: Id, dst: Id, user: Id, amount: Money, fee: Money)
    requires CommittedOn(before, after, r, t, moved.0, moved.1)
    requires SameTerms(t, Drawn(r.id, src, dst, user, amount, fee))
    ensures MovedTo(before, src, dst, amount, fee, moved.0, moved.1) && src != dst
  {
  }

  /** Alone, the last call finds everything stored as it was when the request started. */
  lemma FoundAlone(s: State, r: Request, calls: seq<Turn>)
    requires History(s, r, calls) && calls != [] && Idle(calls[..|calls| - 1]) && forall k :: r.others(k) == []
    ensures OnlyActors(s, calls[|calls| - 1].found)
  {
    AloneAndIdle(s, r, calls[..|calls| - 1]);
  }

  /**
   * A committed internal transfer: both rows replaced and nothing else, one balanced posting whose
   * running balances are the new rows' balances, one new SUCCESSFUL row.
   */
  ghost predicate AllMoved(before: State, after: State, t: T.TransferRow, src: A.AccountRow, dst: A.AccountRow) {
    && src.id != dst.id
    && after.accounts == before.accounts[src.id := src][dst.id := dst]
    && after.transfers == before.transfers[t.id := t] && t.id !in before.transfers && t.status == T.SUCCESSFUL
    && Balanced(InternalLegs(t, src, dst))
    && after.journal == before.journal + Rows(before.journal, InternalLegs(t, src, dst), t.id)
    && after.journal[|before.journal|].balanceAfter == src.balance
    && after.journal[|before.journal| + 1].balanceAfter == dst.balance
  }

  lemma MovedWhole(before: State, after: State, t: T.TransferRow, src: A.AccountRow, dst: A.AccountRow)
    requires src.id != dst.id && t.id !in before.transfers && t.status == T.SUCCESSFUL
    requires after.accounts == before.accounts[src.id := src][dst.id := dst]
               && after.transfers == before.transfers[t.id := t]
    requires after.journal == before.journal + Rows(before.journal, InternalLegs(t, src, dst), t.id)
    ensures AllMoved(before, after, t, src, dst)
  {
    PostingsBalance(t, 0, src, dst);
  }

  /** The two new balances against the rows the transaction's writes replaced. */
  ghost predicate MovedAmounts(before: State, t: T.TransferRow, src: A.AccountRow, dst: A.AccountRow) {
    && t.kind.INTERNAL? && src.id == t.source && dst.id == t.kind.destination
    && src.id in before.accounts && src.balance == before.accounts[src.id].balance - (t.amount + t.fee)
    && dst.id in before.accounts && dst.balance == before.accounts[dst.id].balance + t.amount
  }

  /** Accounts and journal untouched, exactly one FAILED row added. */
  ghost predicate OnlyFailedRow(before: State, after: State, t: T.TransferRow) {
    && t.id !in before.transfers && t.status == T.FAILED
    && after == before.(transfers := before.transfers[t.id := t], actors := after.actors)
  }

  /** The request is about to commit, and both of its versioned writes match their rows. */
  predicate BothMatch(s: State, id: Id) {
    && id in s.actors && s.actors[id].CommitInternal?
    && SavedBoth(s.accounts, s.actors[id].src.copy, s.actors[id].dst.copy).Some?
  }

  function Drawn(id: Id, src: Id, dst: Id, user: Id, amount: Money, fee: Money): T.TransferRow {
    T.Initiated(id, T.INTERNAL(dst), user, src, amount.minorUnits, fee.minorUnits, amount.currency)
  }

  /** The saga answers its caller only after its row is stored with the provider's outcome. */
  predicate Responded(id: Id, payout: Reply, rows: map<Id, T.TransferRow>) {
    id in rows && (payout.Settled? || payout.Accepted?)
    && rows[id].status == if payout.Settled? then T.SUCCESSFUL else T.PROCESSING
  }
}
