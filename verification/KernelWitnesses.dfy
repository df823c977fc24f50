/** Concrete runs that show why the theorems need their conditions. */
module KernelWitnesses {
  import opened Wrappers
  import opened MoneyValue
  import opened KycTiers
  import A = Accounts
  import T = Transfers
  import opened L = Ledger
  import opened Kernel
  import opened KernelRuns
  import opened KernelTheorems
  import opened KernelCap

  /** One customer, user 7, with account 0. */
  function Row(balance: nat, version: nat): A.AccountRow {
    A.AccountRow(0, 7, NGN, balance, A.ACTIVE, version)
  }

  function Bank(row: A.AccountRow, rows: map<Id, T.TransferRow>, journal: seq<Entry>, actors: map<Id, Pc>,
                log: seq<Commit>, contended: set<Id>): State {
    State(map[0 := row], rows, journal, map[], actors, log, [], {}, contended)
  }

  const HOLD := T.TransferRow(1, T.EXTERNAL, 7, 0, 400, 0, NGN, T.PENDING, None, 0)
  const SENT := HOLD.(status := T.PROCESSING, providerRef := Some("p"), version := 1)
  const DEBIT400 := A.Debit(Money(400, NGN))
  const CREDIT400 := A.Credit(Money(400, NGN))

  lemma Then(s: State, events: seq<Event>, before: State, e: Event, after: State) returns (longer: seq<Event>)
    requires Run(s, events) == before && Step(before, e) == after
    ensures Run(s, longer) == after && longer == events + [e]
  {
    longer := events + [e];
    assert longer[..|events|] == events;
  }

  lemma Loads(row: A.AccountRow, rows: map<Id, T.TransferRow>, j: seq<Entry>, actors: map<Id, Pc>, log: seq<Commit>,
      c: set<Id>, a: Id)
    requires a in actors && actors[a] == LoadSource(SENT) && row == Row(row.balance, row.version)
    ensures Step(Bank(row, rows, j, actors, log, c), Advance(a, Ok))
            == Bank(row, rows, j, actors[a := SaveRefund(Write(Row(row.balance + 400, row.version + 1), CREDIT400),
                SENT)], log, c)
  {
  }

  lemma Refunds1(row: A.AccountRow, rows: map<Id, T.TransferRow>, j: seq<Entry>, actors: map<Id, Pc>, log: seq<Commit>,
      c: set<Id>, a: Id)
    requires row == Row(row.balance, row.version)
    requires a in actors && actors[a] == SaveRefund(Write(Row(row.balance + 400, row.version + 1), CREDIT400), SENT)
    ensures Step(Bank(row, rows, j, actors, log, c), Advance(a, Ok))
            == Bank(Row(row.balance + 400, row.version + 1), rows, j, actors[a := PostRefund(row.balance + 400, SENT)],
                    log + [Commit(0, CREDIT400, Refund(1))], c)
  {
  }

  lemma Holds(balance: nat)
    requires balance >= 400
    ensures Step(Bank(Row(balance, 1), map[], [], map[], [], {}), StartExternal(1, 0, 7, 400, 0))
            == Bank(Row(balance, 1), map[], [], map[1 := SaveHold(Write(Row(balance - 400, 2), DEBIT400), HOLD)], [],
                {})
    ensures Step(Bank(Row(balance, 1), map[], [], map[1 := SaveHold(Write(Row(balance - 400, 2), DEBIT400), HOLD)], [],
              {}), Advance(1, Ok))
            == Bank(Row(balance - 400, 2), map[], [], map[1 := Record(balance - 400, HOLD)],
                [Commit(0, DEBIT400, Movement(1))], {})
  {
  }

  lemma Records(row: A.AccountRow, log: seq<Commit>)
    ensures Step(Bank(row, map[], [], map[1 := Record(row.balance, HOLD)], log, {}), Advance(1, Ok))
            == Bank(row, map[1 := HOLD], [], map[1 := PostHold(row.balance, HOLD)], log, {})
    ensures Step(Bank(row, map[1 := HOLD], [], map[1 := PostHold(row.balance, HOLD)], log, {}), Advance(1, Ok))
            == Bank(row, map[1 := HOLD], [] + Rows([], HoldLegs(HOLD, row.balance), 1), map[1 := Pay(HOLD)], log, {})
  {
  }

  lemma Accepts(row: A.AccountRow, j: seq<Entry>, log: seq<Commit>)
    ensures Step(Bank(row, map[1 := HOLD], j, map[1 := Pay(HOLD)], log, {}), Advance(1, Accepted("p")))
            == Bank(row, map[1 := HOLD], j, map[1 := SaveOutcome(SENT)], log, {})
    ensures Step(Bank(row, map[1 := HOLD], j, map[1 := SaveOutcome(SENT)], log, {}), Advance(1, Ok))
            == Bank(row, map[1 := SENT], j, map[1 := Done], log, {})
  {
  }

  /** A payout of 400 from account 0, accepted by the provider and stored as PROCESSING. */
  lemma PayoutAccepted(balance: nat) returns (events: seq<Event>, j: seq<Entry>)
    requires balance >= 400
    ensures forall e :: e in events ==> By(e, 1)
    ensures Run(Bank(Row(balance, 1), map[], [], map[], [], {}), events)
            == Bank(Row(balance - 400, 2), map[1 := SENT], j, map[1 := Done], [Commit(0, DEBIT400, Movement(1))], {})
  {
    var s0 := Bank(Row(balance, 1), map[], [], map[], [], {});
    var row, log := Row(balance - 400, 2), [Commit(0, DEBIT400, Movement(1))];
    j := [] + Rows([], HoldLegs(HOLD, balance - 400), 1);
    Holds(balance);
    events := Then(s0, [], s0, StartExternal(1, 0, 7, 400, 0), Step(s0, StartExternal(1, 0, 7, 400, 0)));
    events := Then(s0, events, Run(s0, events), Advance(1, Ok),
        Bank(row, map[], [], map[1 := Record(balance - 400, HOLD)], log, {}));
    Records(row, log);
    events := Then(s0, events, Run(s0, events), Advance(1, Ok),
        Bank(row, map[1 := HOLD], [], map[1 := PostHold(balance - 400, HOLD)], log, {}));
    events := Then(s0, events, Run(s0, events), Advance(1, Ok),
        Bank(row, map[1 := HOLD], j, map[1 := Pay(HOLD)], log, {}));
    Accepts(row, j, log);
    events := Then(s0, events, Run(s0, events), Advance(1, Accepted("p")),
        Bank(row, map[1 := HOLD], j, map[1 := SaveOutcome(SENT)], log, {}));
    events := Then(s0, events, Run(s0, events), Advance(1, Ok), Bank(row, map[1 := SENT], j, map[1 := Done], log, {}));
  }

  lemma DeliversFailure(row: A.AccountRow, j: seq<Entry>, actors: map<Id, Pc>, log: seq<Commit>, c: set<Id>, a: Id)
    requires a !in actors
    ensures Step(Bank(row, map[1 := SENT], j, actors, log, c), Deliver(a, 1, "p", false))
            == Bank(row, map[1 := SENT], j, actors[a := LoadSource(SENT)], log,
                    c + if exists b :: b in actors && OpenOn(actors[b], 1) then {1} else {})
  {
  }

  lemma BothDelivered(s0: State, events: seq<Event>, j: seq<Entry>, log: seq<Commit>) returns (longer: seq<Event>)
    requires Run(s0, events) == Bank(Row(600, 2), map[1 := SENT], j, map[1 := Done], log, {})
    ensures Run(s0, longer)
            == Bank(Row(600, 2), map[1 := SENT], j, map[1 := Done, 2 := LoadSource(SENT), 3 := LoadSource(SENT)], log,
                {1})
  {
    var one := map[1 := Done, 2 := LoadSource(SENT)];
    DeliversFailure(Row(600, 2), j, map[1 := Done], log, {}, 2);
    longer := Then(s0, events, Run(s0, events), Deliver(2, 1, "p", false),
        Bank(Row(600, 2), map[1 := SENT], j, one, log, {}));
    DeliversFailure(Row(600, 2), j, one, log, {}, 3);
    assert OpenOn(one[2], 1);
    longer := Then(s0, longer, Run(s0, longer), Deliver(3, 1, "p", false),
                   Bank(Row(600, 2), map[1 := SENT], j, one[3 := LoadSource(SENT)], log, {1}));
  }

  /** Two failure deliveries that both load the row before either saves it each credit the source. */
  lemma OverlappingFailuresRefundTwice() returns (s0: State, events: seq<Event>)
    ensures Initial(s0) && s0.accounts == map[0 := Row(1000, 1)]
    ensures var s := Run(s0, events);
            s.contended == {1} && s.faulted == {} && Refunds(s.log, 1) == 2 && s.accounts == map[0 := Row(1400, 4)]
  {
    s0 := Bank(Row(1000, 1), map[], [], map[], [], {});
    var j;
    events, j := PayoutAccepted(1000);
    var debit, credit := Commit(0, DEBIT400, Movement(1)), Commit(0, CREDIT400, Refund(1));
    events := BothDelivered(s0, events, j, [debit]);
    var actors := map[1 := Done, 2 := LoadSource(SENT), 3 := LoadSource(SENT)];
    var log;
    events, log := RefundsOnce(s0, events, Row(600, 2), j, actors, [debit], {1}, 2);
    events, log := RefundsOnce(s0, events, Row(1000, 3), j, actors[2 := PostRefund(1000, SENT)], log, {1}, 3);
    assert log == [debit, credit, credit];
    RefundsOfThree(debit, credit);
  }

  /**
   * A failure delivery that dies after its credit committed, and the same failure delivered once more: the
   * source is credited twice although the second delivery begins after the last thing the first one did.
   */
  lemma RedeliveryAfterCrashRefundsTwice() returns (s0: State, first: seq<Event>, second: seq<Event>)
    ensures Initial(s0) && s0.accounts == map[0 := Row(1000, 1)]
    ensures NoneBy(first, 3) && NoneBy(second, 1) && NoneBy(second, 2)
    ensures 2 in Run(s0, first).actors && Run(s0, first).actors[2].PostRefund?
    ensures var s := Run(s0, first + second);
            s.faulted == {} && Refunds(s.log, 1) == 2 && s.accounts == map[0 := Row(1400, 4)]
  {
    s0 := Bank(Row(1000, 1), map[], [], map[], [], {});
    var debit, credit := Commit(0, DEBIT400, Movement(1)), Commit(0, CREDIT400, Refund(1));
    var j, dead;
    first, j, dead := RefundDies();
    second := RefundsAgain(Run(s0, first), j, dead, [debit, credit]);
    RunConcat(s0, first, second);
    assert [debit, credit] + [credit] == [debit, credit, credit];
    RefundsOfThree(debit, credit);
  }

  lemma RefundDies() returns (events: seq<Event>, j: seq<Entry>, dead: map<Id, Pc>)
    ensures NoneBy(events, 3) && dead == map[1 := Done, 2 := PostRefund(1000, SENT)]
    ensures Run(Bank(Row(1000, 1), map[], [], map[], [], {}), events)
            == Bank(Row(1000, 3), map[1 := SENT], j, dead,
                    [Commit(0, DEBIT400, Movement(1)), Commit(0, CREDIT400, Refund(1))], {})
  {
    var s0 := Bank(Row(1000, 1), map[], [], map[], [], {});
    var log := [Commit(0, DEBIT400, Movement(1))];
    events, j := PayoutAccepted(1000);
    var loading := map[1 := Done, 2 := LoadSource(SENT)];
    DeliversFailure(Row(600, 2), j, map[1 := Done], log, {}, 2);
    events := Then(s0, events, Run(s0, events), Deliver(2, 1, "p", false),
                   Bank(Row(600, 2), map[1 := SENT], j, loading, log, {}));
    events, log := RefundsOnce(s0, events, Row(600, 2), j, loading, log, {}, 2);
    dead := map[1 := Done, 2 := PostRefund(1000, SENT)];
    assert loading[2 := PostRefund(1000, SENT)] == dead;
  }

  lemma RefundsAgain(s1: State, j: seq<Entry>, dead: map<Id, Pc>, log: seq<Commit>) returns (second: seq<Event>)
    requires s1 == Bank(Row(1000, 3), map[1 := SENT], j, dead, log, {})
    requires dead == map[1 := Done, 2 := PostRefund(1000, SENT)]
    ensures second == [Deliver(3, 1, "p", false), Advance(3, Ok), Advance(3, Ok)]
    ensures var s := Run(s1, second);
            s.faulted == {} && s.log == log + [Commit(0, CREDIT400, Refund(1))] && s.accounts == map[0 := Row(1400, 4)]
  {
    DeliversFailure(Row(1000, 3), j, dead, log, {}, 3);
    assert OpenOn(dead[2], 1);
    second := Then(s1, [], s1, Deliver(3, 1, "p", false),
                   Bank(Row(1000, 3), map[1 := SENT], j, dead[3 := LoadSource(SENT)], log, {1}));
    var grown;
    second, grown := RefundsOnce(s1, second, Row(1000, 3), j, dead[3 := LoadSource(SENT)], log, {1}, 3);
  }

  /** One refunding delivery loads the account and commits its credit. */
  lemma RefundsOnce(s0: State, events: seq<Event>, row: A.AccountRow, j: seq<Entry>, actors: map<Id, Pc>,
      log: seq<Commit>, c: set<Id>, a: Id)
    returns (longer: seq<Event>, log': seq<Commit>)
    ensures longer == events + [Advance(a, Ok), Advance(a, Ok)]
    requires Run(s0, events) == Bank(row, map[1 := SENT], j, actors, log, c)
    requires a in actors && actors[a] == LoadSource(SENT) && row == Row(row.balance, row.version)
    ensures log' == log + [Commit(0, CREDIT400, Refund(1))]
    ensures Run(s0, longer) == Bank(Row(row.balance + 400, row.version + 1), map[1 := SENT], j,
              actors[a := PostRefund(row.balance + 400, SENT)], log', c)
  {
    var saving := actors[a := SaveRefund(Write(Row(row.balance + 400, row.version + 1), CREDIT400), SENT)];
    log' := log + [Commit(0, CREDIT400, Refund(1))];
    Loads(row, map[1 := SENT], j, actors, log, c, a);
    longer := Then(s0, events, Run(s0, events), Advance(a, Ok), Bank(row, map[1 := SENT], j, saving, log, c));
    Refunds1(row, map[1 := SENT], j, saving, log, c, a);
    assert saving[a := PostRefund(row.balance + 400, SENT)] == actors[a := PostRefund(row.balance + 400, SENT)];
    longer := Then(s0, longer, Run(s0, longer), Advance(a, Ok),
                   Bank(Row(row.balance + 400, row.version + 1), map[1 := SENT], j,
                       actors[a := PostRefund(row.balance + 400, SENT)], log', c));
  }

  lemma RefundsOfThree(debit: Commit, credit: Commit)
    requires debit.origin == Movement(1) && credit.origin == Refund(1)
    ensures Refunds([debit, credit, credit], 1) == 2
  {
    assert [debit, credit, credit][..2] == [debit, credit];
    assert [debit, credit][..1] == [debit];
    assert [debit][..0] == [];
    assert Refunds([debit], 1) == 0;
  }

  lemma Refills(j: seq<Entry>, log: seq<Commit>)
    ensures Step(Bank(Row(29999600, 2), map[1 := SENT], j, map[1 := Done], log, {}), AdminCall(2, 0, CREDIT400))
            == Bank(Row(29999600, 2), map[1 := SENT], j,
                map[1 := Done, 2 := SaveAdmin(Write(Row(30000000, 3), CREDIT400))], log, {})
    ensures Step(Bank(Row(29999600, 2), map[1 := SENT], j,
              map[1 := Done, 2 := SaveAdmin(Write(Row(30000000, 3), CREDIT400))], log, {}), Advance(2, Ok))
            == Bank(Row(30000000, 3), map[1 := SENT], j, map[1 := Done, 2 := Done], log
                + [Commit(0, CREDIT400, Admin)], {})
  {
  }

  /** A late refund can lift a balance over the tier cap when other credits refilled it meanwhile. */
  lemma RefundCanExceedCap() returns (s0: State, events: seq<Event>)
    ensures Initial(s0) && AllCapped(s0)
    ensures var s := Run(s0, events);
            && s.contended == {} && s.faulted == {} && s.accounts == map[0 := Row(30000400, 4)]
            && !Within(30000400, DefaultLimits(TierOf(s, 7)).maxBalance)
  {
    s0 := Bank(Row(30000000, 1), map[], [], map[], [], {});
    assert Compensation([], 0) == 0;
    var j;
    events, j := PayoutAccepted(30000000);
    var log := [Commit(0, DEBIT400, Movement(1))];
    var done := map[1 := Done, 2 := Done];
    Refills(j, log);
    events := Then(s0, events, Run(s0, events), AdminCall(2, 0, CREDIT400),
                   Bank(Row(29999600, 2), map[1 := SENT], j,
                       map[1 := Done, 2 := SaveAdmin(Write(Row(30000000, 3), CREDIT400))], log, {}));
    log := log + [Commit(0, CREDIT400, Admin)];
    events := Then(s0, events, Run(s0, events), Advance(2, Ok),
        Bank(Row(30000000, 3), map[1 := SENT], j, done, log, {}));
    DeliversFailure(Row(30000000, 3), j, done, log, {}, 3);
    events := Then(s0, events, Run(s0, events), Deliver(3, 1, "p", false),
                   Bank(Row(30000000, 3), map[1 := SENT], j, done[3 := LoadSource(SENT)], log, {}));
    events, log := RefundsOnce(s0, events, Row(30000000, 3), j, done[3 := LoadSource(SENT)], log, {}, 3);
  }
}
