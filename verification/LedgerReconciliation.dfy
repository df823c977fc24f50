/** What the journal adds up to after any sequence of serialised postings. */
module LedgerReconciliation {
  import opened Wrappers
  import opened MoneyValue
  import opened Ledger

  function NetJournal(journal: seq<Entry>, c: Currency): int {
    if journal == [] then 0
    else
      var e := journal[|journal| - 1];
      NetJournal(journal[..|journal| - 1], c) + if e.amount.currency == c then Signed(e.direction, e.amount) else 0
  }

  /** Net of every entry of one ledger account. */
  function NetAccount(journal: seq<Entry>, account: LedgerAccount): int {
    if journal == [] then 0
    else
      var e := journal[|journal| - 1];
      NetAccount(journal[..|journal| - 1], account) + if e.account == account then Signed(e.direction, e.amount) else 0
  }

  datatype Posting = Posting(legs: seq<Leg>, reference: Id)

  /** The journal after the postings, in order; an unbalanced one throws and leaves it as it was. */
  ghost function Journal(postings: seq<Posting>): seq<Entry> {
    if postings == [] then []
    else
      var before := Journal(postings[..|postings| - 1]);
      var p := postings[|postings| - 1];
      if Balanced(p.legs) then before + Rows(before, p.legs, p.reference) else before
  }

  lemma {:induction false} NetJournalAppend(journal: seq<Entry>, base: seq<Entry>, legs: seq<Leg>, reference: Id,
      c: Currency)
    ensures NetJournal(journal + Rows(base, legs, reference), c) == NetJournal(journal, c) + NetLegs(legs, c)
  {
    if legs == [] {
      assert journal + Rows(base, legs, reference) == journal;
    } else {
      var grown := journal + Rows(base, legs, reference);
      assert grown[..|grown| - 1] == journal + Rows(base, legs[..|legs| - 1], reference);
      NetJournalAppend(journal, base, legs[..|legs| - 1], reference, c);
    }
  }

  /** Debits equal credits in every currency over the whole journal. */
  lemma {:induction false} DebitsEqualCredits(postings: seq<Posting>, c: Currency)
    ensures NetJournal(Journal(postings), c) == 0
  {
    if postings != [] {
      var before := postings[..|postings| - 1];
      var p := postings[|postings| - 1];
      DebitsEqualCredits(before, c);
      NetJournalAppend(Journal(before), Journal(before), p.legs, p.reference, c);
    }
  }

  /** What the legs of one posting add to an account, and what the last of them adds. */
  function LegsOn(legs: seq<Leg>, account: LedgerAccount): int {
    if legs == [] then 0
    else
      var leg := legs[|legs| - 1];
      LegsOn(legs[..|legs| - 1], account) + if leg.account == account then Signed(leg.direction, leg.amount) else 0
  }

  function LastLegOn(legs: seq<Leg>, account: LedgerAccount): int {
    if legs == [] then 0
    else if legs[|legs| - 1].account == account then Signed(legs[|legs| - 1].direction, legs[|legs| - 1].amount)
    else LastLegOn(legs[..|legs| - 1], account)
  }

  /** System-account legs carry no balance of their own; the recorder computes it. */
  predicate Computed(legs: seq<Leg>, account: LedgerAccount) {
    forall i :: 0 <= i < |legs| && legs[i].account == account ==> legs[i].balanceAfter == None
  }

  lemma {:induction false} AppendOnAccount(journal: seq<Entry>, base: seq<Entry>, legs: seq<Leg>, reference: Id,
      account: LedgerAccount)
    requires Computed(legs, account)
    ensures NetAccount(journal + Rows(base, legs, reference), account)
              == NetAccount(journal, account) + LegsOn(legs, account)
    ensures (exists i :: 0 <= i < |legs| && legs[i].account == account) ==>
              Latest(journal + Rows(base, legs, reference), account) == Latest(base, account) + LastLegOn(legs, account)
    ensures !(exists i :: 0 <= i < |legs| && legs[i].account == account) ==>
              Latest(journal + Rows(base, legs, reference), account) == Latest(journal, account)
              && LegsOn(legs, account) == LastLegOn(legs, account) == 0
  {
    if legs == [] {
      assert journal + Rows(base, legs, reference) == journal;
    } else {
      var grown := journal + Rows(base, legs, reference);
      var init := legs[..|legs| - 1];
      assert grown[..|grown| - 1] == journal + Rows(base, init, reference);
      AppendOnAccount(journal, base, init, reference, account);
      assert legs[|legs| - 1].account != account && (exists i :: 0 <= i < |legs| && legs[i].account == account) ==>
          exists i :: 0 <= i < |init| && init[i].account == account by {
        if legs[|legs| - 1].account != account && exists i :: 0 <= i < |legs| && legs[i].account == account {
          var i :| 0 <= i < |legs| && legs[i].account == account;
          assert init[i].account == account;
        }
      }
    }
  }

  /**
   * Exactly when a posting keeps a system account's running balance equal to the net of its entries:
   * the legs on that account before the last one must cancel out.
   */
  lemma RunningBalanceExactIff(journal: seq<Entry>, legs: seq<Leg>, reference: Id, account: LedgerAccount)
    requires Latest(journal, account) == NetAccount(journal, account)
    requires Computed(legs, account)
    ensures var after := journal + Rows(journal, legs, reference);
            Latest(after, account) == NetAccount(after, account)
            <==> LegsOn(legs, account) == LastLegOn(legs, account)
  {
    AppendOnAccount(journal, journal, legs, reference, account);
  }

  /** At most one leg of the posting is on the account. */
  predicate TouchesOnce(legs: seq<Leg>, account: LedgerAccount) {
    forall i, j :: 0 <= i < j < |legs| ==> !(legs[i].account == account && legs[j].account == account)
  }

  lemma {:induction false} NoLegNothing(legs: seq<Leg>, account: LedgerAccount)
    requires forall i :: 0 <= i < |legs| ==> legs[i].account != account
    ensures LegsOn(legs, account) == 0
  {
    if legs != [] { NoLegNothing(legs[..|legs| - 1], account); }
  }

  lemma {:induction false} TouchedOnceIsLast(legs: seq<Leg>, account: LedgerAccount)
    requires TouchesOnce(legs, account)
    ensures LegsOn(legs, account) == LastLegOn(legs, account)
  {
    if legs != [] {
      if legs[|legs| - 1].account == account {
        NoLegNothing(legs[..|legs| - 1], account);
      } else {
        TouchedOnceIsLast(legs[..|legs| - 1], account);
      }
    }
  }

  /** Serialised postings that touch the account at most once each keep its running balance exact. */
  lemma {:induction false} RunningBalanceReconciles(postings: seq<Posting>, account: LedgerAccount)
    requires forall p :: p in postings ==> Computed(p.legs, account) && TouchesOnce(p.legs, account)
    ensures Latest(Journal(postings), account) == NetAccount(Journal(postings), account)
  {
    if postings != [] {
      var before := postings[..|postings| - 1];
      var p := postings[|postings| - 1];
      RunningBalanceReconciles(before, account);
      TouchedOnceIsLast(p.legs, account);
      RunningBalanceExactIff(Journal(before), p.legs, p.reference, account);
    }
  }

  /**
   * Two postings that both read the running balances before either appends its rows: the sums stay
   * right, but the account's running balance does exactly when the first adds nothing to it.
   */
  lemma OverlappingPostingsIff(journal: seq<Entry>, first: Posting, second: Posting, account: LedgerAccount)
    requires Latest(journal, account) == NetAccount(journal, account)
    requires Computed(first.legs, account) && Computed(second.legs, account) && TouchesOnce(second.legs, account)
    requires exists i :: 0 <= i < |second.legs| && second.legs[i].account == account
    ensures var after := journal + Rows(journal, first.legs, first.reference)
              + Rows(journal, second.legs, second.reference);
            NetAccount(after, account)
                == NetAccount(journal, account) + LegsOn(first.legs, account) + LegsOn(second.legs, account)
            && (Latest(after, account) == NetAccount(after, account) <==> LegsOn(first.legs, account) == 0)
  {
    var between := journal + Rows(journal, first.legs, first.reference);
    AppendOnAccount(journal, journal, first.legs, first.reference, account);
    AppendOnAccount(between, journal, second.legs, second.reference, account);
    TouchedOnceIsLast(second.legs, account);
  }
}
