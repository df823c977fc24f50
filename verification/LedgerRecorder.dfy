/** The recorder that checks a posting and appends its rows to the journal. */
module LedgerRecording {
  import opened Wrappers
  import opened MoneyValue
  import opened Ledger

  class LedgerRecorder {
    var entries: seq<Entry>

    constructor ()
      ensures entries == []
    {
      entries := [];
    }

    /** Posts the legs in one journal, or throws (`posted` false) and writes nothing. */
    method Post(legs: seq<Leg>, reference: Id) returns (posted: bool)
      modifies this
      ensures posted <==> Balanced(legs)
      ensures entries == if posted then old(entries) + Rows(old(entries), legs, reference) else old(entries)
    {
      posted := AssertBalanced(legs);
      if !posted { return; }
      var rows := [];
      for i := 0 to |legs|
        invariant entries == old(entries)
        invariant rows == Rows(entries, legs[..i], reference)
      {
        var leg := legs[i];
        assert legs[..i + 1][..i] == legs[..i];
        var balanceAfter: int;
        if leg.balanceAfter.Some? {
          balanceAfter := leg.balanceAfter.value;
        } else {
          balanceAfter := ComputeRunningBalance(leg);
        }
        rows := rows + [Entry(leg.account, leg.direction, leg.amount, balanceAfter, reference)];
      }
      assert legs[..|legs|] == legs;
      entries := entries + rows;
    }

    method ComputeRunningBalance(leg: Leg) returns (balance: int)
      ensures balance == Latest(entries, leg.account) + Signed(leg.direction, leg.amount)
    {
      assert entries[..|entries|] == entries;
      var i := |entries|;
      var previous := 0;
      while i > 0
        invariant 0 <= i <= |entries| && previous == 0
        invariant Latest(entries, leg.account) == Latest(entries[..i], leg.account)
      {
        assert entries[..i][..i - 1] == entries[..i - 1];
        if entries[i - 1].account == leg.account {
          previous := entries[i - 1].balanceAfter;
          break;
        }
        i := i - 1;
      }
      var delta: int := leg.amount.minorUnits;
      if leg.direction == DEBIT {
        delta := -delta;
      }
      balance := previous + delta;
    }

    method AssertBalanced(legs: seq<Leg>) returns (balanced: bool)
      ensures balanced <==> Balanced(legs)
    {
      var netByCurrency: map<Currency, int> := map[];
      for i := 0 to |legs|
        invariant forall c :: (if c in netByCurrency then netByCurrency[c] else 0) == -NetLegs(legs[..i], c)
      {
        var leg := legs[i];
        assert legs[..i + 1][..i] == legs[..i];
        var currency := leg.amount.currency;
        var signed: int := leg.amount.minorUnits;
        if leg.direction == CREDIT {
          signed := -signed;
        }
        netByCurrency := netByCurrency[currency := (if currency in netByCurrency then netByCurrency[currency] else 0)
            + signed];
      }
      assert legs[..|legs|] == legs;
      var pending := netByCurrency.Keys;
      while pending != {}
        invariant forall c :: c in netByCurrency && c !in pending ==> netByCurrency[c] == 0
        invariant pending <= netByCurrency.Keys
        decreases pending
      {
        var c :| c in pending;
        if netByCurrency[c] != 0 {
          assert NetLegs(legs, c) != 0;
          return false;
        }
        pending := pending - {c};
      }
      balanced := true;
    }
  }
}
