/** The Transfer aggregate as the object whose methods update it, and the repository that stores its rows. */
module TransferEntity {
  import opened Wrappers
  import opened MoneyValue
  import opened Transfers

  class Transfer {
    const id: Id
    const kind: TransferKind
    const initiator: Id
    const source: Id
    const amount: Money
    const fee: Money
    var status: TransferStatus
    var providerRef: Option<ProviderRef>
    var version: nat

    function Row(): TransferRow
      reads this
    {
      TransferRow(id, kind, initiator, source, amount.minorUnits, fee.minorUnits, amount.currency,
                  status, providerRef, version)
    }

    /** `initiateInternal` and `initiateExternal`. */
    constructor Initiate(id: Id, kind: TransferKind, initiator: Id, source: Id, amount: Money, fee: Money)
      ensures Row() == Initiated(id, kind, initiator, source, amount.minorUnits, fee.minorUnits, amount.currency)
      ensures this.amount == amount && this.fee == fee
    {
      this.id, this.kind, this.initiator, this.source := id, kind, initiator, source;
      this.amount, this.fee := amount, fee;
      status, providerRef, version := PENDING, None, 0;
    }

    constructor Reconstitute(row: TransferRow)
      ensures Row() == row && fee.currency == amount.currency
    {
      id, kind, initiator, source := row.id, row.kind, row.initiator, row.source;
      amount, fee := Money(row.amount, row.currency), Money(row.fee, row.currency);
      status, providerRef, version := row.status, row.providerRef, row.version;
    }

    method MarkProcessing(ref: ProviderRef) returns (ok: bool)
      modifies this
      ensures Did(old(Row()), PROCESSING, if ref != "" then Some(ref) else None, Row(), ok)
    {
      if Terminal(status) { return false; }
      status := PROCESSING;
      if ref != "" {
        providerRef := Some(ref);
      }
      version := version + 1;
      ok := true;
    }

    method MarkSuccessful() returns (ok: bool)
      modifies this
      ensures Did(old(Row()), SUCCESSFUL, None, Row(), ok)
    {
      if Terminal(status) { return false; }
      status := SUCCESSFUL;
      version := version + 1;
      ok := true;
    }

    method MarkFailed() returns (ok: bool)
      modifies this
      ensures Did(old(Row()), FAILED, None, Row(), ok)
    {
      if Terminal(status) { return false; }
      status := FAILED;
      version := version + 1;
      ok := true;
    }

    method MarkReversed() returns (ok: bool)
      modifies this
      ensures Did(old(Row()), REVERSED, None, Row(), ok)
    {
      if Terminal(status) { return false; }
      status := REVERSED;
      version := version + 1;
      ok := true;
    }
  }

  class TransferRepository {
    var rows: map<Id, TransferRow>

    constructor ()
      ensures rows == map[]
    {
      rows := map[];
    }

    /** `saved` is false when the source throws CONCURRENT_MODIFICATION or the insert collides. */
    method Save(transfer: Transfer) returns (saved: bool)
      modifies this
      ensures saved == Saved(old(rows), transfer.Row()).Some?
      ensures rows == if saved then Saved(old(rows), transfer.Row()).value else old(rows)
    {
      var data := transfer.Row();
      if data.version == 0 {
        if data.id in rows { return false; }
        rows := rows[data.id := data];
        return true;
      }
      var count := 0;
      if data.id in rows && rows[data.id].version == data.version - 1 {
        rows := rows[data.id := data];
        count := 1;
      }
      if count == 0 {
        // A zero count is also what a never-persisted transfer looks like.
        if data.id !in rows {
          rows := rows[data.id := data];
          return true;
        }
        return false;
      }
      saved := true;
    }

    /** `findFirst` on the provider reference: some row that carries it, if any does. */
    method FindByProviderReference(ref: ProviderRef) returns (transfer: Transfer?)
      ensures transfer == null <==> forall x :: x in rows ==> rows[x].providerRef != Some(ref)
      ensures transfer != null ==> fresh(transfer) && transfer.fee.currency == transfer.amount.currency
      ensures transfer != null ==>
                exists x :: x in rows && rows[x].providerRef == Some(ref) && transfer.Row() == rows[x]
    {
      if x :| x in rows && rows[x].providerRef == Some(ref) {
        transfer := new Transfer.Reconstitute(rows[x]);
      } else {
        transfer := null;
      }
    }
  }
}
