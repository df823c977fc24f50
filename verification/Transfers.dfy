/** Transfer rows: what each mark method and the versioned save mean. */
module Transfers {
  import opened Wrappers
  import opened MoneyValue

  datatype TransferStatus = PENDING | PROCESSING | SUCCESSFUL | FAILED | REVERSED | CANCELLED

  datatype TransferKind = INTERNAL(destination: Id) | EXTERNAL

  type ProviderRef = string

  datatype TransferRow = TransferRow(id: Id, kind: TransferKind, initiator: Id, source: Id,
                                     amount: nat, fee: nat, currency: Currency,
                                     status: TransferStatus, providerRef: Option<ProviderRef>, version: nat)

  predicate Terminal(status: TransferStatus) {
    status == SUCCESSFUL || status == FAILED || status == REVERSED || status == CANCELLED
  }

  /** PENDING or PROCESSING: the payout's outcome is not recorded yet. */
  predicate InFlight(status: TransferStatus) {
    status == PENDING || status == PROCESSING
  }

  function Initiated(id: Id, kind: TransferKind, initiator: Id, source: Id,
                     amount: nat, fee: nat, currency: Currency): TransferRow {
    TransferRow(id, kind, initiator, source, amount, fee, currency, PENDING, None, 0)
  }

  function Total(t: TransferRow): Money {
    Money(t.amount + t.fee, t.currency)
  }

  /** A mark method: throws on a terminal row, otherwise moves the status and bumps the version. */
  function Marked(t: TransferRow, status: TransferStatus, ref: Option<ProviderRef>): (r: Option<TransferRow>)
    ensures r.Some? <==> !Terminal(t.status)
  {
    if Terminal(t.status) then None
    else Some(t.(status := status, providerRef := if ref.Some? then ref else t.providerRef, version := t.version + 1))
  }

  /** The contract of all four mark methods. */
  predicate Did(before: TransferRow, status: TransferStatus, ref: Option<ProviderRef>, after: TransferRow, ok: bool) {
    var marked := Marked(before, status, ref);
    ok == marked.Some? && after == if ok then marked.value else before
  }

  /** `save`: create at version 0 or when no row exists, otherwise compare-and-set. */
  function Saved(rows: map<Id, TransferRow>, copy: TransferRow): Option<map<Id, TransferRow>> {
    if copy.version == 0 then
      if copy.id in rows then None else Some(rows[copy.id := copy])
    else if copy.id in rows then
      if rows[copy.id].version == copy.version - 1 then Some(rows[copy.id := copy]) else None
    else Some(rows[copy.id := copy])
  }
}
