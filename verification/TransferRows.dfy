/** The external_transfers table: its rows, their states, and what the simulated rail answers. */
module TransferRows {
  import opened LedgerTables
  import opened AtomicLedger
  import Text

  type RowId = nat

  datatype Direction = Outbound | Inbound
  datatype Status = Pending | Processing | Completed | Failed
  datatype RiskStatus = Clear | Held | Blocked
  datatype Decision = Allow | Hold | Block

  datatype Row = Row(
    direction: Direction,
    account: AccountId,
    counterparty: string,
    amount: int,
    key: Key,
    hold: Option<HoldId>,
    createdAt: nat,
    status: Status,
    risk: RiskStatus,
    txn: Option<TxnId>)

  /** What a client asks for when it submits a transfer. */
  datatype Request = Request(direction: Direction, account: AccountId, counterparty: string, amount: int, key: Key)

  function NewRow(req: Request, hold: Option<HoldId>, now: nat): Row {
    Row(req.direction, req.account, req.counterparty, req.amount, req.key, hold, now, Status.Pending, Clear, None)
  }

  const FAIL_MARKER := "RAILFAIL"

  /** Whether the rail, when it answers at all, rejects payments to this counterparty. */
  predicate RailRejects(counterparty: string) { Text.Contains(counterparty, FAIL_MARKER) }

  /** The ledger call that settles a row the rail accepted. */
  function SettleOp(row: Row): Op
    requires row.direction == Outbound ==> row.hold.Some?
  {
    if row.direction == Outbound then CaptureHold(row.hold.value, row.key)
    else CreditOp(row.account, row.amount, row.key)
  }
}
