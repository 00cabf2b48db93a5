/** The transfer service with its risk gate, each row processed in one piece: submitting, claiming, scoring,
    calling the rail, settling, and an investigator's decisions. */
module RiskGate {
  import opened LedgerTables
  import opened AtomicLedger
  import opened TransferRows
  import opened Claims
  import opened Rails
  import opened Sums
  import GoArithmetic
  import SerialLedger
  import Text
  import LedgerService

  datatype Assessment = Assessment(score: int, decision: Decision)

  const SANCTIONED_MARKER := "SANCTIONED"
  const FRAUD_MARKER := "FRAUDSCORE"
  const VELOCITY_WINDOW: nat := 600
  const VELOCITY_MAX_COUNT := 5
  const VELOCITY_MAX_SUM := 500_000_000
  const LARGE_AMOUNT := 1_000_000_000
  const STUCK_TIMEOUT: nat := 120
  const CLAIM_BATCH_SIZE := 20

  /** The stored state, with two histories: which rows reached the rail, and which an investigator approved. */
  datatype View = View(
    ledger: Tables, rows: seq<Row>, assessments: map<RowId, Assessment>, sent: set<RowId>, approved: set<RowId>)

  // ---------- what holds between calls ----------

  /** The one recorded assessment lets the row through. */
  predicate Cleared(v: View, id: RowId) {
    && id in v.assessments
    && (v.assessments[id].decision == Allow || (v.assessments[id].decision == Decision.Hold && id in v.approved))
  }

  function HoldStatusFor(s: Status): HoldStatus {
    match s
    case Completed => Captured
    case Failed => Released
    case _ => Active
  }

  predicate HoldMatches(t: Tables, row: Row) {
    && (row.direction == Outbound <==> row.hold.Some?)
    && (row.hold.Some? ==>
          && row.hold.value < |t.holds|
          && t.holds[row.hold.value] == Hold.Hold(row.account, row.amount, HoldStatusFor(row.status)))
  }

  predicate RiskMatches(v: View, id: RowId)
    requires id < |v.rows|
  {
    match v.rows[id].risk
    case Held =>
      && v.rows[id].status == Status.Pending
      && id in v.assessments && v.assessments[id].decision == Decision.Hold
      && id !in v.approved && id !in v.sent
    case Blocked => v.rows[id].status == Status.Failed && id in v.assessments && id !in v.sent
    case Clear =>
      if id in v.assessments then Cleared(v, id)
      else id !in v.sent && id !in v.approved && v.rows[id].status in {Status.Pending, Processing}
  }

  predicate RowOk(v: View, id: RowId)
    requires id < |v.rows|
  {
    var row, keys := v.rows[id], v.ledger.keys;
    && HoldMatches(v.ledger, row)
    && RiskMatches(v, id)
    && (row.status == Status.Completed <==> row.key in keys)
    && (row.status == Status.Completed ==>
          id in v.sent && keys[row.key].hash == HashOf(SettleOp(row)) && row.txn == keys[row.key].response)
  }

  predicate RowsApart(rows: seq<Row>) {
    forall i, j | 0 <= i < j < |rows| ::
      rows[i].key != rows[j].key && (rows[i].hold.None? || rows[i].hold != rows[j].hold)
  }

  ghost predicate DeskOk(v: View) {
    && (forall id | 0 <= id < |v.rows| :: RowOk(v, id))
    && RowsApart(v.rows)
    && (forall id | id in v.assessments || id in v.sent || id in v.approved :: id < |v.rows|)
  }

  ghost predicate Ok(v: View) { TablesOk(v.ledger) && DeskOk(v) }

  /** How a state may differ from an earlier one: assessments are never changed, blocked and finished rows
      never move again, and nothing is unsent. */
  ghost predicate Follows(v: View, v': View) {
    && |v.rows| <= |v'.rows|
    && v.sent <= v'.sent && v.approved <= v'.approved
    && (forall id | id in v.assessments :: id in v'.assessments && v'.assessments[id] == v.assessments[id])
    && (forall id | 0 <= id < |v.rows| ::
          && v'.rows[id].key == v.rows[id].key
          && (v.rows[id].status == Status.Completed || v.rows[id].status == Status.Failed ==> v'.rows[id] == v.rows[id]))
  }

  lemma {:induction false} FollowsTransitively(v0: View, v1: View, v2: View)
    requires Follows(v0, v1) && Follows(v1, v2)
    ensures Follows(v0, v2)
  {
  }

  /** A row reaches the rail only past an assessment that allows it, or holds it and is then approved. */
  lemma {:induction false} SentMeansCleared(v: View, id: RowId)
    requires Ok(v) && id in v.sent
    ensures Cleared(v, id) && v.rows[id].risk == Clear
  {
    assert RowOk(v, id);
  }

  /** A blocked row has never been sent, debited or credited, and never will be. */
  lemma {:induction false} BlockedStaysOut(v: View, v': View, id: RowId)
    requires Ok(v) && Ok(v') && Follows(v, v') && id < |v.rows| && v.rows[id].risk == Blocked
    ensures id !in v'.sent && v'.rows[id] == v.rows[id] && v'.rows[id].key !in v'.ledger.keys
    ensures HoldMatches(v'.ledger, v'.rows[id])
  {
    assert RowOk(v, id) && RowOk(v', id);
  }

  // ---------- changes to one row ----------

  /** Only row id, its hold and its key differ. */
  ghost predicate OnlyRow(v: View, v': View, id: RowId)
    requires id < |v.rows|
  {
    && |v'.rows| == |v.rows|
    && (forall i | 0 <= i < |v.rows| && i != id :: v'.rows[i] == v.rows[i])
    && v'.rows[id].key == v.rows[id].key && v'.rows[id].hold == v.rows[id].hold
    && (forall i | i != id :: i in v'.assessments <==> i in v.assessments)
    && (forall i | i in v.assessments && i != id :: v'.assessments[i] == v.assessments[i])
    && (forall i | i != id :: i in v'.sent <==> i in v.sent)
    && (forall i | i != id :: i in v'.approved <==> i in v.approved)
    && |v'.ledger.holds| == |v.ledger.holds|
    && (forall h: HoldId | h < |v.ledger.holds| && Some(h) != v.rows[id].hold :: v'.ledger.holds[h] == v.ledger.holds[h])
    && (forall k | k != v.rows[id].key :: k in v'.ledger.keys <==> k in v.ledger.keys)
    && (forall k | k in v.ledger.keys && k != v.rows[id].key :: v'.ledger.keys[k] == v.ledger.keys[k])
  }

  lemma {:induction false} OneRowKeepsDesk(v: View, v': View, id: RowId)
    requires DeskOk(v) && id < |v.rows| && OnlyRow(v, v', id) && RowOk(v', id)
    ensures DeskOk(v')
  {
    forall i | 0 <= i < |v'.rows| ensures RowOk(v', i) {
      assert RowOk(v, i);
    }
  }

  /** What a claimed row looks like before it is settled or scored. */
  ghost predicate InHand(v: View, id: RowId) {
    DeskOk(v) && id < |v.rows| && RowOk(v, id) && v.rows[id].status == Processing && v.rows[id].risk == Clear
  }

  /** Releasing a claimed row's hold cannot fail. */
  lemma {:induction false} HoldIsReleasable(v: View, id: RowId)
    requires InHand(v, id) && v.rows[id].hold.Some?
    ensures SerialLedger.Call(v.ledger, ReleaseHold(v.rows[id].hold.value)) ==
      (SetHold(v.ledger, v.rows[id].hold.value, Released), Succeeded(v.rows[id].hold.value))
  {
  }

  /** The row after the rail's answer: unanswered rows stay processing, rejected ones release their hold and
      fail, accepted ones complete if the ledger can settle them. */
  ghost function Finalized(v: View, id: RowId, accepted: Option<bool>): View
    requires InHand(v, id)
  {
    var row, sent := v.rows[id], v.sent + {id};
    match accepted
    case None => v.(sent := sent)
    case Some(yes) =>
      if !yes then
        v.(sent := sent,
           ledger := if row.hold.Some? then SetHold(v.ledger, row.hold.value, Released) else v.ledger,
           rows := v.rows[id := row.(status := Status.Failed)])
      else
        var (t, r) := SerialLedger.Call(v.ledger, SettleOp(row));
        if r.Rejected? then v.(sent := sent)
        else v.(sent := sent, ledger := t, rows := v.rows[id := row.(status := Status.Completed, txn := Some(r.id))])
  }

  lemma {:induction false} UnansweredOk(v: View, id: RowId)
    requires InHand(v, id) && Cleared(v, id)
    ensures DeskOk(Finalized(v, id, None)) && OnlyRow(v, Finalized(v, id, None), id)
  {
    OneRowKeepsDesk(v, Finalized(v, id, None), id);
  }

  lemma {:induction false} RejectedOk(v: View, id: RowId)
    requires InHand(v, id) && Cleared(v, id)
    ensures DeskOk(Finalized(v, id, Some(false))) && OnlyRow(v, Finalized(v, id, Some(false)), id)
  {
    OneRowKeepsDesk(v, Finalized(v, id, Some(false)), id);
  }

  lemma {:induction false} AcceptedOk(v: View, id: RowId)
    requires InHand(v, id) && Cleared(v, id)
    ensures DeskOk(Finalized(v, id, Some(true))) && OnlyRow(v, Finalized(v, id, Some(true)), id)
  {
    var op := SettleOp(v.rows[id]);
    if SerialLedger.CallError(v.ledger, op).Some? {
      UnansweredOk(v, id);
    } else {
      SerialLedger.NoErrorCommits(v.ledger, op);
      OneRowKeepsDesk(v, Finalized(v, id, Some(true)), id);
    }
  }

  lemma {:induction false} FinalizedFollows(v: View, id: RowId, accepted: Option<bool>)
    requires InHand(v, id)
    ensures Follows(v, Finalized(v, id, accepted))
  {
  }

  lemma {:induction false} FinalizedOk(v: View, id: RowId, accepted: Option<bool>)
    requires TablesOk(v.ledger) && InHand(v, id) && Cleared(v, id)
    ensures Ok(Finalized(v, id, accepted)) && OnlyRow(v, Finalized(v, id, accepted), id)
    ensures Follows(v, Finalized(v, id, accepted))
  {
    FinalizedFollows(v, id, accepted);
    match accepted
    case None => UnansweredOk(v, id);
    case Some(yes) =>
      if yes {
        SerialLedger.CallKeepsOk(v.ledger, SettleOp(v.rows[id]));
        AcceptedOk(v, id);
      } else {
        if v.rows[id].hold.Some? { CommitKeepsOk(v.ledger, ReleaseHold(v.rows[id].hold.value)); }
        RejectedOk(v, id);
      }
  }

  lemma {:induction false} SettleOutcome(v: View, id: RowId)
    requires InHand(v, id)
    ensures SerialLedger.Call(v.ledger, SettleOp(v.rows[id])).1.Rejected? ==>
      SerialLedger.Call(v.ledger, SettleOp(v.rows[id])).0 == v.ledger
  {
  }

  // ---------- submitting and claiming ----------

  predicate KeyKnown(rows: seq<Row>, key: Key) { exists id :: 0 <= id < |rows| && rows[id].key == key }

  ghost function Submitted(v: View, req: Request, now: nat): View {
    if req.direction == Inbound then v.(rows := v.rows + [NewRow(req, None, now)])
    else
      v.(ledger := v.ledger.(holds := v.ledger.holds + [Hold.Hold(req.account, req.amount, Active)]),
         rows := v.rows + [NewRow(req, Some(|v.ledger.holds|), now)])
  }

  lemma {:induction false} SubmittedOk(v: View, req: Request, now: nat)
    requires DeskOk(v) && !KeyKnown(v.rows, req.key) && req.key !in v.ledger.keys
    ensures DeskOk(Submitted(v, req, now)) && Follows(v, Submitted(v, req, now))
  {
    var v' := Submitted(v, req, now);
    forall id | 0 <= id < |v.rows| ensures RowOk(v', id) && v'.rows[id] == v.rows[id] {
      assert RowOk(v, id);
    }
    assert RowOk(v', |v.rows|);
    forall i | 0 <= i < |v.rows|
      ensures v.rows[i].key != req.key && v.rows[i].hold != Some(|v.ledger.holds|)
    {
      assert RowOk(v, i);
    }
  }

  lemma {:induction false} SubmittedFollows(v: View, req: Request, now: nat)
    ensures Follows(v, Submitted(v, req, now)) && v.rows <= Submitted(v, req, now).rows
    ensures Submitted(v, req, now).ledger.keys == v.ledger.keys
  {
  }

  /** One row was added for the request, pending and clear; an outbound one has a new hold of its amount. */
  ghost predicate Queued(v: View, v': View, req: Request, now: nat) {
    var hold := if req.direction == Outbound then Some(|v.ledger.holds|) else None;
    && v'.rows == v.rows + [Row(req.direction, req.account, req.counterparty, req.amount, req.key, hold, now, Status.Pending, Clear, None)]
    && v'.ledger == v.ledger.(holds := v.ledger.holds + if hold.Some? then [Hold.Hold(req.account, req.amount, Active)] else [])
    && v' == v.(rows := v'.rows, ledger := v'.ledger)
  }

  lemma {:induction false} SubmittedQueues(v: View, req: Request, now: nat)
    ensures Queued(v, Submitted(v, req, now), req, now)
    ensures SerialLedger.Affords(v.ledger, req.account, req.amount) <==> CanCommit(v.ledger, PlaceHold(req.account, req.amount))
  {
  }

  predicate Asked(items: seq<Request>, key: Key) { exists i :: 0 <= i < |items| && items[i].key == key }

  /** The ledger has used the key, but not for a row. */
  predicate Taken(t: Tables, rows: seq<Row>, key: Key) { key in t.keys && !KeyKnown(rows, key) }

  predicate NoneTaken(t: Tables, rows: seq<Row>, items: seq<Request>) {
    forall i | 0 <= i < |items| :: !Taken(t, rows, items[i].key)
  }

  predicate NewKey(rows: seq<Row>, earlier: seq<Request>, key: Key) { !KeyKnown(rows, key) && !Asked(earlier, key) }

  /** Row out[i] has item i's key, and the first item with a new key got a new row with its own account, counterparty,
      amount and hold; there are no other new rows. */
  ghost predicate Submits(rows: seq<Row>, rows': seq<Row>, items: seq<Request>, out: seq<RowId>, now: nat) {
    && rows <= rows' && |out| == |items| && |rows'| <= |rows| + |items|
    && (forall i | 0 <= i < |items| :: out[i] < |rows'| && rows'[out[i]].key == items[i].key)
    && (forall i | 0 <= i < |items| && NewKey(rows, items[..i], items[i].key) :: NewRowOf(rows'[out[i]], items[i], now))
    && (forall id | |rows| <= id < |rows'| :: Asked(items, rows'[id].key))
  }

  predicate NewRowOf(row: Row, item: Request, now: nat) { row == NewRow(item, row.hold, now) && row.hold.Some? }

  lemma {:induction false} SubmitsOneMore(
    rows: seq<Row>, mid: seq<Row>, rows': seq<Row>, items: seq<Request>, item: Request, out: seq<RowId>, id: RowId, now: nat)
    requires Submits(rows, mid, items, out, now) && id < |rows'| && rows'[id].key == item.key
    requires if KeyKnown(mid, item.key) then rows' == mid
             else id == |mid| && rows' == mid + [rows'[id]] && NewRowOf(rows'[id], item, now)
    ensures Submits(rows, rows', items + [item], out + [id], now)
  {
    var all := items + [item];
    assert all[..|items|] == items;
    forall i | 0 <= i < |items| ensures all[..i] == items[..i] {
    }
    if NewKey(rows, items, item.key) { NewItem(rows, mid, items, item.key); }
    forall k | |rows| <= k < |rows'| ensures Asked(all, rows'[k].key) {
      if k < |mid| {
        var i :| 0 <= i < |items| && items[i].key == mid[k].key;
        assert all[i].key == rows'[k].key;
      } else {
        assert all[|items|].key == rows'[k].key;
      }
    }
  }

  lemma {:induction false} NewItem(rows: seq<Row>, mid: seq<Row>, items: seq<Request>, key: Key)
    requires rows <= mid && NewKey(rows, items, key)
    requires forall id | |rows| <= id < |mid| :: Asked(items, mid[id].key)
    ensures !KeyKnown(mid, key)
  {
    forall k | 0 <= k < |mid| ensures mid[k].key != key {
      if k < |rows| {
        assert rows[k] == mid[k];
      } else {
        assert Asked(items, mid[k].key);
      }
    }
  }

  lemma {:induction false} StaysKnown(rows: seq<Row>, rows': seq<Row>, key: Key)
    requires rows <= rows'
    ensures KeyKnown(rows, key) ==> KeyKnown(rows', key)
  {
    if KeyKnown(rows, key) {
      var id :| 0 <= id < |rows| && rows[id].key == key;
      assert rows'[id].key == key;
    }
  }

  predicate Waiting(row: Row) { row.status == Status.Pending && row.risk == Clear }

  lemma {:induction false} ClaimedOk(v: View, id: RowId, row: Row)
    requires DeskOk(v) && id < |v.rows| && (Waiting(v.rows[id]) || v.rows[id].status == Processing)
    requires row == v.rows[id].(status := Processing)
    ensures DeskOk(v.(rows := v.rows[id := row])) && Follows(v, v.(rows := v.rows[id := row]))
    ensures InHand(v.(rows := v.rows[id := row]), id)
  {
    var v' := v.(rows := v.rows[id := row]);
    assert RowOk(v, id) && RowOk(v', id);
    OneRowKeepsDesk(v, v', id);
  }

  /** Rows this caller has claimed and not processed yet. */
  ghost predicate AllInHand(rows: seq<Row>, ids: seq<RowId>) {
    && (forall i | 0 <= i < |ids| :: ids[i] < |rows| && rows[ids[i]].status == Processing && rows[ids[i]].risk == Clear)
    && (forall i, j | 0 <= i < j < |ids| :: ids[i] != ids[j])
  }

  /** When a claimable row was created, and when a stuck row was last attempted. */
  function WaitingSince(rows: seq<Row>): seq<Option<nat>> {
    seq(|rows|, i requires 0 <= i < |rows| => if Waiting(rows[i]) then Some(rows[i].createdAt) else None)
  }

  function StuckSince(rows: seq<Row>, attemptedAt: map<RowId, nat>, now: nat): seq<Option<nat>> {
    seq(|rows|, i requires 0 <= i < |rows| =>
      if rows[i].status == Processing && i in attemptedAt && attemptedAt[i] + STUCK_TIMEOUT < now then Some(attemptedAt[i]) else None)
  }

  /** At most twenty pending rows, clear of holds, oldest first; one left out is no older than those of a full batch. */
  predicate OldestWaiting(rows: seq<Row>, ids: seq<RowId>) {
    && |ids| <= 20
    && (forall i | 0 <= i < |ids| :: ids[i] < |rows| && rows[ids[i]].status == Status.Pending && rows[ids[i]].risk == Clear)
    && (forall i, j | 0 <= i < j < |ids| :: ids[i] != ids[j] && rows[ids[i]].createdAt <= rows[ids[j]].createdAt)
    && (forall c: nat | c < |rows| && rows[c].status == Status.Pending && rows[c].risk == Clear && c !in ids ::
          |ids| == 20 && forall i | 0 <= i < |ids| :: rows[ids[i]].createdAt <= rows[c].createdAt)
  }

  /** At most twenty rows left processing for over two minutes, longest ago first. */
  predicate LongestStuck(rows: seq<Row>, attemptedAt: map<RowId, nat>, ids: seq<RowId>, now: nat) {
    && |ids| <= 20
    && (forall i | 0 <= i < |ids| :: LeftProcessing(rows, attemptedAt, ids[i], now))
    && (forall i, j | 0 <= i < j < |ids| :: ids[i] != ids[j] && attemptedAt[ids[i]] <= attemptedAt[ids[j]])
    && (forall c: nat | c < |rows| && LeftProcessing(rows, attemptedAt, c, now) && c !in ids ::
          |ids| == 20 && forall i | 0 <= i < |ids| :: attemptedAt[ids[i]] <= attemptedAt[c])
  }

  predicate LeftProcessing(rows: seq<Row>, attemptedAt: map<RowId, nat>, id: RowId, now: nat) {
    id < |rows| && rows[id].status == Processing && id in attemptedAt && attemptedAt[id] + 120 < now
  }

  lemma {:induction false} OldestAreWaiting(rows: seq<Row>, ids: seq<RowId>)
    requires OldestOf(WaitingSince(rows), ids, CLAIM_BATCH_SIZE)
    ensures OldestWaiting(rows, ids)
  {
    var ages := WaitingSince(rows);
    assert forall id: nat | id < |rows| :: ages[id] == if rows[id].status == Status.Pending && rows[id].risk == Clear then Some(rows[id].createdAt) else None;
    forall c: nat | c < |rows| && ages[c].Some? && c !in ids
      ensures |ids| == 20 && forall i | 0 <= i < |ids| :: rows[ids[i]].createdAt <= rows[c].createdAt
    {
      assert NoOlderThan(ages, ids, c);
    }
  }

  lemma {:induction false} OldestAreStuck(rows: seq<Row>, attemptedAt: map<RowId, nat>, ids: seq<RowId>, now: nat)
    requires OldestOf(StuckSince(rows, attemptedAt, now), ids, CLAIM_BATCH_SIZE)
    ensures LongestStuck(rows, attemptedAt, ids, now)
  {
    var ages := StuckSince(rows, attemptedAt, now);
    assert forall id: nat | id < |rows| :: ages[id] == if LeftProcessing(rows, attemptedAt, id, now) then Some(attemptedAt[id]) else None;
    forall c: nat | c < |rows| && ages[c].Some? && c !in ids
      ensures |ids| == 20 && forall i | 0 <= i < |ids| :: attemptedAt[ids[i]] <= attemptedAt[c]
    {
      assert NoOlderThan(ages, ids, c);
    }
  }

  // ---------- scoring ----------

  function VelocityCount(rows: seq<Row>, account: AccountId, now: nat): nat {
    if rows == [] then 0
    else VelocityCount(rows[..|rows| - 1], account, now) + if Recent(rows[|rows| - 1], account, now) then 1 else 0
  }

  function VelocitySum(rows: seq<Row>, account: AccountId, now: nat): int {
    if rows == [] then 0
    else VelocitySum(rows[..|rows| - 1], account, now) + if Recent(rows[|rows| - 1], account, now) then rows[|rows| - 1].amount else 0
  }

  predicate Recent(row: Row, account: AccountId, now: nat) {
    row.account == account && row.createdAt + VELOCITY_WINDOW >= now
  }

  /** The account's rows of the last ten minutes. */
  function RecentRows(rows: seq<Row>, account: AccountId, now: nat): set<nat> {
    set i: nat | i < |rows| && rows[i].account == account && rows[i].createdAt + 600 >= now
  }

  function RecentAmounts(rows: seq<Row>, account: AccountId, now: nat): nat -> int {
    (i: nat) => if i in RecentRows(rows, account, now) then rows[i].amount else 0
  }

  lemma {:induction false} VelocityCounts(rows: seq<Row>, account: AccountId, now: nat)
    ensures VelocityCount(rows, account, now) == |RecentRows(rows, account, now)|
  {
    if rows == [] {
      assert RecentRows(rows, account, now) == {};
    } else {
      var last := |rows| - 1;
      VelocityCounts(rows[..last], account, now);
      assert RecentRows(rows, account, now) ==
        RecentRows(rows[..last], account, now) + if rows[last].account == account && rows[last].createdAt + 600 >= now then {last} else {};
    }
  }

  lemma {:induction false} VelocitySums(rows: seq<Row>, account: AccountId, now: nat)
    ensures VelocitySum(rows, account, now) == Sum(RecentAmounts(rows, account, now), |rows|)
  {
    if rows != [] {
      var last := |rows| - 1;
      VelocitySums(rows[..last], account, now);
      SameSum(RecentAmounts(rows[..last], account, now), RecentAmounts(rows, account, now), last);
    }
  }

  predicate Suspicious(row: Row) {
    Text.Contains(row.counterparty, SANCTIONED_MARKER) || Text.Contains(row.counterparty, FRAUD_MARKER)
  }

  predicate Unusual(rows: seq<Row>, row: Row, now: nat) {
    || VelocityCount(rows, row.account, now) >= VELOCITY_MAX_COUNT
    || VelocitySum(rows, row.account, now) >= VELOCITY_MAX_SUM
    || row.amount >= LARGE_AMOUNT
  }

  /** Sanctions and fraud markers block, velocity and size hold, everything else passes with a low score. */
  function Evaluate(rows: seq<Row>, row: Row, now: nat): (a: Assessment)
    ensures a.decision == Block <==> Suspicious(row)
    ensures a.decision == Allow <==> !Suspicious(row) && !Unusual(rows, row, now)
    ensures a.decision == Allow ==> a.score < 20 && (row.amount >= 0 ==> a.score >= 0)
    ensures a.decision == Decision.Hold <==> a.score in {50, 70}
  {
    if Text.Contains(row.counterparty, SANCTIONED_MARKER) then Assessment(100, Block)
    else if Text.Contains(row.counterparty, FRAUD_MARKER) then Assessment(100, Block)
    else if VelocityCount(rows, row.account, now) >= VELOCITY_MAX_COUNT || VelocitySum(rows, row.account, now) >= VELOCITY_MAX_SUM
    then Assessment(70, Decision.Hold)
    else if row.amount >= LARGE_AMOUNT then Assessment(50, Decision.Hold)
    else
      var score := GoArithmetic.Div(row.amount * 20, LARGE_AMOUNT);
      Assessment(if score > 49 then 49 else score, Allow)
  }

  /** The rules in order: a marker blocks; five recent rows, or 500 million in recent rows, or a billion at once hold;
      anything else passes with one point for every fifty million. */
  lemma {:induction false} EvaluateIff(rows: seq<Row>, row: Row, now: nat)
    ensures var a, recent := Evaluate(rows, row, now), RecentRows(rows, row.account, now);
      if Text.Contains(row.counterparty, "SANCTIONED") || Text.Contains(row.counterparty, "FRAUDSCORE") then
        a == Assessment(100, Block)
      else if |recent| >= 5 || Sum(RecentAmounts(rows, row.account, now), |rows|) >= 500_000_000 then
        a == Assessment(70, Decision.Hold)
      else if row.amount >= 1_000_000_000 then a == Assessment(50, Decision.Hold)
      else a.decision == Allow && (row.amount >= 0 ==> a.score * 50_000_000 <= row.amount < (a.score + 1) * 50_000_000)
  {
    VelocityCounts(rows, row.account, now);
    VelocitySums(rows, row.account, now);
  }

  /** A row without a marker whose account has five rows of the last ten minutes is held. */
  lemma {:induction false} FiveRecentRowsHold(rows: seq<Row>, row: Row, now: nat, five: set<nat>)
    requires |five| >= 5
    requires forall i | i in five :: i < |rows| && rows[i].account == row.account && rows[i].createdAt + 600 >= now
    requires !Text.Contains(row.counterparty, "SANCTIONED") && !Text.Contains(row.counterparty, "FRAUDSCORE")
    ensures Evaluate(rows, row, now) == Assessment(70, Decision.Hold)
  {
    EvaluateIff(rows, row, now);
    SubsetIsSmaller(five, RecentRows(rows, row.account, now));
  }

  lemma {:induction false} SubsetIsSmaller(a: set<nat>, b: set<nat>)
    requires a <= b
    ensures |a| <= |b|
  {
    if a != {} {
      var x :| x in a;
      SubsetIsSmaller(a - {x}, b - {x});
    }
  }

  // ---------- the gate ----------

  /** The claimed row after its first scoring: allowed rows go on, held rows wait, blocked rows fail. */
  ghost function Scored(v: View, id: RowId, a: Assessment): View
    requires InHand(v, id)
  {
    var row, v1 := v.rows[id], v.(assessments := v.assessments[id := a]);
    match a.decision
    case Allow => v1
    case Hold => v1.(rows := v.rows[id := row.(status := Status.Pending, risk := Held)])
    case Block =>
      v1.(ledger := if row.hold.Some? then SetHold(v.ledger, row.hold.value, Released) else v.ledger,
          rows := v.rows[id := row.(status := Status.Failed, risk := Blocked)])
  }

  lemma {:induction false} ScoredOk(v: View, id: RowId, a: Assessment)
    requires TablesOk(v.ledger) && InHand(v, id) && id !in v.assessments
    ensures Ok(Scored(v, id, a)) && OnlyRow(v, Scored(v, id, a), id) && Follows(v, Scored(v, id, a))
    ensures a.decision == Allow ==> InHand(Scored(v, id, a), id) && Cleared(Scored(v, id, a), id)
  {
    if a.decision == Block && v.rows[id].hold.Some? {
      CommitKeepsOk(v.ledger, ReleaseHold(v.rows[id].hold.value));
    }
    ScoredRow(v, id, a);
  }

  lemma {:induction false} ScoredRow(v: View, id: RowId, a: Assessment)
    requires InHand(v, id) && id !in v.assessments
    ensures DeskOk(Scored(v, id, a)) && OnlyRow(v, Scored(v, id, a), id) && RowOk(Scored(v, id, a), id)
  {
    OneRowKeepsDesk(v, Scored(v, id, a), id);
  }

  /** One claimed row, processed in one piece: scored unless it already was, and finalized if it may pass. */
  ghost function Processed(v: View, id: RowId, now: nat, accepted: Option<bool>): View
    requires TablesOk(v.ledger) && InHand(v, id)
  {
    if id in v.assessments then Finalized(v, id, accepted)
    else
      var a := Evaluate(v.rows, v.rows[id], now);
      ScoredOk(v, id, a);
      if a.decision == Allow then Finalized(Scored(v, id, a), id, accepted) else Scored(v, id, a)
  }

  lemma {:induction false} ProcessedOk(v: View, id: RowId, now: nat, accepted: Option<bool>)
    requires TablesOk(v.ledger) && InHand(v, id)
    ensures Ok(Processed(v, id, now, accepted)) && Follows(v, Processed(v, id, now, accepted))
    ensures OnlyRow(v, Processed(v, id, now, accepted), id)
  {
    if id in v.assessments {
      FinalizedOk(v, id, accepted);
    } else {
      var a := Evaluate(v.rows, v.rows[id], now);
      ScoredOk(v, id, a);
      if a.decision == Allow { FinalizedOk(Scored(v, id, a), id, accepted); }
    }
  }

  // ---------- what processing does, told from the tables ----------

  /** A claimed row's turn: it is scored if it never was.  If it is allowed, or was approved, it goes to the rail, and
      then stays processing with no answer, fails with its hold released if rejected, and completes if accepted unless
      the ledger refuses to settle it.  Otherwise it waits, held, or is failed and blocked with its hold released. */
  ghost predicate Turn(v: View, v': View, id: RowId, now: nat, answer: Option<bool>) {
    && id < |v.rows| && (v.rows[id].hold.Some? ==> v.rows[id].hold.value < |v.ledger.holds|)
    && v'.assessments == (if id in v.assessments then v.assessments else v.assessments[id := Evaluate(v.rows, v.rows[id], now)])
    && v'.approved == v.approved
    && var row, decision := v.rows[id], v'.assessments[id].decision;
       var passes := decision == Allow || id in v.approved;
       var unheld := if row.hold.None? then v.ledger else SetHold(v.ledger, row.hold.value, Released);
       var (settled, r) := SerialLedger.Call(v.ledger,
         if row.hold.Some? then CaptureHold(row.hold.value, row.key) else CreditOp(row.account, row.amount, row.key));
       && v'.sent == (if passes then v.sent + {id} else v.sent)
       && |v'.rows| == |v.rows| && v'.rows == v.rows[id := v'.rows[id]]
       && (v'.ledger, v'.rows[id]) ==
          if passes && answer == None then (v.ledger, row)
          else if passes && answer == Some(false) then (unheld, row.(status := Status.Failed))
          else if passes && r.Rejected? then (v.ledger, row)
          else if passes then (settled, row.(status := Status.Completed, txn := Some(r.id)))
          else if decision == Decision.Hold then (v.ledger, row.(status := Status.Pending, risk := Held))
          else (unheld, row.(status := Status.Failed, risk := Blocked))
  }

  lemma {:induction false} FinalizedTurn(v: View, id: RowId, now: nat, answer: Option<bool>)
    requires InHand(v, id) && id in v.assessments
    ensures Turn(v, Finalized(v, id, answer), id, now, answer)
  {
  }

  lemma {:induction false} ScoredTurn(v: View, id: RowId, now: nat, answer: Option<bool>)
    requires TablesOk(v.ledger) && InHand(v, id) && id !in v.assessments
    ensures Turn(v, Processed(v, id, now, answer), id, now, answer)
  {
    ScoredOk(v, id, Evaluate(v.rows, v.rows[id], now));
  }

  lemma {:induction false} ProcessedTurn(v: View, id: RowId, now: nat, answer: Option<bool>)
    requires TablesOk(v.ledger) && InHand(v, id)
    ensures Turn(v, Processed(v, id, now, answer), id, now, answer)
  {
    if id in v.assessments { FinalizedTurn(v, id, now, answer); } else { ScoredTurn(v, id, now, answer); }
  }

  /** What the rail says about a row when it answers. */
  function RailSays(row: Row, answers: bool): Option<bool> {
    if answers then Some(!Text.Contains(row.counterparty, "RAILFAIL")) else None
  }

  /** Rows ids[0], ids[1], ... took their turns one after another, views[i] being the state when ids[i] did; the rail
      answers now or remembers an earlier answer. */
  ghost predicate Turns(views: seq<View>, ids: seq<RowId>, now: nat, answered: RowId -> bool, remembered: set<RowId>) {
    && 0 < |views| <= |ids| + 1
    && forall i | 0 <= i < |views| - 1 :: ids[i] < |views[i].rows|
         && Turn(views[i], views[i + 1], ids[i], now, RailSays(views[i].rows[ids[i]], answered(ids[i]) || ids[i] in remembered))
  }

  lemma {:induction false} OneMoreTurn(
    views: seq<View>, v': View, ids: seq<RowId>, now: nat, answered: RowId -> bool, remembered: set<RowId>)
    requires Turns(views, ids, now, answered, remembered) && |views| <= |ids|
    requires var v, id := views[|views| - 1], ids[|views| - 1];
      id < |v.rows| && Turn(v, v', id, now, RailSays(v.rows[id], answered(id) || id in remembered))
    ensures Turns(views + [v'], ids, now, answered, remembered)
  {
  }

  /** Row id is the same in both states, and so is what is recorded about it. */
  predicate SameAbout(v: View, v': View, id: RowId) {
    && |v'.rows| == |v.rows| && (id < |v.rows| ==> v'.rows[id] == v.rows[id])
    && (id in v'.sent <==> id in v.sent) && (id in v'.approved <==> id in v.approved)
    && (id in v'.assessments <==> id in v.assessments)
    && (id in v.assessments ==> v'.assessments[id] == v.assessments[id])
  }

  /** Other rows' turns change nothing about a row. */
  lemma {:induction false} TurnsStand(
    views: seq<View>, ids: seq<RowId>, now: nat, answered: RowId -> bool, remembered: set<RowId>, i: nat, j: nat, id: RowId)
    requires Turns(views, ids, now, answered, remembered) && i <= j < |views|
    requires forall k | i <= k < j :: ids[k] != id
    ensures SameAbout(views[i], views[j], id)
    decreases j
  {
    if i < j { TurnsStand(views, ids, now, answered, remembered, i, j - 1, id); }
  }

  /** Where a processed row stands: assessed; if it may pass, sent, and processing, failed or completed by what the
      rail said; else held or blocked. */
  ghost predicate Handled(v: View, id: RowId, answer: Option<bool>) {
    && id < |v.rows| && id in v.assessments
    && var row, decision := v.rows[id], v.assessments[id].decision;
       if decision == Allow || id in v.approved then
         && id in v.sent
         && (answer == None ==> row.status == Processing)
         && (answer == Some(false) ==> row.status == Status.Failed)
         && (answer == Some(true) ==> row.status == Status.Completed || row.status == Processing)
       else if decision == Decision.Hold then row.status == Status.Pending && row.risk == Held
       else row.status == Status.Failed && row.risk == Blocked
  }

  /** What a row's turn left is there when all turns are done. */
  lemma {:induction false} TurnsHandle(
    views: seq<View>, ids: seq<RowId>, now: nat, answered: RowId -> bool, remembered: set<RowId>, i: nat)
    requires Turns(views, ids, now, answered, remembered) && i < |views| - 1
    requires forall i, j | 0 <= i < j < |ids| :: ids[i] != ids[j]
    requires ids[i] < |views[0].rows| && views[0].rows[ids[i]].status == Processing
    ensures SameAbout(views[0], views[i], ids[i]) && SameAbout(views[i + 1], views[|views| - 1], ids[i])
    ensures Handled(views[|views| - 1], ids[i], RailSays(views[0].rows[ids[i]], answered(ids[i]) || ids[i] in remembered))
  {
    TurnsStand(views, ids, now, answered, remembered, 0, i, ids[i]);
    TurnsStand(views, ids, now, answered, remembered, i + 1, |views| - 1, ids[i]);
    assert Turn(views[i], views[i + 1], ids[i], now, RailSays(views[i].rows[ids[i]], answered(ids[i]) || ids[i] in remembered));
  }

  lemma {:induction false} AllHandled(views: seq<View>, ids: seq<RowId>, now: nat, answered: RowId -> bool, remembered: set<RowId>)
    requires Turns(views, ids, now, answered, remembered) && AllInHand(views[0].rows, ids)
    ensures forall i: nat | i < |views| - 1 ::
      Handled(views[|views| - 1], ids[i], RailSays(views[0].rows[ids[i]], answered(ids[i]) || ids[i] in remembered))
  {
    forall i: nat | i < |views| - 1
      ensures Handled(views[|views| - 1], ids[i], RailSays(views[0].rows[ids[i]], answered(ids[i]) || ids[i] in remembered))
    {
      TurnsHandle(views, ids, now, answered, remembered, i);
    }
  }

  /** An investigator's decision on a held row. */
  ghost function Resolved(v: View, id: RowId, approve: bool): View
    requires DeskOk(v) && id < |v.rows| && RowOk(v, id) && v.rows[id].risk == Held
  {
    var row := v.rows[id];
    if approve then v.(approved := v.approved + {id}, rows := v.rows[id := row.(risk := Clear)])
    else v.(ledger := if row.hold.Some? then SetHold(v.ledger, row.hold.value, Released) else v.ledger,
            rows := v.rows[id := row.(status := Status.Failed, risk := Blocked)])
  }

  lemma {:induction false} ResolvedOk(v: View, id: RowId, approve: bool)
    requires Ok(v) && id < |v.rows| && RowOk(v, id) && v.rows[id].risk == Held
    ensures Ok(Resolved(v, id, approve)) && Follows(v, Resolved(v, id, approve)) && OnlyRow(v, Resolved(v, id, approve), id)
  {
    if !approve && v.rows[id].hold.Some? { CommitKeepsOk(v.ledger, ReleaseHold(v.rows[id].hold.value)); }
    OneRowKeepsDesk(v, Resolved(v, id, approve), id);
  }

  /** An approved row is clear and waits for the rail again; a blocked one is failed and its hold released. */
  ghost predicate Decided(v: View, v': View, id: RowId, approve: bool) {
    && id < |v.rows| == |v'.rows| && v'.rows == v.rows[id := v'.rows[id]]
    && var row, row' := v.rows[id], v'.rows[id];
       if approve then
         && row' == row.(risk := Clear) && row'.status == Status.Pending
         && v' == v.(rows := v'.rows, approved := v.approved + {id})
       else
         && row' == row.(risk := Blocked, status := Status.Failed)
         && v' == v.(rows := v'.rows, ledger := v'.ledger) && v'.ledger == v.ledger.(holds := v'.ledger.holds)
         && |v'.ledger.holds| == |v.ledger.holds|
         && forall h: HoldId | h < |v.ledger.holds| ::
              v'.ledger.holds[h] == if row.hold == Some(h) then v.ledger.holds[h].(status := Released) else v.ledger.holds[h]
  }

  lemma {:induction false} ResolvedDecides(v: View, id: RowId, approve: bool)
    requires DeskOk(v) && id < |v.rows| && RowOk(v, id) && v.rows[id].risk == Held
    ensures Decided(v, Resolved(v, id, approve), id, approve)
  {
  }

  // ---------- whole runs ----------

  /** The stored state and the answers the running process's rail remembers. */
  datatype Desk = Desk(view: View, remembered: map<RowId, bool>)

  datatype Action =
    | Submit(req: Request, now: nat)
    | Claim(id: RowId)
    | Process(id: RowId, now: nat, answered: bool)
    | Decide(id: RowId, approve: bool)
    | Restart                      // the process dies between rows and a new one starts
    | OtherCall(op: Op)

  /** Other callers use neither the rows' keys nor their holds. */
  predicate Foreign(v: View, op: Op) {
    && (op.Keyed() ==> !KeyKnown(v.rows, op.key))
    && (op.CaptureHold? || op.ReleaseHold? ==> forall id | 0 <= id < |v.rows| :: v.rows[id].hold != Some(op.hold))
  }

  ghost predicate Remembers(d: Desk) {
    forall id | id in d.remembered :: id < |d.view.rows| && d.remembered[id] == !RailRejects(d.view.rows[id].counterparty)
  }

  ghost predicate DeskInv(d: Desk) { Ok(d.view) && Remembers(d) }

  function Answer(d: Desk, id: RowId, answered: bool): Option<bool>
    requires id < |d.view.rows|
  {
    if id in d.remembered then Some(d.remembered[id])
    else if answered then Some(!RailRejects(d.view.rows[id].counterparty))
    else None
  }

  ghost function AfterProcessing(d: Desk, id: RowId, now: nat, answer: Option<bool>): Desk
    requires TablesOk(d.view.ledger) && InHand(d.view, id)
  {
    var v := Processed(d.view, id, now, answer);
    Desk(v, if id in v.sent && answer.Some? then d.remembered[id := answer.value] else d.remembered)
  }

  ghost function Do(d: Desk, action: Action): Desk
    requires DeskInv(d)
  {
    var v := d.view;
    match action
    case Submit(req, now) =>
      if KeyKnown(v.rows, req.key) || req.key in v.ledger.keys
         || (req.direction == Outbound && !CanCommit(v.ledger, PlaceHold(req.account, req.amount)))
      then d else d.(view := Submitted(v, req, now))
    case Claim(id) =>
      if id < |v.rows| && Waiting(v.rows[id]) then d.(view := v.(rows := v.rows[id := v.rows[id].(status := Processing)])) else d
    case Process(id, now, answered) =>
      if id >= |v.rows| || v.rows[id].status != Processing then d
      else
        ProcessingIsInHand(v, id);
        AfterProcessing(d, id, now, Answer(d, id, answered))
    case Decide(id, approve) =>
      if id < |v.rows| && v.rows[id].risk == Held then
        assert RowOk(v, id);
        d.(view := Resolved(v, id, approve))
      else d
    case Restart => d.(remembered := map[])
    case OtherCall(op) => if Foreign(v, op) then d.(view := v.(ledger := SerialLedger.Call(v.ledger, op).0)) else d
  }

  lemma {:induction false} ProcessingIsInHand(v: View, id: RowId)
    requires DeskOk(v) && id < |v.rows| && v.rows[id].status == Processing
    ensures InHand(v, id)
  {
    assert RowOk(v, id);
  }

  lemma {:induction false} SubmitKeepsOk(v: View, req: Request, now: nat)
    requires Ok(v) && !KeyKnown(v.rows, req.key) && req.key !in v.ledger.keys
    requires req.direction == Outbound ==> CanCommit(v.ledger, PlaceHold(req.account, req.amount))
    ensures Ok(Submitted(v, req, now)) && Follows(v, Submitted(v, req, now))
  {
    SubmittedOk(v, req, now);
    if req.direction == Outbound { CommitKeepsOk(v.ledger, PlaceHold(req.account, req.amount)); }
  }

  lemma {:induction false} ForeignKeepsDesk(v: View, op: Op)
    requires DeskOk(v) && Foreign(v, op)
    ensures DeskOk(v.(ledger := SerialLedger.Call(v.ledger, op).0))
  {
    var v' := v.(ledger := SerialLedger.Call(v.ledger, op).0);
    forall id | 0 <= id < |v.rows| ensures RowOk(v', id) { assert RowOk(v, id); }
  }

  lemma {:induction false} ProcessKeepsInv(d: Desk, id: RowId, now: nat, answered: bool)
    requires DeskInv(d) && InHand(d.view, id)
    ensures var d' := AfterProcessing(d, id, now, Answer(d, id, answered)); DeskInv(d') && Follows(d.view, d'.view)
  {
    ProcessedOk(d.view, id, now, Answer(d, id, answered));
    ProcessedKeepsCounterparties(d.view, id, now, Answer(d, id, answered));
  }

  lemma {:induction false} OtherCallKeepsInv(d: Desk, op: Op)
    requires DeskInv(d) && Foreign(d.view, op)
    ensures DeskInv(Do(d, OtherCall(op))) && Follows(d.view, Do(d, OtherCall(op)).view)
  {
    ForeignKeepsDesk(d.view, op);
    SerialLedger.CallKeepsOk(d.view.ledger, op);
  }

  lemma {:induction false} ClaimKeepsInv(d: Desk, id: RowId)
    requires DeskInv(d) && id < |d.view.rows| && Waiting(d.view.rows[id])
    ensures DeskInv(Do(d, Claim(id))) && Follows(d.view, Do(d, Claim(id)).view)
  {
    ClaimedOk(d.view, id, d.view.rows[id].(status := Processing));
  }

  lemma {:induction false} DecideKeepsInv(d: Desk, id: RowId, approve: bool)
    requires DeskInv(d) && id < |d.view.rows| && RowOk(d.view, id) && d.view.rows[id].risk == Held
    ensures DeskInv(d.(view := Resolved(d.view, id, approve))) && Follows(d.view, Resolved(d.view, id, approve))
  {
    ResolvedOk(d.view, id, approve);
  }

  lemma {:induction false} DoKeepsInv(d: Desk, action: Action)
    requires DeskInv(d)
    ensures DeskInv(Do(d, action)) && Follows(d.view, Do(d, action).view)
  {
    if Do(d, action) != d {
      match action
      case Process(id, now, answered) =>
        ProcessingIsInHand(d.view, id);
        ProcessKeepsInv(d, id, now, answered);
      case Submit(req, now) => SubmitKeepsOk(d.view, req, now);
      case Claim(id) => ClaimKeepsInv(d, id);
      case Decide(id, approve) =>
        assert RowOk(d.view, id);
        DecideKeepsInv(d, id, approve);
      case OtherCall(op) => OtherCallKeepsInv(d, op);
      case Restart =>
    }
  }

  /** Every action that can act does: a request is queued, a waiting row claimed, a claimed row takes its turn, a held
      row is decided. */
  lemma {:induction false} ActionsAct(d: Desk, action: Action)
    requires DeskInv(d)
    ensures var v, v' := d.view, Do(d, action).view;
      match action
      case Submit(req, now) =>
        if !KeyKnown(v.rows, req.key) && req.key !in v.ledger.keys
           && (req.direction == Inbound || SerialLedger.Affords(v.ledger, req.account, req.amount))
        then Queued(v, v', req, now) else v' == v
      case Claim(id) =>
        if id < |v.rows| && v.rows[id].status == Status.Pending && v.rows[id].risk == Clear
        then v' == v.(rows := v.rows[id := v.rows[id].(status := Processing)]) else v' == v
      case Process(id, now, answered) =>
        if id < |v.rows| && v.rows[id].status == Processing
        then Turn(v, v', id, now, RailSays(v.rows[id], answered || id in d.remembered)) else v' == v
      case Decide(id, approve) => if id < |v.rows| && v.rows[id].risk == Held then Decided(v, v', id, approve) else v' == v
      case Restart => v' == v
      case OtherCall(op) => v' == v || v' == v.(ledger := SerialLedger.Call(v.ledger, op).0)
  {
    match action
    case Submit(req, now) => SubmittedQueues(d.view, req, now);
    case Process(id, now, answered) => ProcessActs(d, id, now, answered);
    case Decide(id, approve) => if id < |d.view.rows| && d.view.rows[id].risk == Held {
        assert RowOk(d.view, id);
        ResolvedDecides(d.view, id, approve);
      }
    case _ =>
  }

  lemma {:induction false} ProcessActs(d: Desk, id: RowId, now: nat, answered: bool)
    requires DeskInv(d)
    ensures var v, v' := d.view, Do(d, Process(id, now, answered)).view;
      if id < |v.rows| && v.rows[id].status == Processing
      then Turn(v, v', id, now, RailSays(v.rows[id], answered || id in d.remembered)) else v' == v
  {
    var v := d.view;
    if id < |v.rows| && v.rows[id].status == Processing {
      ProcessingIsInHand(v, id);
      ProcessedTurn(v, id, now, Answer(d, id, answered));
      assert Answer(d, id, answered) == RailSays(v.rows[id], answered || id in d.remembered);
    }
  }

  lemma {:induction false} ProcessedKeepsCounterparties(v: View, id: RowId, now: nat, accepted: Option<bool>)
    requires TablesOk(v.ledger) && InHand(v, id)
    ensures var v' := Processed(v, id, now, accepted);
      |v'.rows| == |v.rows| && forall i | 0 <= i < |v.rows| :: v'.rows[i].counterparty == v.rows[i].counterparty
  {
    if id !in v.assessments { ScoredOk(v, id, Evaluate(v.rows, v.rows[id], now)); }
  }

  ghost function Run(d: Desk, actions: seq<Action>): (d': Desk)
    requires DeskInv(d)
    ensures DeskInv(d')
  {
    if actions == [] then d
    else
      DoKeepsInv(Run(d, actions[..|actions| - 1]), actions[|actions| - 1]);
      Do(Run(d, actions[..|actions| - 1]), actions[|actions| - 1])
  }

  lemma {:induction false} LaterFollows(d: Desk, actions: seq<Action>, n: nat)
    requires DeskInv(d) && n <= |actions|
    ensures Follows(Run(d, actions[..n]).view, Run(d, actions).view)
  {
    if n == |actions| {
      assert actions[..n] == actions;
    } else {
      var front := actions[..|actions| - 1];
      assert front[..n] == actions[..n];
      LaterFollows(d, front, n);
      DoKeepsInv(Run(d, front), actions[|actions| - 1]);
      FollowsTransitively(Run(d, actions[..n]).view, Run(d, front).view, Run(d, actions).view);
    }
  }

  function Opened(ledger: Tables): Desk { Desk(View(ledger, [], map[], {}, {}), map[]) }

  /** In every run, timeouts and restarts included: a row reaches the rail only past its one assessment, which allows
      it or holds it and is then approved; and once that is so it stays so. */
  lemma {:induction false} GateHolds(ledger: Tables, actions: seq<Action>, n: nat, id: RowId)
    requires TablesOk(ledger) && n <= |actions| && id in Run(Opened(ledger), actions[..n]).view.sent
    ensures var before, after := Run(Opened(ledger), actions[..n]).view, Run(Opened(ledger), actions).view;
      && Cleared(before, id) && Cleared(after, id) && id in after.sent
      && after.assessments[id] == before.assessments[id]
  {
    SentMeansCleared(Run(Opened(ledger), actions[..n]).view, id);
    LaterFollows(Opened(ledger), actions, n);
  }

  /** In every run a row that is blocked at some point was never sent and is never sent, debited or credited
      afterwards; its hold stays released. */
  lemma {:induction false} BlockedForGood(ledger: Tables, actions: seq<Action>, n: nat, id: RowId)
    requires TablesOk(ledger) && n <= |actions|
    requires id < |Run(Opened(ledger), actions[..n]).view.rows| && Run(Opened(ledger), actions[..n]).view.rows[id].risk == Blocked
    ensures var before, after := Run(Opened(ledger), actions[..n]).view, Run(Opened(ledger), actions).view;
      && id < |after.rows| && after.rows[id] == before.rows[id]
      && id !in after.sent && after.rows[id].key !in after.ledger.keys
      && HoldMatches(after.ledger, after.rows[id]) && after.rows[id].status == Status.Failed
  {
    LaterFollows(Opened(ledger), actions, n);
    assert RowOk(Run(Opened(ledger), actions[..n]).view, id);
    BlockedStaysOut(Run(Opened(ledger), actions[..n]).view, Run(Opened(ledger), actions).view, id);
  }

  // ---------- the service ----------

  class Service {
    const ledger: LedgerService.Service
    var rail: SimulatedRail  // its cache lives in memory
    var rows: seq<Row>
    var assessments: map<RowId, Assessment>
    var attemptedAt: map<RowId, nat>
    ghost var sent: set<RowId>
    ghost var approved: set<RowId>

    ghost function Look(): View
      reads this, ledger
    {
      View(ledger.Now(), rows, assessments, sent, approved)
    }

    /** The rail's remembered answers are about submitted rows and agree with their counterparties. */
    ghost predicate RailRemembers()
      reads this, rail
    {
      forall id | id in rail.cache ::
        id < |rows| && rail.cache[id].accepted == !RailRejects(rows[id].counterparty)
    }

    ghost predicate Valid()
      reads this, ledger, rail
    {
      Ok(Look()) && RailRemembers()
    }

    constructor (ledger: LedgerService.Service)
      requires ledger.Valid()
      ensures Valid() && this.ledger == ledger && fresh(rail) && rows == [] && sent == {}
    {
      this.ledger := ledger;
      rail := new SimulatedRail();
      rows, assessments, attemptedAt, sent, approved := [], map[], map[], {}, {};
    }

    /** A new process starts with a rail that remembers nothing. */
    method Restart()
      requires Valid()
      modifies this`rail
      ensures Valid() && fresh(rail) && rail.cache == map[] && Look() == old(Look())
    {
      rail := new SimulatedRail();
    }

    /** What the rail says to this row now: the answer it remembers, or the one its marker decides. */
    ghost function RailAnswer(id: RowId, answered: bool): Option<bool>
      requires id < |rows|
      reads this, rail
    {
      if answered || id in rail.cache then Some(!RailRejects(rows[id].counterparty)) else None
    }

    method ReleaseAndFail(id: RowId)
      requires ledger.Valid() && InHand(Look(), id)
      modifies this`rows, ledger
      ensures Look() == Finalized(old(Look()), id, Some(false)).(sent := sent)
    {
      var row := rows[id];
      if row.hold.Some? {
        HoldIsReleasable(Look(), id);
        var released := ledger.ReleaseHold(row.hold.value);
      }
      rows := rows[id := row.(status := Status.Failed)];
    }

    method SettleAndComplete(id: RowId)
      requires ledger.Valid() && InHand(Look(), id)
      modifies this`rows, ledger
      ensures Look() == Finalized(old(Look()), id, Some(true)).(sent := sent)
    {
      var row := rows[id];
      var settled := Settle(row);
      SettleOutcome(old(Look()), id);
      if settled.Succeeded? {
        rows := rows[id := row.(status := Status.Completed, txn := Some(settled.id))];
      }
    }

    /** Sends the payment and settles or fails the row; with no answer the row stays processing. */
    method Finalize(id: RowId, answered: bool)
      requires ledger.Valid() && RailRemembers() && InHand(Look(), id)
      modifies this`rows, this`sent, ledger, rail
      ensures Look() == Finalized(old(Look()), id, old(RailAnswer(id, answered)))
      ensures RailRemembers() && forall x | x != id :: x in rail.cache <==> x in old(rail.cache)
    {
      var result := rail.Send(Some(id), rows[id].counterparty, answered);
      if result.Some? && result.value.accepted {
        SettleAndComplete(id);
      } else if result.Some? {
        ReleaseAndFail(id);
      }
      sent := sent + {id};
    }

    method Settle(row: Row) returns (r: Outcome)
      requires ledger.Valid() && (row.direction == Outbound ==> row.hold.Some?)
      modifies ledger
      ensures ledger.Valid()
      ensures (ledger.Now(), r) == SerialLedger.Call(old(ledger.Now()), SettleOp(row))
    {
      if row.direction == Outbound {
        r := ledger.CaptureHold(row.hold.value, row.key);
      } else {
        r := ledger.Credit(row.account, row.amount, row.key);
      }
    }

    /** Marks the row failed and blocked and releases its hold. */
    method FailAndRelease(id: RowId)
      requires ledger.Valid() && DeskOk(Look()) && id < |rows| && RowOk(Look(), id)
      requires rows[id].status == Processing || rows[id].risk == Held
      modifies this`rows, ledger
      ensures rows == old(rows)[id := old(rows)[id].(status := Status.Failed, risk := Blocked)]
      ensures ledger.Now() == if rows[id].hold.Some? then SetHold(old(ledger.Now()), rows[id].hold.value, Released) else old(ledger.Now())
    {
      var row := rows[id];
      if row.hold.Some? {
        var released := ledger.ReleaseHold(row.hold.value);
        assert released.Succeeded?;
      }
      rows := rows[id := row.(status := Status.Failed, risk := Blocked)];
    }

    /** Scores the row once; a second call repeats the recorded assessment. */
    method Assess(id: RowId, now: nat) returns (a: Assessment)
      requires ledger.Valid() && InHand(Look(), id)
      modifies this`rows, this`assessments, ledger
      ensures id in old(assessments) ==> a == old(assessments)[id] && Look() == old(Look())
      ensures id !in old(assessments) ==>
        && a == Evaluate(old(rows), old(rows)[id], now)
        && Look() == (if a.decision == Decision.Hold
                      then Scored(old(Look()), id, a).(rows := old(rows)[id := old(rows)[id].(risk := Held)])
                      else Scored(old(Look()), id, a))
    {
      if id in assessments {
        return assessments[id];
      }
      a := Evaluate(rows, rows[id], now);
      match a.decision {
        case Block => FailAndRelease(id);
        case Hold => rows := rows[id := rows[id].(risk := Held)];
        case Allow =>
      }
      assessments := assessments[id := a];
    }

    method ProcessRow(id: RowId, now: nat, answered: bool)
      requires Valid() && InHand(Look(), id)
      modifies this`rows, this`assessments, this`sent, ledger, rail
      ensures Valid() && Look() == Processed(old(Look()), id, now, old(RailAnswer(id, answered)))
      ensures OnlyRow(old(Look()), Look(), id) && Follows(old(Look()), Look())
      ensures Turn(old(Look()), Look(), id, now, RailSays(old(rows)[id], answered || id in old(rail.cache)))
      ensures forall x | x != id :: x in rail.cache <==> x in old(rail.cache)
    {
      ProcessedOk(Look(), id, now, RailAnswer(id, answered));
      ProcessedTurn(Look(), id, now, RailAnswer(id, answered));
      if id in assessments {
        Finalize(id, answered);
      } else {
        ScoreAndProcess(id, now, answered);
      }
    }

    method ScoreAndProcess(id: RowId, now: nat, answered: bool)
      requires ledger.Valid() && RailRemembers() && InHand(Look(), id) && id !in assessments
      modifies this`rows, this`assessments, this`sent, ledger, rail
      ensures Look() == Processed(old(Look()), id, now, old(RailAnswer(id, answered)))
      ensures RailRemembers() && forall x | x != id :: x in rail.cache <==> x in old(rail.cache)
    {
      ScoredOk(Look(), id, Evaluate(rows, rows[id], now));
      var a := Assess(id, now);
      if a.decision == Allow {
        Finalize(id, answered);
      } else if a.decision == Decision.Hold {
        rows := rows[id := rows[id].(status := Status.Pending)];
      }
    }

    method Resolve(id: RowId, approve: bool) returns (ok: bool)
      requires Valid()
      modifies this`rows, this`approved, ledger
      ensures Valid() && ok == (id < |old(rows)| && old(rows)[id].risk == Held)
      ensures Look() == if ok then Resolved(old(Look()), id, approve) else old(Look())
      ensures ok ==> Decided(old(Look()), Look(), id, approve)
    {
      if id >= |rows| || rows[id].risk != Held {
        return false;
      }
      assert RowOk(Look(), id);
      ResolvedOk(Look(), id, approve);
      ResolvedDecides(Look(), id, approve);
      if approve {
        rows := rows[id := rows[id].(risk := Clear)];
        approved := approved + {id};
      } else {
        FailAndRelease(id);
      }
      ok := true;
    }

    // ---------- submitting ----------

    method FindByKey(key: Key) returns (found: Option<RowId>)
      ensures found.Some? <==> KeyKnown(rows, key)
      ensures found.Some? ==> found.value < |rows| && rows[found.value].key == key
    {
      for i := 0 to |rows|
        invariant forall j | 0 <= j < i :: rows[j].key != key
      {
        if rows[i].key == key {
          return Some(i);
        }
      }
      found := None;
    }

    /** Reserves the money of an outbound request. */
    method Reserve(req: Request) returns (ok: bool, hold: Option<HoldId>)
      requires ledger.Valid()
      modifies ledger
      ensures ledger.Valid()
      ensures ok <==> req.direction == Inbound || CanCommit(old(ledger.Now()), PlaceHold(req.account, req.amount))
      ensures ledger.Now() == if ok && req.direction == Outbound
        then Commit(old(ledger.Now()), PlaceHold(req.account, req.amount)) else old(ledger.Now())
      ensures hold == if ok && req.direction == Outbound then Some(|old(ledger.holds)|) else None
    {
      if req.direction == Inbound {
        return true, None;
      }
      if SerialLedger.CallError(ledger.Now(), PlaceHold(req.account, req.amount)).None? {
        SerialLedger.NoErrorCommits(ledger.Now(), PlaceHold(req.account, req.amount));
      }
      var placed := ledger.PlaceHold(req.account, req.amount);
      ok, hold := placed.Succeeded?, if placed.Succeeded? then Some(placed.id) else None;
    }

    /** Reserves the money of a new request and queues its row. */
    method Enqueue(req: Request, now: nat) returns (r: Option<RowId>)
      requires ledger.Valid()
      modifies this`rows, ledger
      ensures ledger.Valid() && (r.Some? ==> r.value == |old(rows)|)
      ensures r.Some? <==> req.direction == Inbound || CanCommit(old(ledger.Now()), PlaceHold(req.account, req.amount))
      ensures Look() == if r.Some? then Submitted(old(Look()), req, now) else old(Look())
    {
      var ok, hold := Reserve(req);
      if !ok {
        return None;
      }
      rows := rows + [NewRow(req, hold, now)];
      r := Some(|rows| - 1);
    }

    /** Answers a repeated key with its row; otherwise reserves the money and queues the row. */
    method Send(req: Request, switchedOn: bool, now: nat) returns (r: Option<RowId>)
      requires ledger.Valid()
      modifies this`rows, ledger
      ensures ledger.Valid()
      ensures old(Valid()) && !Taken(old(ledger.Now()), old(rows), req.key) ==> Valid()
      ensures r.Some? ==> r.value < |rows| && rows[r.value].key == req.key
      ensures Follows(old(Look()), Look()) && old(rows) <= rows && ledger.keys == old(ledger.keys)
      ensures KeyKnown(old(rows), req.key) ==> r.Some? && Look() == old(Look())
      ensures !KeyKnown(old(rows), req.key) ==>
        && (r.Some? <==> switchedOn && (req.direction == Inbound || SerialLedger.Affords(old(ledger.Now()), req.account, req.amount)))
        && (r.None? ==> Look() == old(Look()))
        && (r.Some? ==> r.value == |old(rows)| && Queued(old(Look()), Look(), req, now))
    {
      r := FindByKey(req.key);
      if r.Some? || !switchedOn {
        return;
      }
      SubmittedFollows(Look(), req, now);
      SubmittedQueues(Look(), req, now);
      if Valid() && req.key !in ledger.keys { SubmittedOk(Look(), req, now); }
      r := Enqueue(req, now);
    }

    /** The batch's next item. */
    method SendNext(ghost before: seq<Row>, ghost done: seq<Request>, out: seq<RowId>, item: Request, switchedOn: bool, now: nat)
      returns (r: Option<RowId>)
      requires ledger.Valid() && item.direction == Outbound && Submits(before, rows, done, out, now)
      modifies this`rows, ledger
      ensures ledger.Valid() && ledger.keys == old(ledger.keys)
      ensures old(Valid()) && !Taken(old(ledger.Now()), before, item.key) ==> Valid()
      ensures r.Some? ==> Submits(before, rows, done + [item], out + [r.value], now)
      ensures r.None? ==> rows == old(rows) && !KeyKnown(rows, item.key)
      ensures r.None? ==> !switchedOn || !SerialLedger.Affords(ledger.Now(), item.account, item.amount)
    {
      r := Send(item, switchedOn, now);
      if r.Some? { SubmitsOneMore(before, old(rows), rows, done, item, out, r.value, now); }
      StaysKnown(before, old(rows), item.key);
    }

    /** Submits the items in order and stops at the first that cannot be paid for.  Valid says that the hold of each new row
        reserves its amount. */
    method CreateBatch(items: seq<Request>, switchedOn: bool, now: nat) returns (out: seq<RowId>)
      requires ledger.Valid() && forall i | 0 <= i < |items| :: items[i].direction == Outbound
      modifies this`rows, ledger
      ensures ledger.Valid() && |out| <= |items| && Submits(old(rows), rows, items[..|out|], out, now)
      ensures |out| < |items| ==> !KeyKnown(rows, items[|out|].key)
      ensures |out| < |items| ==> !switchedOn || !SerialLedger.Affords(ledger.Now(), items[|out|].account, items[|out|].amount)
      ensures old(Valid()) && NoneTaken(old(ledger.Now()), old(rows), items) ==> Valid()
    {
      out := [];
      while |out| < |items|
        invariant ledger.Valid() && |out| <= |items|
        invariant ledger.keys == old(ledger.keys)
        invariant Submits(old(rows), rows, items[..|out|], out, now)
        invariant old(Valid()) && NoneTaken(old(ledger.Now()), old(rows), items) ==> Valid()
      {
        var r := SendNext(old(rows), items[..|out|], out, items[|out|], switchedOn, now);
        if r.None? {
          return;
        }
        out := out + [r.value];
        assert items[..|out|] == items[..|out| - 1] + [items[|out| - 1]];
      }
    }

    // ---------- the two tickers ----------

    /** Claims the oldest waiting rows, at most a batch of them. */
    method ClaimPending(now: nat) returns (ids: seq<RowId>)
      requires DeskOk(Look())
      modifies this`rows, this`attemptedAt
      ensures DeskOk(Look()) && Follows(old(Look()), Look())
      ensures OldestWaiting(old(rows), ids) && AllInHand(rows, ids) && |rows| == |old(rows)|
      ensures forall id | 0 <= id < |rows| ::
        rows[id] == if id in ids then old(rows)[id].(status := Processing) else old(rows)[id]
      ensures forall id | id in ids :: id in attemptedAt && attemptedAt[id] == now
    {
      ids := OldestFirst(WaitingSince(rows), CLAIM_BATCH_SIZE);
      OldestAreWaiting(rows, ids);
      for i := 0 to |ids|
        invariant |rows| == |old(rows)| && DeskOk(Look()) && Follows(old(Look()), Look())
        invariant forall id | 0 <= id < |rows| :: rows[id] == if id in ids[..i] then old(rows)[id].(status := Processing) else old(rows)[id]
        invariant forall id | id in ids[..i] :: id in attemptedAt && attemptedAt[id] == now
      {
        assert ids[i] !in ids[..i] && WaitingSince(old(rows))[ids[i]].Some?;
        ClaimedOk(Look(), ids[i], rows[ids[i]].(status := Processing));
        rows := rows[ids[i] := rows[ids[i]].(status := Processing)];
        attemptedAt := attemptedAt[ids[i] := now];
      }
      assert ids[..|ids|] == ids;
      assert forall i | 0 <= i < |ids| :: WaitingSince(old(rows))[ids[i]].Some?;
    }

    /** Claims the rows left processing for longer than the timeout, longest ago first, at most a batch of them. */
    method ClaimStuck(now: nat) returns (ids: seq<RowId>)
      requires DeskOk(Look())
      modifies this`attemptedAt
      ensures LongestStuck(rows, old(attemptedAt), ids, now) && AllInHand(rows, ids)
      ensures forall id :: id in attemptedAt <==> id in old(attemptedAt) || id in ids
      ensures forall id | id in attemptedAt :: attemptedAt[id] == if id in ids then now else old(attemptedAt)[id]
    {
      ids := OldestFirst(StuckSince(rows, attemptedAt, now), CLAIM_BATCH_SIZE);
      OldestAreStuck(rows, attemptedAt, ids, now);
      for i := 0 to |ids|
        invariant forall id :: id in attemptedAt <==> id in old(attemptedAt) || id in ids[..i]
        invariant forall id | id in attemptedAt :: attemptedAt[id] == if id in ids[..i] then now else old(attemptedAt)[id]
      {
        attemptedAt := attemptedAt[ids[i] := now];
      }
      assert ids[..|ids|] == ids;
      forall i | 0 <= i < |ids| ensures ids[i] < |rows| && rows[ids[i]].status == Processing && rows[ids[i]].risk == Clear {
        assert StuckSince(rows, old(attemptedAt), now)[ids[i]].Some?;
        assert RowOk(Look(), ids[i]);
      }
    }

    method ProcessNext(ghost views: seq<View>, ids: seq<RowId>, i: nat, now: nat, answered: RowId -> bool, ghost remembered: set<RowId>)
      requires Valid() && i < |ids| && ids[i] < |rows| && rows[ids[i]].status == Processing
      requires |views| == i + 1 && views[i] == Look() && Turns(views, ids, now, answered, remembered) && Follows(views[0], views[i])
      requires ids[i] in rail.cache <==> ids[i] in remembered
      modifies this`rows, this`assessments, this`sent, ledger, rail
      ensures Valid() && Follows(views[0], Look()) && Turns(views + [Look()], ids, now, answered, remembered)
      ensures |rows| == |old(rows)| && forall id | 0 <= id < |rows| && id != ids[i] :: rows[id] == old(rows)[id]
      ensures forall id | id != ids[i] :: (id in rail.cache <==> id in old(rail.cache)) && (id in sent <==> id in old(sent))
    {
      ProcessingIsInHand(Look(), ids[i]);
      ProcessRow(ids[i], now, answered(ids[i]));
      OneMoreTurn(views, Look(), ids, now, answered, remembered);
      FollowsTransitively(views[0], views[i], Look());
    }

    /** Processes claimed rows one after another; a restart after `survived` rows leaves the rest processing. */
    method ProcessAll(ids: seq<RowId>, now: nat, answered: RowId -> bool, survived: nat) returns (ghost views: seq<View>)
      requires Valid() && AllInHand(rows, ids)
      modifies this`rows, this`assessments, this`sent, ledger, rail
      ensures Valid() && Follows(old(Look()), Look())
      ensures |views| == 1 + (if survived < |ids| then survived else |ids|) && views[0] == old(Look()) && views[|views| - 1] == Look()
      ensures Turns(views, ids, now, answered, old(rail.cache.Keys))
      ensures forall i | 0 <= i < |ids| && i < survived ::
        Handled(Look(), ids[i], RailSays(old(rows)[ids[i]], answered(ids[i]) || ids[i] in old(rail.cache)))
      ensures forall id | id in sent && id !in old(sent) :: id in ids
    {
      var i := 0;
      views := [Look()];
      while i < |ids| && i < survived
        invariant 0 <= i <= |ids| && i <= survived && Valid() && Follows(old(Look()), Look()) && |rows| == |old(rows)|
        invariant |views| == i + 1 && views[0] == old(Look()) && views[i] == Look()
        invariant Turns(views, ids, now, answered, old(rail.cache.Keys))
        invariant forall k | i <= k < |ids| :: rows[ids[k]] == old(rows)[ids[k]] && (ids[k] in rail.cache <==> ids[k] in old(rail.cache))
        invariant forall id | id in sent && id !in old(sent) :: id in ids
      {
        ProcessNext(views, ids, i, now, answered, old(rail.cache.Keys));
        views := views + [Look()];
        i := i + 1;
      }
      AllHandled(views, ids, now, answered, old(rail.cache.Keys));
    }

    /** Claims waiting rows and processes them. */
    method ProcessPending(now: nat, answered: RowId -> bool, survived: nat) returns (ids: seq<RowId>, ghost views: seq<View>)
      requires Valid()
      modifies this`rows, this`assessments, this`sent, this`attemptedAt, ledger, rail
      ensures Valid() && Follows(old(Look()), Look())
      ensures OldestWaiting(old(rows), ids)
      ensures |views| == 1 + (if survived < |ids| then survived else |ids|) && views[|views| - 1] == Look()
      ensures views[0] == old(Look()).(rows := views[0].rows) && |views[0].rows| == |old(rows)|
      ensures forall id | 0 <= id < |old(rows)| ::
        views[0].rows[id] == if id in ids then old(rows)[id].(status := Processing) else old(rows)[id]
      ensures Turns(views, ids, now, answered, old(rail.cache.Keys))
      ensures forall i | 0 <= i < |ids| && i < survived ::
        Handled(Look(), ids[i], RailSays(old(rows)[ids[i]], answered(ids[i]) || ids[i] in old(rail.cache)))
      ensures forall id | id in sent && id !in old(sent) :: id in ids
    {
      ids := ClaimPending(now);
      ghost var v := Look();
      views := ProcessAll(ids, now, answered, survived);
      FollowsTransitively(old(Look()), v, Look());
    }

    /** Claims rows left processing and processes them again. */
    method ResolveStuck(now: nat, answered: RowId -> bool, survived: nat) returns (ids: seq<RowId>, ghost views: seq<View>)
      requires Valid()
      modifies this`rows, this`assessments, this`sent, this`attemptedAt, ledger, rail
      ensures Valid() && Follows(old(Look()), Look())
      ensures LongestStuck(old(rows), old(attemptedAt), ids, now)
      ensures |views| == 1 + (if survived < |ids| then survived else |ids|) && views[0] == old(Look()) && views[|views| - 1] == Look()
      ensures Turns(views, ids, now, answered, old(rail.cache.Keys))
      ensures forall i | 0 <= i < |ids| && i < survived ::
        Handled(Look(), ids[i], RailSays(old(rows)[ids[i]], answered(ids[i]) || ids[i] in old(rail.cache)))
      ensures forall id | id in sent && id !in old(sent) :: id in ids
    {
      ids := ClaimStuck(now);
      views := ProcessAll(ids, now, answered, survived);
    }

    /** Ledger calls made elsewhere keep the service valid when they use neither its keys nor its holds. */
    twostate lemma {:induction false} OthersKeepValid()
      requires old(Valid()) && ledger.Valid() && unchanged(this) && unchanged(rail)
      requires forall id | 0 <= id < |rows| ::
        && (rows[id].key in ledger.keys <==> rows[id].key in old(ledger.keys))
        && (rows[id].key in ledger.keys ==> ledger.keys[rows[id].key] == old(ledger.keys)[rows[id].key])
        && (rows[id].hold.Some? && rows[id].hold.value < |old(ledger.holds)| ==>
              && rows[id].hold.value < |ledger.holds|
              && ledger.holds[rows[id].hold.value] == old(ledger.holds)[rows[id].hold.value])
      ensures Valid()
    {
      forall id | 0 <= id < |rows| ensures RowOk(Look(), id) {
        assert RowOk(old(Look()), id);
      }
    }
  }
}
