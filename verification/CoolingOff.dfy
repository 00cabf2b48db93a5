/** The cooling-off service: held-back sends, cancellation, and the ticker that releases matured transfers,
    each call running alone but a release free to crash between any two of its statements. */
module CoolingOff {
  import opened LedgerTables
  import opened AtomicLedger
  import opened Claims
  import opened CoolingOffRows
  import LedgerService
  import Payee
  import SerialLedger

  const WINDOW: nat := 120
  const CLAIM_BATCH_SIZE := 20

  datatype SendResult = Paid(txn: TxnId) | Held(row: RowId) | Refused

  // ---------- what holds between calls ----------

  /** Where a row's money is: reserved while pending, moved once completed, returned once cancelled. */
  predicate RowOk(t: Tables, row: Row) {
    && row.hold < |t.holds|
    && t.holds[row.hold] == Hold(row.from, row.amount, t.holds[row.hold].status)
    && match row.status
       case Pending => Reserved(t, row)
       case Processing =>
         || Reserved(t, row)
         || (t.holds[row.hold].status == Released && (row.key in t.keys ==> t.keys[row.key].hash == HashOf(row.Pay())))
       case Completed =>
         && t.holds[row.hold].status == Released
         && row.key in t.keys && t.keys[row.key].hash == HashOf(row.Pay()) && t.keys[row.key].response == row.txn
       case Cancelled => t.holds[row.hold].status == Released && row.key !in t.keys
  }

  ghost predicate RowsOk(t: Tables, rows: seq<Row>) {
    && (forall id | 0 <= id < |rows| :: RowOk(t, rows[id]))
    && (forall i, j | 0 <= i < j < |rows| :: rows[i].key != rows[j].key && rows[i].hold != rows[j].hold)
  }

  predicate KeyKnown(rows: seq<Row>, key: Key) { exists id :: 0 <= id < |rows| && rows[id].key == key }

  /** Completed and cancelled rows are final. */
  ghost predicate Follows(rows: seq<Row>, rows': seq<Row>) {
    && |rows| <= |rows'|
    && (forall id | 0 <= id < |rows| && rows[id].status in {Status.Completed, Cancelled} :: rows'[id] == rows[id])
  }

  /** A cancelled row never pays, now or later, and its reservation is gone. */
  lemma {:induction false} CancelledNeverPays(t: Tables, rows: seq<Row>, t': Tables, rows': seq<Row>, id: RowId)
    requires RowsOk(t, rows) && RowsOk(t', rows') && Follows(rows, rows') && id < |rows| && rows[id].status == Cancelled
    ensures rows'[id].status == Cancelled && rows[id].key !in t'.keys
    ensures rows[id].hold < |t'.holds| && t'.holds[rows[id].hold].status == Released
  {
  }

  /** Only this row's hold and key differ. */
  ghost predicate OnlyFor(t: Tables, t': Tables, row: Row) {
    && |t'.holds| == |t.holds|
    && (forall h: HoldId | h < |t.holds| && h != row.hold :: t'.holds[h] == t.holds[h])
    && (forall k | k != row.key :: k in t'.keys <==> k in t.keys)
    && (forall k | k in t.keys && k != row.key :: t'.keys[k] == t.keys[k])
  }

  lemma {:induction false} OneRowKeepsOk(t: Tables, rows: seq<Row>, t': Tables, id: RowId, row: Row)
    requires RowsOk(t, rows) && id < |rows| && OnlyFor(t, t', rows[id]) && RowOk(t', row)
    requires row.key == rows[id].key && row.hold == rows[id].hold
    ensures RowsOk(t', rows[id := row])
  {
  }

  lemma {:induction false} ReleasedRowOk(t: Tables, row: Row)
    requires RowOk(t, row) && row.status == Processing
    ensures var (t1, r) := SerialLedger.Call(t, ReleaseHold(row.hold));
      && RowOk(t1, row) && OnlyFor(t, t1, row) && t1.holds[row.hold].status == Released
      && (r.Succeeded? || r.error == HoldNotActive)
  {
  }

  lemma {:induction false} PaidRowOk(t: Tables, row: Row)
    requires KeysOk(t) && RowOk(t, row) && row.status == Processing && t.holds[row.hold].status == Released
    ensures var (t2, r) := SerialLedger.Call(t, row.Pay());
      && RowOk(t2, row) && OnlyFor(t, t2, row)
      && (r.Succeeded? ==> RowOk(t2, row.(status := Status.Completed, txn := Some(r.id))))
  {
  }

  lemma {:induction false} AttemptKeepsTables(t: Tables, row: Row, survived: nat)
    requires TablesOk(t)
    ensures TablesOk(Attempt(t, row, survived).0)
  {
    SerialLedger.CallKeepsOk(t, ReleaseHold(row.hold));
    SerialLedger.CallKeepsOk(SerialLedger.Call(t, ReleaseHold(row.hold)).0, row.Pay());
  }

  /** An attempt on a claimed row, wherever it stops, leaves the row where a later attempt can take it up. */
  lemma {:induction false} AttemptKeepsRow(t: Tables, row: Row, survived: nat)
    requires KeysOk(t) && RowOk(t, row) && row.status == Processing
    ensures var (t', row') := Attempt(t, row, survived);
      && RowOk(t', row') && OnlyFor(t, t', row)
      && row'.key == row.key && row'.hold == row.hold && t'.accounts == t.accounts
  {
    ReleasedRowOk(t, row);
    PaidRowOk(SerialLedger.Call(t, ReleaseHold(row.hold)).0, row);
  }

  lemma {:induction false} AttemptKeepsOk(t: Tables, rows: seq<Row>, id: RowId, survived: nat)
    requires TablesOk(t) && RowsOk(t, rows) && id < |rows| && rows[id].status == Processing
    ensures var (t', row') := Attempt(t, rows[id], survived);
      TablesOk(t') && RowsOk(t', rows[id := row']) && OnlyFor(t, t', rows[id]) && t'.accounts == t.accounts
  {
    var (t', row') := Attempt(t, rows[id], survived);
    assert RowOk(t, rows[id]);
    AttemptKeepsTables(t, rows[id], survived);
    AttemptKeepsRow(t, rows[id], survived);
    OneRowKeepsOk(t, rows, t', id, row');
  }

  /** A new row's hold is the next hold, and nobody else's. */
  lemma {:induction false} NewRowKeepsOk(t: Tables, rows: seq<Row>, row: Row)
    requires RowsOk(t, rows) && !KeyKnown(rows, row.key) && row.key !in t.keys
    requires row.hold == |t.holds| && row.status == Status.Pending
    ensures RowsOk(t.(holds := t.holds + [Hold(row.from, row.amount, Active)]), rows + [row])
  {
  }

  /** A payment under a key no row has leaves the rows as they were. */
  lemma {:induction false} OtherPaymentKeepsOk(t: Tables, rows: seq<Row>, op: Op)
    requires RowsOk(t, rows) && op.Post? && !KeyKnown(rows, op.key)
    ensures RowsOk(SerialLedger.Call(t, op).0, rows)
  {
  }

  /** A pending row has its reservation, and still has it once claimed. */
  lemma {:induction false} ClaimedRowsReserved(t: Tables, before: seq<Row>, rows: seq<Row>, ids: seq<RowId>)
    requires RowsOk(t, before) && |rows| == |before|
    requires forall id | id in ids :: id < |rows| && before[id].status == Status.Pending && rows[id] == before[id].(status := Processing)
    ensures forall id | id in ids :: Reserved(t, rows[id])
  {
  }

  /** Rows outside ids did not change, and those that could be paid still can. */
  ghost predicate OthersKept(t: Tables, rows: seq<Row>, t': Tables, rows': seq<Row>, ids: seq<RowId>) {
    && |rows'| == |rows|
    && t'.accounts == t.accounts
    && (forall id | 0 <= id < |rows| && id !in ids ::
          rows'[id] == rows[id] && (Payable(t, rows[id]) ==> Payable(t', rows[id])))
  }

  /** A claimed row that could be paid, and whose attempt was not cut short, has paid. */
  ghost predicate PaidUnlessCut(t: Tables, rows: seq<Row>, rows': seq<Row>, ids: seq<RowId>, survived: RowId -> nat)
    requires |rows'| == |rows|
  {
    forall id | id in ids && id < |rows| && Payable(t, rows[id]) && survived(id) == 3 ::
      rows'[id].status == Status.Completed
  }

  lemma {:induction false} FollowsTransitively(rows0: seq<Row>, rows1: seq<Row>, rows2: seq<Row>)
    requires Follows(rows0, rows1) && Follows(rows1, rows2)
    ensures Follows(rows0, rows2)
  {
  }

  lemma {:induction false} FinalizedFollow(t: Tables, rows: seq<Row>, t': Tables, rows': seq<Row>, ids: seq<RowId>)
    requires OthersKept(t, rows, t', rows', ids) && InHand(rows, ids)
    ensures Follows(rows, rows')
  {
  }

  lemma {:induction false} OneMoreFinalized(t: Tables, rows: seq<Row>, t1: Tables, rows1: seq<Row>, t2: Tables, rows2: seq<Row>,
                                            ids: seq<RowId>, i: nat, survived: RowId -> nat)
    requires i < |ids| && InHand(rows, ids)
    requires OthersKept(t, rows, t1, rows1, ids[..i]) && PaidUnlessCut(t, rows, rows1, ids[..i], survived)
    requires OthersKept(t1, rows1, t2, rows2, [ids[i]]) && PaidUnlessCut(t1, rows1, rows2, [ids[i]], survived)
    ensures OthersKept(t, rows, t2, rows2, ids[..i + 1]) && PaidUnlessCut(t, rows, rows2, ids[..i + 1], survived)
  {
  }

  lemma {:induction false} StaysPayable(t: Tables, t': Tables, row: Row, other: Row)
    requires OnlyFor(t, t', row) && t'.accounts == t.accounts && other.key != row.key && other.hold != row.hold
    ensures Payable(t, other) ==> Payable(t', other)
  {
  }

  /** Rows this ticker claimed and has not worked on yet. */
  ghost predicate InHand(rows: seq<Row>, ids: seq<RowId>) {
    && (forall i | 0 <= i < |ids| :: ids[i] < |rows| && rows[ids[i]].status == Processing)
    && (forall i, j | 0 <= i < j < |ids| :: ids[i] != ids[j])
  }

  /** When a row left processing, or a matured one, was to be released. */
  function StuckSince(rows: seq<Row>): seq<Option<nat>> {
    seq(|rows|, i requires 0 <= i < |rows| => if rows[i].status == Processing then Some(rows[i].releaseAt) else None)
  }

  function DueSince(rows: seq<Row>, now: nat): seq<Option<nat>> {
    seq(|rows|, i requires 0 <= i < |rows| =>
      if rows[i].status == Status.Pending && rows[i].releaseAt <= now then Some(rows[i].releaseAt) else None)
  }

  /** At most twenty matured pending rows, earliest release first. */
  predicate EarliestDue(rows: seq<Row>, now: nat, ids: seq<RowId>) {
    && |ids| <= 20
    && (forall i | 0 <= i < |ids| :: ids[i] < |rows| && rows[ids[i]].status == Status.Pending && rows[ids[i]].releaseAt <= now)
    && (forall i, j | 0 <= i < j < |ids| :: ids[i] != ids[j] && rows[ids[i]].releaseAt <= rows[ids[j]].releaseAt)
    && (forall c: nat | c < |rows| && rows[c].status == Status.Pending && rows[c].releaseAt <= now && c !in ids ::
          |ids| == 20 && forall i | 0 <= i < |ids| :: rows[ids[i]].releaseAt <= rows[c].releaseAt)
  }

  /** At most twenty rows left processing, earliest release first. */
  predicate EarliestStuck(rows: seq<Row>, ids: seq<RowId>) {
    && |ids| <= 20
    && (forall i | 0 <= i < |ids| :: ids[i] < |rows| && rows[ids[i]].status == Processing)
    && (forall i, j | 0 <= i < j < |ids| :: ids[i] != ids[j] && rows[ids[i]].releaseAt <= rows[ids[j]].releaseAt)
    && (forall c: nat | c < |rows| && rows[c].status == Processing && c !in ids ::
          |ids| == 20 && forall i | 0 <= i < |ids| :: rows[ids[i]].releaseAt <= rows[c].releaseAt)
  }

  lemma {:induction false} OldestAreDue(rows: seq<Row>, now: nat, ids: seq<RowId>)
    requires OldestOf(DueSince(rows, now), ids, CLAIM_BATCH_SIZE)
    ensures EarliestDue(rows, now, ids)
  {
    var ages := DueSince(rows, now);
    forall c: nat | c < |rows| && ages[c].Some? && c !in ids
      ensures |ids| == 20 && forall i | 0 <= i < |ids| :: rows[ids[i]].releaseAt <= rows[c].releaseAt
    {
      assert NoOlderThan(ages, ids, c);
    }
  }

  lemma {:induction false} OldestAreStuck(rows: seq<Row>, ids: seq<RowId>)
    requires OldestOf(StuckSince(rows), ids, CLAIM_BATCH_SIZE)
    ensures EarliestStuck(rows, ids)
  {
    var ages := StuckSince(rows);
    forall c: nat | c < |rows| && ages[c].Some? && c !in ids
      ensures |ids| == 20 && forall i | 0 <= i < |ids| :: rows[ids[i]].releaseAt <= rows[c].releaseAt
    {
      assert NoOlderThan(ages, ids, c);
    }
  }

  lemma {:induction false} HoldLeavesRows(t: Tables, rows: seq<Row>, h: Hold)
    requires RowsOk(t, rows)
    ensures RowsOk(t.(holds := t.holds + [h]), rows)
  {
  }

  /** The requested row was added, pending for two minutes, with the hold placed for it. */
  predicate HeldBack(t: Tables, rows: seq<Row>, t': Tables, rows': seq<Row>, req: Row, now: nat) {
    && rows' == rows + [Row(req.from, req.to, req.sender, req.amount, req.key, |t.holds|, now + 120, Status.Pending, None)]
    && t' == t.(holds := t.holds + [Hold(req.from, req.amount, Active)])
  }

  class Service {
    const ledger: LedgerService.Service
    var rows: seq<Row>

    ghost predicate Valid()
      reads this, ledger
    {
      ledger.Valid() && RowsOk(ledger.Now(), rows)
    }

    constructor (ledger: LedgerService.Service)
      requires ledger.Valid()
      ensures Valid() && this.ledger == ledger && rows == []
    {
      this.ledger := ledger;
      rows := [];
    }

    /** Pays at once or reserves the money for a cancellable window; a name mismatch must be confirmed.  A repeated
        immediate payment answers with the first one's transaction. */
    method Send(req: Row, payee: Payee.Result, confirmed: bool, switchedOn: bool, now: nat) returns (r: SendResult)
      requires Valid()
      modifies this`rows, ledger
      ensures ledger.Valid()
      ensures !KeyKnown(old(rows), req.key) && (r.Held? ==> req.key !in old(ledger.keys)) ==> Valid()
      ensures r.Paid? && req.key in old(ledger.keys) ==>
        ledger.Now() == old(ledger.Now()) && old(ledger.keys)[req.key].response == Some(r.txn)
      ensures !switchedOn || (payee == Payee.NoMatch && !confirmed) ==>
        r == Refused && rows == old(rows) && ledger.Now() == old(ledger.Now())
      ensures r.Paid? <==>
        && switchedOn && payee == Payee.Match && req.amount < 50_000_000
        && StandingTransfer(old(ledger.Now()), req.from, req.to)
        && SerialLedger.Call(old(ledger.Now()), TransferOp(req.from, req.to, req.amount, req.key)).1.Succeeded?
      ensures r.Paid? ==> rows == old(rows)
      ensures r.Paid? ==> (ledger.Now(), Succeeded(r.txn)) == SerialLedger.Call(old(ledger.Now()), TransferOp(req.from, req.to, req.amount, req.key))
      ensures r.Held? <==>
        && switchedOn && (payee == Payee.NoMatch ==> confirmed)
        && !(payee == Payee.Match && req.amount < 50_000_000 && StandingTransfer(old(ledger.Now()), req.from, req.to))
        && !KeyKnown(old(rows), req.key) && SerialLedger.Affords(old(ledger.Now()), req.from, req.amount)
      ensures r.Held? ==> r.row == |old(rows)| && HeldBack(old(ledger.Now()), old(rows), ledger.Now(), rows, req, now)
    {
      if !switchedOn || (payee == Payee.NoMatch && !confirmed) {
        return Refused;
      }
      PaidBeforeIff(ledger.Now(), req.from, req.to);
      ImmediateIff(payee, req.amount, !PaidBefore(ledger.Now(), req.from, req.to));
      var reasons := RiskReasons(payee, req.amount, !PaidBefore(ledger.Now(), req.from, req.to));
      if reasons != [] {
        r := PlaceHold(req, now);
        return;
      }
      if !KeyKnown(rows, req.key) { OtherPaymentKeepsOk(ledger.Now(), rows, req.Pay()); }
      var txn := ledger.Transfer(req.from, req.to, req.amount, req.key);
      r := if txn.Succeeded? then Paid(txn.id) else Refused;
    }

    /** Reserves the amount and records the row.  A repeated key is refused by the row's unique key, but only
        after its hold was placed: that hold stays active and no row will ever release it. */
    method PlaceHold(req: Row, now: nat) returns (r: SendResult)
      requires Valid()
      modifies this`rows, ledger
      ensures ledger.Valid() && !r.Paid? && ((r.Held? ==> req.key !in old(ledger.keys)) ==> Valid())
      ensures r.Held? ==> r.row == |old(rows)| && HeldBack(old(ledger.Now()), old(rows), ledger.Now(), rows, req, now)
      ensures r.Held? <==> !KeyKnown(old(rows), req.key) && SerialLedger.Affords(old(ledger.Now()), req.from, req.amount)
      ensures r.Refused? ==> rows == old(rows)
      ensures r.Refused? && SerialLedger.Affords(old(ledger.Now()), req.from, req.amount) ==>
        ledger.Now() == old(ledger.Now()).(holds := old(ledger.holds) + [Hold(req.from, req.amount, Active)])
    {
      SerialLedger.HoldAcceptedIff(ledger.Now(), req.from, req.amount);
      var placed := ledger.PlaceHold(req.from, req.amount);
      if placed.Rejected? {
        return Refused;
      }
      HoldLeavesRows(old(ledger.Now()), rows, Hold(req.from, req.amount, Active));
      if KeyKnown(rows, req.key) {
        return Refused;
      }
      var row := req.(hold := placed.id, releaseAt := now + WINDOW, status := Status.Pending, txn := None);
      if req.key !in old(ledger.keys) { NewRowKeepsOk(old(ledger.Now()), rows, row); }
      rows := rows + [row];
      r := Held(|rows| - 1);
    }

    method Cancel(id: RowId, requester: string) returns (ok: bool)
      requires Valid()
      modifies this`rows, ledger
      ensures Valid() && Follows(old(rows), rows)
      ensures ok <==> id < |old(rows)| && old(rows)[id].sender == requester && old(rows)[id].status == Status.Pending
      ensures ok ==>
        && rows == old(rows)[id := old(rows)[id].(status := Cancelled)]
        && ledger.Now() == SetHold(old(ledger.Now()), rows[id].hold, Released)
      ensures !ok ==> rows == old(rows) && ledger.Now() == old(ledger.Now())
    {
      if id >= |rows| || rows[id].sender != requester || rows[id].status != Status.Pending {
        return false;
      }
      assert RowOk(ledger.Now(), rows[id]);
      var released := ledger.ReleaseHold(rows[id].hold);
      assert released.Succeeded?;
      var row := rows[id].(status := Cancelled);
      OneRowKeepsOk(old(ledger.Now()), rows, ledger.Now(), id, row);
      rows := rows[id := row];
      ok := true;
    }

    /** One row's release, cut short by a crash after `survived` statements. */
    method FinalizeRelease(id: RowId, survived: nat)
      requires ledger.Valid() && id < |rows|
      modifies this`rows, ledger
      ensures ledger.Valid() && |rows| == |old(rows)|
      ensures (ledger.Now(), rows[id]) == Attempt(old(ledger.Now()), old(rows)[id], survived)
      ensures rows == old(rows)[id := rows[id]]
    {
      var row := rows[id];
      if survived == 0 {
        return;
      }
      var released := ledger.ReleaseHold(row.hold);
      if survived == 1 || (released.Rejected? && released.error != HoldNotActive) {
        return;
      }
      var txn := ledger.Transfer(row.from, row.to, row.amount, row.key);
      if survived == 2 || txn.Rejected? {
        return;
      }
      rows := rows[id := row.(status := Status.Completed, txn := Some(txn.id))];
    }

    /** Rows left processing by an earlier crash, earliest release first, at most a batch of them. */
    method ClaimStuck() returns (ids: seq<RowId>)
      ensures EarliestStuck(rows, ids) && InHand(rows, ids)
    {
      ids := OldestFirst(StuckSince(rows), CLAIM_BATCH_SIZE);
      OldestAreStuck(rows, ids);
    }

    /** Marks matured rows as processing, earliest release first, at most a batch of them. */
    method ClaimDue(now: nat) returns (ids: seq<RowId>)
      requires RowsOk(ledger.Now(), rows)
      modifies this`rows
      ensures RowsOk(ledger.Now(), rows) && |rows| == |old(rows)| && InHand(rows, ids)
      ensures EarliestDue(old(rows), now, ids) && Follows(old(rows), rows)
      ensures forall id | 0 <= id < |rows| ::
        rows[id] == if id in ids then old(rows)[id].(status := Processing) else old(rows)[id]
    {
      ids := OldestFirst(DueSince(rows, now), CLAIM_BATCH_SIZE);
      OldestAreDue(rows, now, ids);
      for i := 0 to |ids|
        invariant |rows| == |old(rows)| && RowsOk(ledger.Now(), rows)
        invariant forall id | 0 <= id < |rows| :: rows[id] == if id in ids[..i] then old(rows)[id].(status := Processing) else old(rows)[id]
      {
        assert ids[i] !in ids[..i] && RowOk(ledger.Now(), rows[ids[i]]);
        OneRowKeepsOk(ledger.Now(), rows, ledger.Now(), ids[i], rows[ids[i]].(status := Processing));
        rows := rows[ids[i] := rows[ids[i]].(status := Processing)];
      }
      assert ids[..|ids|] == ids;
    }

    /** Works through claimed rows; a row that still has its reservation and is not cut short always pays. */
    method FinalizeAll(ids: seq<RowId>, survived: RowId -> nat)
      requires Valid() && InHand(rows, ids)
      modifies this`rows, ledger
      ensures Valid()
      ensures OthersKept(old(ledger.Now()), old(rows), ledger.Now(), rows, ids)
      ensures PaidUnlessCut(old(ledger.Now()), old(rows), rows, ids, survived)
    {
      var i := 0;
      while i < |ids|
        invariant 0 <= i <= |ids| && Valid()
        invariant OthersKept(old(ledger.Now()), old(rows), ledger.Now(), rows, ids[..i])
        invariant PaidUnlessCut(old(ledger.Now()), old(rows), rows, ids[..i], survived)
      {
        ghost var t, before := ledger.Now(), rows;
        assert ids[i] !in ids[..i];
        FinalizeNext(ids[i], survived);
        OneMoreFinalized(old(ledger.Now()), old(rows), t, before, ledger.Now(), rows, ids, i, survived);
        i := i + 1;
      }
      assert ids[..i] == ids;
    }

    method FinalizeNext(id: RowId, survived: RowId -> nat)
      requires Valid() && id < |rows| && rows[id].status == Processing
      modifies this`rows, ledger
      ensures Valid()
      ensures OthersKept(old(ledger.Now()), old(rows), ledger.Now(), rows, [id])
      ensures PaidUnlessCut(old(ledger.Now()), old(rows), rows, [id], survived)
    {
      AttemptKeepsOk(ledger.Now(), rows, id, survived(id));
      if Payable(ledger.Now(), rows[id]) { PayableCompletes(ledger.Now(), rows[id]); }
      FinalizeRelease(id, survived(id));
      forall k | 0 <= k < |rows| && k != id
        ensures Payable(old(ledger.Now()), rows[k]) ==> Payable(ledger.Now(), rows[k])
      {
        StaysPayable(old(ledger.Now()), ledger.Now(), old(rows)[id], rows[k]);
      }
    }

    /** One tick: rows an earlier crash left behind, then newly matured ones.  A matured row whose three statements
        all run always completes; so does a row left behind that still has its reservation or was paid already. */
    method ReleaseMatured(now: nat, survived: RowId -> nat) returns (stuck: seq<RowId>, due: seq<RowId>)
      requires Valid()
      modifies this`rows, ledger
      ensures Valid() && Follows(old(rows), rows) && |rows| == |old(rows)|
      ensures EarliestStuck(old(rows), stuck) && EarliestDue(old(rows), now, due)
      ensures forall id | id in stuck && survived(id) == 3 && Payable(old(ledger.Now()), old(rows)[id]) :: rows[id].status == Status.Completed
      ensures forall id | id in due && survived(id) == 3 && old(rows)[id].to in old(ledger.accounts) :: rows[id].status == Status.Completed
      ensures forall id | 0 <= id < |rows| && id !in stuck && id !in due :: rows[id] == old(rows)[id]
    {
      stuck := ClaimStuck();
      due := ClaimDue(now);
      ghost var t, claimed := ledger.Now(), rows;
      ClaimedRowsReserved(t, old(rows), claimed, due);
      FinalizeAll(stuck, survived);
      ghost var t1, rows1 := ledger.Now(), rows;
      FinalizedFollow(t, claimed, t1, rows1, stuck);
      FinalizeAll(due, survived);
      FinalizedFollow(t1, rows1, ledger.Now(), rows, due);
      FollowsTransitively(claimed, rows1, rows);
      FollowsTransitively(old(rows), claimed, rows);
    }
  }
}
