/** Outbound and inbound transfers processed by any number of overlapping workers, resolvers, senders and
    investigators, one statement at a time, with a crash possible between any two statements. */
module ExternalTransfers {
  import opened LedgerTables
  import opened AtomicLedger
  import opened TransferRows
  import SerialLedger
  import LedgerGuarantees

  type WorkerId = nat

  /** The next statement of a caller working on one row. */
  datatype Pc =
    | CheckAssessed                 // processRow: has the row been scored?
    | LookupAssessment              // Assess: the stored decision, if any
    | RecordAssessment(d: Decision) // Assess: INSERT the decision
    | AfterLookup(d: Decision)      // processRow: act on a decision Assess found stored
    | MarkHeld                      // Assess: risk_status = 'held'
    | RevertToPending               // processRow: status = 'pending'
    | BlockLookup                   // investigator: is the row held?
    | BlockRelease                  // failAndRelease: release the hold
    | BlockMark                     // failAndRelease: status = 'failed', risk_status = 'blocked'
    | CallRail
    | FailRelease                   // rail rejected: release the hold
    | FailMark                      // rail rejected: status = 'failed'
    | Settle                        // rail accepted: capture or credit
    | Complete(txn: TxnId)          // status = 'completed'

  datatype SendPc = SendLookup | SendHold | SendInsert(hold: Option<HoldId>)

  datatype Worker =
    | Sending(req: Request, step: SendPc)
    | Working(row: RowId, pc: Pc)

  datatype World = World(
    reserved: set<Key>,              // keys only transfers use
    ledger: Tables,
    rows: map<RowId, Row>,
    assessed: map<RowId, Decision>,
    workers: map<WorkerId, Worker>)

  datatype Action =
    | StartSend(worker: WorkerId, req: Request)
    | ClaimPending(worker: WorkerId, row: RowId)
    | ClaimStuck(worker: WorkerId, row: RowId)
    | StartBlock(worker: WorkerId, row: RowId)
    | Approve(row: RowId)
    | Step(worker: WorkerId, ok: bool, decision: Decision, newRow: RowId, now: nat)
    | Crash(worker: WorkerId)
    | OtherCall(op: Op)              // any other ledger call that commits

  /** A ledger call as its caller may see it: refused with no effect, replayed, or committed.  `ok` stands for every
      refusal, the leg-by-leg one included; what commits is covered as a whole. */
  function Attempt(t: Tables, op: Op, ok: bool): (Tables, Outcome) {
    if !ok then (t, Rejected(DatabaseError))
    else if op.Keyed() && op.key in t.keys then (t, SerialLedger.Replay(t.keys[op.key], op))
    else if CanCommit(t, op) then (Commit(t, op), Succeeded(SerialLedger.FreshId(t, op)))
    else (t, Rejected(DatabaseError))
  }

  // ---------- one statement ----------

  function Stop(w: World, id: WorkerId): World { w.(workers := w.workers - {id}) }

  function Goto(w: World, id: WorkerId, row: RowId, pc: Pc): World {
    w.(workers := w.workers[id := Working(row, pc)])
  }

  function Update(w: World, row: RowId, data: Row): World { w.(rows := w.rows[row := data]) }

  predicate KeyInRows(w: World, key: Key) { exists r :: r in w.rows && w.rows[r].key == key }

  function StepSend(w: World, id: WorkerId, req: Request, step: SendPc, ok: bool, newRow: RowId, now: nat): World {
    match step
    case SendLookup =>
      if KeyInRows(w, req.key) then Stop(w, id)
      else w.(workers := w.workers[id := Sending(req, SendHold)])
    case SendHold =>
      if req.direction == Inbound then w.(workers := w.workers[id := Sending(req, SendInsert(None))])
      else
        var (t, outcome) := Attempt(w.ledger, PlaceHold(req.account, req.amount), ok);
        if outcome.Succeeded?
        then w.(ledger := t, workers := w.workers[id := Sending(req, SendInsert(Some(outcome.id)))])
        else Stop(w, id)
    case SendInsert(hold) =>
      if KeyInRows(w, req.key) || newRow in w.rows then Stop(w, id)     // unique violation
      else Stop(w, id).(rows := w.rows[newRow := NewRow(req, hold, now)])
  }

  function StepRelease(w: World, id: WorkerId, r: RowId, ok: bool, next: Pc): World
    requires r in w.rows
  {
    match w.rows[r].hold
    case None => Goto(w, id, r, next)
    case Some(h) =>
      var (t, outcome) := Attempt(w.ledger, ReleaseHold(h), ok);
      if outcome.Succeeded? then Goto(w, id, r, next).(ledger := t) else Stop(w, id)
  }

  function StepSettle(w: World, id: WorkerId, r: RowId, ok: bool): World
    requires r in w.rows
  {
    var row := w.rows[r];
    if row.direction == Outbound && row.hold.None? then Stop(w, id)
    else
      var (t, outcome) := Attempt(w.ledger, SettleOp(row), ok);
      if outcome.Succeeded? then Goto(w, id, r, Complete(outcome.id)).(ledger := t) else Stop(w, id)
  }

  function StepWork(w: World, id: WorkerId, r: RowId, pc: Pc, ok: bool, decision: Decision): World
    requires r in w.rows
  {
    var row := w.rows[r];
    match pc
    case CheckAssessed => Goto(w, id, r, if r in w.assessed then CallRail else LookupAssessment)
    case LookupAssessment => Goto(w, id, r, if r in w.assessed then AfterLookup(w.assessed[r]) else RecordAssessment(decision))
    case RecordAssessment(d) =>
      if r in w.assessed then Stop(w, id)                              // unique violation
      else
        var next := match d case Block => BlockRelease case Hold => MarkHeld case Allow => CallRail;
        Goto(w, id, r, next).(assessed := w.assessed[r := d])
    case AfterLookup(d) =>
      (match d
       case Allow => Goto(w, id, r, CallRail)
       case Hold => Goto(w, id, r, RevertToPending)
       case Block => Stop(w, id))
    case MarkHeld => Goto(Update(w, r, row.(risk := Held)), id, r, RevertToPending)
    case RevertToPending => Stop(Update(w, r, row.(status := Status.Pending)), id)
    case BlockLookup => if row.risk == Held then Goto(w, id, r, BlockRelease) else Stop(w, id)
    case BlockRelease => StepRelease(w, id, r, ok, BlockMark)
    case BlockMark => Stop(Update(w, r, row.(status := Status.Failed, risk := Blocked)), id)
    case CallRail =>
      if !ok then Stop(w, id)                                          // no answer: left processing
      else if !RailRejects(row.counterparty) then Goto(w, id, r, Settle)
      else Goto(w, id, r, if row.direction == Outbound && row.hold.Some? then FailRelease else FailMark)
    case FailRelease => StepRelease(w, id, r, ok, FailMark)
    case FailMark => Stop(Update(w, r, row.(status := Status.Failed)), id)
    case Settle => StepSettle(w, id, r, ok)
    case Complete(txn) => Stop(Update(w, r, row.(status := Status.Completed, txn := Some(txn))), id)
  }

  /** The hold belongs to a row, or to a sender about to insert one. */
  ghost predicate Owned(w: World, h: HoldId) {
    || (exists r :: r in w.rows && w.rows[r].hold == Some(h))
    || (exists id :: id in w.workers && Carries(w.workers[id], h))
  }

  predicate Carries(worker: Worker, h: HoldId) {
    worker.Sending? && worker.step.SendInsert? && worker.step.hold == Some(h)
  }

  /** Other callers use neither the transfers' keys nor their holds. */
  ghost predicate Foreign(w: World, op: Op) {
    && (op.Keyed() ==> op.key !in w.reserved)
    && (op.CaptureHold? || op.ReleaseHold? ==> !Owned(w, op.hold))
  }

  ghost function Do(w: World, action: Action): World {
    match action
    case StartSend(id, req) =>
      if id in w.workers || req.key !in w.reserved then w
      else w.(workers := w.workers[id := Sending(req, SendLookup)])
    case ClaimPending(id, r) =>
      if id in w.workers || r !in w.rows || w.rows[r].status != Status.Pending || w.rows[r].risk != Clear then w
      else Goto(Update(w, r, w.rows[r].(status := Status.Processing)), id, r, CheckAssessed)
    case ClaimStuck(id, r) =>
      if id in w.workers || r !in w.rows || w.rows[r].status != Status.Processing then w
      else Goto(w, id, r, CheckAssessed)
    case StartBlock(id, r) =>
      if id in w.workers || r !in w.rows then w else Goto(w, id, r, BlockLookup)
    case Approve(r) =>
      if r !in w.rows || w.rows[r].risk != Held then w else Update(w, r, w.rows[r].(risk := Clear))
    case Step(id, ok, decision, newRow, now) =>
      if id !in w.workers then w
      else (match w.workers[id]
            case Sending(req, step) => StepSend(w, id, req, step, ok, newRow, now)
            case Working(r, pc) => if r in w.rows then StepWork(w, id, r, pc, ok, decision) else w)
    case Crash(id) => Stop(w, id)
    case OtherCall(op) =>
      if Foreign(w, op) && CanCommit(w.ledger, op) then w.(ledger := Commit(w.ledger, op)) else w
  }

  // ---------- the invariant ----------

  ghost predicate Released'(t: Tables, row: Row) {
    row.direction == Outbound && row.hold.Some? ==>
      row.hold.value < |t.holds| && t.holds[row.hold.value].status == Released
  }

  /** Nothing but this row's key has captured the hold. */
  ghost predicate OnlyCapturedUnder(t: Tables, h: HoldId, key: Key) {
    forall k | k in t.keys && t.keys[k].hash == CaptureHash(h) :: k == key
  }

  ghost predicate RowFits(t: Tables, row: Row) {
    && (row.direction == Outbound <==> row.hold.Some?)
    && (row.hold.Some? ==>
          && row.hold.value < |t.holds|
          && t.holds[row.hold.value].account == row.account
          && t.holds[row.hold.value].amount == row.amount
          && OnlyCapturedUnder(t, row.hold.value, row.key))
    && (row.key in t.keys ==> t.keys[row.key].hash == HashOf(SettleOp(row)))
    && (row.status == Status.Completed ==> row.key in t.keys && row.txn == t.keys[row.key].response)
    && (row.status == Status.Failed ==> Released'(t, row))
  }

  ghost predicate WorkerFits(t: Tables, rows: map<RowId, Row>, worker: Worker) {
    match worker
    case Sending(req, step) =>
      step.SendInsert? ==>
        && (req.direction == Outbound <==> step.hold.Some?)
        && (step.hold.Some? ==>
              && step.hold.value < |t.holds|
              && t.holds[step.hold.value].account == req.account
              && t.holds[step.hold.value].amount == req.amount
              && (forall k | k in t.keys :: t.keys[k].hash != CaptureHash(step.hold.value)))
    case Working(r, pc) =>
      && r in rows
      && (pc == FailMark || pc == BlockMark ==> Released'(t, rows[r]))
      && (pc.Complete? ==> rows[r].key in t.keys && t.keys[rows[r].key].response == Some(pc.txn))
  }

  ghost predicate RowsApart(rows: map<RowId, Row>) {
    forall i, j | i in rows && j in rows && i != j ::
      rows[i].key != rows[j].key && (rows[i].hold.None? || rows[i].hold != rows[j].hold)
  }

  ghost predicate CarriedApart(w: World) {
    && (forall id, r, h: HoldId | id in w.workers && r in w.rows && Carries(w.workers[id], h) :: w.rows[r].hold != Some(h))
    && (forall i, j, h: HoldId | i in w.workers && j in w.workers && i != j && Carries(w.workers[i], h) :: !Carries(w.workers[j], h))
  }

  ghost predicate AllFit(w: World) {
    && (forall r | r in w.rows :: RowFits(w.ledger, w.rows[r]) && w.rows[r].key in w.reserved)
    && (forall id | id in w.workers :: WorkerFits(w.ledger, w.rows, w.workers[id]))
    && (forall id | id in w.workers && w.workers[id].Sending? :: w.workers[id].req.key in w.reserved)
  }

  ghost predicate KeysHaveRows(w: World) {
    forall k | k in w.ledger.keys && k in w.reserved :: KeyInRows(w, k)
  }

  ghost predicate TransfersOk(w: World) {
    AllFit(w) && RowsApart(w.rows) && CarriedApart(w) && KeysHaveRows(w)
  }

  ghost predicate Inv(w: World) { TablesOk(w.ledger) && TransfersOk(w) }

  // ---------- ledger commits ----------

  /** The commit uses the row's key only to settle the row, and captures the row's hold only under it. */
  ghost predicate Suits(op: Op, row: Row)
    requires row.direction == Outbound <==> row.hold.Some?
  {
    && (op.Keyed() && op.key == row.key ==> HashOf(op) == HashOf(SettleOp(row)))
    && (op.CaptureHold? && row.hold == Some(op.hold) ==> op.key == row.key)
  }

  lemma {:induction false} RowStillFits(t: Tables, op: Op, row: Row)
    requires CanCommit(t, op) && RowFits(t, row) && Suits(op, row)
    ensures RowFits(Commit(t, op), row)
  {
  }

  lemma {:induction false} WorkerStillFits(t: Tables, op: Op, rows: map<RowId, Row>, worker: Worker)
    requires CanCommit(t, op) && WorkerFits(t, rows, worker)
    requires op.CaptureHold? ==> !Carries(worker, op.hold)
    ensures WorkerFits(Commit(t, op), rows, worker)
  {
  }

  ghost predicate SuitsAll(w: World, op: Op) {
    && (forall r | r in w.rows :: (w.rows[r].direction == Outbound <==> w.rows[r].hold.Some?) && Suits(op, w.rows[r]))
    && (op.CaptureHold? ==> forall id | id in w.workers :: !Carries(w.workers[id], op.hold))
    && (op.Keyed() && op.key in w.reserved ==> KeyInRows(w, op.key))
  }

  lemma {:induction false} LedgerCommitKeepsInv(w: World, op: Op)
    requires Inv(w) && CanCommit(w.ledger, op) && SuitsAll(w, op)
    ensures Inv(w.(ledger := Commit(w.ledger, op)))
  {
    var w' := w.(ledger := Commit(w.ledger, op));
    CommitKeepsOk(w.ledger, op);
    forall r | r in w.rows ensures RowFits(w'.ledger, w.rows[r]) {
      RowStillFits(w.ledger, op, w.rows[r]);
    }
    forall id | id in w.workers ensures WorkerFits(w'.ledger, w.rows, w.workers[id]) {
      WorkerStillFits(w.ledger, op, w.rows, w.workers[id]);
    }
    forall k | k in w'.ledger.keys && k in w'.reserved ensures KeyInRows(w', k) {
      if k in w.ledger.keys { assert KeyInRows(w, k); } else { assert KeyInRows(w, op.key); }
    }
  }

  /** Replaying, refusing or committing a suitable call keeps the invariant; so does every later look at it. */
  lemma {:induction false} AttemptKeepsInv(w: World, op: Op, ok: bool)
    requires Inv(w) && SuitsAll(w, op)
    ensures Inv(w.(ledger := Attempt(w.ledger, op, ok).0))
  {
    if ok && CanCommit(w.ledger, op) && !(op.Keyed() && op.key in w.ledger.keys) {
      LedgerCommitKeepsInv(w, op);
    } else {
      assert w.(ledger := w.ledger) == w;
    }
  }

  // ---------- rows and workers ----------

  lemma {:induction false} StopKeepsOk(w: World, id: WorkerId)
    requires TransfersOk(w)
    ensures TransfersOk(Stop(w, id))
  {
  }

  lemma {:induction false} GotoKeepsOk(w: World, id: WorkerId, r: RowId, pc: Pc)
    requires TransfersOk(w) && WorkerFits(w.ledger, w.rows, Working(r, pc))
    ensures TransfersOk(Goto(w, id, r, pc))
  {
    assert forall k | k in w.ledger.keys && k in w.reserved :: KeyInRows(w, k) ==> KeyInRows(Goto(w, id, r, pc), k);
  }

  /** Only the columns a worker updates differ. */
  ghost predicate SameTransfer(row: Row, data: Row) {
    data == row.(status := data.status, risk := data.risk, txn := data.txn)
  }

  lemma {:induction false} UpdateKeepsOk(w: World, r: RowId, data: Row)
    requires TransfersOk(w) && r in w.rows && SameTransfer(w.rows[r], data) && RowFits(w.ledger, data)
    ensures TransfersOk(Update(w, r, data))
  {
    var w' := Update(w, r, data);
    forall id | id in w.workers ensures WorkerFits(w'.ledger, w'.rows, w'.workers[id]) {
      assert WorkerFits(w.ledger, w.rows, w.workers[id]);
    }
    forall k | k in w.ledger.keys && k in w.reserved ensures KeyInRows(w', k) {
      assert KeyInRows(w, k);
      var x :| x in w.rows && w.rows[x].key == k;
      assert w'.rows[x].key == k;
    }
  }

  // ---------- a worker's statements ----------

  lemma {:induction false} ReleaseSuits(w: World, h: HoldId)
    requires TransfersOk(w)
    ensures SuitsAll(w, ReleaseHold(h))
  {
  }

  lemma {:induction false} ReleaseStepKeepsInv(w: World, id: WorkerId, r: RowId, ok: bool, next: Pc)
    requires Inv(w) && r in w.rows && !next.Complete?
    ensures Inv(StepRelease(w, id, r, ok, next))
  {
    match w.rows[r].hold
    case None => ReleaseStepKeepsRows(w, w, id, r, ok, next);
    case Some(h) =>
      ReleaseSuits(w, h);
      AttemptKeepsInv(w, ReleaseHold(h), ok);
      ReleaseStepKeepsRows(w, w.(ledger := Attempt(w.ledger, ReleaseHold(h), ok).0), id, r, ok, next);
  }

  lemma {:induction false} ReleaseStepKeepsRows(w: World, w1: World, id: WorkerId, r: RowId, ok: bool, next: Pc)
    requires TransfersOk(w) && TransfersOk(w1) && r in w.rows && !next.Complete?
    requires w1 == if w.rows[r].hold.None? then w else w.(ledger := Attempt(w.ledger, ReleaseHold(w.rows[r].hold.value), ok).0)
    ensures TransfersOk(StepRelease(w, id, r, ok, next))
    ensures StepRelease(w, id, r, ok, next).ledger == w.ledger || StepRelease(w, id, r, ok, next).ledger == w1.ledger
  {
    assert RowFits(w.ledger, w.rows[r]);
    if w.rows[r].hold.Some? && Attempt(w.ledger, ReleaseHold(w.rows[r].hold.value), ok).1.Rejected? {
      StopKeepsOk(w, id);
    } else {
      GotoKeepsOk(w1, id, r, next);
    }
  }

  lemma {:induction false} SettleSuits(w: World, r: RowId)
    requires TransfersOk(w) && r in w.rows
    ensures SuitsAll(w, SettleOp(w.rows[r]))
  {
  }

  lemma {:induction false} SettledReply(t: Tables, row: Row, ok: bool)
    requires KeysOk(t) && RowFits(t, row) && Attempt(t, SettleOp(row), ok).1.Succeeded?
    ensures var (t', outcome) := Attempt(t, SettleOp(row), ok);
      row.key in t'.keys && t'.keys[row.key].response == Some(outcome.id)
  {
  }

  lemma {:induction false} SettleStepKeepsInv(w: World, id: WorkerId, r: RowId, ok: bool)
    requires Inv(w) && r in w.rows
    ensures Inv(StepSettle(w, id, r, ok))
  {
    var row := w.rows[r];
    assert RowFits(w.ledger, row);
    var (t, outcome) := Attempt(w.ledger, SettleOp(row), ok);
    if outcome.Succeeded? {
      SettleSuits(w, r);
      AttemptKeepsInv(w, SettleOp(row), ok);
      SettledReply(w.ledger, row, ok);
      GotoKeepsOk(w.(ledger := t), id, r, Complete(outcome.id));
    } else {
      StopKeepsOk(w, id);
    }
  }

  /** A worker that records an outcome records it only once the ledger bears it out. */
  lemma {:induction false} MarkStepKeepsOk(w: World, id: WorkerId, r: RowId, pc: Pc)
    requires TransfersOk(w) && r in w.rows && id in w.workers && w.workers[id] == Working(r, pc)
    requires pc == BlockMark || pc == FailMark || pc.Complete? || pc == MarkHeld || pc == RevertToPending
    ensures TransfersOk(StepWork(w, id, r, pc, true, Allow))
  {
    var row := w.rows[r];
    assert RowFits(w.ledger, row) && WorkerFits(w.ledger, w.rows, w.workers[id]);
    var data := match pc
                case BlockMark => row.(status := Status.Failed, risk := Blocked)
                case FailMark => row.(status := Status.Failed)
                case Complete(txn) => row.(status := Status.Completed, txn := Some(txn))
                case MarkHeld => row.(risk := Held)
                case _ => row.(status := Status.Pending);
    UpdateKeepsOk(w, r, data);
    if pc == MarkHeld {
      GotoKeepsOk(Update(w, r, data), id, r, RevertToPending);
    } else {
      StopKeepsOk(Update(w, r, data), id);
    }
  }

  lemma {:induction false} RecordKeepsOk(w: World, r: RowId, d: Decision)
    requires TransfersOk(w)
    ensures TransfersOk(w.(assessed := w.assessed[r := d]))
  {
  }

  lemma {:induction false} ScoreStepKeepsOk(w: World, id: WorkerId, r: RowId, d: Decision)
    requires TransfersOk(w) && r in w.rows
    ensures TransfersOk(StepWork(w, id, r, RecordAssessment(d), true, d))
  {
    if r in w.assessed {
      StopKeepsOk(w, id);
    } else {
      RecordKeepsOk(w, r, d);
      var next := match d case Block => BlockRelease case Hold => MarkHeld case Allow => CallRail;
      GotoKeepsOk(w.(assessed := w.assessed[r := d]), id, r, next);
    }
  }

  lemma {:induction false} RailStepKeepsOk(w: World, id: WorkerId, r: RowId, ok: bool)
    requires TransfersOk(w) && r in w.rows
    ensures TransfersOk(StepWork(w, id, r, CallRail, ok, Allow))
  {
    var row := w.rows[r];
    assert RowFits(w.ledger, row);
    if !ok {
      StopKeepsOk(w, id);
    } else if !RailRejects(row.counterparty) {
      GotoKeepsOk(w, id, r, Settle);
    } else {
      GotoKeepsOk(w, id, r, if row.direction == Outbound && row.hold.Some? then FailRelease else FailMark);
    }
  }

  /** Statements that only read. */
  lemma {:induction false} ReadStepKeepsOk(w: World, id: WorkerId, r: RowId, pc: Pc, decision: Decision)
    requires TransfersOk(w) && r in w.rows
    requires pc == CheckAssessed || pc == LookupAssessment || pc == BlockLookup || pc.AfterLookup?
    ensures TransfersOk(StepWork(w, id, r, pc, true, decision))
  {
    if pc == CheckAssessed {
      GotoKeepsOk(w, id, r, if r in w.assessed then CallRail else LookupAssessment);
    } else if pc == LookupAssessment {
      GotoKeepsOk(w, id, r, if r in w.assessed then AfterLookup(w.assessed[r]) else RecordAssessment(decision));
    } else if pc == BlockLookup {
      if w.rows[r].risk == Held { GotoKeepsOk(w, id, r, BlockRelease); } else { StopKeepsOk(w, id); }
    } else if pc.d == Block {
      StopKeepsOk(w, id);
    } else {
      GotoKeepsOk(w, id, r, if pc.d == Allow then CallRail else RevertToPending);
    }
  }

  predicate CallsLedger(pc: Pc) { pc == BlockRelease || pc == FailRelease || pc == Settle }

  lemma {:induction false} OtherStepsLeaveLedger(w: World, id: WorkerId, r: RowId, pc: Pc, ok: bool, decision: Decision)
    requires r in w.rows && !CallsLedger(pc)
    ensures StepWork(w, id, r, pc, ok, decision).ledger == w.ledger
  {
  }

  /** Statements that leave the ledger alone. */
  lemma {:induction false} TransferStepKeepsOk(w: World, id: WorkerId, r: RowId, pc: Pc, ok: bool, decision: Decision)
    requires TransfersOk(w) && r in w.rows && id in w.workers && w.workers[id] == Working(r, pc) && !CallsLedger(pc)
    ensures TransfersOk(StepWork(w, id, r, pc, ok, decision))
  {
    if pc == CallRail {
      RailStepKeepsOk(w, id, r, ok);
    } else if pc.RecordAssessment? {
      ScoreStepKeepsOk(w, id, r, pc.d);
    } else if pc == CheckAssessed || pc == LookupAssessment || pc == BlockLookup || pc.AfterLookup? {
      ReadStepKeepsOk(w, id, r, pc, decision);
    } else {
      MarkStepKeepsOk(w, id, r, pc);
    }
  }

  lemma {:induction false} WorkKeepsInv(w: World, id: WorkerId, r: RowId, pc: Pc, ok: bool, decision: Decision)
    requires Inv(w) && r in w.rows && id in w.workers && w.workers[id] == Working(r, pc)
    ensures Inv(StepWork(w, id, r, pc, ok, decision))
  {
    if pc == Settle {
      SettleStepKeepsInv(w, id, r, ok);
    } else if pc == BlockRelease {
      ReleaseStepKeepsInv(w, id, r, ok, BlockMark);
    } else if pc == FailRelease {
      ReleaseStepKeepsInv(w, id, r, ok, FailMark);
    } else {
      TransferStepKeepsOk(w, id, r, pc, ok, decision);
      OtherStepsLeaveLedger(w, id, r, pc, ok, decision);
    }
  }

  // ---------- a sender's statements ----------

  lemma {:induction false} PlaceSuits(w: World, account: AccountId, amount: int)
    requires TransfersOk(w)
    ensures SuitsAll(w, PlaceHold(account, amount))
  {
  }

  /** A sender takes hold h, which nobody owns yet, into its insert. */
  lemma {:induction false} CarryKeepsOk(w: World, id: WorkerId, req: Request, h: HoldId)
    requires TransfersOk(w) && req.key in w.reserved && !Owned(w, h)
    requires WorkerFits(w.ledger, w.rows, Sending(req, SendInsert(Some(h))))
    ensures TransfersOk(w.(workers := w.workers[id := Sending(req, SendInsert(Some(h)))]))
  {
  }

  lemma {:induction false} NewHoldUnowned(w: World)
    requires AllFit(w)
    ensures !Owned(w, |w.ledger.holds|)
  {
  }

  lemma {:induction false} NewHoldFits(w: World, req: Request)
    requires Inv(w) && req.direction == Outbound && CanCommit(w.ledger, PlaceHold(req.account, req.amount))
    ensures var w1, h := w.(ledger := Commit(w.ledger, PlaceHold(req.account, req.amount))), |w.ledger.holds|;
      && WorkerFits(w1.ledger, w1.rows, Sending(req, SendInsert(Some(h))))
      && !Owned(w1, h)
  {
    NewHoldUncaptured(w.ledger);
    NewHoldUnowned(w);
  }

  lemma {:induction false} HoldStepKeepsInv(w: World, id: WorkerId, req: Request)
    requires Inv(w) && id in w.workers && w.workers[id] == Sending(req, SendHold) && req.direction == Outbound
    requires CanCommit(w.ledger, PlaceHold(req.account, req.amount))
    ensures Inv(StepSend(w, id, req, SendHold, true, 0, 0))
  {
    var op := PlaceHold(req.account, req.amount);
    var w1 := w.(ledger := Commit(w.ledger, op));
    assert Inv(w1) by {
      PlaceSuits(w, req.account, req.amount);
      LedgerCommitKeepsInv(w, op);
    }
    NewHoldFits(w, req);
    CarryKeepsOk(w1, id, req, |w.ledger.holds|);
  }

  /** The next hold's id has not been captured under any key. */
  lemma {:induction false} NewHoldUncaptured(t: Tables)
    requires TablesOk(t)
    ensures forall k | k in t.keys :: t.keys[k].hash != CaptureHash(|t.holds|)
  {
    forall k | k in t.keys ensures t.keys[k].hash != CaptureHash(|t.holds|) {
      var c, h := t.keys[k].response.value, |t.holds|;
      assert Captures(t, c, h) <==> t.keys[k].hash == CaptureHash(h);
    }
  }

  /** A row whose key and hold no other row has. */
  lemma {:induction false} NewRowKeepsOk(w: World, newRow: RowId, data: Row)
    requires TransfersOk(w) && newRow !in w.rows && !KeyInRows(w, data.key) && data.key in w.reserved
    requires RowFits(w.ledger, data)
    requires data.hold.Some? ==> !Owned(w, data.hold.value)
    ensures TransfersOk(Update(w, newRow, data))
  {
    var w' := Update(w, newRow, data);
    forall k | k in w'.ledger.keys && k in w'.reserved ensures KeyInRows(w', k) {
      assert KeyInRows(w, k);
      var x :| x in w.rows && w.rows[x].key == k;
      assert w'.rows[x].key == k;
    }
    forall x | x in w'.workers ensures WorkerFits(w'.ledger, w'.rows, w'.workers[x]) {
      assert WorkerFits(w.ledger, w.rows, w.workers[x]);
    }
  }

  lemma {:induction false} InsertKeepsOk(w: World, id: WorkerId, req: Request, hold: Option<HoldId>, newRow: RowId, now: nat)
    requires TransfersOk(w) && id in w.workers && w.workers[id] == Sending(req, SendInsert(hold))
    requires !KeyInRows(w, req.key) && newRow !in w.rows
    ensures TransfersOk(StepSend(w, id, req, SendInsert(hold), true, newRow, now))
  {
    assert WorkerFits(w.ledger, w.rows, w.workers[id]);
    StopKeepsOk(w, id);
    assert hold.Some? ==> Carries(w.workers[id], hold.value);
    assert hold.Some? ==> !Owned(Stop(w, id), hold.value);
    assert req.key in w.ledger.keys ==> KeyInRows(w, req.key);
    NewRowKeepsOk(Stop(w, id), newRow, NewRow(req, hold, now));
  }

  lemma {:induction false} WaitKeepsOk(w: World, id: WorkerId, req: Request, step: SendPc)
    requires TransfersOk(w) && req.key in w.reserved && !(step.SendInsert? && step.hold.Some?)
    requires step.SendInsert? ==> req.direction == Inbound
    ensures TransfersOk(w.(workers := w.workers[id := Sending(req, step)]))
  {
  }

  lemma {:induction false} SendKeepsInv(w: World, id: WorkerId, req: Request, step: SendPc, ok: bool, newRow: RowId, now: nat)
    requires Inv(w) && id in w.workers && w.workers[id] == Sending(req, step)
    ensures Inv(StepSend(w, id, req, step, ok, newRow, now))
  {
    if id !in StepSend(w, id, req, step, ok, newRow, now).workers {
      if step.SendInsert? && !KeyInRows(w, req.key) && newRow !in w.rows {
        InsertKeepsOk(w, id, req, step.hold, newRow, now);
      } else {
        StopKeepsOk(w, id);
      }
    } else if step == SendHold && req.direction == Outbound {
      HoldStepKeepsInv(w, id, req);
    } else {
      WaitKeepsOk(w, id, req, if step == SendLookup then SendHold else SendInsert(None));
    }
  }

  // ---------- every action, every run ----------

  lemma {:induction false} ClaimKeepsOk(w: World, id: WorkerId, r: RowId, status: Status)
    requires TransfersOk(w) && r in w.rows && status == Status.Processing
    ensures TransfersOk(Goto(Update(w, r, w.rows[r].(status := status)), id, r, CheckAssessed))
  {
    assert RowFits(w.ledger, w.rows[r]);
    UpdateKeepsOk(w, r, w.rows[r].(status := status));
    GotoKeepsOk(Update(w, r, w.rows[r].(status := status)), id, r, CheckAssessed);
  }

  lemma {:induction false} ApproveKeepsOk(w: World, r: RowId)
    requires TransfersOk(w) && r in w.rows
    ensures TransfersOk(Update(w, r, w.rows[r].(risk := Clear)))
  {
    assert RowFits(w.ledger, w.rows[r]);
    UpdateKeepsOk(w, r, w.rows[r].(risk := Clear));
  }

  lemma {:induction false} ForeignKeepsInv(w: World, op: Op)
    requires Inv(w) && Foreign(w, op) && CanCommit(w.ledger, op)
    ensures Inv(w.(ledger := Commit(w.ledger, op)))
  {
    forall r | r in w.rows ensures (w.rows[r].direction == Outbound <==> w.rows[r].hold.Some?) && Suits(op, w.rows[r]) {
      assert RowFits(w.ledger, w.rows[r]);
    }
    LedgerCommitKeepsInv(w, op);
  }

  lemma {:induction false} DoKeepsInv(w: World, action: Action)
    requires Inv(w)
    ensures Inv(Do(w, action))
  {
    if Do(w, action) != w {
      match action
      case StartSend(id, req) => WaitKeepsOk(w, id, req, SendLookup);
      case ClaimPending(id, r) => ClaimKeepsOk(w, id, r, Status.Processing);
      case ClaimStuck(id, r) => GotoKeepsOk(w, id, r, CheckAssessed);
      case StartBlock(id, r) => GotoKeepsOk(w, id, r, BlockLookup);
      case Approve(r) => ApproveKeepsOk(w, r);
      case Crash(id) => StopKeepsOk(w, id);
      case OtherCall(op) => ForeignKeepsInv(w, op);
      case Step(id, ok, decision, newRow, now) =>
        if w.workers[id].Sending? {
          SendKeepsInv(w, id, w.workers[id].req, w.workers[id].step, ok, newRow, now);
        } else {
          WorkKeepsInv(w, id, w.workers[id].row, w.workers[id].pc, ok, decision);
        }
    }
  }

  ghost function Run(w: World, actions: seq<Action>): World {
    if actions == [] then w else Do(Run(w, actions[..|actions| - 1]), actions[|actions| - 1])
  }

  /** A ledger in use, no transfers yet, and keys set aside for them. */
  ghost predicate Initial(w: World) {
    && TablesOk(w.ledger) && w.rows == map[] && w.workers == map[] && w.assessed == map[]
    && w.ledger.keys.Keys !! w.reserved
  }

  lemma {:induction false} RunKeepsInv(w: World, actions: seq<Action>)
    requires Initial(w)
    ensures Inv(Run(w, actions))
  {
    if actions != [] {
      RunKeepsInv(w, actions[..|actions| - 1]);
      DoKeepsInv(Run(w, actions[..|actions| - 1]), actions[|actions| - 1]);
    }
  }

  /** The debit of the row's amount from the row's account, posted under the row's key. */
  ghost predicate DebitedBy(t: Tables, row: Row, d: TxnId) {
    && d < |t.txns|
    && t.txns[d].key == row.key
    && LegsOf(t.entries, d) == DebitOp(row.account, row.amount, row.key).legs
  }

  /** In every run a transfer's hold is captured exactly when its one debit exists; a completed transfer
      names that debit, and a failed one has its hold released and no debit. */
  lemma {:induction false} OutboundSettlesOnce(w0: World, actions: seq<Action>, r: RowId)
    requires Initial(w0) && r in Run(w0, actions).rows && Run(w0, actions).rows[r].direction == Outbound
    ensures var w := Run(w0, actions);
      var row, t := w.rows[r], w.ledger;
      && row.hold.Some? && row.hold.value < |t.holds|
      && (t.holds[row.hold.value].status == Captured <==> exists d: TxnId :: DebitedBy(t, row, d))
      && (forall d1: TxnId, d2: TxnId | DebitedBy(t, row, d1) && DebitedBy(t, row, d2) :: d1 == d2)
      && (row.status == Status.Completed ==> row.txn.Some? && DebitedBy(t, row, row.txn.value))
      && (row.status == Status.Failed ==> t.holds[row.hold.value].status == Released && row.key !in t.keys)
  {
    RunKeepsInv(w0, actions);
    SettledMeansDebited(Run(w0, actions), r);
  }

  lemma {:induction false} SettledMeansDebited(w: World, r: RowId)
    requires Inv(w) && r in w.rows && w.rows[r].direction == Outbound
    ensures var row, t := w.rows[r], w.ledger;
      && row.hold.Some? && row.hold.value < |t.holds|
      && (t.holds[row.hold.value].status == Captured <==> exists d: TxnId :: DebitedBy(t, row, d))
      && (forall d1: TxnId, d2: TxnId | DebitedBy(t, row, d1) && DebitedBy(t, row, d2) :: d1 == d2)
      && (row.status == Status.Completed ==> row.txn.Some? && DebitedBy(t, row, row.txn.value))
      && (row.status == Status.Failed ==> t.holds[row.hold.value].status == Released && row.key !in t.keys)
  {
    var row, t := w.rows[r], w.ledger;
    assert RowFits(t, row);
    var h := row.hold.value;
    if row.key in t.keys {
      var d := t.keys[row.key].response.value;
      assert Captures(t, d, h);
      assert DebitedBy(t, row, d);
    }
    if t.holds[h].status == Captured {
      var c: TxnId :| Captures(t, c, h);
      assert t.txns[c].key == row.key;
    }
  }

  /** The credit of the row's amount to the row's account, posted under the row's key. */
  ghost predicate CreditedBy(t: Tables, row: Row, d: TxnId) {
    PostedUnder(t, row.key, Credit, CreditOp(row.account, row.amount, row.key).legs, d)
  }

  /** In every run a payment that came in is credited at most once, under its own key and with its own amount, and a
      completed one names that credit. */
  lemma {:induction false} InboundCreditedOnce(w0: World, actions: seq<Action>, r: RowId)
    requires Initial(w0) && r in Run(w0, actions).rows && Run(w0, actions).rows[r].direction == Inbound
    ensures var w := Run(w0, actions);
      var row, t := w.rows[r], w.ledger;
      && (row.key in t.keys <==> exists d: TxnId :: CreditedBy(t, row, d))
      && (forall d1: TxnId, d2: TxnId | CreditedBy(t, row, d1) && CreditedBy(t, row, d2) :: d1 == d2)
      && (row.status == Status.Completed ==> row.txn.Some? && CreditedBy(t, row, row.txn.value))
  {
    RunKeepsInv(w0, actions);
    var w := Run(w0, actions);
    assert RowFits(w.ledger, w.rows[r]);
    SettledMeansCredited(w.ledger, w.rows[r]);
  }

  lemma {:induction false} SettledMeansCredited(t: Tables, row: Row)
    requires KeysOk(t) && PostingsOk(t) && RowFits(t, row) && row.direction == Inbound
    ensures row.key in t.keys <==> exists d: TxnId :: CreditedBy(t, row, d)
    ensures forall d1: TxnId, d2: TxnId | CreditedBy(t, row, d1) && CreditedBy(t, row, d2) :: d1 == d2
    ensures row.status == Status.Completed ==> row.txn.Some? && CreditedBy(t, row, row.txn.value)
  {
    if row.key in t.keys {
      StoredPosting(t, row.key, Credit, CreditOp(row.account, row.amount, row.key).legs);
      assert CreditedBy(t, row, t.keys[row.key].response.value);
    }
  }

  // ---------- a caller left alone ----------

  /** A sender nobody disturbs inserts the row of a new key exactly when it is inbound or its account affords the hold. */
  lemma {:induction false} AloneSends(w: World, id: WorkerId, req: Request, newRow: RowId, now: nat)
    requires id !in w.workers && req.key in w.reserved && !KeyInRows(w, req.key) && newRow !in w.rows
    ensures var step := Step(id, true, Allow, newRow, now);
      var w' := Do(Do(Do(Do(w, StartSend(id, req)), step), step), step);
      var hold := if req.direction == Outbound then Some(|w.ledger.holds|) else None;
      if req.direction == Inbound || SerialLedger.Affords(w.ledger, req.account, req.amount) then
        && w'.rows == w.rows[newRow :=
             Row(req.direction, req.account, req.counterparty, req.amount, req.key, hold, now, Status.Pending, Clear, None)]
        && w'.ledger == w.ledger.(holds := w.ledger.holds + if hold.Some? then [Hold.Hold(req.account, req.amount, Active)] else [])
      else w'.rows == w.rows && w'.ledger == w.ledger
  {
    var step := Step(id, true, Allow, newRow, now);
    var w1 := Do(w, StartSend(id, req));
    assert !KeyInRows(w1, req.key);
    var w2 := Do(w1, step);
    assert w2.workers[id] == Sending(req, SendHold) && w2.rows == w.rows && w2.ledger == w.ledger;
    var w3 := Do(w2, step);
    assert w3.rows == w.rows && !KeyInRows(w3, req.key);
  }

  /** An investigator nobody disturbs clears a held row, or fails and blocks it and releases its active hold. */
  lemma {:induction false} AloneDecides(w: World, id: WorkerId, r: RowId)
    requires id !in w.workers && r in w.rows && w.rows[r].risk == Held
    requires w.rows[r].hold.Some? ==> w.rows[r].hold.value < |w.ledger.holds| && w.ledger.holds[w.rows[r].hold.value].status == Active
    ensures Do(w, Approve(r)) == w.(rows := w.rows[r := w.rows[r].(risk := Clear)])
    ensures var step := Step(id, true, Allow, 0, 0);
      var w', row := Do(Do(Do(Do(w, StartBlock(id, r)), step), step), step), w.rows[r];
      && w'.rows == w.rows[r := row.(status := Status.Failed, risk := Blocked)]
      && w'.ledger == if row.hold.Some? then SetHold(w.ledger, row.hold.value, Released) else w.ledger
  {
    var step := Step(id, true, Allow, 0, 0);
    var w2 := Do(Do(w, StartBlock(id, r)), step);
    assert w2.workers[id] == Working(r, BlockRelease) && w2.rows == w.rows && w2.ledger == w.ledger;
    var w3 := Do(w2, step);
    assert w3.workers[id] == Working(r, BlockMark) && w3.rows == w.rows;
  }
}
