/** What the risk gate still promises when workers overlap and crash between statements, and exactly when a resolver's
    pass ends a stuck row. */
module GateUnderCrashes {
  import opened LedgerTables
  import opened AtomicLedger
  import opened TransferRows
  import opened ExternalTransfers
  import SerialLedger

  /** The transfers and their history: the rows an investigator approved, the rows the rail was called for, those it
      was called for without their being cleared, and those a worker found scored but not cleared when it asked. */
  datatype Watched = Watched(
    world: World, approved: set<RowId>, sent: set<RowId>, uncleared: set<RowId>, skipped: set<RowId>)

  /** The row's one assessment allows it, or holds it and was overruled. */
  predicate Cleared(g: Watched, r: RowId) {
    && r in g.world.assessed
    && (g.world.assessed[r] == Allow || (g.world.assessed[r] == Decision.Hold && r in g.approved))
  }

  predicate Executes(w: World, action: Action, pc: Pc) {
    && action.Step? && action.worker in w.workers && w.workers[action.worker].Working?
    && w.workers[action.worker].row in w.rows && w.workers[action.worker].pc == pc
  }

  function Noted(g: Watched, action: Action): Watched {
    if action.Approve? && action.row in g.world.rows && g.world.rows[action.row].risk == Held then
      g.(approved := g.approved + {action.row})
    else if Executes(g.world, action, CallRail) then
      var r := g.world.workers[action.worker].row;
      g.(sent := g.sent + {r}, uncleared := if Cleared(g, r) then g.uncleared else g.uncleared + {r})
    else if Executes(g.world, action, CheckAssessed) then
      var r := g.world.workers[action.worker].row;
      if r in g.world.assessed && !Cleared(g, r) then g.(skipped := g.skipped + {r}) else g
    else g
  }

  ghost function Do(g: Watched, action: Action): Watched {
    Noted(g, action).(world := ExternalTransfers.Do(g.world, action))
  }

  ghost function Run(g: Watched, actions: seq<Action>): Watched {
    if actions == [] then g else Do(Run(g, actions[..|actions| - 1]), actions[|actions| - 1])
  }

  function Watch(w: World): Watched { Watched(w, {}, {}, {}, {}) }

  // ---------- in every run ----------

  ghost predicate WorkerGated(g: Watched, worker: Worker) {
    worker.Working? ==>
      match worker.pc
      case CallRail => worker.row in g.world.assessed && (Cleared(g, worker.row) || worker.row in g.skipped)
      case AfterLookup(d) => worker.row in g.world.assessed && g.world.assessed[worker.row] == d
      case FailRelease => worker.row in g.sent
      case FailMark => worker.row in g.sent
      case Settle => worker.row in g.sent
      case Complete(_) => worker.row in g.sent
      case _ => true
  }

  ghost predicate HistoryOk(g: Watched) {
    && (forall r | r in g.sent :: r in g.world.assessed)
    && (forall r | r in g.uncleared :: r in g.sent && r in g.skipped)
    && (forall r | r in g.skipped :: r in g.world.assessed && g.world.assessed[r] != Allow)
  }

  ghost predicate GateOk(g: Watched) {
    HistoryOk(g) && forall id | id in g.world.workers :: WorkerGated(g, g.world.workers[id])
  }

  /** Assessments are never rewritten and nothing is forgotten. */
  ghost predicate Follows(g: Watched, g': Watched) {
    && g.sent <= g'.sent && g.approved <= g'.approved && g.uncleared <= g'.uncleared && g.skipped <= g'.skipped
    && forall r | r in g.world.assessed :: r in g'.world.assessed && g'.world.assessed[r] == g.world.assessed[r]
  }

  lemma {:induction false} DoFollows(g: Watched, action: Action)
    ensures Follows(g, Do(g, action))
  {
  }

  lemma {:induction false} DoKeepsHistory(g: Watched, action: Action)
    requires GateOk(g)
    ensures HistoryOk(Do(g, action))
  {
    DoFollows(g, action);
    if action.Step? && action.worker in g.world.workers { assert WorkerGated(g, g.world.workers[action.worker]); }
  }

  lemma {:induction false} WaitingStayGated(g: Watched, g': Watched, worker: Worker)
    requires WorkerGated(g, worker) && Follows(g, g')
    ensures WorkerGated(g', worker)
  {
  }

  lemma {:induction false} MoverIsGated(g: Watched, action: Action)
    requires action.Step? && action.worker in g.world.workers && WorkerGated(g, g.world.workers[action.worker])
    ensures action.worker in Do(g, action).world.workers ==>
      WorkerGated(Do(g, action), Do(g, action).world.workers[action.worker])
  {
  }

  lemma {:induction false} StepLeavesOthers(w: World, action: Action, id: WorkerId)
    requires action.Step? && action.worker != id
    ensures id in ExternalTransfers.Do(w, action).workers <==> id in w.workers
    ensures id in w.workers ==> ExternalTransfers.Do(w, action).workers[id] == w.workers[id]
  {
    if action.worker in w.workers {
      match w.workers[action.worker]
      case Sending(_, _) =>
      case Working(x, pc) => if x in w.rows { WorkLeavesOthers(w, action.worker, x, pc, action.ok, action.decision, id); }
    }
  }

  lemma {:induction false} WorkLeavesOthers(
    w: World, id: WorkerId, x: RowId, pc: Pc, ok: bool, decision: Decision, other: WorkerId)
    requires x in w.rows && other != id
    ensures other in StepWork(w, id, x, pc, ok, decision).workers <==> other in w.workers
    ensures other in w.workers ==> StepWork(w, id, x, pc, ok, decision).workers[other] == w.workers[other]
  {
  }

  /** A worker that did not take a step is where it was, or starts. */
  lemma {:induction false} OthersWait(w: World, action: Action, id: WorkerId)
    requires id in ExternalTransfers.Do(w, action).workers && !(action.Step? && action.worker == id)
    ensures var worker := ExternalTransfers.Do(w, action).workers[id];
      || (id in w.workers && worker == w.workers[id])
      || worker.Sending? || worker.pc == CheckAssessed || worker.pc == BlockLookup
  {
    if action.Step? { StepLeavesOthers(w, action, id); }
  }

  lemma {:induction false} DoKeepsGate(g: Watched, action: Action)
    requires GateOk(g)
    ensures GateOk(Do(g, action))
  {
    var g' := Do(g, action);
    DoKeepsHistory(g, action);
    DoFollows(g, action);
    forall id | id in g'.world.workers ensures WorkerGated(g', g'.world.workers[id]) {
      if action.Step? && action.worker == id {
        MoverIsGated(g, action);
      } else {
        OthersWait(g.world, action, id);
        if id in g.world.workers { WaitingStayGated(g, g', g.world.workers[id]); }
      }
    }
  }

  // ---------- only rows that reached the rail were settled ----------

  ghost predicate SettledWereSent(g: Watched) {
    forall r | r in g.world.rows && g.world.rows[r].key in g.world.ledger.keys :: r in g.sent
  }

  lemma {:induction false} WorkUsesKey(w: World, id: WorkerId, r: RowId, pc: Pc, ok: bool, decision: Decision, k: Key)
    requires r in w.rows && k !in w.ledger.keys && k in StepWork(w, id, r, pc, ok, decision).ledger.keys
    ensures pc == Settle && w.rows[r].key == k
  {
  }

  lemma {:induction false} NewKeyIsForeignOrSettled(w: World, action: Action, k: Key)
    requires k !in w.ledger.keys && k in ExternalTransfers.Do(w, action).ledger.keys
    ensures (action.OtherCall? && k !in w.reserved)
      || (Executes(w, action, Settle) && w.rows[w.workers[action.worker].row].key == k)
  {
    if action.Step? && action.worker in w.workers {
      match w.workers[action.worker]
      case Sending(_, _) =>
      case Working(r, pc) => if r in w.rows { WorkUsesKey(w, action.worker, r, pc, action.ok, action.decision, k); }
    }
  }

  ghost predicate KeysReserved(w: World) {
    && (forall r | r in w.rows :: w.rows[r].key in w.reserved)
    && (forall id | id in w.workers && w.workers[id].Sending? :: w.workers[id].req.key in w.reserved)
  }

  lemma {:induction false} WorkKeepsKeys(w: World, id: WorkerId, x: RowId, pc: Pc, ok: bool, decision: Decision, r: RowId)
    requires x in w.rows && r in StepWork(w, id, x, pc, ok, decision).rows
    ensures r in w.rows && StepWork(w, id, x, pc, ok, decision).rows[r].key == w.rows[r].key
  {
  }

  lemma {:induction false} NewRowHasNewKey(w: World, action: Action, r: RowId)
    requires r in ExternalTransfers.Do(w, action).rows && KeysReserved(w)
    ensures ExternalTransfers.Do(w, action).rows[r].key in w.reserved
    ensures if r in w.rows then ExternalTransfers.Do(w, action).rows[r].key == w.rows[r].key
            else !KeyInRows(w, ExternalTransfers.Do(w, action).rows[r].key)
  {
    if action.Step? && action.worker in w.workers {
      match w.workers[action.worker]
      case Sending(_, _) =>
      case Working(x, pc) => if x in w.rows { WorkKeepsKeys(w, action.worker, x, pc, action.ok, action.decision, r); }
    }
  }

  lemma {:induction false} DoKeepsSettled(g: Watched, action: Action)
    requires GateOk(g) && TransfersOk(g.world) && SettledWereSent(g)
    ensures SettledWereSent(Do(g, action))
  {
    var g' := Do(g, action);
    DoFollows(g, action);
    forall r | r in g'.world.rows && g'.world.rows[r].key in g'.world.ledger.keys ensures r in g'.sent {
      NewRowHasNewKey(g.world, action, r);
      var k := g'.world.rows[r].key;
      if k in g.world.ledger.keys {
        assert KeyInRows(g.world, k);
      } else {
        NewKeyIsForeignOrSettled(g.world, action, k);
        assert WorkerGated(g, g.world.workers[action.worker]);
      }
    }
  }

  /** In every run: a row reaches the rail only after it was scored, only rows that reached it are settled, and a row
      reached it uncleared only if some worker found it scored and not cleared when it asked whether to score it. */
  lemma {:induction false} UnclearedWasSkipped(w0: World, actions: seq<Action>)
    requires Initial(w0)
    ensures var g := Run(Watch(w0), actions);
      && GateOk(g) && SettledWereSent(g) && g.world == ExternalTransfers.Run(w0, actions)
      && (forall r | r in g.sent :: r in g.world.assessed)
      && (forall r | r in g.world.rows && g.world.rows[r].key in g.world.ledger.keys :: r in g.sent)
      && (forall r | r in g.uncleared :: r in g.skipped && g.world.assessed[r] != Allow)
  {
    if actions != [] {
      var front := actions[..|actions| - 1];
      UnclearedWasSkipped(w0, front);
      ExternalTransfers.RunKeepsInv(w0, front);
      DoKeepsGate(Run(Watch(w0), front), actions[|actions| - 1]);
      DoKeepsSettled(Run(Watch(w0), front), actions[|actions| - 1]);
    }
  }

  // ---------- one worker undisturbed ----------

  /** What the outside answers to a statement: whether the rail or the ledger replied, and what a scoring decides. */
  datatype Input = Input(ok: bool, decision: Decision)

  ghost function Pass(g: Watched, id: WorkerId, inputs: seq<Input>): Watched {
    if inputs == [] then g
    else
      var last := inputs[|inputs| - 1];
      Do(Pass(g, id, inputs[..|inputs| - 1]), Step(id, last.ok, last.decision, 0, 0))
  }

  ghost predicate JustClaimed(g: Watched, id: WorkerId, r: RowId) {
    r in g.world.rows && id in g.world.workers && g.world.workers[id] == Working(r, CheckAssessed)
  }

  lemma {:induction false} ClaimTakesRow(g: Watched, id: WorkerId, r: RowId)
    requires id !in g.world.workers && r in g.world.rows
    ensures g.world.rows[r].status == Processing ==> JustClaimed(Do(g, ClaimStuck(id, r)), id, r)
    ensures g.world.rows[r].status == Status.Pending && g.world.rows[r].risk == Clear ==>
      JustClaimed(Do(g, ClaimPending(id, r)), id, r)
  {
  }

  lemma {:induction false} SkipsScoring(g: Watched, id: WorkerId, r: RowId, inputs: seq<Input>)
    requires JustClaimed(g, id, r) && r in g.world.assessed && !Cleared(g, r) && |inputs| >= 2
    ensures r in Pass(g, id, inputs).uncleared
  {
    var front := inputs[..|inputs| - 1];
    if |inputs| == 2 {
      assert front[..0] == [] && Pass(g, id, front[..0]) == g;
    } else {
      SkipsScoring(g, id, r, front);
    }
  }

  /** Where a worker on row r may stand while nothing uncleared has been sent. */
  ghost predicate PassesClean(g: Watched, id: WorkerId, r: RowId) {
    && r in g.world.rows && r !in g.uncleared
    && (id in g.world.workers ==>
          && g.world.workers[id].Working? && g.world.workers[id].row == r
          && match g.world.workers[id].pc
             case CheckAssessed => r in g.world.assessed ==> Cleared(g, r)
             case LookupAssessment => r !in g.world.assessed
             case RecordAssessment(_) => r !in g.world.assessed
             case AfterLookup(_) => false
             case CallRail => Cleared(g, r)
             case _ => true)
  }

  lemma {:induction false} StepPassesClean(g: Watched, id: WorkerId, r: RowId, input: Input)
    requires PassesClean(g, id, r)
    ensures PassesClean(Do(g, Step(id, input.ok, input.decision, 0, 0)), id, r)
  {
  }

  lemma {:induction false} StaysClean(g: Watched, id: WorkerId, r: RowId, inputs: seq<Input>)
    requires PassesClean(g, id, r)
    ensures PassesClean(Pass(g, id, inputs), id, r)
  {
    if inputs != [] {
      StaysClean(g, id, r, inputs[..|inputs| - 1]);
      StepPassesClean(Pass(g, id, inputs[..|inputs| - 1]), id, r, inputs[|inputs| - 1]);
    }
  }

  /** A claimed row that nobody else touches is sent uncleared exactly when it was already scored and not cleared at the
      claim, whatever the rail, the ledger and the scoring answer. */
  lemma {:induction false} SentUnclearedIff(g: Watched, id: WorkerId, r: RowId, inputs: seq<Input>)
    requires JustClaimed(g, id, r) && r !in g.uncleared && |inputs| >= 2
    ensures r in Pass(g, id, inputs).uncleared <==> r in g.world.assessed && !Cleared(g, r)
  {
    if r in g.world.assessed && !Cleared(g, r) {
      SkipsScoring(g, id, r, inputs);
    } else {
      StaysClean(g, id, r, inputs);
    }
  }

  // ---------- when a resolver's pass ends a row ----------

  /** The ledger takes a settlement exactly as it does when nothing interferes, leg by leg. */
  predicate LedgerTakes(w: World, id: WorkerId) {
    id in w.workers && w.workers[id].Working? && w.workers[id].pc == Settle && w.workers[id].row in w.rows ==>
      var row := w.rows[w.workers[id].row];
      (row.direction == Outbound ==> row.hold.Some?) ==> SerialLedger.Call(w.ledger, SettleOp(row)).1.Succeeded?
  }

  /** n statements of one worker in a row, the rail answering and the ledger undisturbed. */
  ghost function Undisturbed(w: World, id: WorkerId, d: Decision, n: nat): World
    decreases n
  {
    if n == 0 then w else Undisturbed(ExternalTransfers.Do(w, Step(id, LedgerTakes(w, id), d, 0, 0)), id, d, n - 1)
  }

  predicate At(w: World, id: WorkerId, r: RowId, pc: Pc) {
    id in w.workers && w.workers[id] == Working(r, pc) && r in w.rows
  }

  predicate Ended(w: World, r: RowId) { r in w.rows && w.rows[r].status in {Status.Completed, Status.Failed} }

  ghost predicate Stuck(w: World, r: RowId) {
    KeysOk(w.ledger) && r in w.rows && RowFits(w.ledger, w.rows[r]) && w.rows[r].status == Processing
  }

  predicate Releasable(t: Tables, row: Row) {
    row.hold.None? || (row.hold.value < |t.holds| && t.holds[row.hold.value].status == Active)
  }

  predicate Settleable(t: Tables, row: Row)
    requires row.direction == Outbound ==> row.hold.Some?
  {
    row.key in t.keys || SerialLedger.CallError(t, SettleOp(row)).None?
  }

  lemma {:induction false} StoppedStays(w: World, id: WorkerId, d: Decision, n: nat)
    requires id !in w.workers
    ensures Undisturbed(w, id, d, n) == w
  {
    if n > 0 { StoppedStays(w, id, d, n - 1); }
  }

  lemma {:induction false} NextStatement(w: World, id: WorkerId, r: RowId, pc: Pc, d: Decision, n: nat)
    requires At(w, id, r, pc) && pc != Settle && n >= 1
    ensures Undisturbed(w, id, d, n) == Undisturbed(StepWork(w, id, r, pc, true, d), id, d, n - 1)
  {
    assert LedgerTakes(w, id);
  }

  lemma {:induction false} MarkEnds(w: World, id: WorkerId, r: RowId, pc: Pc, d: Decision, n: nat)
    requires At(w, id, r, pc) && (pc == FailMark || pc == BlockMark || pc.Complete?) && n >= 1
    ensures Ended(Undisturbed(w, id, d, n), r) && id !in Undisturbed(w, id, d, n).workers
  {
    NextStatement(w, id, r, pc, d, n);
    StoppedStays(StepWork(w, id, r, pc, true, d), id, d, n - 1);
  }

  lemma {:induction false} ReleaseEndsIff(w: World, id: WorkerId, r: RowId, pc: Pc, d: Decision, n: nat)
    requires Stuck(w, r) && At(w, id, r, pc) && (pc == FailRelease || pc == BlockRelease) && n >= 2
    ensures Ended(Undisturbed(w, id, d, n), r) <==> Releasable(w.ledger, w.rows[r])
    ensures id !in Undisturbed(w, id, d, n).workers
  {
    var next := if pc == FailRelease then FailMark else BlockMark;
    var w' := StepRelease(w, id, r, true, next);
    NextStatement(w, id, r, pc, d, n);
    if id in w'.workers {
      MarkEnds(w', id, r, next, d, n - 1);
    } else {
      StoppedStays(w', id, d, n - 1);
    }
  }

  lemma {:induction false} SettleStatement(w: World, id: WorkerId, r: RowId)
    requires Stuck(w, r) && At(w, id, r, Settle)
    ensures var w' := StepSettle(w, id, r, LedgerTakes(w, id));
      if Settleable(w.ledger, w.rows[r]) then w'.rows == w.rows && id in w'.workers && w'.workers[id].Working?
        && w'.workers[id].row == r && w'.workers[id].pc.Complete?
      else w'.rows == w.rows && id !in w'.workers
  {
    if SerialLedger.CallError(w.ledger, SettleOp(w.rows[r])).None? && w.rows[r].key !in w.ledger.keys {
      SerialLedger.NoErrorCommits(w.ledger, SettleOp(w.rows[r]));
    }
  }

  lemma {:induction false} SettleEndsIff(w: World, id: WorkerId, r: RowId, d: Decision, n: nat)
    requires Stuck(w, r) && At(w, id, r, Settle) && n >= 2
    ensures Ended(Undisturbed(w, id, d, n), r) <==> Settleable(w.ledger, w.rows[r])
    ensures id !in Undisturbed(w, id, d, n).workers
  {
    var w' := StepSettle(w, id, r, LedgerTakes(w, id));
    SettleStatement(w, id, r);
    assert Undisturbed(w, id, d, n) == Undisturbed(w', id, d, n - 1);
    if Settleable(w.ledger, w.rows[r]) {
      MarkEnds(w', id, r, w'.workers[id].pc, d, n - 1);
    } else {
      StoppedStays(w', id, d, n - 1);
    }
  }

  lemma {:induction false} HeldGoesBack(w: World, id: WorkerId, r: RowId, d: Decision, n: nat)
    requires At(w, id, r, MarkHeld) && n >= 2
    ensures !Ended(Undisturbed(w, id, d, n), r) && id !in Undisturbed(w, id, d, n).workers
  {
    var w1 := StepWork(w, id, r, MarkHeld, true, d);
    NextStatement(w, id, r, MarkHeld, d, n);
    NextStatement(w1, id, r, RevertToPending, d, n - 1);
    StoppedStays(StepWork(w1, id, r, RevertToPending, true, d), id, d, n - 2);
  }

  /** The rail rejects: the hold must still be active.  The rail accepts: the payment was already settled under the
      row's key or can be settled now. */
  predicate RailCanEnd(t: Tables, row: Row)
    requires row.direction == Outbound ==> row.hold.Some?
  {
    if RailRejects(row.counterparty) then Releasable(t, row) else Settleable(t, row)
  }

  lemma {:induction false} RailEndsIff(w: World, id: WorkerId, r: RowId, d: Decision, n: nat)
    requires Stuck(w, r) && At(w, id, r, CallRail) && n >= 3
    ensures Ended(Undisturbed(w, id, d, n), r) <==> RailCanEnd(w.ledger, w.rows[r])
    ensures id !in Undisturbed(w, id, d, n).workers
  {
    var w' := StepWork(w, id, r, CallRail, true, d);
    NextStatement(w, id, r, CallRail, d, n);
    if !RailRejects(w.rows[r].counterparty) {
      SettleEndsIff(w', id, r, d, n - 1);
    } else if w.rows[r].direction == Outbound {
      ReleaseEndsIff(w', id, r, FailRelease, d, n - 1);
    } else {
      MarkEnds(w', id, r, FailMark, d, n - 1);
    }
  }

  /** A pass over a row never scored, whose scoring decides d. */
  lemma {:induction false} ScoredPassEndsIff(w: World, id: WorkerId, r: RowId, d: Decision, n: nat)
    requires Stuck(w, r) && At(w, id, r, RecordAssessment(d)) && r !in w.assessed && n >= 4
    ensures Ended(Undisturbed(w, id, d, n), r) <==>
      match d case Allow => RailCanEnd(w.ledger, w.rows[r]) case Block => Releasable(w.ledger, w.rows[r]) case Hold => false
    ensures id !in Undisturbed(w, id, d, n).workers
  {
    var w' := StepWork(w, id, r, RecordAssessment(d), true, d);
    NextStatement(w, id, r, RecordAssessment(d), d, n);
    match d
    case Allow => RailEndsIff(w', id, r, d, n - 1);
    case Block => ReleaseEndsIff(w', id, r, BlockRelease, d, n - 1);
    case Hold => HeldGoesBack(w', id, r, d, n - 1);
  }

  lemma {:induction false} KnownPassEndsIff(w: World, id: WorkerId, r: RowId, d: Decision, n: nat)
    requires Stuck(w, r) && At(w, id, r, CheckAssessed) && r in w.assessed && n >= 4
    ensures Ended(Undisturbed(w, id, d, n), r) <==> RailCanEnd(w.ledger, w.rows[r])
    ensures id !in Undisturbed(w, id, d, n).workers
  {
    NextStatement(w, id, r, CheckAssessed, d, n);
    RailEndsIff(StepWork(w, id, r, CheckAssessed, true, d), id, r, d, n - 1);
  }

  lemma {:induction false} FirstPassEndsIff(w: World, id: WorkerId, r: RowId, d: Decision, n: nat)
    requires Stuck(w, r) && At(w, id, r, CheckAssessed) && r !in w.assessed && n >= 6
    ensures Ended(Undisturbed(w, id, d, n), r) <==>
      match d case Allow => RailCanEnd(w.ledger, w.rows[r]) case Block => Releasable(w.ledger, w.rows[r]) case Hold => false
    ensures id !in Undisturbed(w, id, d, n).workers
  {
    var w1 := StepWork(w, id, r, CheckAssessed, true, d);
    NextStatement(w, id, r, CheckAssessed, d, n);
    NextStatement(w1, id, r, LookupAssessment, d, n - 1);
    ScoredPassEndsIff(StepWork(w1, id, r, LookupAssessment, true, d), id, r, d, n - 2);
  }

  /** A resolver's undisturbed pass over a stuck row finishes within six statements.  It ends the row exactly when: the
      rail rejects it, or a first scoring blocks it, and its hold is still active; or the rail accepts it and it was
      already settled or the ledger finds nothing against settling it now.  A first scoring that holds the row sends it
      back instead. */
  lemma {:induction false} PassEndsIff(w: World, id: WorkerId, r: RowId, d: Decision, n: nat)
    requires Inv(w) && At(w, id, r, CheckAssessed) && w.rows[r].status == Processing && n >= 6
    ensures RowFits(w.ledger, w.rows[r]) && id !in Undisturbed(w, id, d, n).workers
    ensures Ended(Undisturbed(w, id, d, n), r) <==>
      if r in w.assessed then RailCanEnd(w.ledger, w.rows[r])
      else match d case Allow => RailCanEnd(w.ledger, w.rows[r]) case Block => Releasable(w.ledger, w.rows[r]) case Hold => false
  {
    assert Stuck(w, r);
    if r in w.assessed { KnownPassEndsIff(w, id, r, d, n); } else { FirstPassEndsIff(w, id, r, d, n); }
  }

  // ---------- a blocked row that is paid ----------

  ghost predicate Reached(w0: World, g: Watched) { exists actions :: Run(Watch(w0), actions) == g }

  lemma {:induction false} OneMore(w0: World, g: Watched, action: Action)
    requires Reached(w0, g)
    ensures Reached(w0, Do(g, action))
  {
    var actions :| Run(Watch(w0), actions) == g;
    assert (actions + [action])[..|actions|] == actions;
    assert Run(Watch(w0), actions + [action]) == Do(g, action);
  }

  /** n statements of one worker in a row, the rail and the ledger answering and any scoring deciding to block. */
  ghost function Steps(g: Watched, id: WorkerId, n: nat): Watched
    decreases n
  {
    if n == 0 then g else Steps(Do(g, Step(id, true, Block, 0, 0)), id, n - 1)
  }

  lemma {:induction false} StepsReached(w0: World, g: Watched, id: WorkerId, n: nat)
    requires Reached(w0, g)
    ensures Reached(w0, Steps(g, id, n))
    decreases n
  {
    if n > 0 {
      OneMore(w0, g, Step(id, true, Block, 0, 0));
      StepsReached(w0, Do(g, Step(id, true, Block, 0, 0)), id, n - 1);
    }
  }

  function Queued(w0: World, req: Request): World
    requires CanCommit(w0.ledger, PlaceHold(req.account, req.amount))
  {
    w0.(ledger := Commit(w0.ledger, PlaceHold(req.account, req.amount)),
        rows := map[0 := NewRow(req, Some(|w0.ledger.holds|), 0)])
  }

  lemma {:induction false} QueuedIsReached(w0: World, req: Request)
    requires Initial(w0) && req.direction == Outbound && req.key in w0.reserved
    requires CanCommit(w0.ledger, PlaceHold(req.account, req.amount))
    ensures Reached(w0, Watch(Queued(w0, req)))
  {
    assert Run(Watch(w0), []) == Watch(w0);
    OneMore(w0, Watch(w0), StartSend(0, req));
    StepsReached(w0, Do(Watch(w0), StartSend(0, req)), 0, 3);
    SendQueues(w0, req);
  }

  lemma {:induction false} SendQueues(w0: World, req: Request)
    requires w0.rows == map[] && w0.workers == map[] && req.direction == Outbound && req.key in w0.reserved
    requires CanCommit(w0.ledger, PlaceHold(req.account, req.amount))
    ensures Steps(Do(Watch(w0), StartSend(0, req)), 0, 3) == Watch(Queued(w0, req))
  {
    var g := Do(Watch(w0), StartSend(0, req));
    var g1 := Do(g, Step(0, true, Block, 0, 0));
    var g2 := Do(g1, Step(0, true, Block, 0, 0));
    assert g2.world.workers == map[0 := Sending(req, SendInsert(Some(|w0.ledger.holds|)))];
    assert Do(g2, Step(0, true, Block, 0, 0)) == Watch(Queued(w0, req));
    assert Steps(g, 0, 3) == Steps(g1, 0, 2) == Steps(g2, 0, 1);
  }

  /** The row claimed, scored and the scoring recorded, and nothing more. */
  function BlockRecorded(w: World): World
    requires 0 in w.rows
  {
    w.(rows := map[0 := w.rows[0].(status := Processing)], assessed := map[0 := Block])
  }

  lemma {:induction false} BlockIsRecorded(w0: World, w: World, row: Row)
    requires Reached(w0, Watch(w)) && w.rows == map[0 := row] && w.workers == map[] && w.assessed == map[]
    requires row.status == Status.Pending && row.risk == Clear
    ensures Reached(w0, Watch(BlockRecorded(w)))
  {
    OneMore(w0, Watch(w), ClaimPending(0, 0));
    var g := Do(Watch(w), ClaimPending(0, 0));
    StepsReached(w0, g, 0, 3);
    var g1 := Do(g, Step(0, true, Block, 0, 0));
    var g2 := Do(g1, Step(0, true, Block, 0, 0));
    var g3 := Do(g2, Step(0, true, Block, 0, 0));
    assert Steps(g, 0, 3) == Steps(g1, 0, 2) == Steps(g2, 0, 1) == g3;
    OneMore(w0, g3, Crash(0));
    assert Do(g3, Crash(0)) == Watch(BlockRecorded(w));
  }

  /** One answered statement of worker 0. */
  ghost function Answered(g: Watched): Watched { Do(g, Step(0, true, Block, 0, 0)) }

  /** The stuck resolver's pass over that row. */
  ghost function Skipped(w: World): Watched { Answered(Answered(Do(Watch(w), ClaimStuck(0, 0)))) }

  ghost function Resolved(w: World): Watched { Answered(Answered(Skipped(w))) }

  /** Row 0 was blocked, was sent all the same, is completed, and its key was used to settle it. */
  predicate PaidThoughBlocked(g: Watched, key: Key) {
    && 0 in g.world.rows && g.world.rows[0].key == key && g.world.rows[0].status == Status.Completed
    && 0 in g.world.assessed && g.world.assessed[0] == Block && 0 in g.uncleared
    && key in g.world.ledger.keys
  }

  /** The resolver skips the scoring and sends the row. */
  lemma {:induction false} BlockIsSkipped(w: World)
    requires 0 in w.rows && w.rows[0].status == Processing && 0 !in w.workers
    requires 0 in w.assessed && w.assessed[0] == Block && !RailRejects(w.rows[0].counterparty)
    ensures 0 in Skipped(w).uncleared && Skipped(w).world == Goto(w, 0, 0, Settle)
  {
    assert Answered(Do(Watch(w), ClaimStuck(0, 0))).world == Goto(w, 0, 0, CallRail);
  }

  lemma {:induction false} SkippedIsSettled(g: Watched, w: World)
    requires g.world == Goto(w, 0, 0, Settle) && 0 in w.rows && RowFits(w.ledger, w.rows[0])
    requires CanCommit(w.ledger, SettleOp(w.rows[0]))
    ensures Answered(g) == g.(world := Goto(w.(ledger := Commit(w.ledger, SettleOp(w.rows[0]))), 0, 0, Complete(|w.ledger.txns|)))
  {
  }

  lemma {:induction false} RecordedBlockIsForgotten(w: World)
    requires 0 in w.rows && RowFits(w.ledger, w.rows[0]) && w.rows[0].status == Processing && 0 !in w.workers
    requires 0 in w.assessed && w.assessed[0] == Block && !RailRejects(w.rows[0].counterparty)
    requires CanCommit(w.ledger, SettleOp(w.rows[0]))
    ensures PaidThoughBlocked(Resolved(w), w.rows[0].key)
  {
    BlockIsSkipped(w);
    SkippedIsSettled(Skipped(w), w);
  }

  lemma {:induction false} ResolvedIsReached(w0: World, w: World)
    requires Reached(w0, Watch(w))
    ensures Reached(w0, Resolved(w))
  {
    var step := Step(0, true, Block, 0, 0);
    OneMore(w0, Watch(w), ClaimStuck(0, 0));
    OneMore(w0, Do(Watch(w), ClaimStuck(0, 0)), step);
    OneMore(w0, Answered(Do(Watch(w), ClaimStuck(0, 0))), step);
    OneMore(w0, Skipped(w), step);
    OneMore(w0, Answered(Skipped(w)), step);
  }

  /** Money for the amount twice: the hold, and the debit checked while the hold still counts. */
  ghost predicate CanBearTwice(t: Tables, account: AccountId, amount: int) {
    && TablesOk(t) && account in t.accounts && SYSTEM_ACCOUNT_NGN in t.accounts && account != SYSTEM_ACCOUNT_NGN
    && amount > 0 && Available(t, account) - 2 * amount >= Floor(t, account)
  }

  lemma {:induction false} HeldIsSettleable(t: Tables, account: AccountId, amount: int, key: Key)
    requires CanBearTwice(t, account, amount) && key !in t.keys
    ensures CanCommit(t, PlaceHold(account, amount))
    ensures CanCommit(Commit(t, PlaceHold(account, amount)), CaptureHold(|t.holds|, key))
  {
    var t1 := Commit(t, PlaceHold(account, amount));
    HeldSumAppend(t.holds, Hold.Hold(account, amount, Active), account);
    CommitKeepsOk(t, PlaceHold(account, amount));
    SerialLedger.CaptureSucceedsIff(t1, |t.holds|, key);
    SerialLedger.NoErrorCommits(t1, CaptureHold(|t.holds|, key));
  }

  lemma {:induction false} QueuedIsSettleable(w0: World, req: Request)
    requires Initial(w0) && req.direction == Outbound && req.key !in w0.ledger.keys
    requires CanBearTwice(w0.ledger, req.account, req.amount)
    ensures CanCommit(w0.ledger, PlaceHold(req.account, req.amount))
    ensures var w := BlockRecorded(Queued(w0, req)); RowFits(w.ledger, w.rows[0]) && CanCommit(w.ledger, SettleOp(w.rows[0]))
  {
    HeldIsSettleable(w0.ledger, req.account, req.amount, req.key);
    ExternalTransfers.NewHoldUncaptured(w0.ledger);
  }

  /** A worker that crashes right after recording a block leaves the row to the stuck resolver, which sees it scored and
      sends it: from an empty table a run ends with the blocked row completed and its account debited. */
  lemma {:induction false} BlockedRowIsPaid(w0: World, req: Request)
    requires Initial(w0) && req.direction == Outbound && req.key in w0.reserved && !RailRejects(req.counterparty)
    requires CanBearTwice(w0.ledger, req.account, req.amount)
    ensures exists actions :: PaidThoughBlocked(Run(Watch(w0), actions), req.key)
  {
    QueuedIsSettleable(w0, req);
    QueuedIsReached(w0, req);
    var w := Queued(w0, req);
    BlockIsRecorded(w0, w, w.rows[0]);
    RecordedBlockIsForgotten(BlockRecorded(w));
    ResolvedIsReached(w0, BlockRecorded(w));
    var actions :| Run(Watch(w0), actions) == Resolved(BlockRecorded(w));
  }
}
