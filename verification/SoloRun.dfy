/** A call that no other transaction disturbs, run statement by statement, does exactly what
    SerialLedger.Call says: the statement machine is neither stricter nor laxer than the serial call. */
module SoloRun {
  import opened LedgerTables
  import opened AtomicLedger
  import opened ReadCommitted
  import opened SerialLedger

  ghost function Steps(st: State, sid: SessionId, n: nat): State
    decreases n
  {
    if n == 0 then st else Steps(Do(st, Advance(sid)), sid, n - 1)
  }

  lemma {:induction false} StepsAdd(st: State, sid: SessionId, n: nat, m: nat)
    ensures Steps(st, sid, n + m) == Steps(Steps(st, sid, n), sid, m)
    decreases n
  {
    if n > 0 { StepsAdd(Do(st, Advance(sid)), sid, n - 1, m); }
  }

  /** No other transaction is open. */
  ghost predicate Undisturbed(st: State, sid: SessionId) {
    forall other | other in st.sessions && other != sid ::
      st.sessions[other].locks == {} && st.sessions[other].keyRow.None? && st.sessions[other].txnRow.None?
  }

  ghost function At(st: State, sid: SessionId, s: Session): State {
    st.(sessions := st.sessions[sid := s])
  }

  /** n statements, none of them a commit, take the session from s to s'. */
  ghost predicate Path(st: State, sid: SessionId, s: Session, n: nat, s': Session) {
    Steps(At(st, sid, s), sid, n) == At(st, sid, s')
  }

  lemma {:induction false} PathAdd(st: State, sid: SessionId, s: Session, n: nat, s1: Session, m: nat, s2: Session)
    requires Path(st, sid, s, n, s1) && Path(st, sid, s1, m, s2)
    ensures Path(st, sid, s, n + m, s2)
  {
    StepsAdd(At(st, sid, s), sid, n, m);
  }

  lemma {:induction false} NothingBlocks(st: State, sid: SessionId, s: Session)
    requires Undisturbed(st, sid)
    ensures forall row :: !RowLocked(At(st, sid, s), sid, row)
    ensures forall key :: !KeyPending(At(st, sid, s), sid, key) && !TxnPending(At(st, sid, s), sid, key)
  {
  }

  lemma {:induction false} Move(st: State, sid: SessionId, s: Session, s': Session)
    requires !Commits(s) && Next(At(st, sid, s), sid) == s'
    ensures Path(st, sid, s, 1, s')
  {
  }

  // ---------- one leg ----------

  /** Locking the account and reading both sums. */
  lemma {:induction false} LockAndRead(st: State, sid: SessionId, s: Session) returns (s': Session)
    requires Undisturbed(st, sid) && s.pc == LockAccount && s.holdRow.None? && s.holdUpdate.None?
    requires Current(s).account in st.tables.accounts
    ensures Path(st, sid, s, 3, s')
    ensures s' == s.(locks := s.locks + {AccountRow(Current(s).account)},
      pc := CheckAndInsert(VisibleLedger(st.tables, s, Current(s).account), Held(st.tables, Current(s).account)))
  {
    NothingBlocks(st, sid, s);
    var a := Current(s).account;
    var s1 := s.(locks := s.locks + {AccountRow(a)}, pc := ReadLedger);
    Move(st, sid, s, s1);
    var s2 := s1.(pc := ReadHeld(VisibleLedger(st.tables, s, a)));
    Move(st, sid, s1, s2);
    assert VisibleHolds(st.tables, s2) == st.tables.holds;
    s' := s2.(pc := CheckAndInsert(VisibleLedger(st.tables, s, a), Held(st.tables, a)));
    Move(st, sid, s2, s');
    PathAdd(st, sid, s, 1, s1, 1, s2);
    PathAdd(st, sid, s, 2, s2, 1, s');
  }

  /** Posting, with the legs in s.entryRows inserted. */
  ghost predicate Inserting(t: Tables, s: Session) {
    && s.op.Keyed() && s.pc == NextLeg && s.holdRow.None? && s.holdUpdate.None?
    && s.entryRows <= s.plan && LegsError(t, s.entryRows).None?
  }

  /** After the error, or after the leg. */
  ghost function AfterLeg(t: Tables, s: Session, locks: set<Row>): Session {
    match LegError(t, s.entryRows, Current(s))
    case Some(e) => Ended(s, Rejected(e))
    case None => s.(locks := locks, entryRows := s.entryRows + [Current(s)])
  }

  ghost function Checked(t: Tables, s: Session, locks: set<Row>): Session {
    var a := Current(s).account;
    s.(locks := locks, pc := CheckAndInsert(VisibleLedger(t, s, a), Held(t, a)))
  }

  lemma {:induction false} CheckMoves(st: State, sid: SessionId, s: Session, locks: set<Row>)
    requires Inserting(st.tables, s) && |s.entryRows| < |s.plan| && Current(s).amount <= 0
    requires Current(s).account in st.tables.accounts
    ensures Path(st, sid, Checked(st.tables, s, locks), 1, AfterLeg(st.tables, s, locks))
  {
  }

  lemma {:induction false} CheckUnknownAccount(st: State, sid: SessionId, s: Session)
    requires Inserting(st.tables, s) && |s.entryRows| < |s.plan| && Current(s).amount <= 0
    requires Current(s).account !in st.tables.accounts
    ensures Path(st, sid, s.(pc := LockAccount), 1, AfterLeg(st.tables, s, s.locks))
  {
  }

  lemma {:induction false} CheckKnownAccount(st: State, sid: SessionId, s: Session) returns (locks: set<Row>)
    requires Undisturbed(st, sid) && Inserting(st.tables, s) && |s.entryRows| < |s.plan| && Current(s).amount <= 0
    requires Current(s).account in st.tables.accounts
    ensures Path(st, sid, s.(pc := LockAccount), 4, AfterLeg(st.tables, s, locks))
  {
    var s1 := s.(pc := LockAccount);
    var s4 := LockAndRead(st, sid, s1);
    locks := s4.locks;
    assert s4 == Checked(st.tables, s, locks);
    CheckMoves(st, sid, s, locks);
    PathAdd(st, sid, s1, 3, s4, 1, AfterLeg(st.tables, s, locks));
  }

  lemma {:induction false} CheckOneLeg(st: State, sid: SessionId, s: Session) returns (n: nat, locks: set<Row>)
    requires Undisturbed(st, sid) && Inserting(st.tables, s) && |s.entryRows| < |s.plan| && Current(s).amount <= 0
    ensures Path(st, sid, s, n, AfterLeg(st.tables, s, locks))
  {
    var s1 := s.(pc := LockAccount);
    Move(st, sid, s, s1);
    if Current(s).account !in st.tables.accounts {
      locks, n := s.locks, 1;
      CheckUnknownAccount(st, sid, s);
    } else {
      n := 4;
      locks := CheckKnownAccount(st, sid, s);
    }
    PathAdd(st, sid, s, 1, s1, n, AfterLeg(st.tables, s, locks));
    n := n + 1;
  }

  lemma {:induction false} InsertOneLeg(st: State, sid: SessionId, s: Session) returns (n: nat, locks: set<Row>)
    requires Undisturbed(st, sid) && Inserting(st.tables, s) && |s.entryRows| < |s.plan|
    ensures Path(st, sid, s, n, AfterLeg(st.tables, s, locks))
  {
    if Current(s).amount <= 0 {
      n, locks := CheckOneLeg(st, sid, s);
    } else {
      n, locks := 1, s.locks;
      Move(st, sid, s, AfterLeg(st.tables, s, locks));
    }
  }

  ghost function AfterLegs(t: Tables, s: Session, locks: set<Row>): Session {
    match LegsError(t, s.plan)
    case Some(e) => Ended(s, Rejected(e))
    case None => s.(locks := locks, entryRows := s.plan)
  }

  lemma {:induction false} InsertAllLegs(st: State, sid: SessionId, s: Session) returns (n: nat, locks: set<Row>)
    requires Undisturbed(st, sid) && Inserting(st.tables, s)
    ensures Path(st, sid, s, n, AfterLegs(st.tables, s, locks))
    decreases |s.plan| - |s.entryRows|
  {
    var i := |s.entryRows|;
    if i == |s.plan| {
      assert s.entryRows == s.plan;
      return 0, s.locks;
    }
    var m;
    m, locks := InsertOneLeg(st, sid, s);
    var s1 := AfterLeg(st.tables, s, locks);
    var longer := s.plan[..i + 1];
    assert longer[..i] == s.entryRows && longer[i] == Current(s) && longer == s.entryRows + [Current(s)];
    assert LegsError(st.tables, longer) == LegError(st.tables, s.entryRows, Current(s));
    if LegsError(st.tables, longer).Some? {
      FirstErrorStands(st.tables, s.plan, i + 1);
      return m, locks;
    }
    var k;
    k, locks := InsertAllLegs(st, sid, s1);
    PathAdd(st, sid, s, m, s1, k, AfterLegs(st.tables, s1, locks));
    n := m + k;
  }

  // ---------- before the legs ----------

  ghost function ToInsert(t: Tables, op: Op, locks: set<Row>): Session
    requires op.Keyed() && Ready(t, op)
  {
    Cleared(op, InsertTxn).(keyRow := Some(InProgress), locks := locks, plan := LegsFor(t, op))
  }

  ghost function AfterTarget(t: Tables, op: Op, locks: set<Row>): Session
    requires op.Keyed()
  {
    match TargetError(t, op)
    case Some(e) => Ended(Started(op), Rejected(e))
    case None => ToInsert(t, op, locks)
  }

  /** From the start of a call with a fresh key to the insertion of its transaction row. */
  lemma {:induction false} ReachInsert(st: State, sid: SessionId, op: Op) returns (n: nat, locks: set<Row>)
    requires Undisturbed(st, sid) && op.Keyed() && op.key !in st.tables.keys
    ensures Path(st, sid, Started(op), n, AfterTarget(st.tables, op, locks))
  {
    var s0 := Started(op);
    NothingBlocks(st, sid, s0);
    locks := {};
    if op.Post? {
      Move(st, sid, s0, AfterTarget(st.tables, op, locks));
      return 1, locks;
    }
    var s1 := Cleared(op, LockTarget).(keyRow := Some(InProgress));
    Move(st, sid, s0, s1);
    NothingBlocks(st, sid, s1);
    locks := {TargetRow(op)};
    assert {} + locks == locks;
    var last := AfterTarget(st.tables, op, locks);
    if op.Reverse? && op.original < |st.tables.txns| && st.tables.txns[op.original].state == Posted {
      var s2 := s1.(locks := locks, pc := ReadOriginal);
      Move(st, sid, s1, s2);
      Move(st, sid, s2, last);
      PathAdd(st, sid, s0, 1, s1, 1, s2);
      PathAdd(st, sid, s0, 2, s2, 1, last);
      n := 3;
    } else {
      Move(st, sid, s1, last);
      PathAdd(st, sid, s0, 1, s1, 1, last);
      n := 2;
    }
  }

  // ---------- after the legs ----------

  /** All legs inserted, nothing completed yet. */
  ghost predicate AllInserted(t: Tables, s: Session) {
    && s.op.Keyed() && s.op.key !in t.keys && CallError(t, s.op) in {None, Some(UnbalancedTransaction)}
    && s == ToInsert(t, s.op, s.locks).(pc := NextLeg,
              txnRow := Some(Txn(s.op.key, TypeOf(s.op), Posted)), entryRows := LegsFor(t, s.op))
  }

  ghost function ToCommit(s: Session): Session {
    s.(pc := CommitTx, keyRow := Some(Completed), reversed := s.op.Reverse?,
       holdUpdate := if s.op.CaptureHold? then Some(Captured) else None)
  }

  lemma {:induction false} ReachCommit(st: State, sid: SessionId, s: Session) returns (n: nat)
    requires AllInserted(st.tables, s)
    ensures Path(st, sid, s, n, ToCommit(s))
  {
    var s2 := ToCommit(s).(pc := CompleteKey, keyRow := Some(InProgress));
    if s.op.Post? {
      n := 1;
      Move(st, sid, s, s2);
    } else {
      n := 2;
      var s1 := s.(pc := MarkTarget);
      Move(st, sid, s, s1);
      Move(st, sid, s1, s2);
      PathAdd(st, sid, s, 1, s1, 1, s2);
    }
    Move(st, sid, s2, ToCommit(s));
    PathAdd(st, sid, s, n, s2, 1, ToCommit(s));
    n := n + 1;
  }

  lemma {:induction false} CommittedRows(t: Tables, s: Session)
    requires AllInserted(t, s) && CanCommit(t, s.op)
    ensures CommitRows(t, ToCommit(s)) == Commit(t, s.op)
  {
  }

  /** The tables and the reply the serial call gives. */
  ghost predicate EndsAs(t: Tables, sid: SessionId, op: Op, st': State) {
    && st'.tables == Call(t, op).0
    && sid in st'.sessions && st'.sessions[sid].pc == Finished(Call(t, op).1)
  }

  lemma {:induction false} LastStatement(st: State, sid: SessionId, s: Session)
    requires AllInserted(st.tables, s)
    ensures EndsAs(st.tables, sid, s.op, Steps(At(st, sid, ToCommit(s)), sid, 1))
  {
    var s2 := ToCommit(s);
    assert Steps(At(st, sid, s2), sid, 1) == Steps(Do(At(st, sid, s2), Advance(sid)), sid, 0);
    if Commits(s2) {
      NoErrorCommits(st.tables, s.op);
      CommittedRows(st.tables, s);
    }
  }

  lemma {:induction false} FinishPosting(st: State, sid: SessionId, s: Session) returns (n: nat)
    requires AllInserted(st.tables, s)
    ensures EndsAs(st.tables, sid, s.op, Steps(At(st, sid, s), sid, n))
  {
    n := ReachCommit(st, sid, s);
    LastStatement(st, sid, s);
    StepsAdd(At(st, sid, s), sid, n, 1);
    n := n + 1;
  }

  // ---------- the whole call ----------

  lemma {:induction false} SoloReplay(st: State, sid: SessionId, op: Op)
    requires op.Keyed() && op.key in st.tables.keys
    ensures EndsAs(st.tables, sid, op, Steps(At(st, sid, Started(op)), sid, 2))
  {
  }

  lemma {:induction false} Continue(st: State, sid: SessionId, op: Op, s: Session, n: nat, s1: Session, k: nat)
    requires Path(st, sid, s, n, s1) && EndsAs(st.tables, sid, op, Steps(At(st, sid, s1), sid, k))
    ensures EndsAs(st.tables, sid, op, Steps(At(st, sid, s), sid, n + k))
  {
    StepsAdd(At(st, sid, s), sid, n, k);
  }

  /** About to insert the transaction row. */
  ghost predicate ReadyToInsert(t: Tables, s: Session) {
    s.op.Keyed() && s.op.key !in t.keys && TargetError(t, s.op).None? && s == ToInsert(t, s.op, s.locks)
  }

  ghost function WithTxnRow(s: Session): Session
    requires s.op.Keyed()
  {
    s.(txnRow := Some(Txn(s.op.key, TypeOf(s.op), Posted)), pc := NextLeg)
  }

  lemma {:induction false} TxnRowTaken(st: State, sid: SessionId, s: Session)
    requires Undisturbed(st, sid) && ReadyToInsert(st.tables, s) && TxnKeyTaken(st.tables, s.op.key)
    ensures EndsAs(st.tables, sid, s.op, Steps(At(st, sid, s), sid, 1))
  {
  }

  lemma {:induction false} TxnRowInserted(st: State, sid: SessionId, s: Session)
    requires Undisturbed(st, sid) && ReadyToInsert(st.tables, s) && !TxnKeyTaken(st.tables, s.op.key)
    ensures Path(st, sid, s, 1, WithTxnRow(s))
  {
  }

  /** With the transaction row inserted: the legs, and then the rest or the first leg's error. */
  lemma {:induction false} SoloLegs(st: State, sid: SessionId, s: Session) returns (n: nat)
    requires Undisturbed(st, sid) && ReadyToInsert(st.tables, s) && !TxnKeyTaken(st.tables, s.op.key)
    ensures EndsAs(st.tables, sid, s.op, Steps(At(st, sid, WithTxnRow(s)), sid, n))
  {
    var locks;
    n, locks := InsertAllLegs(st, sid, WithTxnRow(s));
    if LegsError(st.tables, s.plan).None? {
      var s2 := AfterLegs(st.tables, WithTxnRow(s), locks);
      var k := FinishPosting(st, sid, s2);
      Continue(st, sid, s.op, WithTxnRow(s), n, s2, k);
      n := n + k;
    }
  }

  lemma {:induction false} SoloInsert(st: State, sid: SessionId, s: Session) returns (n: nat)
    requires Undisturbed(st, sid) && ReadyToInsert(st.tables, s)
    ensures EndsAs(st.tables, sid, s.op, Steps(At(st, sid, s), sid, n))
  {
    if TxnKeyTaken(st.tables, s.op.key) {
      TxnRowTaken(st, sid, s);
      n := 1;
    } else {
      TxnRowInserted(st, sid, s);
      n := SoloLegs(st, sid, s);
      Continue(st, sid, s.op, s, 1, WithTxnRow(s), n);
      n := 1 + n;
    }
  }

  lemma {:induction false} RefusedTarget(t: Tables, sid: SessionId, op: Op, st: State)
    requires op.Keyed() && op.key !in t.keys && TargetError(t, op).Some?
    requires st.tables == t && sid in st.sessions && st.sessions[sid] == AfterTarget(t, op, {})
    ensures EndsAs(t, sid, op, st)
  {
  }

  lemma {:induction false} SoloPosting(st: State, sid: SessionId, op: Op) returns (n: nat)
    requires Undisturbed(st, sid) && op.Keyed() && op.key !in st.tables.keys
    ensures EndsAs(st.tables, sid, op, Steps(At(st, sid, Started(op)), sid, n))
  {
    var locks;
    n, locks := ReachInsert(st, sid, op);
    if TargetError(st.tables, op).Some? {
      RefusedTarget(st.tables, sid, op, Steps(At(st, sid, Started(op)), sid, n));
    } else {
      var s1 := ToInsert(st.tables, op, locks);
      var k := SoloInsert(st, sid, s1);
      Continue(st, sid, op, Started(op), n, s1, k);
      n := n + k;
    }
  }

  /** Committing a session that posts no entries. */
  lemma {:induction false} CommitHoldRows(st: State, sid: SessionId, s: Session)
    requires s.pc == CommitTx && !s.op.Keyed() && CallError(st.tables, s.op).None?
    requires s == Cleared(s.op, CommitTx).(locks := s.locks,
      holdRow := if s.op.PlaceHold? then Some(Hold(s.op.account, s.op.amount, Active)) else None,
      holdUpdate := if s.op.PlaceHold? then None else Some(Released))
    ensures EndsAs(st.tables, sid, s.op, Steps(At(st, sid, s), sid, 1))
  {
  }

  lemma {:induction false} SoloPlaceHold(st: State, sid: SessionId, op: Op) returns (n: nat)
    requires Undisturbed(st, sid) && op.PlaceHold?
    ensures EndsAs(st.tables, sid, op, Steps(At(st, sid, Started(op)), sid, n))
  {
    var s0 := Started(op);
    if op.account !in st.tables.accounts {
      Move(st, sid, s0, Ended(s0, Rejected(AccountNotFound)));
      return 1;
    }
    var s3 := LockAndRead(st, sid, s0);
    if CallError(st.tables, op).Some? {
      var last := Ended(s0, Rejected(CallError(st.tables, op).value));
      Move(st, sid, s3, last);
      PathAdd(st, sid, s0, 3, s3, 1, last);
      return 4;
    }
    var s4 := s3.(holdRow := Some(Hold(op.account, op.amount, Active)), pc := CommitTx);
    Move(st, sid, s3, s4);
    PathAdd(st, sid, s0, 3, s3, 1, s4);
    CommitHoldRows(st, sid, s4);
    StepsAdd(At(st, sid, s0), sid, 4, 1);
    n := 5;
  }

  lemma {:induction false} SoloRelease(st: State, sid: SessionId, op: Op) returns (n: nat)
    requires Undisturbed(st, sid) && op.ReleaseHold?
    ensures EndsAs(st.tables, sid, op, Steps(At(st, sid, Started(op)), sid, n))
  {
    var s0 := Started(op);
    NothingBlocks(st, sid, s0);
    if TargetError(st.tables, op).Some? {
      Move(st, sid, s0, Ended(s0, Rejected(TargetError(st.tables, op).value)));
      return 1;
    }
    var s1 := s0.(locks := {HoldRow(op.hold)}, pc := MarkTarget);
    Move(st, sid, s0, s1);
    var s2 := s1.(holdUpdate := Some(Released), pc := CommitTx);
    Move(st, sid, s1, s2);
    PathAdd(st, sid, s0, 1, s1, 1, s2);
    CommitHoldRows(st, sid, s2);
    StepsAdd(At(st, sid, s0), sid, 2, 1);
    n := 3;
  }

  /** A call begun while no other transaction is open ends, after finitely many statements, with the
      tables and the reply of the serial call. */
  lemma {:induction false} SoloCallIsSerial(st: State, sid: SessionId, op: Op) returns (n: nat)
    requires sid !in st.sessions && Undisturbed(st, sid)
    ensures EndsAs(st.tables, sid, op, Steps(Do(st, Begin(sid, op)), sid, n))
  {
    if op.PlaceHold? {
      n := SoloPlaceHold(st, sid, op);
    } else if op.ReleaseHold? {
      n := SoloRelease(st, sid, op);
    } else if op.key in st.tables.keys {
      n := 2;
      SoloReplay(st, sid, op);
    } else {
      n := SoloPosting(st, sid, op);
    }
  }
}
