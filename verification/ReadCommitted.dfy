/** Ledger calls as database transactions under READ COMMITTED.  One step is one SQL statement (or one
    statement inside a trigger); a statement sees the committed rows and its own transaction's pending
    rows; a row lock and an uncommitted unique key block other transactions until commit or rollback. */
module ReadCommitted {
  import opened LedgerTables
  import opened AtomicLedger

  datatype Row = AccountRow(account: AccountId) | HoldRow(hold: HoldId) | TxnRow(txn: TxnId)

  /** The next statement of a transaction. */
  datatype Pc =
    | ReserveKey                           // INSERT INTO idempotency_keys
    | FetchKey                             // SELECT of the stored response, after a rollback
    | LockTarget                           // SELECT status FROM holds / ledger_transactions ... FOR UPDATE
    | ReadOriginal                         // SELECT the original's entries
    | InsertTxn                            // INSERT INTO ledger_transactions
    | NextLeg                              // the next INSERT INTO ledger_entries
    | LockAccount                          // SELECT overdraft_limit_minor ... FOR UPDATE
    | ReadLedger                           // SUM over ledger_entries
    | ReadHeld(ledger: int)                // SUM over active holds
    | CheckAndInsert(ledger: int, held: int)
    | MarkTarget                           // UPDATE holds / ledger_transactions
    | CompleteKey                          // UPDATE idempotency_keys
    | CommitTx
    | Finished(outcome: Outcome)

  /** One call and the rows its open transaction has written but not committed. */
  datatype Session = Session(
    op: Op,
    pc: Pc,
    locks: set<Row>,
    keyRow: Option<KeyStatus>,
    plan: seq<Leg>,               // the legs the call will insert
    txnRow: Option<Txn>,
    entryRows: seq<Leg>,
    holdRow: Option<Hold>,
    holdUpdate: Option<HoldStatus>,
    reversed: bool)

  type SessionId = nat

  datatype State = State(tables: Tables, sessions: map<SessionId, Session>)

  datatype Action =
    | Begin(sid: SessionId, op: Op)
    | Advance(sid: SessionId)
    | Abort(sid: SessionId)       // any error, deadlock, lost connection or crash

  // ---------- one statement ----------

  function Started(op: Op): Session {
    var pc := match op
              case PlaceHold(_, _) => LockAccount
              case ReleaseHold(_) => LockTarget
              case _ => ReserveKey;
    Cleared(op, pc)
  }

  /** A session with no open transaction. */
  function Cleared(op: Op, pc: Pc): Session {
    Session(op, pc, {}, None, [], None, [], None, None, false)
  }

  function Ended(s: Session, outcome: Outcome): Session { Cleared(s.op, Finished(outcome)) }

  function TargetRow(op: Op): Row
    requires op.CaptureHold? || op.ReleaseHold? || op.Reverse?
  {
    if op.Reverse? then TxnRow(op.original) else HoldRow(op.hold)
  }

  /** The leg being checked; a new hold is checked like a debit of its amount. */
  function Current(s: Session): Leg {
    if s.op.PlaceHold? then Leg(s.op.account, -s.op.amount)
    else if |s.entryRows| < |s.plan| then s.plan[|s.entryRows|]
    else Leg(SYSTEM_ACCOUNT_NGN, 0)
  }

  function VisibleLedger(t: Tables, s: Session, a: AccountId): int {
    Ledger(t, a) + LegSum(s.entryRows, a)
  }

  function VisibleHolds(t: Tables, s: Session): seq<Hold> {
    (match s.holdUpdate
     case Some(status) =>
       if (s.op.CaptureHold? || s.op.ReleaseHold?) && s.op.hold < |t.holds|
       then t.holds[s.op.hold := t.holds[s.op.hold].(status := status)] else t.holds
     case None => t.holds)
    + (match s.holdRow case Some(h) => [h] case None => [])
  }

  ghost predicate RowLocked(st: State, sid: SessionId, row: Row) {
    exists other :: other in st.sessions && other != sid && row in st.sessions[other].locks
  }

  ghost predicate KeyPending(st: State, sid: SessionId, key: Key) {
    exists other :: other in st.sessions && other != sid
      && st.sessions[other].op.Keyed() && st.sessions[other].op.key == key && st.sessions[other].keyRow.Some?
  }

  ghost predicate TxnPending(st: State, sid: SessionId, key: Key) {
    exists other :: other in st.sessions && other != sid
      && st.sessions[other].txnRow.Some? && st.sessions[other].txnRow.value.key == key
  }

  ghost function StepReserve(st: State, sid: SessionId, s: Session): Session
    requires s.op.Keyed()
  {
    if s.op.key in st.tables.keys then Cleared(s.op, FetchKey)     // unique violation
    else if KeyPending(st, sid, s.op.key) then s                   // blocks
    else s.(keyRow := Some(InProgress), pc := if s.op.Post? then InsertTxn else LockTarget,
            plan := if s.op.Post? then s.op.legs else [])
  }

  function StepFetch(st: State, s: Session): Session
    requires s.op.Keyed()
  {
    if s.op.key !in st.tables.keys then Ended(s, Rejected(KeyMissing))
    else
      var row := st.tables.keys[s.op.key];
      if row.hash != HashOf(s.op) then Ended(s, Rejected(KeyReused))
      else if row.status != Completed then Ended(s, Rejected(KeyInProgress))
      else match row.response
        case Some(id) => Ended(s, Succeeded(id))
        case None => Ended(s, Rejected(DatabaseError))
  }

  ghost function StepLockTarget(st: State, sid: SessionId, s: Session): Session
    requires s.op.CaptureHold? || s.op.ReleaseHold? || s.op.Reverse?
  {
    var row := TargetRow(s.op);
    if s.op.Reverse? then
      if s.op.original >= |st.tables.txns| then Ended(s, Rejected(TransactionNotFound))
      else if RowLocked(st, sid, row) then s
      else if st.tables.txns[s.op.original].state != Posted then Ended(s, Rejected(NotReversible))
      else s.(locks := s.locks + {row}, pc := ReadOriginal)
    else if s.op.hold >= |st.tables.holds| then Ended(s, Rejected(HoldNotFound))
    else if RowLocked(st, sid, row) then s
    else if st.tables.holds[s.op.hold].status != Active then Ended(s, Rejected(HoldNotActive))
    else if s.op.ReleaseHold? then s.(locks := s.locks + {row}, pc := MarkTarget)
    else s.(locks := s.locks + {row}, pc := InsertTxn, plan := CaptureLegs(st.tables.holds[s.op.hold]))
  }

  function StepReadOriginal(st: State, s: Session): Session
    requires s.op.Reverse?
  {
    var legs := LegsOf(st.tables.entries, s.op.original);
    if legs == [] then Ended(s, Rejected(TransactionNotFound))
    else s.(plan := Negated(legs), pc := InsertTxn)
  }

  ghost function StepInsertTxn(st: State, sid: SessionId, s: Session): Session
    requires s.op.Keyed()
  {
    if exists i :: 0 <= i < |st.tables.txns| && st.tables.txns[i].key == s.op.key
    then Ended(s, Rejected(DatabaseError))                         // unique violation
    else if TxnPending(st, sid, s.op.key) then s                   // blocks
    else s.(txnRow := Some(Txn(s.op.key, TypeOf(s.op), Posted)), pc := NextLeg)
  }

  /** A positive leg skips the balance trigger; a missing account is a foreign-key violation. */
  function StepNextLeg(st: State, s: Session): Session {
    if |s.entryRows| >= |s.plan| then s.(pc := if s.op.Post? then CompleteKey else MarkTarget)
    else if Current(s).amount <= 0 then s.(pc := LockAccount)
    else if Current(s).account !in st.tables.accounts then Ended(s, Rejected(DatabaseError))
    else s.(entryRows := s.entryRows + [Current(s)])
  }

  ghost function StepLockAccount(st: State, sid: SessionId, s: Session): Session {
    var row := AccountRow(Current(s).account);
    if Current(s).account !in st.tables.accounts then Ended(s, Rejected(AccountNotFound))
    else if RowLocked(st, sid, row) then s
    else s.(locks := s.locks + {row}, pc := ReadLedger)
  }

  function StepCheck(t: Tables, s: Session, ledger: int, held: int): Session {
    var leg := Current(s);
    if leg.account !in t.accounts then Ended(s, Rejected(AccountNotFound))
    else if ledger + leg.amount - held < Floor(t, leg.account)
    then Ended(s, Rejected(InsufficientBalance))
    else if s.op.PlaceHold? then
      if s.op.amount <= 0 then Ended(s, Rejected(DatabaseError))   // CHECK (amount_minor > 0)
      else s.(holdRow := Some(Hold(s.op.account, s.op.amount, Active)), pc := CommitTx)
    else if leg.amount == 0 then Ended(s, Rejected(DatabaseError)) // CHECK (amount_minor <> 0)
    else s.(entryRows := s.entryRows + [leg], pc := NextLeg)
  }

  function StepMark(s: Session): Session {
    match s.op
    case ReleaseHold(_) => s.(holdUpdate := Some(Released), pc := CommitTx)
    case CaptureHold(_, _) => s.(holdUpdate := Some(Captured), pc := CompleteKey)
    case _ => s.(reversed := true, pc := CompleteKey)
  }

  /** The committed tables after the session's pending rows become visible. */
  function CommitRows(t: Tables, s: Session): Tables {
    var id := |t.txns|;
    Tables(
      t.accounts,
      if s.op.Keyed() && s.keyRow.Some?
      then t.keys[s.op.key := KeyRow(HashOf(s.op), s.keyRow.value, if s.keyRow.value == Completed then Some(id) else None)]
      else t.keys,
      (if s.op.Reverse? && s.reversed && s.op.original < |t.txns|
       then t.txns[s.op.original := t.txns[s.op.original].(state := Reversed)] else t.txns)
      + (match s.txnRow case Some(row) => [row] case None => []),
      t.entries + Tag(id, s.entryRows),
      VisibleHolds(t, s))
  }

  function NewId(t: Tables, s: Session): nat {
    match s.op
    case PlaceHold(_, _) => |t.holds|
    case ReleaseHold(h) => h
    case _ => |t.txns|
  }

  /** The session after its next statement; the session itself when the statement blocks. */
  ghost function Next(st: State, sid: SessionId): Session
    requires sid in st.sessions
  {
    var s := st.sessions[sid];
    match s.pc
    case ReserveKey => if s.op.Keyed() then StepReserve(st, sid, s) else s
    case FetchKey => if s.op.Keyed() then StepFetch(st, s) else s
    case LockTarget => if s.op.CaptureHold? || s.op.ReleaseHold? || s.op.Reverse? then StepLockTarget(st, sid, s) else s
    case ReadOriginal => if s.op.Reverse? then StepReadOriginal(st, s) else s
    case InsertTxn => if s.op.Keyed() then StepInsertTxn(st, sid, s) else s
    case NextLeg => StepNextLeg(st, s)
    case LockAccount => StepLockAccount(st, sid, s)
    case ReadLedger => s.(pc := ReadHeld(VisibleLedger(st.tables, s, Current(s).account)))
    case ReadHeld(l) => s.(pc := CheckAndInsert(l, HeldSum(VisibleHolds(st.tables, s), Current(s).account)))
    case CheckAndInsert(l, h) => StepCheck(st.tables, s, l, h)
    case MarkTarget => StepMark(s)
    case CompleteKey => s.(keyRow := Some(Completed), pc := CommitTx)
    case CommitTx =>
      if Total(s.entryRows) != 0 then Ended(s, Rejected(UnbalancedTransaction))  // deferred trigger
      else Ended(s, Succeeded(NewId(st.tables, s)))
    case Finished(_) => s
  }

  predicate Commits(s: Session) { s.pc == CommitTx && Total(s.entryRows) == 0 }

  ghost function Do(st: State, action: Action): State {
    match action
    case Begin(sid, op) =>
      if sid in st.sessions then st else st.(sessions := st.sessions[sid := Started(op)])
    case Advance(sid) =>
      if sid !in st.sessions then st
      else State(
        if Commits(st.sessions[sid]) then CommitRows(st.tables, st.sessions[sid]) else st.tables,
        st.sessions[sid := Next(st, sid)])
    case Abort(sid) =>
      if sid !in st.sessions || st.sessions[sid].pc.Finished? then st
      else st.(sessions := st.sessions[sid := Ended(st.sessions[sid], Rejected(DatabaseError))])
  }

  // ---------- what one session's progress means ----------

  ghost predicate NothingWritten(s: Session) {
    s == Cleared(s.op, s.pc)
  }

  ghost predicate NotMarked(s: Session) { s.holdRow.None? && s.holdUpdate.None? && !s.reversed }

  /** The target row is locked and still in the state the call found it in. */
  ghost predicate TargetHeld(t: Tables, s: Session) {
    (s.op.CaptureHold? || s.op.ReleaseHold? || s.op.Reverse?) ==> TargetRow(s.op) in s.locks && Ready(t, s.op)
  }

  /** Every debit already inserted is on a locked account that can bear it. */
  ghost predicate DebitsCovered(t: Tables, s: Session) {
    forall i | 0 <= i < |s.entryRows| ::
      && s.entryRows[i].account in t.accounts
      && s.entryRows[i].amount != 0
      && (s.entryRows[i].amount < 0 ==>
            && AccountRow(s.entryRows[i].account) in s.locks
            && Available(t, s.entryRows[i].account) + LegSum(s.entryRows, s.entryRows[i].account)
               >= Floor(t, s.entryRows[i].account))
  }

  /** Between the reservation of the key and the last leg. */
  ghost predicate Posting(t: Tables, s: Session) {
    && s.op.Keyed()
    && s.keyRow == Some(InProgress)
    && TargetHeld(t, s)
    && s.plan == LegsFor(t, s.op)
    && s.txnRow == Some(Txn(s.op.key, TypeOf(s.op), Posted))
    && s.entryRows <= s.plan
    && DebitsCovered(t, s)
    && NotMarked(s)
  }

  /** About to check Current(s) against the balance. */
  ghost predicate Checking(t: Tables, s: Session) {
    if s.op.PlaceHold? then s == Cleared(s.op, s.pc).(locks := s.locks)
    else Posting(t, s) && |s.entryRows| < |s.plan| && Current(s).amount <= 0
  }

  ghost predicate AccountHeld(t: Tables, s: Session) {
    AccountRow(Current(s).account) in s.locks && Current(s).account in t.accounts
  }

  /** All legs are in and the target is marked. */
  ghost predicate Written(t: Tables, s: Session) {
    && s.op.Keyed()
    && TargetHeld(t, s)
    && s.plan == LegsFor(t, s.op)
    && s.txnRow == Some(Txn(s.op.key, TypeOf(s.op), Posted))
    && s.entryRows == s.plan
    && DebitsCovered(t, s)
    && s.holdRow.None?
    && s.holdUpdate == (if s.op.CaptureHold? then Some(Captured) else None)
    && s.reversed == s.op.Reverse?
  }

  ghost predicate ReadyToCommit(t: Tables, s: Session) {
    match s.op
    case PlaceHold(a, amount) =>
      && s == Cleared(s.op, s.pc).(locks := s.locks, holdRow := Some(Hold(a, amount, Active)))
      && AccountRow(a) in s.locks
      && CanCommit(t, s.op)
    case ReleaseHold(h) =>
      && s == Cleared(s.op, s.pc).(locks := s.locks, holdUpdate := Some(Released))
      && TargetHeld(t, s)
    case _ => Written(t, s) && s.keyRow == Some(Completed)
  }

  /** A successful call's reply is what the committed tables store for it. */
  ghost predicate ReplyOk(t: Tables, op: Op, outcome: Outcome) {
    && outcome != Rejected(KeyInProgress)
    && outcome != Rejected(KeyMissing)
    && (outcome.Succeeded? ==>
          match op
          case PlaceHold(a, amount) =>
            outcome.id < |t.holds| && t.holds[outcome.id].account == a && t.holds[outcome.id].amount == amount
          case ReleaseHold(h) => outcome.id == h < |t.holds| && t.holds[h].status == Released
          case _ => op.key in t.keys && t.keys[op.key] == KeyRow(HashOf(op), Completed, Some(outcome.id)))
  }

  ghost predicate SessionOk(t: Tables, s: Session) {
    && (s.op.Keyed() && s.keyRow.Some? ==> s.op.key !in t.keys)
    && match s.pc
       case ReserveKey => s.op.Keyed() && NothingWritten(s)
       case FetchKey => s.op.Keyed() && NothingWritten(s) && s.op.key in t.keys
       case LockTarget =>
         && (s.op.CaptureHold? || s.op.ReleaseHold? || s.op.Reverse?)
         && s == Cleared(s.op, s.pc).(keyRow := if s.op.Keyed() then Some(InProgress) else None)
       case ReadOriginal =>
         && s.op.Reverse?
         && s == Cleared(s.op, s.pc).(keyRow := Some(InProgress), locks := {TargetRow(s.op)})
         && s.op.original < |t.txns| && t.txns[s.op.original].state == Posted
       case InsertTxn =>
         && s.op.Keyed()
         && s.keyRow == Some(InProgress) && TargetHeld(t, s) && s.plan == LegsFor(t, s.op)
         && s.txnRow.None? && s.entryRows == [] && NotMarked(s)
       case NextLeg => Posting(t, s)
       case LockAccount => Checking(t, s)
       case ReadLedger => Checking(t, s) && AccountHeld(t, s)
       case ReadHeld(l) => Checking(t, s) && AccountHeld(t, s) && l <= VisibleLedger(t, s, Current(s).account)
       case CheckAndInsert(l, h) =>
         && Checking(t, s) && AccountHeld(t, s)
         && l <= VisibleLedger(t, s, Current(s).account) && h >= Held(t, Current(s).account)
       case MarkTarget =>
         if s.op.ReleaseHold? then s == Cleared(s.op, s.pc).(locks := s.locks) && TargetHeld(t, s)
         else (s.op.CaptureHold? || s.op.Reverse?) && Posting(t, s) && s.entryRows == s.plan
       case CompleteKey => Written(t, s) && s.keyRow == Some(InProgress)
       case CommitTx => ReadyToCommit(t, s)
       case Finished(outcome) => NothingWritten(s) && ReplyOk(t, s.op, outcome)
  }

  ghost predicate Apart(s1: Session, s2: Session) {
    && s1.locks !! s2.locks
    && (s1.op.Keyed() && s2.op.Keyed() && s1.keyRow.Some? && s2.keyRow.Some? ==> s1.op.key != s2.op.key)
  }

  ghost predicate AllOk(t: Tables, sessions: map<SessionId, Session>) {
    forall sid | sid in sessions :: SessionOk(t, sessions[sid])
  }

  ghost predicate AllApart(sessions: map<SessionId, Session>) {
    forall i, j | i in sessions && j in sessions && i != j :: Apart(sessions[i], sessions[j])
  }

  ghost predicate Inv(st: State) {
    TablesOk(st.tables) && AllOk(st.tables, st.sessions) && AllApart(st.sessions)
  }

  // ---------- a session's own statements ----------

  /** A statement takes only locks that no other transaction holds. */
  lemma {:induction false} NextLocks(st: State, sid: SessionId, row: Row)
    requires sid in st.sessions && row in Next(st, sid).locks
    ensures row in st.sessions[sid].locks || !RowLocked(st, sid, row)
  {
  }

  /** A statement reserves only a key that no other transaction has pending. */
  lemma {:induction false} NextReserves(st: State, sid: SessionId)
    requires sid in st.sessions && SessionOk(st.tables, st.sessions[sid])
    ensures Next(st, sid).op == st.sessions[sid].op
    ensures st.sessions[sid].op.Keyed() && Next(st, sid).keyRow.Some? ==>
      st.sessions[sid].keyRow.Some? || !KeyPending(st, sid, st.sessions[sid].op.key)
  {
  }

  lemma {:induction false} NextKeepsApart(st: State, sid: SessionId, other: SessionId)
    requires sid in st.sessions && SessionOk(st.tables, st.sessions[sid])
    requires other in st.sessions && other != sid && Apart(st.sessions[sid], st.sessions[other])
    ensures Apart(Next(st, sid), st.sessions[other])
    ensures Apart(st.sessions[other], Next(st, sid))
  {
    NextReserves(st, sid);
    forall row | row in Next(st, sid).locks ensures row !in st.sessions[other].locks {
      NextLocks(st, sid, row);
    }
  }

  /** Appending a leg keeps the earlier debits covered, when the leg is a credit or was just checked. */
  lemma {:induction false} AppendKeepsCovered(t: Tables, s: Session, leg: Leg)
    requires DebitsCovered(t, s) && leg.account in t.accounts && leg.amount != 0
    requires leg.amount < 0 ==>
      && AccountRow(leg.account) in s.locks
      && Available(t, leg.account) + LegSum(s.entryRows, leg.account) + leg.amount >= Floor(t, leg.account)
    ensures DebitsCovered(t, s.(entryRows := s.entryRows + [leg]))
  {
  }

  lemma {:induction false} ReserveKeepsOk(st: State, sid: SessionId)
    requires sid in st.sessions && SessionOk(st.tables, st.sessions[sid]) && st.sessions[sid].pc.ReserveKey?
    ensures SessionOk(st.tables, Next(st, sid))
  {
  }

  lemma {:induction false} FetchKeepsOk(st: State, sid: SessionId)
    requires sid in st.sessions && SessionOk(st.tables, st.sessions[sid]) && st.sessions[sid].pc.FetchKey?
    requires KeysOk(st.tables)
    ensures SessionOk(st.tables, Next(st, sid))
  {
  }

  lemma {:induction false} LockTargetKeepsOk(st: State, sid: SessionId)
    requires sid in st.sessions && SessionOk(st.tables, st.sessions[sid]) && st.sessions[sid].pc.LockTarget?
    ensures SessionOk(st.tables, Next(st, sid))
  {
  }

  lemma {:induction false} ReadOriginalKeepsOk(st: State, sid: SessionId)
    requires sid in st.sessions && SessionOk(st.tables, st.sessions[sid]) && st.sessions[sid].pc.ReadOriginal?
    ensures SessionOk(st.tables, Next(st, sid))
  {
  }

  lemma {:induction false} InsertTxnKeepsOk(st: State, sid: SessionId)
    requires sid in st.sessions && SessionOk(st.tables, st.sessions[sid]) && st.sessions[sid].pc.InsertTxn?
    ensures SessionOk(st.tables, Next(st, sid))
  {
  }

  lemma {:induction false} NextLegKeepsOk(st: State, sid: SessionId)
    requires sid in st.sessions && SessionOk(st.tables, st.sessions[sid]) && st.sessions[sid].pc.NextLeg?
    ensures SessionOk(st.tables, Next(st, sid))
  {
    var s := st.sessions[sid];
    if |s.entryRows| < |s.plan| && Current(s).amount > 0 && Current(s).account in st.tables.accounts {
      AppendKeepsCovered(st.tables, s, Current(s));
    }
  }

  lemma {:induction false} LockAccountKeepsOk(st: State, sid: SessionId)
    requires sid in st.sessions && SessionOk(st.tables, st.sessions[sid]) && st.sessions[sid].pc.LockAccount?
    ensures SessionOk(st.tables, Next(st, sid))
  {
  }

  lemma {:induction false} ReadSumsKeepOk(st: State, sid: SessionId)
    requires sid in st.sessions && SessionOk(st.tables, st.sessions[sid]) && (st.sessions[sid].pc.ReadLedger? || st.sessions[sid].pc.ReadHeld?)
    ensures SessionOk(st.tables, Next(st, sid))
  {
    var s := st.sessions[sid];
    assert VisibleHolds(st.tables, s) == st.tables.holds;
  }

  /** The sums were read under the account's lock, so a debit they cover is covered now. */
  lemma {:induction false} CheckedLegKeepsOk(t: Tables, s: Session, l: int, h: int)
    requires SessionOk(t, s) && s.pc == CheckAndInsert(l, h) && s.op.Keyed()
    ensures SessionOk(t, StepCheck(t, s, l, h))
  {
    if StepCheck(t, s, l, h).pc.NextLeg? {
      AppendKeepsCovered(t, s, Current(s));
    }
  }

  lemma {:induction false} CheckedHoldKeepsOk(t: Tables, s: Session, l: int, h: int)
    requires SessionOk(t, s) && s.pc == CheckAndInsert(l, h) && s.op.PlaceHold?
    ensures SessionOk(t, StepCheck(t, s, l, h))
  {
  }

  lemma {:induction false} MarkKeepsOk(st: State, sid: SessionId)
    requires sid in st.sessions && SessionOk(st.tables, st.sessions[sid]) && (st.sessions[sid].pc.MarkTarget? || st.sessions[sid].pc.CompleteKey?)
    ensures SessionOk(st.tables, Next(st, sid))
  {
  }

  lemma {:induction false} NextKeepsOk(st: State, sid: SessionId)
    requires sid in st.sessions && SessionOk(st.tables, st.sessions[sid]) && KeysOk(st.tables)
    requires st.sessions[sid].pc != CommitTx
    ensures SessionOk(st.tables, Next(st, sid))
  {
    match st.sessions[sid].pc
    case ReserveKey => ReserveKeepsOk(st, sid);
    case FetchKey => FetchKeepsOk(st, sid);
    case LockTarget => LockTargetKeepsOk(st, sid);
    case ReadOriginal => ReadOriginalKeepsOk(st, sid);
    case InsertTxn => InsertTxnKeepsOk(st, sid);
    case NextLeg => NextLegKeepsOk(st, sid);
    case LockAccount => LockAccountKeepsOk(st, sid);
    case ReadLedger => ReadSumsKeepOk(st, sid);
    case ReadHeld(_) => ReadSumsKeepOk(st, sid);
    case CheckAndInsert(l, h) =>
      if st.sessions[sid].op.PlaceHold? { CheckedHoldKeepsOk(st.tables, st.sessions[sid], l, h); }
      else { CheckedLegKeepsOk(st.tables, st.sessions[sid], l, h); }
    case MarkTarget => MarkKeepsOk(st, sid);
    case CompleteKey => MarkKeepsOk(st, sid);
    case Finished(_) =>
  }

  // ---------- a commit, seen by the committed tables and by the other sessions ----------

  /** The pending rows of a finished transaction are exactly one atomic operation, and its guard holds. */
  lemma {:induction false} CommitRefines(t: Tables, s: Session)
    requires SessionOk(t, s) && Commits(s)
    ensures CanCommit(t, s.op)
    ensures CommitRows(t, s) == Commit(t, s.op)
  {
    assert ReadyToCommit(t, s);
    if s.op.Keyed() {
      PostingRefines(t, s);
    } else {
      assert t.entries + Tag(|t.txns|, s.entryRows) == t.entries;
      assert t.txns + [] == t.txns;
    }
  }

  lemma {:induction false} PostingRefines(t: Tables, s: Session)
    requires ReadyToCommit(t, s) && Total(s.entryRows) == 0 && s.op.Keyed() && s.op.key !in t.keys
    ensures CanCommit(t, s.op)
    ensures CommitRows(t, s) == Commit(t, s.op)
  {
  }

  /** What another transaction's commit leaves alone for a session holding these locks. */
  ghost predicate Preserved(t: Tables, t': Tables, locks: set<Row>) {
    && t'.accounts == t.accounts
    && |t.txns| <= |t'.txns| && |t.holds| <= |t'.holds|
    && (forall k | k in t.keys :: k in t'.keys && t'.keys[k] == t.keys[k])
    && (forall o: TxnId | o < |t.txns| :: LegsOf(t'.entries, o) == LegsOf(t.entries, o))
    && (forall h | 0 <= h < |t.holds| ::
          && t'.holds[h].account == t.holds[h].account && t'.holds[h].amount == t.holds[h].amount
          && (HoldRow(h) in locks || t.holds[h].status != Active ==> t'.holds[h] == t.holds[h]))
    && (forall o | 0 <= o < |t.txns| && TxnRow(o) in locks :: t'.txns[o] == t.txns[o])
    && (forall a | a in t.accounts && AccountRow(a) in locks ::
          Ledger(t', a) >= Ledger(t, a) && Held(t', a) <= Held(t, a))
  }

  lemma {:induction false} TargetStays(t: Tables, t': Tables, s: Session)
    requires TargetHeld(t, s) && Preserved(t, t', s.locks)
    ensures TargetHeld(t', s)
    ensures s.op.Keyed() && Ready(t, s.op) ==> Ready(t', s.op) && LegsFor(t', s.op) == LegsFor(t, s.op)
  {
  }

  lemma {:induction false} PostingStays(t: Tables, t': Tables, s: Session)
    requires Preserved(t, t', s.locks)
    ensures Posting(t, s) ==> Posting(t', s)
    ensures Written(t, s) ==> Written(t', s)
    ensures Checking(t, s) ==> Checking(t', s)
  {
  }

  lemma {:induction false} ReplyStays(t: Tables, t': Tables, s: Session, outcome: Outcome)
    requires ReplyOk(t, s.op, outcome) && Preserved(t, t', s.locks)
    ensures ReplyOk(t', s.op, outcome)
  {
  }

  lemma {:induction false} StaysOk(t: Tables, t': Tables, s: Session)
    requires SessionOk(t, s) && Preserved(t, t', s.locks)
    requires s.op.Keyed() && s.keyRow.Some? ==> s.op.key !in t'.keys
    ensures SessionOk(t', s)
  {
    PostingStays(t, t', s);
    if TargetHeld(t, s) { TargetStays(t, t', s); }
    match s.pc
    case Finished(outcome) => ReplyStays(t, t', s, outcome);
    case _ =>
  }

  /** What a session has locked by the time it commits covers everything its commit can lower. */
  ghost predicate Touches(t: Tables, op: Op, locks: set<Row>)
    requires CanCommit(t, op)
  {
    match op
    case PlaceHold(a, _) => AccountRow(a) in locks
    case ReleaseHold(h) => HoldRow(h) in locks
    case _ =>
      && (op.CaptureHold? || op.Reverse? ==> TargetRow(op) in locks)
      && (forall i | 0 <= i < |LegsFor(t, op)| && LegsFor(t, op)[i].amount < 0 ::
            AccountRow(LegsFor(t, op)[i].account) in locks)
  }

  lemma {:induction false} CommitTouches(t: Tables, s: Session)
    requires TablesOk(t) && SessionOk(t, s) && Commits(s)
    ensures CanCommit(t, s.op) && Touches(t, s.op, s.locks)
  {
  }

  /** An account whose lock is elsewhere is not lowered. */
  lemma {:induction false} CommitRaises(t: Tables, op: Op, locks: set<Row>, a: AccountId)
    requires TablesOk(t) && CanCommit(t, op) && Touches(t, op, locks) && AccountRow(a) !in locks
    ensures Ledger(Commit(t, op), a) >= Ledger(t, a)
    ensures Held(Commit(t, op), a) <= Held(t, a)
  {
    if op.PlaceHold? {
      HeldSumAppend(t.holds, Hold(op.account, op.amount, Active), a);
    } else if op.ReleaseHold? {
      HeldSumUpdate(t.holds, op.hold, t.holds[op.hold].(status := Released), a);
    } else {
      var legs := LegsFor(t, op);
      EntrySumTag(t.entries, |t.txns|, legs, a);
      PositiveLegSum(legs, a);
      if op.CaptureHold? {
        HeldSumUpdate(t.holds, op.hold, t.holds[op.hold].(status := Captured), a);
      }
    }
  }

  lemma {:induction false} CommitKeepsRows(t: Tables, op: Op, mine: set<Row>, locks: set<Row>)
    requires TablesOk(t) && CanCommit(t, op) && Touches(t, op, mine) && mine !! locks
    ensures var t' := Commit(t, op);
      && t'.accounts == t.accounts
      && |t.txns| <= |t'.txns| && |t.holds| <= |t'.holds|
      && (forall k | k in t.keys :: k in t'.keys && t'.keys[k] == t.keys[k])
      && (forall h | 0 <= h < |t.holds| ::
            && t'.holds[h].account == t.holds[h].account && t'.holds[h].amount == t.holds[h].amount
            && (HoldRow(h) in locks || t.holds[h].status != Active ==> t'.holds[h] == t.holds[h]))
      && (forall o | 0 <= o < |t.txns| && TxnRow(o) in locks :: t'.txns[o] == t.txns[o])
  {
  }

  lemma {:induction false} CommitPreserves(t: Tables, op: Op, mine: set<Row>, locks: set<Row>)
    requires TablesOk(t) && CanCommit(t, op) && Touches(t, op, mine) && mine !! locks
    ensures Preserved(t, Commit(t, op), locks)
  {
    forall a | a in t.accounts && AccountRow(a) in locks
      ensures Ledger(Commit(t, op), a) >= Ledger(t, a) && Held(Commit(t, op), a) <= Held(t, a)
    {
      CommitRaises(t, op, mine, a);
    }
    CommitKeepsRows(t, op, mine, locks);
    if op.Keyed() {
      RecordedLegs(t, op.key, HashOf(op), TypeOf(op), LegsFor(t, op));
    }
  }

  lemma {:induction false} CommittedReply(t: Tables, s: Session)
    requires TablesOk(t) && SessionOk(t, s) && Commits(s)
    ensures ReplyOk(CommitRows(t, s), s.op, Succeeded(NewId(t, s)))
  {
  }

  // ---------- every step, every run ----------

  /** What the action adds to the committed history. */
  function Logged(st: State, action: Action): seq<Op> {
    match action
    case Advance(sid) =>
      if sid in st.sessions && Commits(st.sessions[sid]) then [st.sessions[sid].op] else []
    case _ => []
  }

  lemma {:induction false} ReplaceKeepsApart(sessions: map<SessionId, Session>, sid: SessionId, s: Session)
    requires AllApart(sessions)
    requires forall other | other in sessions && other != sid ::
      Apart(s, sessions[other]) && Apart(sessions[other], s)
    ensures AllApart(sessions[sid := s])
  {
  }

  lemma {:induction false} ReplaceKeepsOk(t: Tables, sessions: map<SessionId, Session>, sid: SessionId, s: Session)
    requires AllOk(t, sessions) && SessionOk(t, s)
    ensures AllOk(t, sessions[sid := s])
  {
  }

  lemma {:induction false} NextKeepsAllApart(st: State, sid: SessionId)
    requires Inv(st) && sid in st.sessions
    ensures AllApart(st.sessions[sid := Next(st, sid)])
  {
    forall other | other in st.sessions && other != sid
      ensures Apart(Next(st, sid), st.sessions[other]) && Apart(st.sessions[other], Next(st, sid))
    {
      NextKeepsApart(st, sid, other);
    }
    ReplaceKeepsApart(st.sessions, sid, Next(st, sid));
  }

  lemma {:induction false} NewSessionKeepsInv(st: State, sid: SessionId, s: Session)
    requires Inv(st) && s.locks == {} && s.keyRow.None? && SessionOk(st.tables, s)
    ensures Inv(st.(sessions := st.sessions[sid := s]))
  {
  }

  lemma {:induction false} QuietAdvanceKeepsInv(st: State, sid: SessionId)
    requires Inv(st) && sid in st.sessions && !Commits(st.sessions[sid])
    ensures Inv(Do(st, Advance(sid))) && Do(st, Advance(sid)).tables == st.tables
  {
    assert SessionOk(st.tables, Next(st, sid)) by {
      if st.sessions[sid].pc != CommitTx { NextKeepsOk(st, sid); }
    }
    NextKeepsAllApart(st, sid);
    ReplaceKeepsOk(st.tables, st.sessions, sid, Next(st, sid));
  }

  lemma {:induction false} QuietStepKeepsInv(st: State, action: Action)
    requires Inv(st) && Logged(st, action) == []
    ensures Inv(Do(st, action)) && Do(st, action).tables == st.tables
  {
    match action
    case Begin(sid, op) => NewSessionKeepsInv(st, sid, Started(op));
    case Abort(sid) =>
      if sid in st.sessions { NewSessionKeepsInv(st, sid, Ended(st.sessions[sid], Rejected(DatabaseError))); }
    case Advance(sid) =>
      if sid in st.sessions { QuietAdvanceKeepsInv(st, sid); }
  }

  lemma {:induction false} OthersStayOk(st: State, sid: SessionId, t': Tables)
    requires Inv(st) && sid in st.sessions && Commits(st.sessions[sid])
    requires t' == CommitRows(st.tables, st.sessions[sid])
    ensures forall i | i in st.sessions && i != sid :: SessionOk(t', st.sessions[i])
  {
    var s := st.sessions[sid];
    CommitRefines(st.tables, s);
    CommitTouches(st.tables, s);
    forall i | i in st.sessions && i != sid ensures SessionOk(t', st.sessions[i]) {
      assert Apart(s, st.sessions[i]);
      CommitPreserves(st.tables, s.op, s.locks, st.sessions[i].locks);
      StaysOk(st.tables, t', st.sessions[i]);
    }
  }

  /** The committing session itself ends with the reply its commit stored. */
  lemma {:induction false} CommitterEndsOk(st: State, sid: SessionId, t': Tables)
    requires Inv(st) && sid in st.sessions && Commits(st.sessions[sid])
    requires t' == CommitRows(st.tables, st.sessions[sid])
    ensures SessionOk(t', Next(st, sid))
  {
    CommittedReply(st.tables, st.sessions[sid]);
  }

  lemma {:induction false} AllEndOk(st: State, sid: SessionId, t': Tables)
    requires Inv(st) && sid in st.sessions && Commits(st.sessions[sid])
    requires t' == CommitRows(st.tables, st.sessions[sid])
    ensures AllOk(t', st.sessions[sid := Next(st, sid)])
  {
    CommitterEndsOk(st, sid, t');
    OthersStayOk(st, sid, t');
  }

  lemma {:induction false} CommitStepKeepsInv(st: State, sid: SessionId)
    requires Inv(st) && sid in st.sessions && Commits(st.sessions[sid])
    ensures CanCommit(st.tables, st.sessions[sid].op)
    ensures Do(st, Advance(sid)).tables == Commit(st.tables, st.sessions[sid].op)
    ensures Inv(Do(st, Advance(sid)))
  {
    var t' := CommitRows(st.tables, st.sessions[sid]);
    CommitRefines(st.tables, st.sessions[sid]);
    CommitKeepsOk(st.tables, st.sessions[sid].op);
    AllEndOk(st, sid, t');
    NextKeepsAllApart(st, sid);
  }

  function Opened(accounts: map<AccountId, nat>): State {
    State(Tables(accounts, map[], [], [], []), map[])
  }

  ghost function Run(st: State, actions: seq<Action>): State {
    if actions == [] then st else Do(Run(st, actions[..|actions| - 1]), actions[|actions| - 1])
  }

  /** The operations committed during the run, in commit order. */
  ghost function Log(st: State, actions: seq<Action>): seq<Op> {
    if actions == [] then []
    else
      var front := actions[..|actions| - 1];
      Log(st, front) + Logged(Run(st, front), actions[|actions| - 1])
  }

  /** Any interleaving of any number of calls, statement by statement, with rollbacks and crashes
      anywhere, leaves the tables that its committed operations leave when run one at a time. */
  lemma {:induction false} InterleavingIsSerial(st: State, actions: seq<Action>)
    requires Inv(st)
    ensures Inv(Run(st, actions))
    ensures CanRun(st.tables, Log(st, actions))
    ensures Run(st, actions).tables == RunOps(st.tables, Log(st, actions))
  {
    if actions != [] {
      var front := actions[..|actions| - 1];
      var last := actions[|actions| - 1];
      InterleavingIsSerial(st, front);
      var mid := Run(st, front);
      var log := Log(st, front);
      if Logged(mid, last) == [] {
        QuietStepKeepsInv(mid, last);
        assert log + [] == log;
      } else {
        CommitStepKeepsInv(mid, last.sid);
        assert (log + [mid.sessions[last.sid].op])[..|log|] == log;
      }
    }
  }

  lemma {:induction false} OpenedIsOk(accounts: map<AccountId, nat>)
    ensures Inv(Opened(accounts))
  {
  }
}
