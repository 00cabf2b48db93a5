/** The ledger's five operations as single atomic steps on the committed tables, and what every
    sequence of them keeps.  ReadCommitted proves that interleaved transactions behave like this. */
module AtomicLedger {
  import opened LedgerTables

  datatype Op =
    | Post(key: Key, ty: TxnType, legs: seq<Leg>)
    | PlaceHold(account: AccountId, amount: int)
    | ReleaseHold(hold: HoldId)
    | CaptureHold(hold: HoldId, key: Key)
    | Reverse(original: TxnId, key: Key)
  {
    predicate Keyed() { Post? || CaptureHold? || Reverse? }
  }

  function CreditOp(account: AccountId, amount: int, key: Key): Op {
    Post(key, Credit, [Leg(account, amount), Leg(SYSTEM_ACCOUNT_NGN, -amount)])
  }

  function DebitOp(account: AccountId, amount: int, key: Key): Op {
    Post(key, Debit, [Leg(account, -amount), Leg(SYSTEM_ACCOUNT_NGN, amount)])
  }

  function TransferOp(from: AccountId, to: AccountId, amount: int, key: Key): Op {
    Post(key, Transfer, [Leg(from, -amount), Leg(to, amount)])
  }

  // ---------- what an operation writes ----------

  function CaptureLegs(h: Hold): seq<Leg> {
    [Leg(h.account, -h.amount), Leg(SYSTEM_ACCOUNT_NGN, h.amount)]
  }

  function HashOf(op: Op): RequestHash
    requires op.Keyed()
  {
    match op
    case Post(_, ty, legs) => LegsHash(ty, legs)
    case CaptureHold(hold, _) => CaptureHash(hold)
    case Reverse(original, _) => ReversalHash(original)
  }

  function TypeOf(op: Op): TxnType
    requires op.Keyed()
  {
    match op
    case Post(_, ty, _) => ty
    case CaptureHold(_, _) => Debit
    case Reverse(_, _) => Reversal
  }

  /** The row the operation must find, and the state it must find it in. */
  predicate Ready(t: Tables, op: Op) {
    match op
    case CaptureHold(h, _) => h < |t.holds| && t.holds[h].status == Active
    case ReleaseHold(h) => h < |t.holds| && t.holds[h].status == Active
    case Reverse(o, _) => o < |t.txns| && t.txns[o].state == Posted && LegsOf(t.entries, o) != []
    case _ => true
  }

  function LegsFor(t: Tables, op: Op): seq<Leg>
    requires op.Keyed() && Ready(t, op)
  {
    match op
    case Post(_, _, legs) => legs
    case CaptureHold(h, _) => CaptureLegs(t.holds[h])
    case Reverse(o, _) => Negated(LegsOf(t.entries, o))
  }

  /** The lowest available balance the account is authorized to reach. */
  function Floor(t: Tables, a: AccountId): int
    requires a in t.accounts
  {
    var limit: int := t.accounts[a];
    -limit
  }

  /** Every leg is on a known account and non-zero, and every account the posting debits can bear
      the posting's net effect while all its active holds still count. */
  predicate Covered(t: Tables, legs: seq<Leg>) {
    forall i | 0 <= i < |legs| ::
      && legs[i].account in t.accounts
      && legs[i].amount != 0
      && (legs[i].amount < 0 ==>
            Available(t, legs[i].account) + LegSum(legs, legs[i].account) >= Floor(t, legs[i].account))
  }

  predicate CanCommit(t: Tables, op: Op) {
    match op
    case PlaceHold(a, amount) =>
      a in t.accounts && amount > 0 && Available(t, a) - amount >= Floor(t, a)
    case ReleaseHold(_) => Ready(t, op)
    case _ =>
      && op.key !in t.keys
      && Ready(t, op)
      && Total(LegsFor(t, op)) == 0
      && Covered(t, LegsFor(t, op))
  }

  /** Adds a completed key, its transaction and the transaction's entries. */
  function Record(t: Tables, key: Key, hash: RequestHash, ty: TxnType, legs: seq<Leg>): Tables {
    var id := |t.txns|;
    t.(keys := t.keys[key := KeyRow(hash, Completed, Some(id))],
       txns := t.txns + [Txn(key, ty, Posted)],
       entries := t.entries + Tag(id, legs))
  }

  function SetHold(t: Tables, h: HoldId, status: HoldStatus): Tables
    requires h < |t.holds|
  {
    t.(holds := t.holds[h := t.holds[h].(status := status)])
  }

  function SetReversed(t: Tables, o: TxnId): Tables
    requires o < |t.txns|
  {
    t.(txns := t.txns[o := t.txns[o].(state := Reversed)])
  }

  function Commit(t: Tables, op: Op): Tables
    requires CanCommit(t, op)
  {
    match op
    case PlaceHold(a, amount) => t.(holds := t.holds + [Hold(a, amount, Active)])
    case ReleaseHold(h) => SetHold(t, h, Released)
    case Post(key, ty, legs) => Record(t, key, HashOf(op), ty, legs)
    case CaptureHold(h, key) => SetHold(Record(t, key, HashOf(op), Debit, LegsFor(t, op)), h, Captured)
    case Reverse(o, key) => Record(SetReversed(t, o), key, HashOf(op), Reversal, LegsFor(t, op))
  }

  // ---------- the invariant of the committed tables ----------

  /** Transaction r was posted to compensate transaction o. */
  ghost predicate Reverses(t: Tables, r: TxnId, o: TxnId) {
    r < |t.txns| && t.txns[r].key in t.keys && t.keys[t.txns[r].key].hash == ReversalHash(o)
  }

  /** Transaction c was posted by capturing hold h. */
  ghost predicate Captures(t: Tables, c: TxnId, h: HoldId) {
    c < |t.txns| && t.txns[c].key in t.keys && t.keys[t.txns[c].key].hash == CaptureHash(h)
  }

  ghost predicate Balanced(t: Tables, id: TxnId) { Total(LegsOf(t.entries, id)) == 0 }

  ghost predicate EntriesOk(t: Tables) {
    && (forall i | 0 <= i < |t.entries| ::
          && t.entries[i].txn < |t.txns|
          && t.entries[i].leg.account in t.accounts
          && t.entries[i].leg.amount != 0)
    && (forall id: TxnId :: Balanced(t, id))
  }

  ghost predicate NotOverdrawn(t: Tables, a: AccountId)
    requires a in t.accounts
  {
    Available(t, a) >= Floor(t, a)
  }

  ghost predicate BoundOk(t: Tables) { forall a | a in t.accounts :: NotOverdrawn(t, a) }

  ghost predicate HoldsOk(t: Tables) {
    forall h | 0 <= h < |t.holds| :: t.holds[h].account in t.accounts && t.holds[h].amount > 0
  }

  /** Completed keys and transactions are in bijection, and no key is left in progress. */
  ghost predicate KeysOk(t: Tables) {
    && (forall k | k in t.keys ::
          && t.keys[k].status == Completed
          && t.keys[k].response.Some?
          && t.keys[k].response.value < |t.txns|
          && t.txns[t.keys[k].response.value].key == k)
    && (forall id | 0 <= id < |t.txns| ::
          t.txns[id].key in t.keys && t.keys[t.txns[id].key].response == Some(id))
  }

  ghost predicate ReversalsOk(t: Tables) {
    && (forall id | 0 <= id < |t.txns| :: t.txns[id].state == Posted || t.txns[id].state == Reversed)
    && (forall r: TxnId, o: TxnId | Reverses(t, r, o) ::
          && o < r
          && t.txns[o].state == Reversed
          && LegsOf(t.entries, r) == Negated(LegsOf(t.entries, o)))
    && (forall o | 0 <= o < |t.txns| && t.txns[o].state == Reversed :: exists r: TxnId :: Reverses(t, r, o))
    && (forall r1: TxnId, r2: TxnId, o: TxnId | Reverses(t, r1, o) && Reverses(t, r2, o) :: r1 == r2)
  }

  ghost predicate CapturesOk(t: Tables) {
    && (forall c: TxnId, h: HoldId | Captures(t, c, h) ::
          && h < |t.holds|
          && t.holds[h].status == Captured
          && LegsOf(t.entries, c) == CaptureLegs(t.holds[h]))
    && (forall h | 0 <= h < |t.holds| && t.holds[h].status == Captured :: exists c: TxnId :: Captures(t, c, h))
    && (forall c1: TxnId, c2: TxnId, h: HoldId | Captures(t, c1, h) && Captures(t, c2, h) :: c1 == c2)
  }

  /** A transaction has the type and the legs its request named; captures are debits. */
  ghost predicate PostedAsAsked(t: Tables, id: TxnId)
    requires id < |t.txns|
  {
    && t.txns[id].key in t.keys
    && match t.keys[t.txns[id].key].hash
       case LegsHash(ty, legs) => t.txns[id].ty == ty && LegsOf(t.entries, id) == legs
       case CaptureHash(_) => t.txns[id].ty == Debit
       case ReversalHash(_) => t.txns[id].ty == Reversal
  }

  ghost predicate PostingsOk(t: Tables) { forall id: TxnId | id < |t.txns| :: PostedAsAsked(t, id) }

  ghost predicate TablesOk(t: Tables) {
    && EntriesOk(t)
    && PostingsOk(t)
    && HoldsOk(t)
    && BoundOk(t)
    && KeysOk(t)
    && ReversalsOk(t)
    && CapturesOk(t)
  }

  // ---------- each operation keeps it ----------

  lemma {:induction false} RecordedLegs(t: Tables, key: Key, hash: RequestHash, ty: TxnType, legs: seq<Leg>)
    requires EntriesOk(t)
    ensures forall id: TxnId | id != |t.txns| ::
      LegsOf(Record(t, key, hash, ty, legs).entries, id) == LegsOf(t.entries, id)
    ensures LegsOf(Record(t, key, hash, ty, legs).entries, |t.txns|) == legs
  {
    forall id: TxnId
      ensures LegsOf(t.entries + Tag(|t.txns|, legs), id)
           == LegsOf(t.entries, id) + if id == |t.txns| then legs else []
    {
      LegsOfTag(t.entries, |t.txns|, legs, id);
    }
    LegsOfFresh(t.entries, |t.txns|);
  }

  lemma {:induction false} RecordKeepsEntries(t: Tables, key: Key, hash: RequestHash, ty: TxnType, legs: seq<Leg>)
    requires EntriesOk(t) && Total(legs) == 0
    requires forall i | 0 <= i < |legs| :: legs[i].account in t.accounts && legs[i].amount != 0
    ensures EntriesOk(Record(t, key, hash, ty, legs))
  {
    var t' := Record(t, key, hash, ty, legs);
    RecordedLegs(t, key, hash, ty, legs);
    forall id: TxnId ensures Balanced(t', id) { assert Balanced(t, id); }
  }

  lemma {:induction false} RecordKeepsKeys(t: Tables, key: Key, hash: RequestHash, ty: TxnType, legs: seq<Leg>)
    requires KeysOk(t) && key !in t.keys
    ensures KeysOk(Record(t, key, hash, ty, legs))
  {
  }

  /** Recording adds exactly one pair to "reverses" or "captures": the new row's own. */
  lemma {:induction false} RecordedHashes(t: Tables, key: Key, hash: RequestHash, ty: TxnType, legs: seq<Leg>)
    requires KeysOk(t) && key !in t.keys
    ensures var t' := Record(t, key, hash, ty, legs);
      && (forall r: TxnId, o: TxnId :: Reverses(t', r, o) <==> Reverses(t, r, o) || (r == |t.txns| && hash == ReversalHash(o)))
      && (forall c: TxnId, h: HoldId :: Captures(t', c, h) <==> Captures(t, c, h) || (c == |t.txns| && hash == CaptureHash(h)))
  {
  }

  lemma {:induction false} RecordKeepsPostings(t: Tables, key: Key, hash: RequestHash, ty: TxnType, legs: seq<Leg>)
    requires EntriesOk(t) && KeysOk(t) && PostingsOk(t) && key !in t.keys
    requires match hash
      case LegsHash(asked, askedLegs) => ty == asked && legs == askedLegs
      case CaptureHash(_) => ty == Debit
      case ReversalHash(_) => ty == Reversal
    ensures PostingsOk(Record(t, key, hash, ty, legs))
  {
    var t' := Record(t, key, hash, ty, legs);
    RecordedLegs(t, key, hash, ty, legs);
    forall id: TxnId | id < |t'.txns| ensures PostedAsAsked(t', id) {
      if id < |t.txns| { assert PostedAsAsked(t, id); }
    }
  }

  /** A key stored for a posting names one transaction, of that type and with exactly those legs. */
  lemma {:induction false} StoredPosting(t: Tables, key: Key, ty: TxnType, legs: seq<Leg>)
    requires KeysOk(t) && PostingsOk(t) && key in t.keys && t.keys[key].hash == LegsHash(ty, legs)
    ensures t.keys[key].response.Some? && PostedUnder(t, key, ty, legs, t.keys[key].response.value)
    ensures forall id: TxnId | id < |t.txns| && t.txns[id].key == key :: Some(id) == t.keys[key].response
  {
    assert PostedAsAsked(t, t.keys[key].response.value);
  }

  ghost predicate PostedUnder(t: Tables, key: Key, ty: TxnType, legs: seq<Leg>, id: TxnId) {
    id < |t.txns| && t.txns[id].key == key && t.txns[id].ty == ty && LegsOf(t.entries, id) == legs
  }

  lemma {:induction false} RecordMovesBalance(t: Tables, key: Key, hash: RequestHash, ty: TxnType, legs: seq<Leg>, a: AccountId)
    ensures Available(Record(t, key, hash, ty, legs), a) == Available(t, a) + LegSum(legs, a)
  {
    EntrySumTag(t.entries, |t.txns|, legs, a);
  }

  lemma {:induction false} RecordKeepsBound(t: Tables, key: Key, hash: RequestHash, ty: TxnType, legs: seq<Leg>)
    requires BoundOk(t) && Covered(t, legs)
    ensures BoundOk(Record(t, key, hash, ty, legs))
  {
    var t' := Record(t, key, hash, ty, legs);
    forall a | a in t'.accounts ensures NotOverdrawn(t', a) {
      RecordMovesBalance(t, key, hash, ty, legs, a);
      assert NotOverdrawn(t, a);
      if forall i | 0 <= i < |legs| && legs[i].account == a :: legs[i].amount >= 0 {
        PositiveLegSum(legs, a);
      }
    }
  }

  lemma {:induction false} SetHoldKeepsBound(t: Tables, h: HoldId, status: HoldStatus)
    requires BoundOk(t) && HoldsOk(t) && h < |t.holds| && status != Active
    ensures BoundOk(SetHold(t, h, status))
  {
    var t' := SetHold(t, h, status);
    forall a | a in t'.accounts ensures NotOverdrawn(t', a) {
      assert NotOverdrawn(t, a);
      HeldSumUpdate(t.holds, h, t.holds[h].(status := status), a);
    }
  }

  /** Transactions keep the legs they had. */
  ghost predicate SameLegs(t: Tables, t': Tables) {
    forall id: TxnId | id < |t.txns| :: LegsOf(t'.entries, id) == LegsOf(t.entries, id)
  }

  /** A new transaction that compensates nothing. */
  lemma {:induction false} KeepReversals(t: Tables, t': Tables)
    requires ReversalsOk(t) && SameLegs(t, t')
    requires |t'.txns| == |t.txns| + 1 && t'.txns[..|t.txns|] == t.txns && t'.txns[|t.txns|].state == Posted
    requires forall r: TxnId, o: TxnId :: Reverses(t', r, o) <==> Reverses(t, r, o)
    ensures ReversalsOk(t')
  {
  }

  /** A new transaction that captures nothing. */
  lemma {:induction false} KeepCaptures(t: Tables, t': Tables)
    requires CapturesOk(t) && SameLegs(t, t') && t'.holds == t.holds
    requires forall c: TxnId, h: HoldId :: Captures(t', c, h) <==> Captures(t, c, h)
    ensures CapturesOk(t')
  {
  }

  /** The compensating transaction of one original. */
  lemma {:induction false} AddReversal(t: Tables, t': Tables, o: TxnId)
    requires ReversalsOk(t) && SameLegs(t, t') && o < |t.txns| && t.txns[o].state == Posted
    requires |t'.txns| == |t.txns| + 1 && t'.txns[|t.txns|].state == Posted
    requires t'.txns[..|t.txns|] == t.txns[o := t.txns[o].(state := Reversed)]
    requires LegsOf(t'.entries, |t.txns|) == Negated(LegsOf(t.entries, o))
    requires forall r: TxnId, x: TxnId :: Reverses(t', r, x) <==> Reverses(t, r, x) || (r == |t.txns| && x == o)
    ensures ReversalsOk(t')
  {
  }

  /** The debit that captures one active hold. */
  lemma {:induction false} AddCapture(t: Tables, t': Tables, h: HoldId)
    requires CapturesOk(t) && SameLegs(t, t') && h < |t.holds| && t.holds[h].status == Active
    requires t'.holds == t.holds[h := t.holds[h].(status := Captured)]
    requires LegsOf(t'.entries, |t.txns|) == CaptureLegs(t.holds[h])
    requires forall c: TxnId, x: HoldId :: Captures(t', c, x) <==> Captures(t, c, x) || (c == |t.txns| && x == h)
    ensures CapturesOk(t')
  {
    assert forall c: TxnId, x: HoldId | Captures(t, c, x) :: c < |t.txns| && x != h;
    forall x | 0 <= x < |t'.holds| && t'.holds[x].status == Captured ensures exists c: TxnId :: Captures(t', c, x) {
      if x == h {
        assert Captures(t', |t.txns|, x);
      } else {
        var c: TxnId :| Captures(t, c, x);
        assert Captures(t', c, x);
      }
    }
  }

  lemma {:induction false} PostKeepsOk(t: Tables, op: Op)
    requires TablesOk(t) && op.Post? && CanCommit(t, op)
    ensures TablesOk(Commit(t, op))
  {
    RecordKeepsEntries(t, op.key, HashOf(op), op.ty, op.legs);
    RecordKeepsKeys(t, op.key, HashOf(op), op.ty, op.legs);
    RecordKeepsPostings(t, op.key, HashOf(op), op.ty, op.legs);
    RecordKeepsBound(t, op.key, HashOf(op), op.ty, op.legs);
    RecordedHashes(t, op.key, HashOf(op), op.ty, op.legs);
    RecordedLegs(t, op.key, HashOf(op), op.ty, op.legs);
    KeepReversals(t, Commit(t, op));
    KeepCaptures(t, Commit(t, op));
  }

  /** Tables that differ only in their holds agree on everything about transactions. */
  lemma {:induction false} SameTransactions(t: Tables, t': Tables)
    requires t' == t.(holds := t'.holds)
    ensures forall r: TxnId, o: TxnId :: Reverses(t', r, o) <==> Reverses(t, r, o)
    ensures forall c: TxnId, h: HoldId :: Captures(t', c, h) <==> Captures(t, c, h)
    ensures EntriesOk(t) ==> EntriesOk(t')
    ensures PostingsOk(t) ==> PostingsOk(t')
    ensures ReversalsOk(t) ==> ReversalsOk(t')
  {
    assert forall id: TxnId | id < |t.txns| :: PostedAsAsked(t, id) ==> PostedAsAsked(t', id);
    assert forall id: TxnId :: Balanced(t, id) ==> Balanced(t', id);
    if ReversalsOk(t) {
      forall o | 0 <= o < |t'.txns| && t'.txns[o].state == Reversed ensures exists r: TxnId :: Reverses(t', r, o) {
        var r: TxnId :| Reverses(t, r, o);
        assert Reverses(t', r, o);
      }
    }
  }

  /** Holds that were not captured may be added or released freely. */
  lemma {:induction false} KeepCapturedHolds(t: Tables, t': Tables)
    requires CapturesOk(t) && t' == t.(holds := t'.holds) && |t.holds| <= |t'.holds|
    requires forall h | 0 <= h < |t'.holds| ::
      if h < |t.holds| && t.holds[h].status == Captured then t'.holds[h] == t.holds[h] else t'.holds[h].status != Captured
    ensures CapturesOk(t')
  {
    SameTransactions(t, t');
    forall h | 0 <= h < |t'.holds| && t'.holds[h].status == Captured ensures exists c: TxnId :: Captures(t', c, h) {
      var c: TxnId :| Captures(t, c, h);
      assert Captures(t', c, h);
    }
  }

  lemma {:induction false} PlaceHoldKeepsOk(t: Tables, op: Op)
    requires TablesOk(t) && op.PlaceHold? && CanCommit(t, op)
    ensures TablesOk(Commit(t, op))
  {
    var t' := Commit(t, op);
    forall a | a in t'.accounts ensures NotOverdrawn(t', a) {
      HeldSumAppend(t.holds, Hold(op.account, op.amount, Active), a);
      assert NotOverdrawn(t, a);
    }
    SameTransactions(t, t');
    KeepCapturedHolds(t, t');
  }

  lemma {:induction false} ReleaseKeepsOk(t: Tables, op: Op)
    requires TablesOk(t) && op.ReleaseHold? && CanCommit(t, op)
    ensures TablesOk(Commit(t, op))
  {
    SetHoldKeepsBound(t, op.hold, Released);
    SameTransactions(t, Commit(t, op));
    KeepCapturedHolds(t, Commit(t, op));
  }

  lemma {:induction false} CaptureKeepsOk(t: Tables, op: Op)
    requires TablesOk(t) && op.CaptureHold? && CanCommit(t, op)
    ensures TablesOk(Commit(t, op))
  {
    var legs := LegsFor(t, op);
    var t1 := Record(t, op.key, HashOf(op), Debit, legs);
    RecordKeepsEntries(t, op.key, HashOf(op), Debit, legs);
    RecordKeepsKeys(t, op.key, HashOf(op), Debit, legs);
    RecordKeepsPostings(t, op.key, HashOf(op), Debit, legs);
    RecordKeepsBound(t, op.key, HashOf(op), Debit, legs);
    RecordedHashes(t, op.key, HashOf(op), Debit, legs);
    RecordedLegs(t, op.key, HashOf(op), Debit, legs);
    KeepReversals(t, t1);
    SetHoldKeepsBound(t1, op.hold, Captured);
    SameTransactions(t1, Commit(t, op));
    AddCapture(t, Commit(t, op), op.hold);
  }

  lemma {:induction false} ReverseKeepsOk(t: Tables, op: Op)
    requires TablesOk(t) && op.Reverse? && CanCommit(t, op)
    ensures TablesOk(Commit(t, op))
  {
    var legs := LegsFor(t, op);
    var t1 := SetReversed(t, op.original);
    MarkingMovesNothing(t, op.original);
    RecordKeepsEntries(t1, op.key, HashOf(op), Reversal, legs);
    RecordKeepsKeys(t1, op.key, HashOf(op), Reversal, legs);
    RecordKeepsPostings(t1, op.key, HashOf(op), Reversal, legs);
    RecordKeepsBound(t1, op.key, HashOf(op), Reversal, legs);
    RecordedHashes(t1, op.key, HashOf(op), Reversal, legs);
    RecordedLegs(t1, op.key, HashOf(op), Reversal, legs);
    KeepCaptures(t1, Commit(t, op));
    AddReversal(t, Commit(t, op), op.original);
  }

  lemma {:induction false} MarkingMovesNothing(t: Tables, o: TxnId)
    requires TablesOk(t) && o < |t.txns|
    ensures var t1 := SetReversed(t, o);
      && EntriesOk(t1) && PostingsOk(t1) && KeysOk(t1) && BoundOk(t1) && CapturesOk(t1)
      && (forall a :: Available(t1, a) == Available(t, a))
      && (forall r: TxnId, x: TxnId :: Reverses(t1, r, x) <==> Reverses(t, r, x))
  {
    var t1 := SetReversed(t, o);
    forall id: TxnId ensures Balanced(t1, id) { assert Balanced(t, id); }
    forall id: TxnId | id < |t1.txns| ensures PostedAsAsked(t1, id) { assert PostedAsAsked(t, id); }
    forall a | a in t1.accounts ensures NotOverdrawn(t1, a) { assert NotOverdrawn(t, a); }
    KeepCaptures(t, t1);
  }

  lemma {:induction false} CommitKeepsOk(t: Tables, op: Op)
    requires TablesOk(t) && CanCommit(t, op)
    ensures TablesOk(Commit(t, op))
  {
    match op
    case Post(_, _, _) => PostKeepsOk(t, op);
    case PlaceHold(_, _) => PlaceHoldKeepsOk(t, op);
    case ReleaseHold(_) => ReleaseKeepsOk(t, op);
    case CaptureHold(_, _) => CaptureKeepsOk(t, op);
    case Reverse(_, _) => ReverseKeepsOk(t, op);
  }

  // ---------- sequences of operations ----------

  ghost predicate CanRun(t: Tables, ops: seq<Op>)
    decreases |ops|, 0
  {
    ops == [] || (CanRun(t, ops[..|ops| - 1]) && CanCommit(RunOps(t, ops[..|ops| - 1]), ops[|ops| - 1]))
  }

  ghost function RunOps(t: Tables, ops: seq<Op>): Tables
    requires CanRun(t, ops)
    decreases |ops|, 1
  {
    if ops == [] then t else Commit(RunOps(t, ops[..|ops| - 1]), ops[|ops| - 1])
  }
}
