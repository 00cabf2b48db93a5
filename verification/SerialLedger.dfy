/** What one ledger call does when nothing interferes: which error it meets first, or what it commits. */
module SerialLedger {
  import opened LedgerTables
  import opened AtomicLedger

  // ---------- the first error a call meets ----------

  /** The balance trigger and the row constraints, for the leg inserted after `before`. */
  function LegError(t: Tables, before: seq<Leg>, leg: Leg): Option<Error> {
    if leg.amount > 0 then
      if leg.account !in t.accounts then Some(DatabaseError) else None
    else if leg.account !in t.accounts then Some(AccountNotFound)
    else if Available(t, leg.account) + LegSum(before, leg.account) + leg.amount < Floor(t, leg.account)
    then Some(InsufficientBalance)
    else if leg.amount == 0 then Some(DatabaseError)
    else None
  }

  function LegsError(t: Tables, legs: seq<Leg>): (e: Option<Error>)
    ensures e.Some? ==> e.value in {InsufficientBalance, AccountNotFound, DatabaseError}
  {
    if legs == [] then None
    else
      var front := legs[..|legs| - 1];
      match LegsError(t, front)
      case Some(e) => Some(e)
      case None => LegError(t, front, legs[|legs| - 1])
  }

  function TargetError(t: Tables, op: Op): Option<Error> {
    match op
    case Reverse(o, _) =>
      if o >= |t.txns| then Some(TransactionNotFound)
      else if t.txns[o].state != Posted then Some(NotReversible)
      else if LegsOf(t.entries, o) == [] then Some(TransactionNotFound)
      else None
    case Post(_, _, _) => None
    case PlaceHold(_, _) => None
    case _ =>
      if op.hold >= |t.holds| then Some(HoldNotFound)
      else if t.holds[op.hold].status != Active then Some(HoldNotActive)
      else None
  }

  predicate TxnKeyTaken(t: Tables, key: Key) {
    exists i :: 0 <= i < |t.txns| && t.txns[i].key == key
  }

  function CallError(t: Tables, op: Op): Option<Error> {
    match op
    case PlaceHold(a, amount) =>
      if a !in t.accounts then Some(AccountNotFound)
      else if Available(t, a) - amount < Floor(t, a) then Some(InsufficientBalance)
      else if amount <= 0 then Some(DatabaseError)
      else None
    case ReleaseHold(_) => TargetError(t, op)
    case _ =>
      if TargetError(t, op).Some? then TargetError(t, op)
      else if TxnKeyTaken(t, op.key) then Some(DatabaseError)
      else if LegsError(t, LegsFor(t, op)).Some? then LegsError(t, LegsFor(t, op))
      else if Total(LegsFor(t, op)) != 0 then Some(UnbalancedTransaction)
      else None
  }

  /** The reply to a call whose key is already stored. */
  function Replay(row: KeyRow, op: Op): Outcome
    requires op.Keyed()
  {
    if row.hash != HashOf(op) then Rejected(KeyReused)
    else if row.status != Completed then Rejected(KeyInProgress)
    else match row.response
      case Some(id) => Succeeded(id)
      case None => Rejected(DatabaseError)
  }

  function FreshId(t: Tables, op: Op): nat {
    match op
    case PlaceHold(_, _) => |t.holds|
    case ReleaseHold(h) => h
    case _ => |t.txns|
  }

  function Call(t: Tables, op: Op): (Tables, Outcome) {
    if op.Keyed() && op.key in t.keys then (t, Replay(t.keys[op.key], op))
    else match CallError(t, op)
      case Some(e) => (t, Rejected(e))
      case None => NoErrorCommits(t, op); (Commit(t, op), Succeeded(FreshId(t, op)))
  }

  // ---------- passing every check is enough to commit ----------

  lemma {:induction false} PassedLeg(t: Tables, legs: seq<Leg>, i: nat)
    requires LegsError(t, legs).None? && i < |legs|
    ensures LegError(t, legs[..i], legs[i]).None?
  {
    var n := |legs| - 1;
    if i < n {
      PassedLeg(t, legs[..n], i);
      assert legs[..n][..i] == legs[..i];
    }
  }

  /** The first leg refused decides the error, whatever legs follow it. */
  lemma {:induction false} FirstErrorStands(t: Tables, legs: seq<Leg>, n: nat)
    requires n <= |legs| && LegsError(t, legs[..n]).Some?
    ensures LegsError(t, legs) == LegsError(t, legs[..n])
  {
    if n == |legs| {
      assert legs[..n] == legs;
    } else {
      var front := legs[..|legs| - 1];
      assert front[..n] == legs[..n];
      FirstErrorStands(t, front, n);
    }
  }

  /** A debit checked when it was inserted stays covered: only credits to its account can follow it
      unchecked, and every later debit to it was checked again. */
  lemma {:induction false} PassedDebitsCovered(t: Tables, legs: seq<Leg>, a: AccountId)
    requires LegsError(t, legs).None?
    requires exists i :: 0 <= i < |legs| && legs[i].account == a && legs[i].amount < 0
    ensures a in t.accounts && Available(t, a) + LegSum(legs, a) >= Floor(t, a)
  {
    var n := |legs| - 1;
    PassedLeg(t, legs, n);
    if !(legs[n].account == a && legs[n].amount < 0) {
      var i :| 0 <= i < |legs| && legs[i].account == a && legs[i].amount < 0;
      assert legs[..n][i] == legs[i];
      PassedDebitsCovered(t, legs[..n], a);
    }
  }

  lemma {:induction false} PassedLegsCovered(t: Tables, legs: seq<Leg>)
    requires LegsError(t, legs).None?
    ensures Covered(t, legs)
  {
    forall i | 0 <= i < |legs|
      ensures legs[i].account in t.accounts && legs[i].amount != 0
      ensures legs[i].amount < 0 ==> Available(t, legs[i].account) + LegSum(legs, legs[i].account) >= Floor(t, legs[i].account)
    {
      PassedLeg(t, legs, i);
      if legs[i].amount < 0 { PassedDebitsCovered(t, legs, legs[i].account); }
    }
  }

  lemma {:induction false} NoErrorCommits(t: Tables, op: Op)
    requires CallError(t, op).None? && (op.Keyed() ==> op.key !in t.keys)
    ensures CanCommit(t, op)
  {
    if op.Keyed() { PassedLegsCovered(t, LegsFor(t, op)); }
  }

  /** A call either leaves the tables alone or is one atomic operation; it never breaks the invariant. */
  lemma {:induction false} CallKeepsOk(t: Tables, op: Op)
    requires TablesOk(t)
    ensures var (t', outcome) := Call(t, op);
      && TablesOk(t')
      && (t' == t || (CanCommit(t, op) && t' == Commit(t, op)))
      && outcome != Rejected(KeyInProgress)
  {
    if (op.Keyed() ==> op.key !in t.keys) && CallError(t, op).None? {
      NoErrorCommits(t, op);
      CommitKeepsOk(t, op);
    }
  }

  /** Calling again with the same key and request returns the first reply and changes nothing. */
  lemma {:induction false} RetryReplays(t: Tables, op: Op)
    requires op.Keyed() && Call(t, op).1.Succeeded?
    ensures Call(Call(t, op).0, op) == Call(t, op)
  {
  }

  /** The reply to a successful call is the response stored under its key. */
  lemma {:induction false} ReplyIsStored(t: Tables, op: Op)
    requires KeysOk(t) && op.Keyed() && Call(t, op).1.Succeeded?
    ensures var (t', r) := Call(t, op);
      op.key in t'.keys && t'.keys[op.key].response == Some(r.id)
  {
  }

  // ---------- holds ----------

  lemma {:induction false} PairSums(x: Leg, y: Leg, a: AccountId)
    ensures Total([x, y]) == x.amount + y.amount
    ensures LegSum([x, y], a) == (if x.account == a then x.amount else 0) + (if y.account == a then y.amount else 0)
    ensures LegSum([x], a) == if x.account == a then x.amount else 0
  {
    assert [x, y][..1] == [x] && [x][..0] == [];
    assert Total([x]) == Total([x][..0]) + x.amount;
    assert LegSum([x], a) == LegSum([x][..0], a) + if x.account == a then x.amount else 0;
  }

  lemma {:induction false} PairError(t: Tables, x: Leg, y: Leg)
    ensures LegsError(t, [x, y]) ==
      match LegError(t, [], x) { case Some(e) => Some(e) case None => LegError(t, [x], y) }
  {
    assert [x, y][..1] == [x] && [x][..0] == [];
    assert LegsError(t, [x]) == LegError(t, [], x);
  }

  /** A transfer under an unused key is accepted exactly when both accounts exist and the sender can bear it. */
  lemma {:induction false} TransferAcceptedIff(t: Tables, from: AccountId, to: AccountId, amount: nat, key: Key)
    requires KeysOk(t) && key !in t.keys
    ensures CallError(t, TransferOp(from, to, amount, key)).None? <==>
      from in t.accounts && to in t.accounts && amount > 0 && Available(t, from) - amount >= Floor(t, from)
  {
    var legs := TransferOp(from, to, amount, key).legs;
    PairError(t, legs[0], legs[1]);
    PairSums(legs[0], legs[1], from);
    assert !TxnKeyTaken(t, key);
  }

  /** What an accepted transfer posts: one transaction that takes the amount from one account and gives it to the other. */
  lemma {:induction false} TransferPosts(t: Tables, from: AccountId, to: AccountId, amount: int, key: Key)
    requires EntriesOk(t) && key !in t.keys && CallError(t, TransferOp(from, to, amount, key)).None?
    ensures var (t', r) := Call(t, TransferOp(from, to, amount, key));
      && r == Succeeded(|t.txns|) && t'.txns == t.txns + [Txn(key, Transfer, Posted)] && t'.holds == t.holds
      && LegsOf(t'.entries, |t.txns|) == [Leg(from, -amount), Leg(to, amount)]
  {
    var op := TransferOp(from, to, amount, key);
    NoErrorCommits(t, op);
    RecordedLegs(t, key, HashOf(op), Transfer, op.legs);
  }

  lemma {:induction false} FreshTransfer(t: Tables, from: AccountId, to: AccountId, amount: int, key: Key)
    requires EntriesOk(t) && KeysOk(t) && key !in t.keys && amount >= 0
    ensures var (t', r) := Call(t, TransferOp(from, to, amount, key));
      if from in t.accounts && to in t.accounts && amount > 0 && Available(t, from) - amount >= Floor(t, from) then
        && r == Succeeded(|t.txns|) && t'.txns == t.txns + [Txn(key, Transfer, Posted)]
        && LegsOf(t'.entries, |t.txns|) == [Leg(from, -amount), Leg(to, amount)]
      else t' == t && r.Rejected?
  {
    TransferAcceptedIff(t, from, to, amount, key);
    if CallError(t, TransferOp(from, to, amount, key)).None? { TransferPosts(t, from, to, amount, key); }
  }

  /** The account exists, and its balance less its active holds, with its overdraft, covers a positive amount. */
  predicate Affords(t: Tables, a: AccountId, amount: int) {
    a in t.accounts && amount > 0 && Ledger(t, a) - Held(t, a) + t.accounts[a] >= amount
  }

  /** A hold is placed exactly when the account can afford it. */
  lemma {:induction false} HoldAcceptedIff(t: Tables, a: AccountId, amount: int)
    ensures var (t', r) := Call(t, PlaceHold(a, amount));
      if Affords(t, a, amount) then r == Succeeded(|t.holds|) && t' == t.(holds := t.holds + [Hold(a, amount, Active)])
      else r.Rejected? && t' == t
  {
  }

  /** A credit under an unused key is accepted exactly when both accounts exist and the system account can bear it. */
  lemma {:induction false} CreditAcceptedIff(t: Tables, a: AccountId, amount: nat, key: Key)
    requires KeysOk(t) && key !in t.keys && a != SYSTEM_ACCOUNT_NGN
    ensures CallError(t, CreditOp(a, amount, key)).None? <==>
      && amount > 0 && a in t.accounts && SYSTEM_ACCOUNT_NGN in t.accounts
      && Available(t, SYSTEM_ACCOUNT_NGN) + t.accounts[SYSTEM_ACCOUNT_NGN] >= amount
  {
    var legs := CreditOp(a, amount, key).legs;
    PairError(t, legs[0], legs[1]);
    PairSums(legs[0], legs[1], SYSTEM_ACCOUNT_NGN);
    assert !TxnKeyTaken(t, key);
  }

  /** A transfer can be taken back, under an unused key, exactly when it stands and the recipient still has the money. */
  lemma {:induction false} ReversalAcceptedIff(t: Tables, o: TxnId, from: AccountId, to: AccountId, amount: int, key: Key)
    requires KeysOk(t) && key !in t.keys && o < |t.txns| && LegsOf(t.entries, o) == [Leg(from, -amount), Leg(to, amount)]
    requires from in t.accounts && to in t.accounts && from != to && amount > 0
    ensures CallError(t, Reverse(o, key)).None? <==>
      t.txns[o].state == Posted && Available(t, to) + t.accounts[to] >= amount
  {
    var legs := Negated(LegsOf(t.entries, o));
    assert legs == [Leg(from, amount), Leg(to, -amount)];
    PairError(t, legs[0], legs[1]);
    PairSums(legs[0], legs[1], to);
    assert !TxnKeyTaken(t, key);
  }

  lemma {:induction false} CaptureLegsError(t: Tables, h: Hold)
    requires h.account in t.accounts && SYSTEM_ACCOUNT_NGN in t.accounts
    requires h.account != SYSTEM_ACCOUNT_NGN && h.amount > 0
    ensures Total(CaptureLegs(h)) == 0
    ensures LegsError(t, CaptureLegs(h)) ==
      if Available(t, h.account) - h.amount < Floor(t, h.account) then Some(InsufficientBalance) else None
  {
    PairError(t, CaptureLegs(h)[0], CaptureLegs(h)[1]);
    PairSums(CaptureLegs(h)[0], CaptureLegs(h)[1], h.account);
  }

  /** Capturing a customer's hold under a fresh key succeeds exactly when the hold is active and the
      available balance, already net of the hold, covers the amount a second time. */
  lemma {:induction false} CaptureSucceedsIff(t: Tables, h: HoldId, key: Key)
    requires TablesOk(t) && SYSTEM_ACCOUNT_NGN in t.accounts && key !in t.keys
    requires h < |t.holds| && t.holds[h].account != SYSTEM_ACCOUNT_NGN
    ensures Call(t, CaptureHold(h, key)).1.Succeeded? <==>
      t.holds[h].status == Active && Available(t, t.holds[h].account) - t.holds[h].amount >= Floor(t, t.holds[h].account)
  {
    CaptureLegsError(t, t.holds[h]);
    assert !TxnKeyTaken(t, key);
  }

  /** A capture turns the reservation into a debit: available is unchanged, ledger and pending drop. */
  lemma {:induction false} CaptureMovesPendingToLedger(t: Tables, h: HoldId, key: Key)
    requires TablesOk(t) && key !in t.keys && h < |t.holds| && t.holds[h].account != SYSTEM_ACCOUNT_NGN
    requires Call(t, CaptureHold(h, key)).1.Succeeded?
    ensures var t', hold := Call(t, CaptureHold(h, key)).0, t.holds[h];
      && Ledger(t', hold.account) == Ledger(t, hold.account) - hold.amount
      && Held(t', hold.account) == Held(t, hold.account) - hold.amount
      && Available(t', hold.account) == Available(t, hold.account)
      && t'.holds[h].status == Captured
  {
    var hold := t.holds[h];
    NoErrorCommits(t, CaptureHold(h, key));
    EntrySumTag(t.entries, |t.txns|, CaptureLegs(hold), hold.account);
    PairSums(CaptureLegs(hold)[0], CaptureLegs(hold)[1], hold.account);
    HeldSumUpdate(t.holds, h, hold.(status := Captured), hold.account);
  }

  /** Were the hold marked captured before its legs are inserted, the legs would pass every check. */
  lemma {:induction false} MarkedFirstAlwaysCovered(t: Tables, h: HoldId)
    requires TablesOk(t) && SYSTEM_ACCOUNT_NGN in t.accounts
    requires h < |t.holds| && t.holds[h].status == Active && t.holds[h].account != SYSTEM_ACCOUNT_NGN
    ensures LegsError(SetHold(t, h, Captured), CaptureLegs(t.holds[h])).None?
  {
    var t' := SetHold(t, h, Captured);
    HeldSumUpdate(t.holds, h, t.holds[h].(status := Captured), t.holds[h].account);
    assert NotOverdrawn(t, t.holds[h].account);
    CaptureLegsError(t', t.holds[h]);
  }

  ghost predicate Fresh(t0: Tables, a: AccountId, amount: int) {
    && TablesOk(t0) && t0 == Tables(t0.accounts, map[], [], [], [])
    && a in t0.accounts && a != SYSTEM_ACCOUNT_NGN && t0.accounts[a] == 0
    && SYSTEM_ACCOUNT_NGN in t0.accounts && 0 < amount <= t0.accounts[SYSTEM_ACCOUNT_NGN]
  }

  lemma {:induction false} FirstCredit(t0: Tables, a: AccountId, amount: int)
    requires Fresh(t0, a, amount)
    ensures var (t1, outcome) := Call(t0, CreditOp(a, amount, "k1"));
      && outcome == Succeeded(0) && TablesOk(t1) && t1.accounts == t0.accounts
      && t1.holds == [] && t1.keys.Keys == {"k1"} && Available(t1, a) == amount
  {
    var credit := CreditOp(a, amount, "k1");
    PairError(t0, credit.legs[0], credit.legs[1]);
    PairSums(credit.legs[0], credit.legs[1], a);
    PairSums(credit.legs[0], credit.legs[1], SYSTEM_ACCOUNT_NGN);
    CallKeepsOk(t0, credit);
    EntrySumTag([], 0, credit.legs, a);
  }

  lemma {:induction false} HoldEverything(t: Tables, a: AccountId, amount: int)
    requires TablesOk(t) && a in t.accounts && t.accounts[a] == 0 && t.holds == []
    requires Available(t, a) == amount > 0
    ensures var (t', outcome) := Call(t, PlaceHold(a, amount));
      && outcome == Succeeded(0) && TablesOk(t') && t'.accounts == t.accounts && t'.keys == t.keys
      && t'.holds == [Hold(a, amount, Active)] && Available(t', a) == 0
  {
    CallKeepsOk(t, PlaceHold(a, amount));
    HeldSumAppend([], Hold(a, amount, Active), a);
    assert [] + [Hold(a, amount, Active)] == [Hold(a, amount, Active)];
  }

  /** A hold for the whole balance is active and still cannot be captured. */
  lemma {:induction false} FullHoldCannotBeCaptured()
    ensures var t0 := Tables(map["alice" := 0, SYSTEM_ACCOUNT_NGN := 1000], map[], [], [], []);
      var t1 := Call(t0, CreditOp("alice", 100, "k1")).0;
      var t2 := Call(t1, PlaceHold("alice", 100)).0;
      && TablesOk(t2) && t2.holds == [Hold("alice", 100, Active)]
      && !Call(t2, CaptureHold(0, "k2")).1.Succeeded?
  {
    var t0 := Tables(map["alice" := 0, SYSTEM_ACCOUNT_NGN := 1000], map[], [], [], []);
    assert forall id: TxnId :: Balanced(t0, id);
    assert forall a | a in t0.accounts :: NotOverdrawn(t0, a);
    assert TablesOk(t0);
    assert "alice" != SYSTEM_ACCOUNT_NGN by { assert |"alice"| == 5; }
    FirstCredit(t0, "alice", 100);
    var t1 := Call(t0, CreditOp("alice", 100, "k1")).0;
    HoldEverything(t1, "alice", 100);
    var t2 := Call(t1, PlaceHold("alice", 100)).0;
    CaptureSucceedsIff(t2, 0, "k2");
  }
}
