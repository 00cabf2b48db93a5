/** Cooling-off transfers as values: what one release attempt does up to a crash, and why retrying it is harmless. */
module CoolingOffRows {
  import opened LedgerTables
  import opened AtomicLedger
  import SerialLedger
  import Payee

  type RowId = nat

  datatype Status = Pending | Processing | Completed | Cancelled

  datatype Row = Row(
    from: AccountId, to: AccountId, sender: string, amount: int, key: Key, hold: HoldId, releaseAt: nat,
    status: Status, txn: Option<TxnId>)
  {
    function Pay(): Op { TransferOp(from, to, amount, key) }
  }

  // ---------- which sends are held back ----------

  const LARGE_AMOUNT := 50_000_000

  datatype Reason = PayeeNotMatched | LargeAmount | FirstTimePayee

  /** A posted, unreversed transfer took money from one account and gave some to the other. */
  predicate PaidBefore(t: Tables, from: AccountId, to: AccountId) {
    exists id: TxnId :: id < |t.txns| && Pays(t, id, from, to)
  }

  predicate Pays(t: Tables, id: TxnId, from: AccountId, to: AccountId)
    requires id < |t.txns|
  {
    && t.txns[id].ty == Transfer && t.txns[id].state == Posted
    && (exists leg :: leg in LegsOf(t.entries, id) && leg.account == from && leg.amount < 0)
    && (exists leg :: leg in LegsOf(t.entries, id) && leg.account == to && leg.amount > 0)
  }

  /** Two entries of one standing transfer, a negative one on `from` and a positive one on `to`. */
  predicate StandingTransfer(t: Tables, from: AccountId, to: AccountId) {
    exists i, j | 0 <= i < |t.entries| && 0 <= j < |t.entries| ::
      var x, y := t.entries[i], t.entries[j];
      && x.txn == y.txn < |t.txns| && t.txns[x.txn].ty == Transfer && t.txns[x.txn].state == Posted
      && x.leg.account == from && x.leg.amount < 0 && y.leg.account == to && y.leg.amount > 0
  }

  lemma {:induction false} LegIsEntry(es: seq<Entry>, id: TxnId, leg: Leg)
    ensures leg in LegsOf(es, id) <==> exists i :: 0 <= i < |es| && es[i] == Entry(id, leg)
  {
    if es != [] {
      var front := es[..|es| - 1];
      LegIsEntry(front, id, leg);
      assert forall i | 0 <= i < |front| :: front[i] == es[i];
      if i :| 0 <= i < |es| && es[i] == Entry(id, leg) && i < |front| { assert front[i] == Entry(id, leg); }
    }
  }

  lemma {:induction false} PaidBeforeIff(t: Tables, from: AccountId, to: AccountId)
    ensures PaidBefore(t, from, to) <==> StandingTransfer(t, from, to)
  {
    if PaidBefore(t, from, to) {
      var id: TxnId :| id < |t.txns| && Pays(t, id, from, to);
      var x :| x in LegsOf(t.entries, id) && x.account == from && x.amount < 0;
      var y :| y in LegsOf(t.entries, id) && y.account == to && y.amount > 0;
      LegIsEntry(t.entries, id, x);
      LegIsEntry(t.entries, id, y);
    }
    if StandingTransfer(t, from, to) {
      var i, j :| 0 <= i < |t.entries| && 0 <= j < |t.entries| && t.entries[i].txn == t.entries[j].txn < |t.txns|
        && t.txns[t.entries[i].txn].ty == Transfer && t.txns[t.entries[i].txn].state == Posted
        && t.entries[i].leg.account == from && t.entries[i].leg.amount < 0
        && t.entries[j].leg.account == to && t.entries[j].leg.amount > 0;
      LegIsEntry(t.entries, t.entries[i].txn, t.entries[i].leg);
      LegIsEntry(t.entries, t.entries[i].txn, t.entries[j].leg);
      assert Pays(t, t.entries[i].txn, from, to);
    }
  }

  function RiskReasons(result: Payee.Result, amount: int, firstTime: bool): seq<Reason> {
    (if result != Payee.Match then [PayeeNotMatched] else [])
    + (if amount >= LARGE_AMOUNT then [LargeAmount] else [])
    + (if firstTime then [FirstTimePayee] else [])
  }

  /** Money moves at once exactly for a matching name, an ordinary amount and a payee paid before. */
  lemma {:induction false} ImmediateIff(result: Payee.Result, amount: int, firstTime: bool)
    ensures RiskReasons(result, amount, firstTime) == [] <==>
      result == Payee.Match && amount < 50_000_000 && !firstTime
  {
  }

  // ---------- one release attempt ----------

  /** The attempt's statements in order, ended by a crash once `survived` of them have run:
      release the hold (already released is fine), transfer under the row's key, mark the row completed. */
  function Attempt(t: Tables, row: Row, survived: nat): (Tables, Row) {
    if survived == 0 then (t, row)
    else
      var (t1, released) := SerialLedger.Call(t, ReleaseHold(row.hold));
      if survived == 1 || (released.Rejected? && released.error != HoldNotActive) then (t1, row)
      else
        var (t2, paid) := SerialLedger.Call(t1, row.Pay());
        if survived == 2 || paid.Rejected? then (t2, row)
        else (t2, row.(status := Status.Completed, txn := Some(paid.id)))
  }

  function Attempts(t: Tables, row: Row, crashes: seq<nat>): (Tables, Row) {
    if crashes == [] then (t, row)
    else
      var (t1, row1) := Attempts(t, row, crashes[..|crashes| - 1]);
      Attempt(t1, row1, crashes[|crashes| - 1])
  }

  lemma {:induction false} ReleaseAgain(t: Tables, h: HoldId)
    ensures var (t1, r) := SerialLedger.Call(t, ReleaseHold(h));
      && SerialLedger.Call(t1, ReleaseHold(h)).0 == t1
      && (r.Succeeded? || r == Rejected(HoldNotActive) ==> SerialLedger.Call(t1, ReleaseHold(h)).1 == Rejected(HoldNotActive))
      && (r == Rejected(HoldNotFound) ==> t1 == t)
  {
  }

  lemma {:induction false} ReleaseAfterPay(t: Tables, h: HoldId, op: Op)
    requires op.Post? && SerialLedger.Call(t, ReleaseHold(h)) == (t, Rejected(HoldNotActive))
    ensures var t2 := SerialLedger.Call(t, op).0;
      SerialLedger.Call(t2, ReleaseHold(h)) == (t2, Rejected(HoldNotActive))
  {
  }

  /** A full attempt after one that died anywhere ends where a full attempt alone ends. */
  lemma {:induction false} RetryOnce(t: Tables, row: Row, survived: nat)
    ensures var (t1, row1) := Attempt(t, row, survived);
      Attempt(t1, row1, 3) == Attempt(t, row, 3)
  {
    if survived != 0 {
      ReleaseAgain(t, row.hold);
      var (t1, released) := SerialLedger.Call(t, ReleaseHold(row.hold));
      if survived != 1 && (released.Succeeded? || released.error == HoldNotActive) {
        ReleaseAfterPay(t1, row.hold, row.Pay());
        if SerialLedger.Call(t1, row.Pay()).1.Succeeded? { SerialLedger.RetryReplays(t1, row.Pay()); }
      }
    }
  }

  /** Any number of attempts that died anywhere, then a full one: the same ledger and row as one full attempt. */
  lemma {:induction false} RetriesAreHarmless(t: Tables, row: Row, crashes: seq<nat>)
    ensures var (t1, row1) := Attempts(t, row, crashes);
      Attempt(t1, row1, 3) == Attempt(t, row, 3)
  {
    if crashes != [] {
      var (t1, row1) := Attempts(t, row, crashes[..|crashes| - 1]);
      RetriesAreHarmless(t, row, crashes[..|crashes| - 1]);
      RetryOnce(t1, row1, crashes[|crashes| - 1]);
    }
  }

  // ---------- a matured transfer pays ----------

  /** The row's hold still reserves its amount and its key is unused. */
  predicate Reserved(t: Tables, row: Row) {
    && row.hold < |t.holds|
    && t.holds[row.hold] == Hold(row.from, row.amount, Active)
    && row.key !in t.keys
  }

  lemma {:induction false} ReleasedMoneyCovers(t: Tables, row: Row)
    requires TablesOk(t) && Reserved(t, row) && row.to in t.accounts
    ensures SerialLedger.CallError(SetHold(t, row.hold, Released), row.Pay()).None?
  {
    var t1, legs := SetHold(t, row.hold, Released), row.Pay().legs;
    HeldSumUpdate(t.holds, row.hold, t.holds[row.hold].(status := Released), row.from);
    assert NotOverdrawn(t, row.from);
    SerialLedger.PairError(t1, legs[0], legs[1]);
    SerialLedger.PairSums(legs[0], legs[1], row.from);
    assert !SerialLedger.TxnKeyTaken(t1, row.key);
  }

  lemma {:induction false} PayMoves(es: seq<Entry>, id: TxnId, row: Row)
    requires row.from != row.to
    ensures EntrySum(es + Tag(id, row.Pay().legs), row.from) == EntrySum(es, row.from) - row.amount
    ensures EntrySum(es + Tag(id, row.Pay().legs), row.to) == EntrySum(es, row.to) + row.amount
  {
    var legs := row.Pay().legs;
    EntrySumTag(es, id, legs, row.from);
    EntrySumTag(es, id, legs, row.to);
    SerialLedger.PairSums(legs[0], legs[1], row.from);
    SerialLedger.PairSums(legs[0], legs[1], row.to);
  }

  lemma {:induction false} MaturedAttempt(t: Tables, row: Row)
    requires TablesOk(t) && Reserved(t, row) && row.to in t.accounts
    ensures Attempt(t, row, 3) ==
      (Record(SetHold(t, row.hold, Released), row.key, HashOf(row.Pay()), Transfer, row.Pay().legs),
       row.(status := Status.Completed, txn := Some(|t.txns|)))
  {
    ReleasedMoneyCovers(t, row);
    SerialLedger.NoErrorCommits(SetHold(t, row.hold, Released), row.Pay());
  }

  /** When nothing comes between the release and the transfer, the transfer always goes through: the row
      completes, the sender's reservation becomes the recipient's money, and the sender's available balance
      does not move. */
  lemma {:induction false} MaturedTransferPays(t: Tables, row: Row)
    requires TablesOk(t) && Reserved(t, row) && row.to in t.accounts
    ensures var (t', row') := Attempt(t, row, 3);
      && row' == row.(status := Status.Completed, txn := Some(|t.txns|))
      && t'.holds == t.holds[row.hold := Hold(row.from, row.amount, Released)]
      && t'.txns == t.txns + [Txn(row.key, Transfer, Posted)]
      && LegsOf(t'.entries, |t.txns|) == row.Pay().legs
      && (row.from != row.to ==>
            && Available(t', row.from) == Available(t, row.from)
            && Ledger(t', row.from) == Ledger(t, row.from) - row.amount
            && Ledger(t', row.to) == Ledger(t, row.to) + row.amount)
  {
    var legs := row.Pay().legs;
    MaturedAttempt(t, row);
    assert LegsOf(t.entries + Tag(|t.txns|, legs), |t.txns|) == legs by {
      LegsOfFresh(t.entries, |t.txns|);
      LegsOfTag(t.entries, |t.txns|, legs, |t.txns|);
    }
    if row.from != row.to { PayMoves(t.entries, |t.txns|, row); }
    HeldSumUpdate(t.holds, row.hold, Hold(row.from, row.amount, Released), row.from);
  }

  /** The row's money is still reserved for a known recipient, or its transfer is already posted. */
  predicate Payable(t: Tables, row: Row) {
    || (Reserved(t, row) && row.to in t.accounts)
    || (row.hold < |t.holds| && t.holds[row.hold].status == Released && row.key in t.keys
        && t.keys[row.key].hash == LegsHash(Transfer, [Leg(row.from, -row.amount), Leg(row.to, row.amount)]))
  }

  lemma {:induction false} PayableCompletes(t: Tables, row: Row)
    requires TablesOk(t) && Payable(t, row)
    ensures Attempt(t, row, 3).1.status == Status.Completed
  {
    if row.key !in t.keys { MaturedTransferPays(t, row); } else { assert KeysOk(t); }
  }

  /** A payee paid this way is no longer a first-time payee while the transfer stands. */
  lemma {:induction false} PaidPayeeIsKnown(t: Tables, row: Row, id: TxnId)
    requires id < |t.txns| && t.txns[id] == Txn(row.key, Transfer, Posted) && row.amount > 0
    requires LegsOf(t.entries, id) == row.Pay().legs
    ensures PaidBefore(t, row.from, row.to)
  {
    var legs := LegsOf(t.entries, id);
    assert legs[0] in legs && legs[1] in legs;
    assert Pays(t, id, row.from, row.to);
  }
}
