/** One cooling-off row under any number of overlapping tickers and cancellations, one statement at a time,
    with crashes, refusals and other ledger calls in between. */
module CoolingOffRace {
  import opened LedgerTables
  import opened AtomicLedger
  import opened CoolingOffRows
  import SerialLedger

  type CallerId = nat

  datatype TickPc = Release | Pay | Mark(txn: TxnId)
  datatype CancelPc = CancelRelease | CancelMark

  datatype World = World(
    ledger: Tables,
    row: Row,
    tickers: map<CallerId, TickPc>,
    cancels: map<CallerId, CancelPc>,
    markedWhilePending: bool,  // history: some cancellation's UPDATE found the row still pending
    usedBefore: bool)          // history: an immediate payment had used the row's key when the row was submitted

  datatype Action =
    | ClaimDue(id: CallerId)
    | ClaimStuck(id: CallerId)
    | StartCancel(id: CallerId)
    | Tick(id: CallerId, ok: bool)
    | CancelStep(id: CallerId, ok: bool)
    | CrashTick(id: CallerId)
    | CrashCancel(id: CallerId)
    | OtherCall(op: Op)

  // ---------- one statement ----------

  predicate IsActive(t: Tables, h: HoldId) { h < |t.holds| && t.holds[h].status == Active }

  function DropTick(w: World, id: CallerId): World { w.(tickers := w.tickers - {id}) }

  function StepTick(w: World, id: CallerId, pc: TickPc, ok: bool): World {
    if !ok then DropTick(w, id)
    else match pc
      case Release =>
        var t := if IsActive(w.ledger, w.row.hold) then SetHold(w.ledger, w.row.hold, Released) else w.ledger;
        w.(ledger := t, tickers := w.tickers[id := Pay])
      case Pay =>
        var (t, paid) := SerialLedger.Call(w.ledger, w.row.Pay());
        if paid.Rejected? then DropTick(w, id) else w.(ledger := t, tickers := w.tickers[id := Mark(paid.id)])
      case Mark(txn) => DropTick(w, id).(row := w.row.(status := Status.Completed, txn := Some(txn)))
  }

  function StepCancel(w: World, id: CallerId, pc: CancelPc, ok: bool): World {
    var dropped := w.(cancels := w.cancels - {id});
    if !ok then dropped
    else match pc
      case CancelRelease =>
        if IsActive(w.ledger, w.row.hold)
        then w.(ledger := SetHold(w.ledger, w.row.hold, Released), cancels := w.cancels[id := CancelMark])
        else dropped
      case CancelMark =>
        dropped.(row := w.row.(status := Cancelled),
                 markedWhilePending := w.markedWhilePending || w.row.status == Status.Pending)
  }

  /** Other calls use neither the row's key nor its hold. */
  predicate Foreign(w: World, op: Op) {
    && (op.Keyed() ==> op.key != w.row.key)
    && (op.CaptureHold? || op.ReleaseHold? ==> op.hold != w.row.hold)
  }

  function Do(w: World, action: Action): World {
    match action
    case ClaimDue(id) =>
      if w.row.status == Status.Pending && id !in w.tickers
      then w.(row := w.row.(status := Processing), tickers := w.tickers[id := Release]) else w
    case ClaimStuck(id) =>
      if w.row.status == Processing && id !in w.tickers then w.(tickers := w.tickers[id := Release]) else w
    case StartCancel(id) =>
      if w.row.status == Status.Pending && id !in w.cancels then w.(cancels := w.cancels[id := CancelRelease]) else w
    case Tick(id, ok) => if id in w.tickers then StepTick(w, id, w.tickers[id], ok) else w
    case CancelStep(id, ok) => if id in w.cancels then StepCancel(w, id, w.cancels[id], ok) else w
    case CrashTick(id) => DropTick(w, id)
    case CrashCancel(id) => w.(cancels := w.cancels - {id})
    case OtherCall(op) => if Foreign(w, op) then w.(ledger := SerialLedger.Call(w.ledger, op).0) else w
  }

  function Run(w: World, actions: seq<Action>): World {
    if actions == [] then w else Do(Run(w, actions[..|actions| - 1]), actions[|actions| - 1])
  }

  // ---------- the invariant ----------

  /** The key was used for the row's own transfer. */
  predicate OwnKey(t: Tables, row: Row) { row.key in t.keys && t.keys[row.key].hash == HashOf(row.Pay()) }

  predicate RowFits(t: Tables, row: Row, usedBefore: bool) {
    && row.hold < |t.holds|
    && t.holds[row.hold].account == row.from && t.holds[row.hold].amount == row.amount
    && t.holds[row.hold].status != Captured
    && (usedBefore ==> row.key in t.keys)
    && (row.key in t.keys && !usedBefore ==> OwnKey(t, row))
    && (row.status == Status.Completed ==> OwnKey(t, row) && t.keys[row.key].response == row.txn)
  }

  ghost predicate CallersFit(w: World) {
    && (forall id | id in w.tickers && w.tickers[id].Mark? ::
          OwnKey(w.ledger, w.row) && w.ledger.keys[w.row.key].response == Some(w.tickers[id].txn))
    && (forall id | id in w.cancels && w.cancels[id] == CancelMark ::
          w.row.hold < |w.ledger.holds| && w.ledger.holds[w.row.hold].status == Released)
  }

  /** The row's own transfer was posted. */
  predicate Paid(w: World) { w.row.key in w.ledger.keys && !w.usedBefore }

  /** Nobody has worked on a row that is pending, or that a cancellation closed while it was pending. */
  ghost predicate Untouched(w: World) {
    w.row.status == Status.Pending || w.markedWhilePending ==> w.tickers == map[] && !Paid(w)
  }

  ghost predicate ClosedCleanly(w: World) {
    w.markedWhilePending ==> w.row.status == Cancelled && w.row.hold < |w.ledger.holds| && w.ledger.holds[w.row.hold].status == Released
  }

  ghost predicate RaceOk(w: World) {
    RowFits(w.ledger, w.row, w.usedBefore) && CallersFit(w) && Untouched(w) && ClosedCleanly(w)
  }

  ghost predicate Inv(w: World) { TablesOk(w.ledger) && RaceOk(w) }

  lemma {:induction false} PayKeepsOk(w: World, id: CallerId)
    requires KeysOk(w.ledger) && RaceOk(w) && id in w.tickers && w.tickers[id] == Pay
    ensures RaceOk(StepTick(w, id, Pay, true))
  {
    var (t, paid) := SerialLedger.Call(w.ledger, w.row.Pay());
    assert paid.Succeeded? ==> OwnKey(t, w.row) && t.keys[w.row.key].response == Some(paid.id);
  }

  lemma {:induction false} TickKeepsOk(w: World, id: CallerId, ok: bool)
    requires KeysOk(w.ledger) && RaceOk(w) && id in w.tickers
    ensures RaceOk(StepTick(w, id, w.tickers[id], ok))
  {
    if ok && w.tickers[id] == Pay { PayKeepsOk(w, id); }
  }

  lemma {:induction false} CancelKeepsOk(w: World, id: CallerId, ok: bool)
    requires RaceOk(w) && id in w.cancels
    ensures RaceOk(StepCancel(w, id, w.cancels[id], ok))
  {
  }

  lemma {:induction false} OtherCallKeepsOk(w: World, op: Op)
    requires RaceOk(w) && Foreign(w, op)
    ensures RaceOk(w.(ledger := SerialLedger.Call(w.ledger, op).0))
  {
  }

  lemma {:induction false} ReleaseKeepsTables(w: World)
    requires TablesOk(w.ledger) && IsActive(w.ledger, w.row.hold)
    ensures TablesOk(SetHold(w.ledger, w.row.hold, Released))
  {
    CommitKeepsOk(w.ledger, ReleaseHold(w.row.hold));
  }

  /** A statement leaves the ledger alone, releases the hold, or is one call. */
  lemma {:induction false} OneCallEach(w: World, action: Action)
    ensures var t := Do(w, action).ledger;
      || t == w.ledger
      || (IsActive(w.ledger, w.row.hold) && t == SetHold(w.ledger, w.row.hold, Released))
      || t == SerialLedger.Call(w.ledger, if action.OtherCall? then action.op else w.row.Pay()).0
  {
  }

  lemma {:induction false} DoKeepsTables(w: World, action: Action)
    requires TablesOk(w.ledger)
    ensures TablesOk(Do(w, action).ledger)
  {
    OneCallEach(w, action);
    SerialLedger.CallKeepsOk(w.ledger, if action.OtherCall? then action.op else w.row.Pay());
    if IsActive(w.ledger, w.row.hold) { ReleaseKeepsTables(w); }
  }

  lemma {:induction false} DoKeepsInv(w: World, action: Action)
    requires Inv(w)
    ensures Inv(Do(w, action))
  {
    DoKeepsTables(w, action);
    match action
    case Tick(id, ok) => if id in w.tickers { TickKeepsOk(w, id, ok); }
    case CancelStep(id, ok) => if id in w.cancels { CancelKeepsOk(w, id, ok); }
    case OtherCall(op) => if Foreign(w, op) { OtherCallKeepsOk(w, op); }
    case ClaimDue(_) =>
    case ClaimStuck(_) =>
    case StartCancel(_) =>
    case CrashTick(_) =>
    case CrashCancel(_) =>
  }

  /** A row just submitted: its hold is active, and its key is new unless an immediate payment used it before. */
  ghost predicate Initial(w: World) {
    && TablesOk(w.ledger) && w.row.hold < |w.ledger.holds|
    && w.ledger.holds[w.row.hold] == Hold(w.row.from, w.row.amount, Active)
    && w.row.status == Status.Pending && w.usedBefore == (w.row.key in w.ledger.keys)
    && w.tickers == map[] && w.cancels == map[] && !w.markedWhilePending
  }

  lemma {:induction false} RunKeepsInv(w: World, actions: seq<Action>)
    requires Initial(w)
    ensures Inv(Run(w, actions))
  {
    if actions != [] {
      RunKeepsInv(w, actions[..|actions| - 1]);
      DoKeepsInv(Run(w, actions[..|actions| - 1]), actions[|actions| - 1]);
    }
  }

  // ---------- what every interleaving keeps ----------

  /** At most one transaction is ever posted under the row's key; it is the row's own transfer, entry for entry, unless
      the key was used before, and then nothing new is; a completed row names the row's own transfer. */
  lemma {:induction false} PaidAtMostOnce(w0: World, actions: seq<Action>)
    requires Initial(w0)
    ensures var w := Run(w0, actions);
      var t, row := w.ledger, w.row;
      && (forall i: TxnId | i < |t.txns| && t.txns[i].key == row.key ::
            && row.key in t.keys && Some(i) == t.keys[row.key].response
            && (if w0.usedBefore then row.key in w0.ledger.keys && t.keys[row.key] == w0.ledger.keys[row.key]
                else PostedUnder(t, row.key, Transfer, row.Pay().legs, i)))
      && (row.status == Status.Completed ==> row.txn.Some? && PostedUnder(t, row.key, Transfer, row.Pay().legs, row.txn.value))
  {
    RunKeepsInv(w0, actions);
    RunKeepsKeys(w0, actions);
    OwnTransferOnly(Run(w0, actions));
  }

  lemma {:induction false} CallKeepsKeys(t: Tables, op: Op)
    ensures var t' := SerialLedger.Call(t, op).0; forall k | k in t.keys :: k in t'.keys && t'.keys[k] == t.keys[k]
  {
  }

  lemma {:induction false} DoKeepsKeys(w: World, action: Action)
    ensures var w' := Do(w, action); forall k | k in w.ledger.keys :: k in w'.ledger.keys && w'.ledger.keys[k] == w.ledger.keys[k]
  {
    if action.OtherCall? { CallKeepsKeys(w.ledger, action.op); }
    if action.Tick? { CallKeepsKeys(w.ledger, w.row.Pay()); }
  }

  lemma {:induction false} DoKeepsRow(w: World, action: Action)
    ensures var w' := Do(w, action);
      w'.usedBefore == w.usedBefore && w'.row == w.row.(status := w'.row.status, txn := w'.row.txn)
  {
  }

  lemma {:induction false} RunKeepsKeys(w: World, actions: seq<Action>)
    ensures var w' := Run(w, actions);
      && w'.usedBefore == w.usedBefore && w'.row == w.row.(status := w'.row.status, txn := w'.row.txn)
      && forall k | k in w.ledger.keys :: k in w'.ledger.keys && w'.ledger.keys[k] == w.ledger.keys[k]
  {
    if actions != [] {
      RunKeepsKeys(w, actions[..|actions| - 1]);
      DoKeepsKeys(Run(w, actions[..|actions| - 1]), actions[|actions| - 1]);
      DoKeepsRow(Run(w, actions[..|actions| - 1]), actions[|actions| - 1]);
    }
  }

  lemma {:induction false} OwnTransferOnly(w: World)
    requires KeysOk(w.ledger) && PostingsOk(w.ledger) && RowFits(w.ledger, w.row, w.usedBefore)
    ensures forall i: TxnId | i < |w.ledger.txns| && w.ledger.txns[i].key == w.row.key ::
      && w.row.key in w.ledger.keys && Some(i) == w.ledger.keys[w.row.key].response
      && (!w.usedBefore ==> PostedUnder(w.ledger, w.row.key, Transfer, w.row.Pay().legs, i))
    ensures w.row.status == Status.Completed ==>
      w.row.txn.Some? && PostedUnder(w.ledger, w.row.key, Transfer, w.row.Pay().legs, w.row.txn.value)
  {
    if OwnKey(w.ledger, w.row) { StoredPosting(w.ledger, w.row.key, Transfer, w.row.Pay().legs); }
  }

  /** A cancellation whose UPDATE finds the row still pending is final: the row is never paid and its money is
      free again. */
  lemma {:induction false} CleanCancelNeverPays(w0: World, actions: seq<Action>)
    requires Initial(w0) && Run(w0, actions).markedWhilePending
    ensures var w := Run(w0, actions);
      && w.row.status == Cancelled && (w.row.key in w.ledger.keys <==> w0.usedBefore)
      && w.row.hold < |w.ledger.holds| && w.ledger.holds[w.row.hold].status == Released
  {
    RunKeepsInv(w0, actions);
    RunKeepsKeys(w0, actions);
  }

  // ---------- when a cancellation is final ----------

  ghost predicate NeverPays(w: World) { forall actions: seq<Action> :: !Paid(Run(w, actions)) }

  /** Nothing can pay the row any more: its key was used before, or it is unused and either no ticker is in flight or
      there is no payee. */
  predicate Final(w: World) {
    || w.usedBefore
    || (w.row.status == Cancelled && w.row.key !in w.ledger.keys && (w.tickers == map[] || w.row.to !in w.ledger.accounts))
  }

  lemma {:induction false} NoPayee(t: Tables, row: Row)
    requires row.to !in t.accounts && row.key !in t.keys
    ensures SerialLedger.Call(t, row.Pay()).0 == t && SerialLedger.Call(t, row.Pay()).1.Rejected?
  {
    SerialLedger.PairError(t, row.Pay().legs[0], row.Pay().legs[1]);
  }

  lemma {:induction false} FinalStays(w: World, action: Action)
    requires RaceOk(w) && Final(w)
    ensures Final(Do(w, action))
  {
    if w.row.to !in w.ledger.accounts && w.row.key !in w.ledger.keys { NoPayee(w.ledger, w.row); }
  }

  lemma {:induction false} FinalForEver(w: World, actions: seq<Action>)
    requires Inv(w) && Final(w)
    ensures Inv(Run(w, actions)) && Final(Run(w, actions))
  {
    if actions != [] {
      FinalForEver(w, actions[..|actions| - 1]);
      FinalStays(Run(w, actions[..|actions| - 1]), actions[|actions| - 1]);
      DoKeepsInv(Run(w, actions[..|actions| - 1]), actions[|actions| - 1]);
    }
  }

  /** A ticker in flight can pay a covered transfer: the hold is released already, so one or two statements do it. */
  lemma {:induction false} TickerCanPay(w: World, k: CallerId) returns (actions: seq<Action>)
    requires k in w.tickers && w.row.key !in w.ledger.keys && !w.tickers[k].Mark?
    requires !IsActive(w.ledger, w.row.hold) && SerialLedger.CallError(w.ledger, w.row.Pay()).None?
    ensures w.row.key in Run(w, actions).ledger.keys && Run(w, actions).row.key == w.row.key
  {
    SerialLedger.NoErrorCommits(w.ledger, w.row.Pay());
    var one := [Tick(k, true)];
    assert one[..0] == [] && Run(w, one) == Do(Run(w, one[..0]), one[0]);
    if w.tickers[k] == Pay { return one; }
    var w1 := Do(w, Tick(k, true));
    assert w1.ledger == w.ledger && w1.tickers[k] == Pay;
    actions := [Tick(k, true), Tick(k, true)];
    assert actions[..1] == one && Run(w, actions) == Do(Run(w, actions[..1]), actions[1]);
  }

  // ---------- an account that is short now can be funded ----------

  /** The account of the outside world, which may go far below zero, can bear a credit of the amount. */
  predicate CanFund(t: Tables, amount: int) {
    SYSTEM_ACCOUNT_NGN in t.accounts && Available(t, SYSTEM_ACCOUNT_NGN) - amount >= Floor(t, SYSTEM_ACCOUNT_NGN)
  }

  /** There is always a key nobody has used. */
  lemma {:induction false} UnusedKey(used: set<Key>, n: nat) returns (key: Key)
    ensures |key| >= n && key !in used
    decreases |used|
  {
    key := seq(n, _ => 'k');
    if key in used {
      var longer := UnusedKey(used - {key}, n + 1);
      return longer;
    }
  }

  lemma {:induction false} CreditGoesThrough(t: Tables, account: AccountId, amount: int, key: Key)
    requires TablesOk(t) && CanFund(t, amount) && account in t.accounts && account != SYSTEM_ACCOUNT_NGN
    requires amount > 0 && key !in t.keys
    ensures SerialLedger.CallError(t, CreditOp(account, amount, key)).None?
    ensures Available(SerialLedger.Call(t, CreditOp(account, amount, key)).0, account) == Available(t, account) + amount
  {
    var op := CreditOp(account, amount, key);
    SerialLedger.PairError(t, op.legs[0], op.legs[1]);
    SerialLedger.PairSums(op.legs[0], op.legs[1], SYSTEM_ACCOUNT_NGN);
    SerialLedger.PairSums(op.legs[0], op.legs[1], account);
    assert !SerialLedger.TxnKeyTaken(t, key);
    SerialLedger.NoErrorCommits(t, op);
    RecordMovesBalance(t, key, HashOf(op), Credit, op.legs, account);
  }

  /** A sender with the amount available can pay. */
  lemma {:induction false} CoveredPays(t: Tables, row: Row)
    requires KeysOk(t) && row.from in t.accounts && row.to in t.accounts && row.amount > 0 && row.key !in t.keys
    requires Available(t, row.from) - row.amount >= Floor(t, row.from)
    ensures SerialLedger.CallError(t, row.Pay()).None?
  {
    SerialLedger.TransferAcceptedIff(t, row.from, row.to, row.amount, row.key);
  }

  lemma {:induction false} FundedPays(t: Tables, row: Row, key: Key)
    requires TablesOk(t) && CanFund(t, row.amount) && row.from in t.accounts && row.from != SYSTEM_ACCOUNT_NGN
    requires row.to in t.accounts && row.amount > 0 && row.key !in t.keys && key !in t.keys && key != row.key
    ensures SerialLedger.CallError(SerialLedger.Call(t, CreditOp(row.from, row.amount, key)).0, row.Pay()).None?
  {
    CreditGoesThrough(t, row.from, row.amount, key);
    SerialLedger.CallKeepsOk(t, CreditOp(row.from, row.amount, key));
    assert NotOverdrawn(t, row.from);
    CoveredPays(SerialLedger.Call(t, CreditOp(row.from, row.amount, key)).0, row);
  }

  lemma {:induction false} LastAction(w: World, actions: seq<Action>, last: Action)
    ensures Run(w, actions + [last]) == Do(Run(w, actions), last)
  {
    assert (actions + [last])[..|actions|] == actions;
  }

  lemma {:induction false} RunAfter(w: World, first: Action, rest: seq<Action>)
    ensures Run(w, [first] + rest) == Run(Do(w, first), rest)
  {
    if rest == [] {
      assert [first] + rest == [] + [first];
      LastAction(w, [], first);
    } else {
      var front, last := rest[..|rest| - 1], rest[|rest| - 1];
      RunAfter(w, first, front);
      assert [first] + rest == [first] + front + [last];
      LastAction(w, [first] + front, last);
    }
  }

  /** A ticker in flight over a released hold can still pay, after a credit if the account is short now. */
  lemma {:induction false} TickerPaysSometime(w: World, k: CallerId) returns (actions: seq<Action>)
    requires TablesOk(w.ledger) && k in w.tickers && !w.tickers[k].Mark? && w.row.key !in w.ledger.keys
    requires RowFits(w.ledger, w.row, false) && !IsActive(w.ledger, w.row.hold)
    requires w.row.to in w.ledger.accounts && CanFund(w.ledger, w.row.amount)
    ensures w.row.key in Run(w, actions).ledger.keys && Run(w, actions).row.key == w.row.key
  {
    if w.row.from == SYSTEM_ACCOUNT_NGN {
      CoveredPays(w.ledger, w.row);
      actions := TickerCanPay(w, k);
    } else {
      var key := UnusedKey(w.ledger.keys.Keys + {w.row.key}, 0);
      var fund := OtherCall(CreditOp(w.row.from, w.row.amount, key));
      FundedPays(w.ledger, w.row, key);
      var rest := TickerCanPay(Do(w, fund), k);
      RunAfter(w, fund, rest);
      actions := [fund] + rest;
    }
  }

  // ---------- exactly when a cancellation is final ----------

  /** The world right after a cancellation's UPDATE, in a state some run reaches. */
  ghost predicate JustCancelled(w0: World, upto: seq<Action>, id: CallerId, w: World) {
    && Initial(w0) && id in Run(w0, upto).cancels && Run(w0, upto).cancels[id] == CancelMark
    && w == Do(Run(w0, upto), CancelStep(id, true))
  }

  /** When a cancellation marks the row, no continuation ever pays it if its key was used before it was submitted, or is
      unused and no ticker is in flight or the payee does not exist; and, as long as the outside world's account can
      bear the amount, only then. */
  lemma {:induction false} CancelIsFinalIff(w0: World, upto: seq<Action>, id: CallerId, w: World)
    requires JustCancelled(w0, upto, id, w)
    ensures Final(w) ==> NeverPays(w)
    ensures CanFund(w.ledger, w.row.amount) ==> (NeverPays(w) <==> Final(w))
    ensures Final(w) <==> w.usedBefore || (w.row.key !in w.ledger.keys && (w.tickers == map[] || w.row.to !in w.ledger.accounts))
  {
    RunKeepsInv(w0, upto);
    CancelMarks(Run(w0, upto), id);
    DoKeepsInv(Run(w0, upto), CancelStep(id, true));
    if Final(w) {
      forall actions: seq<Action> ensures !Paid(Run(w, actions)) { FinalForEver(w, actions); }
    } else if w.row.key in w.ledger.keys {
      assert Paid(Run(w, []));
    } else if CanFund(w.ledger, w.row.amount) {
      var k :| k in w.tickers;
      var actions := TickerPaysSometime(w, k);
      RunKeepsKeys(w, actions);
      assert Paid(Run(w, actions));
    }
  }

  lemma {:induction false} CancelMarks(w: World, id: CallerId)
    requires RaceOk(w) && id in w.cancels && w.cancels[id] == CancelMark
    ensures var w' := Do(w, CancelStep(id, true));
      && w'.row.status == Cancelled && !IsActive(w'.ledger, w'.row.hold)
      && forall k | k in w'.tickers && w'.tickers[k].Mark? :: w'.row.key in w'.ledger.keys
  {
  }

  // ---------- what the unguarded UPDATE allows ----------

  /** For every submitted row with a new key: a ticker that claims it between a cancellation's lookup and its release pays it,
      and the row still ends up cancelled. */
  lemma {:induction false} CancelledRowCanPay(w: World, w1: World, w2: World, w3: World, w4: World, w5: World)
    requires Initial(w) && !w.usedBefore && w.row.to in w.ledger.accounts
    requires w1 == Do(Do(w, StartCancel(0)), ClaimDue(0)) && w2 == Do(w1, CancelStep(0, true))
    requires w3 == Do(w2, Tick(0, true)) && w4 == Do(w3, Tick(0, true)) && w5 == Do(Do(w4, Tick(0, true)), CancelStep(0, true))
    ensures w5.row.status == Cancelled && w.row.key in w5.ledger.keys
    ensures w5.ledger.txns == w.ledger.txns + [Txn(w.row.key, Transfer, Posted)]
  {
    var t1 := SetHold(w.ledger, w.row.hold, Released);
    assert w3.ledger == t1 && w3.row.Pay() == w.row.Pay();
    ReleasedMoneyCovers(w.ledger, w.row);
    SerialLedger.NoErrorCommits(t1, w.row.Pay());
    assert w4.ledger == Commit(t1, w.row.Pay()) && w4.tickers[0] == Mark(|w.ledger.txns|);
  }

  // ---------- a caller left alone ----------

  /** A ticker nobody disturbs does to a due row, or to one left processing, what one full attempt does. */
  lemma {:induction false} AloneReleases(w: World, id: CallerId, claim: Action)
    requires id !in w.tickers && w.row.hold < |w.ledger.holds|
    requires (claim == ClaimDue(id) && w.row.status == Status.Pending) || (claim == ClaimStuck(id) && w.row.status == Processing)
    ensures var w' := Do(Do(Do(Do(w, claim), Tick(id, true)), Tick(id, true)), Tick(id, true));
      (w'.ledger, w'.row) == Attempt(w.ledger, w.row.(status := Processing), 3) && id !in w'.tickers
  {
    var row := w.row.(status := Processing);
    var (t, _) := SerialLedger.Call(w.ledger, ReleaseHold(row.hold));
    var w2 := Do(Do(w, claim), Tick(id, true));
    assert w2.ledger == t && w2.row == row && w2.tickers[id] == Pay;
    PaySteps(w2, id);
  }

  lemma {:induction false} PaySteps(w: World, id: CallerId)
    requires id in w.tickers && w.tickers[id] == Pay
    ensures var (t, r) := SerialLedger.Call(w.ledger, w.row.Pay());
      var w1 := Do(w, Tick(id, true));
      var w2 := Do(w1, Tick(id, true));
      && w1.ledger == w2.ledger == t && w1.row == w.row && id !in w2.tickers
      && w2.row == if r.Succeeded? then w.row.(status := Status.Completed, txn := Some(r.id)) else w.row
  {
  }

  /** A cancellation nobody disturbs cancels a pending row and releases its hold. */
  lemma {:induction false} AloneCancels(w: World, id: CallerId)
    requires w.row.status == Status.Pending && id !in w.cancels && IsActive(w.ledger, w.row.hold)
    ensures var w' := Do(Do(Do(w, StartCancel(id)), CancelStep(id, true)), CancelStep(id, true));
      w'.row == w.row.(status := Cancelled) && w'.ledger == SetHold(w.ledger, w.row.hold, Released) && id !in w'.cancels
  {
  }
}
