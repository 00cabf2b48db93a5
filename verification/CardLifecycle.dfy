/** One approved card authorization under any number of overlapping Settle, Void and Chargeback calls, one
    statement at a time, with crashes, refusals and other ledger calls in between. */
module CardLifecycle {
  import opened LedgerTables
  import opened AtomicLedger
  import SerialLedger
  import LedgerGuarantees

  type CallerId = nat

  datatype AuthStatus = Approved | Settled | Voided | ChargedBack

  datatype Auth = Auth(
    status: AuthStatus, account: AccountId, amount: int, hold: HoldId, settleKey: Key, txn: Option<TxnId>)

  /** A caller past its first read, about to run its next statement. */
  datatype Caller =
    | Capturing
    | MarkingSettled(txn: TxnId)
    | Releasing
    | MarkingVoided
    | Reversing(original: TxnId, key: Key)
    | MarkingChargedBack(original: TxnId)

  datatype World = World(ledger: Tables, auth: Auth, callers: map<CallerId, Caller>)

  datatype Action =
    | Settle(id: CallerId)
    | Void(id: CallerId)
    | Chargeback(id: CallerId, key: Key)
    | Step(id: CallerId, ok: bool)
    | Crash(id: CallerId)
    | OtherCall(op: Op)

  function Stop(w: World, id: CallerId): World { w.(callers := w.callers - {id}) }

  function Next(w: World, id: CallerId, caller: Caller): World { w.(callers := w.callers[id := caller]) }

  /** A ledger call that goes on to `next` on success and ends the caller on an error. */
  function CallLedger(w: World, id: CallerId, op: Op, next: TxnId -> Caller): World {
    var (t, r) := SerialLedger.Call(w.ledger, op);
    if r.Succeeded? then Next(w, id, next(r.id)).(ledger := t) else Stop(w, id)
  }

  function StepCaller(w: World, id: CallerId, caller: Caller): World {
    match caller
    case Capturing => CallLedger(w, id, CaptureHold(w.auth.hold, w.auth.settleKey), (txn: TxnId) => MarkingSettled(txn))
    case MarkingSettled(txn) => Stop(w, id).(auth := w.auth.(status := Settled, txn := Some(txn)))
    case Releasing => CallLedger(w, id, ReleaseHold(w.auth.hold), _ => MarkingVoided)
    case MarkingVoided => Stop(w, id).(auth := w.auth.(status := Voided))
    case Reversing(original, key) => CallLedger(w, id, Reverse(original, key), _ => MarkingChargedBack(original))
    case MarkingChargedBack(_) =>
      Stop(w, id).(auth := if w.auth.status == Settled then w.auth.(status := ChargedBack) else w.auth)
  }

  /** Other calls use neither the settlement key nor the authorization's hold. */
  predicate Foreign(w: World, op: Op) {
    && (op.Keyed() ==> op.key != w.auth.settleKey)
    && (op.CaptureHold? || op.ReleaseHold? ==> op.hold != w.auth.hold)
  }

  function Do(w: World, action: Action): World {
    match action
    case Settle(id) => if id in w.callers || w.auth.status != Approved then w else Next(w, id, Capturing)
    case Void(id) => if id in w.callers || w.auth.status != Approved then w else Next(w, id, Releasing)
    case Chargeback(id, key) =>   // under the settlement key the ledger would only answer that the key is reused
      if id in w.callers || w.auth.status != Settled || w.auth.txn.None? || key == w.auth.settleKey then w
      else Next(w, id, Reversing(w.auth.txn.value, key))
    case Step(id, ok) =>
      if id !in w.callers then w else if ok then StepCaller(w, id, w.callers[id]) else Stop(w, id)
    case Crash(id) => Stop(w, id)
    case OtherCall(op) => if Foreign(w, op) then w.(ledger := SerialLedger.Call(w.ledger, op).0) else w
  }

  function Run(w: World, actions: seq<Action>): World {
    if actions == [] then w else Do(Run(w, actions[..|actions| - 1]), actions[|actions| - 1])
  }

  // ---------- the invariant ----------

  /** The debit that settles the authorization. */
  predicate SettledBy(t: Tables, auth: Auth, d: TxnId) {
    auth.settleKey in t.keys && t.keys[auth.settleKey].response == Some(d)
  }

  ghost predicate Undone(t: Tables, o: TxnId) { exists r: TxnId :: Reverses(t, r, o) }

  ghost predicate AuthOk(t: Tables, auth: Auth) {
    && auth.hold < |t.holds|
    && t.holds[auth.hold].account == auth.account && t.holds[auth.hold].amount == auth.amount
    && (auth.settleKey in t.keys ==> t.keys[auth.settleKey].hash == CaptureHash(auth.hold))
    && (forall k | k in t.keys && t.keys[k].hash == CaptureHash(auth.hold) :: k == auth.settleKey)
    && (auth.txn.Some? ==> SettledBy(t, auth, auth.txn.value))
    && (auth.status in {Settled, ChargedBack} ==> auth.txn.Some?)
    && (auth.status == Voided ==> t.holds[auth.hold].status == Released)
    && (auth.status == ChargedBack ==> Undone(t, auth.txn.value))
  }

  ghost predicate CallerOk(t: Tables, auth: Auth, caller: Caller) {
    match caller
    case MarkingSettled(txn) => SettledBy(t, auth, txn)
    case MarkingVoided => auth.hold < |t.holds| && t.holds[auth.hold].status == Released
    case Reversing(original, key) => SettledBy(t, auth, original) && key != auth.settleKey
    case MarkingChargedBack(original) => SettledBy(t, auth, original) && Undone(t, original)
    case _ => true
  }

  ghost predicate CardOk(w: World) {
    AuthOk(w.ledger, w.auth) && forall id | id in w.callers :: CallerOk(w.ledger, w.auth, w.callers[id])
  }

  ghost predicate Inv(w: World) { TablesOk(w.ledger) && CardOk(w) }

  // ---------- ledger commits ----------

  /** The only capture of this hold is under its own key, which nothing else uses. */
  predicate Suits(op: Op, auth: Auth) {
    && (op.Keyed() && op.key == auth.settleKey ==> op == CaptureHold(auth.hold, auth.settleKey))
    && (op.CaptureHold? && op.hold == auth.hold ==> op.key == auth.settleKey)
  }

  lemma {:induction false} ReversesStays(t: Tables, op: Op, r: TxnId, o: TxnId)
    requires CanCommit(t, op) && Reverses(t, r, o)
    ensures Reverses(Commit(t, op), r, o)
  {
  }

  lemma {:induction false} UndoneStays(t: Tables, op: Op, o: TxnId)
    requires CanCommit(t, op) && Undone(t, o)
    ensures Undone(Commit(t, op), o)
  {
    var r: TxnId :| Reverses(t, r, o);
    ReversesStays(t, op, r, o);
  }

  lemma {:induction false} AuthStaysOk(t: Tables, op: Op, auth: Auth)
    requires CanCommit(t, op) && AuthOk(t, auth) && Suits(op, auth)
    ensures AuthOk(Commit(t, op), auth)
  {
    if auth.status == ChargedBack { UndoneStays(t, op, auth.txn.value); }
  }

  lemma {:induction false} CallerStaysOk(t: Tables, op: Op, auth: Auth, caller: Caller)
    requires CanCommit(t, op) && CallerOk(t, auth, caller)
    ensures CallerOk(Commit(t, op), auth, caller)
  {
    if caller.MarkingChargedBack? { UndoneStays(t, op, caller.original); }
  }

  lemma {:induction false} CommitKeepsCard(w: World, op: Op)
    requires CanCommit(w.ledger, op) && CardOk(w) && Suits(op, w.auth)
    ensures CardOk(w.(ledger := Commit(w.ledger, op)))
  {
    AuthStaysOk(w.ledger, op, w.auth);
    forall id | id in w.callers ensures CallerOk(Commit(w.ledger, op), w.auth, w.callers[id]) {
      CallerStaysOk(w.ledger, op, w.auth, w.callers[id]);
    }
  }

  lemma {:induction false} CallKeepsInv(w: World, op: Op)
    requires Inv(w) && Suits(op, w.auth)
    ensures Inv(w.(ledger := SerialLedger.Call(w.ledger, op).0))
  {
    SerialLedger.CallKeepsOk(w.ledger, op);
    if SerialLedger.Call(w.ledger, op).0 == w.ledger {
      assert w.(ledger := w.ledger) == w;
    } else {
      CommitKeepsCard(w, op);
    }
  }

  // ---------- replies ----------

  lemma {:induction false} ReleaseReply(t: Tables, h: HoldId)
    requires SerialLedger.Call(t, ReleaseHold(h)).1.Succeeded?
    ensures var t' := SerialLedger.Call(t, ReleaseHold(h)).0;
      h < |t'.holds| && t'.holds[h].status == Released
  {
  }

  lemma {:induction false} ReverseReply(t: Tables, o: TxnId, key: Key)
    requires KeysOk(t) && SerialLedger.Call(t, Reverse(o, key)).1.Succeeded?
    ensures Undone(SerialLedger.Call(t, Reverse(o, key)).0, o)
  {
    var (t', r) := SerialLedger.Call(t, Reverse(o, key));
    assert Reverses(t', r.id, o);
  }

  // ---------- every step ----------

  lemma {:induction false} StopKeepsInv(w: World, id: CallerId)
    requires Inv(w)
    ensures Inv(Stop(w, id))
  {
  }

  lemma {:induction false} CapturingKeepsInv(w: World, id: CallerId)
    requires Inv(w) && id in w.callers && w.callers[id] == Capturing
    ensures Inv(StepCaller(w, id, Capturing))
  {
    var op := CaptureHold(w.auth.hold, w.auth.settleKey);
    CallKeepsInv(w, op);
    if SerialLedger.Call(w.ledger, op).1.Succeeded? { SerialLedger.ReplyIsStored(w.ledger, op); }
  }

  lemma {:induction false} ReleasingKeepsInv(w: World, id: CallerId)
    requires Inv(w) && id in w.callers && w.callers[id] == Releasing
    ensures Inv(StepCaller(w, id, Releasing))
  {
    CallKeepsInv(w, ReleaseHold(w.auth.hold));
    if SerialLedger.Call(w.ledger, ReleaseHold(w.auth.hold)).1.Succeeded? { ReleaseReply(w.ledger, w.auth.hold); }
  }

  lemma {:induction false} ReversingKeepsInv(w: World, id: CallerId, o: TxnId, key: Key)
    requires Inv(w) && id in w.callers && w.callers[id] == Reversing(o, key)
    ensures Inv(StepCaller(w, id, Reversing(o, key)))
  {
    assert CallerOk(w.ledger, w.auth, w.callers[id]);
    CallKeepsInv(w, Reverse(o, key));
    if SerialLedger.Call(w.ledger, Reverse(o, key)).1.Succeeded? {
      ReverseReply(w.ledger, o, key);
      SerialLedger.CallKeepsOk(w.ledger, Reverse(o, key));
    }
  }

  lemma {:induction false} MarkingKeepsOk(w: World, id: CallerId)
    requires CardOk(w) && id in w.callers
    requires w.callers[id].MarkingSettled? || w.callers[id].MarkingVoided? || w.callers[id].MarkingChargedBack?
    ensures CardOk(StepCaller(w, id, w.callers[id]))
    ensures StepCaller(w, id, w.callers[id]).ledger == w.ledger
  {
  }

  lemma {:induction false} StepKeepsInv(w: World, id: CallerId)
    requires Inv(w) && id in w.callers
    ensures Inv(StepCaller(w, id, w.callers[id]))
  {
    match w.callers[id]
    case Capturing => CapturingKeepsInv(w, id);
    case Releasing => ReleasingKeepsInv(w, id);
    case Reversing(o, key) => ReversingKeepsInv(w, id, o, key);
    case MarkingSettled(_) => MarkingKeepsOk(w, id);
    case MarkingVoided => MarkingKeepsOk(w, id);
    case MarkingChargedBack(_) => MarkingKeepsOk(w, id);
  }

  lemma {:induction false} DoKeepsInv(w: World, action: Action)
    requires Inv(w)
    ensures Inv(Do(w, action))
  {
    match action
    case Step(id, ok) => if id in w.callers { if ok { StepKeepsInv(w, id); } else { StopKeepsInv(w, id); } }
    case Crash(id) => StopKeepsInv(w, id);
    case OtherCall(op) => if Foreign(w, op) { CallKeepsInv(w, op); }
    case Settle(_) =>
    case Void(_) =>
    case Chargeback(_, _) =>
  }

  /** A fresh approval: its hold is active and nothing was ever settled under its key. */
  ghost predicate Initial(w: World) {
    && TablesOk(w.ledger) && w.callers == map[]
    && w.auth.status == Approved && w.auth.txn.None? && w.auth.settleKey !in w.ledger.keys
    && w.auth.hold < |w.ledger.holds| && w.ledger.holds[w.auth.hold] == Hold(w.auth.account, w.auth.amount, Active)
  }

  lemma {:induction false} InitialIsOk(w: World)
    requires Initial(w)
    ensures Inv(w)
  {
    var t, h := w.ledger, w.auth.hold;
    forall k | k in t.keys ensures t.keys[k].hash != CaptureHash(h) {
      var c := t.keys[k].response.value;
      assert Captures(t, c, h) <==> t.keys[k].hash == CaptureHash(h);
    }
  }

  lemma {:induction false} RunKeepsInv(w: World, actions: seq<Action>)
    requires Initial(w)
    ensures Inv(Run(w, actions))
  {
    if actions == [] {
      InitialIsOk(w);
    } else {
      RunKeepsInv(w, actions[..|actions| - 1]);
      DoKeepsInv(Run(w, actions[..|actions| - 1]), actions[|actions| - 1]);
    }
  }

  // ---------- what every interleaving keeps ----------

  /** Transaction d is the purchase: the amount leaves the cardholder for the system account. */
  predicate Purchase(t: Tables, auth: Auth, d: TxnId) {
    && d < |t.txns| && t.txns[d].key == auth.settleKey
    && LegsOf(t.entries, d) == DebitOp(auth.account, auth.amount, auth.settleKey).legs
  }

  lemma {:induction false} SettledMeansPurchased(w: World)
    requires Inv(w) && w.auth.settleKey in w.ledger.keys
    ensures w.ledger.holds[w.auth.hold].status == Captured
    ensures exists d: TxnId :: SettledBy(w.ledger, w.auth, d) && Purchase(w.ledger, w.auth, d)
    ensures forall d: TxnId, e: TxnId | Purchase(w.ledger, w.auth, d) && Purchase(w.ledger, w.auth, e) :: d == e
  {
    var d := w.ledger.keys[w.auth.settleKey].response.value;
    assert Captures(w.ledger, d, w.auth.hold);
    assert SettledBy(w.ledger, w.auth, d) && Purchase(w.ledger, w.auth, d);
  }

  lemma {:induction false} UndonePurchaseNetsZero(w: World, a: AccountId)
    requires Inv(w) && w.auth.status == ChargedBack
    ensures var t, d := w.ledger, w.auth.txn.value;
      && Purchase(t, w.auth, d) && t.txns[d].state == Reversed
      && (exists r: TxnId :: Reverses(t, r, d))
      && (forall r: TxnId | Reverses(t, r, d) :: LegSum(LegsOf(t.entries, d), a) + LegSum(LegsOf(t.entries, r), a) == 0)
  {
    SettledMeansPurchased(w);
    var t, d := w.ledger, w.auth.txn.value;
    forall r: TxnId | Reverses(t, r, d) ensures LegSum(LegsOf(t.entries, d), a) + LegSum(LegsOf(t.entries, r), a) == 0 {
      NegatedSums(LegsOf(t.entries, d), a);
    }
  }

  /** In every run: a settled authorization has its hold captured by one purchase; a voided one has its hold
      released and no purchase; a charged-back one has a purchase and one reversal that cancel on every account. */
  lemma {:induction false} StatusMatchesLedger(w0: World, actions: seq<Action>, a: AccountId)
    requires Initial(w0)
    ensures var t, auth := Run(w0, actions).ledger, Run(w0, actions).auth;
      && auth.hold < |t.holds|
      && (auth.status == Settled ==>
            t.holds[auth.hold].status == Captured && auth.txn.Some? && Purchase(t, auth, auth.txn.value))
      && (auth.status == Voided ==> t.holds[auth.hold].status == Released && auth.settleKey !in t.keys)
      && (auth.status == ChargedBack ==>
            && auth.txn.Some? && Purchase(t, auth, auth.txn.value)
            && (exists r: TxnId :: Reverses(t, r, auth.txn.value))
            && (forall r: TxnId | Reverses(t, r, auth.txn.value) ::
                  LegSum(LegsOf(t.entries, auth.txn.value), a) + LegSum(LegsOf(t.entries, r), a) == 0))
      && (forall d: TxnId, e: TxnId | Purchase(t, auth, d) && Purchase(t, auth, e) :: d == e)
  {
    RunKeepsInv(w0, actions);
    var w := Run(w0, actions);
    if w.auth.settleKey in w.ledger.keys { SettledMeansPurchased(w); }
    if w.auth.status == ChargedBack { UndonePurchaseNetsZero(w, a); }
  }

  lemma {:induction false} CallExtends(t: Tables, op: Op)
    requires TablesOk(t)
    ensures LedgerGuarantees.Extends(t, SerialLedger.Call(t, op).0)
  {
    SerialLedger.CallKeepsOk(t, op);
    if CanCommit(t, op) { LedgerGuarantees.CommitExtends(t, op); }
  }

  lemma {:induction false} DoExtends(w: World, action: Action)
    requires TablesOk(w.ledger)
    ensures LedgerGuarantees.Extends(w.ledger, Do(w, action).ledger) && Do(w, action).auth.hold == w.auth.hold
  {
    match action
    case OtherCall(op) => CallExtends(w.ledger, op);
    case Step(id, ok) => if id in w.callers { StepExtends(w, id); }
    case Settle(_) =>
    case Void(_) =>
    case Chargeback(_, _) =>
    case Crash(_) =>
  }

  lemma {:induction false} StepExtends(w: World, id: CallerId)
    requires TablesOk(w.ledger) && id in w.callers
    ensures LedgerGuarantees.Extends(w.ledger, StepCaller(w, id, w.callers[id]).ledger)
  {
    match w.callers[id]
    case Capturing => CallExtends(w.ledger, CaptureHold(w.auth.hold, w.auth.settleKey));
    case Releasing => CallExtends(w.ledger, ReleaseHold(w.auth.hold));
    case Reversing(o, key) => CallExtends(w.ledger, Reverse(o, key));
    case MarkingSettled(_) =>
    case MarkingVoided =>
    case MarkingChargedBack(_) =>
  }

  /** No run both captures and releases the hold: however it was resolved at some point, it stays so. */
  lemma {:induction false} HoldResolvedOneWay(w0: World, actions: seq<Action>, n: nat)
    requires Initial(w0) && n <= |actions|
    ensures var before, after := Run(w0, actions[..n]), Run(w0, actions);
      && before.auth.hold == after.auth.hold && before.auth.hold < |before.ledger.holds| <= |after.ledger.holds|
      && (before.ledger.holds[before.auth.hold].status != Active ==>
            after.ledger.holds[after.auth.hold].status == before.ledger.holds[before.auth.hold].status)
  {
    RunKeepsInv(w0, actions);
    if n == |actions| {
      assert actions[..n] == actions;
    } else {
      var front := actions[..|actions| - 1];
      assert front[..n] == actions[..n];
      HoldResolvedOneWay(w0, front, n);
      RunKeepsInv(w0, front);
      DoExtends(Run(w0, front), actions[|actions| - 1]);
    }
  }

  // ---------- whether a settled row's purchase stands ----------

  /** Marking a row settled does not look at its transaction: the settled row's purchase is reversed exactly when the
      transaction is already in state reversed at that UPDATE. */
  lemma {:induction false} MarkedSettledIsReversedIff(w: World, id: CallerId, d: TxnId)
    requires Inv(w) && id in w.callers && w.callers[id] == MarkingSettled(d)
    ensures var w' := Do(w, Step(id, true));
      && w'.auth.status == Settled && w'.auth.txn == Some(d) && Purchase(w'.ledger, w'.auth, d)
      && (Undone(w'.ledger, d) <==> w.ledger.txns[d].state == Reversed)
  {
    assert CallerOk(w.ledger, w.auth, w.callers[id]);
    SettledMeansPurchased(w);
  }

  /** The key under which an action asks to reverse d: a Chargeback past its first read, or a reversal made elsewhere. */
  function ReversalKey(w: World, action: Action, d: TxnId): Option<Key> {
    if action.Step? && action.ok && action.id in w.callers && w.callers[action.id].Reversing? && w.callers[action.id].original == d
    then Some(w.callers[action.id].key)
    else if action.OtherCall? && Foreign(w, action.op) && action.op.Reverse? && action.op.original == d then Some(action.op.key)
    else None
  }

  /** An unrefused reversal of d under an unused key. */
  predicate Unrefused(t: Tables, op: Op, d: TxnId) {
    op.Reverse? && op.original == d && op.key !in t.keys && SerialLedger.CallError(t, op).None?
  }

  /** The action asks to reverse d under an unused key, and the ledger finds nothing against it. */
  predicate ReversesNow(w: World, action: Action, d: TxnId) {
    match ReversalKey(w, action, d)
    case None => false
    case Some(key) => Unrefused(w.ledger, Reverse(d, key), d)
  }

  lemma {:induction false} NewReversal(t: Tables, op: Op, d: TxnId)
    requires KeysOk(t) && CanCommit(t, op) && Undone(Commit(t, op), d) && !Undone(t, d)
    ensures op.Reverse? && op.original == d
  {
    var r: TxnId :| Reverses(Commit(t, op), r, d);
    if r < |t.txns| { assert t.txns[r].key in t.keys && !Reverses(t, r, d); }
  }

  lemma {:induction false} ReversedByCall(t: Tables, op: Op, d: TxnId)
    requires TablesOk(t) && !Undone(t, d) && Undone(SerialLedger.Call(t, op).0, d)
    ensures Unrefused(t, op, d)
  {
    SerialLedger.CallKeepsOk(t, op);
    NewReversal(t, op, d);
  }

  lemma {:induction false} UnrefusedReverses(t: Tables, op: Op, d: TxnId)
    requires KeysOk(t) && Unrefused(t, op, d)
    ensures Undone(SerialLedger.Call(t, op).0, d)
  {
    assert Reverses(SerialLedger.Call(t, op).0, |t.txns|, d);
  }

  /** A call reverses d exactly when it is an unrefused reversal of it. */
  lemma {:induction false} CallReversesIff(t: Tables, op: Op, d: TxnId)
    requires TablesOk(t) && !Undone(t, d)
    ensures Undone(SerialLedger.Call(t, op).0, d) <==> Unrefused(t, op, d)
  {
    if Undone(SerialLedger.Call(t, op).0, d) { ReversedByCall(t, op, d); }
    if Unrefused(t, op, d) { UnrefusedReverses(t, op, d); }
  }

  lemma {:induction false} StepReversesIff(w: World, id: CallerId, d: TxnId)
    requires TablesOk(w.ledger) && !Undone(w.ledger, d) && id in w.callers
    ensures Undone(StepCaller(w, id, w.callers[id]).ledger, d) <==> ReversesNow(w, Step(id, true), d)
  {
    match w.callers[id]
    case Capturing => CallReversesIff(w.ledger, CaptureHold(w.auth.hold, w.auth.settleKey), d);
    case Releasing => CallReversesIff(w.ledger, ReleaseHold(w.auth.hold), d);
    case Reversing(o, key) => CallReversesIff(w.ledger, Reverse(o, key), d);
    case MarkingSettled(_) =>
    case MarkingVoided =>
    case MarkingChargedBack(_) =>
  }

  /** An action reverses d exactly when it asks to and the ledger lets it. */
  lemma {:induction false} ActionReversesIff(w: World, action: Action, d: TxnId)
    requires TablesOk(w.ledger) && !Undone(w.ledger, d)
    ensures Undone(Do(w, action).ledger, d) <==> ReversesNow(w, action, d)
  {
    if action.OtherCall? {
      CallReversesIff(w.ledger, action.op, d);
    } else if action.Step? && action.id in w.callers {
      StepReversesIff(w, action.id, d);
    }
  }

  lemma {:induction false} ExtendsKeepsUndone(t: Tables, t': Tables, d: TxnId)
    requires KeysOk(t) && LedgerGuarantees.Extends(t, t') && Undone(t, d)
    ensures Undone(t', d)
  {
    var r: TxnId :| Reverses(t, r, d);
    assert Reverses(t', r, d);
  }

  /** The n-th action asks to reverse d and the ledger lets it. */
  predicate ReversedAt(w0: World, actions: seq<Action>, n: nat, d: TxnId) {
    n < |actions| && ReversesNow(Run(w0, actions[..n]), actions[n], d)
  }

  /** A transaction not reversed at the start is reversed at the end of a run exactly when one of the run's actions,
      a chargeback's or a reversal made elsewhere, asked for it under an unused key and the ledger had nothing
      against it. */
  lemma {:induction false} ReversedIffAsked(w0: World, actions: seq<Action>, d: TxnId)
    requires Initial(w0) && !Undone(w0.ledger, d)
    ensures Undone(Run(w0, actions).ledger, d) <==> exists n: nat :: ReversedAt(w0, actions, n, d)
  {
    if actions != [] {
      var n := |actions| - 1;
      ReversedIffAsked(w0, actions[..n], d);
      forall k: nat | k < n ensures ReversedAt(w0, actions, k, d) <==> ReversedAt(w0, actions[..n], k, d) {
        assert actions[..n][..k] == actions[..k];
      }
      RunKeepsInv(w0, actions[..n]);
      StaysOrTurnsReversed(Run(w0, actions[..n]), actions[n], d);
      assert ReversedAt(w0, actions, n, d) <==> ReversesNow(Run(w0, actions[..n]), actions[n], d);
      assert forall k: nat :: ReversedAt(w0, actions, k, d) ==> k <= n;
    }
  }

  lemma {:induction false} StaysOrTurnsReversed(w: World, action: Action, d: TxnId)
    requires Inv(w)
    ensures Undone(Do(w, action).ledger, d) <==> Undone(w.ledger, d) || ReversesNow(w, action, d)
  {
    if Undone(w.ledger, d) {
      DoExtends(w, action);
      ExtendsKeepsUndone(w.ledger, Do(w, action).ledger, d);
    } else {
      ActionReversesIff(w, action, d);
    }
  }

  lemma {:induction false} RunExtends(w0: World, actions: seq<Action>)
    requires Initial(w0)
    ensures LedgerGuarantees.Extends(w0.ledger, Run(w0, actions).ledger)
    ensures Run(w0, actions).auth.settleKey == w0.auth.settleKey
  {
    if actions != [] {
      RunExtends(w0, actions[..|actions| - 1]);
      RunKeepsInv(w0, actions[..|actions| - 1]);
      DoExtends(Run(w0, actions[..|actions| - 1]), actions[|actions| - 1]);
    }
  }

  /** In every run, a settled row's purchase stands exactly when no chargeback and no reversal made elsewhere has
      reversed it; the row's status alone does not tell. */
  lemma {:induction false} SettledStandsIff(w0: World, actions: seq<Action>)
    requires Initial(w0) && Run(w0, actions).auth.status == Settled
    ensures var w := Run(w0, actions);
      && w.auth.txn.Some? && Purchase(w.ledger, w.auth, w.auth.txn.value)
      && (!Undone(w.ledger, w.auth.txn.value) <==> forall n: nat :: !ReversedAt(w0, actions, n, w.auth.txn.value))
  {
    var w := Run(w0, actions);
    RunKeepsInv(w0, actions);
    SettledMeansPurchased(w);
    RunExtends(w0, actions);
    NotUndoneBefore(w0, w, w.auth.txn.value);
    ReversedIffAsked(w0, actions, w.auth.txn.value);
  }

  lemma {:induction false} NotUndoneBefore(w0: World, w: World, d: TxnId)
    requires KeysOk(w0.ledger) && ReversalsOk(w0.ledger) && LedgerGuarantees.Extends(w0.ledger, w.ledger)
    requires w0.auth.settleKey !in w0.ledger.keys && d < |w.ledger.txns| && w.ledger.txns[d].key == w0.auth.settleKey
    ensures !Undone(w0.ledger, d)
  {
    assert forall id: TxnId | id < |w0.ledger.txns| :: w0.ledger.txns[id].key in w0.ledger.keys;
  }

  // ---------- what the unguarded UPDATE allows ----------

  lemma {:induction false} BothSettlesReply(w: World)
    requires w.callers == map[] && w.auth.status == Approved && w.auth.settleKey !in w.ledger.keys
    requires SerialLedger.Call(w.ledger, CaptureHold(w.auth.hold, w.auth.settleKey)).1.Succeeded?
    ensures var w' := Do(Do(Do(Do(w, Settle(0)), Settle(1)), Step(0, true)), Step(1, true));
      w'.callers == map[0 := MarkingSettled(|w.ledger.txns|), 1 := MarkingSettled(|w.ledger.txns|)] && w'.auth == w.auth
      && w'.ledger == SerialLedger.Call(w.ledger, CaptureHold(w.auth.hold, w.auth.settleKey)).0
  {
  }

  lemma {:induction false} LateMarkAfterChargeback(w1: World, w2: World, w3: World, w4: World, w5: World, w6: World, d: TxnId, key: Key)
    requires w1.callers == map[0 := MarkingSettled(d), 1 := MarkingSettled(d)]
    requires key != w1.auth.settleKey && SerialLedger.Call(w1.ledger, Reverse(d, key)).1.Succeeded?
    requires w2 == Do(w1, Step(0, true)) && w3 == Do(w2, Chargeback(2, key)) && w4 == Do(w3, Step(2, true))
    requires w5 == Do(w4, Step(2, true)) && w6 == Do(w5, Step(1, true))
    ensures w5.auth.status == ChargedBack && w6.auth.status == Settled && w6.auth.txn == Some(d)
    ensures w6.ledger == SerialLedger.Call(w1.ledger, Reverse(d, key)).0
  {
  }

  /** Two overlapping Settle calls around a Chargeback leave the authorization marked settled although its
      purchase has been reversed. */
  lemma {:induction false} SettledCanBeReversed(w0: World, w1: World, w2: World, w3: World, w4: World, w5: World, w6: World, key: Key)
    requires Initial(w0) && SerialLedger.Call(w0.ledger, CaptureHold(w0.auth.hold, w0.auth.settleKey)).1.Succeeded?
    requires w1 == Do(Do(Do(Do(w0, Settle(0)), Settle(1)), Step(0, true)), Step(1, true))
    requires key != w0.auth.settleKey && SerialLedger.Call(w1.ledger, Reverse(|w0.ledger.txns|, key)).1.Succeeded?
    requires w2 == Do(w1, Step(0, true)) && w3 == Do(w2, Chargeback(2, key)) && w4 == Do(w3, Step(2, true))
    requires w5 == Do(w4, Step(2, true)) && w6 == Do(w5, Step(1, true))
    ensures w5.auth.status == ChargedBack && w6.auth.status == Settled && Undone(w6.ledger, |w0.ledger.txns|)
  {
    BothSettlesReply(w0);
    SerialLedger.CallKeepsOk(w0.ledger, CaptureHold(w0.auth.hold, w0.auth.settleKey));
    LateMarkAfterChargeback(w1, w2, w3, w4, w5, w6, |w0.ledger.txns|, key);
    ReverseReply(w1.ledger, |w0.ledger.txns|, key);
  }

  // ---------- a caller left alone ----------

  /** A settlement nobody disturbs settles an approved authorization exactly when the ledger captures its hold. */
  lemma {:induction false} AloneSettles(w: World, id: CallerId)
    requires id !in w.callers
    ensures var w' := Do(Do(Do(w, Settle(id)), Step(id, true)), Step(id, true));
      var (t, r) := SerialLedger.Call(w.ledger, CaptureHold(w.auth.hold, w.auth.settleKey));
      && id !in w'.callers
      && (w'.ledger, w'.auth) ==
         if w.auth.status == Approved && r.Succeeded? then (t, w.auth.(status := Settled, txn := Some(r.id))) else (w.ledger, w.auth)
  {
  }

  /** A void likewise, when the ledger releases the hold. */
  lemma {:induction false} AloneVoids(w: World, id: CallerId)
    requires id !in w.callers
    ensures var w' := Do(Do(Do(w, Void(id)), Step(id, true)), Step(id, true));
      var (t, r) := SerialLedger.Call(w.ledger, ReleaseHold(w.auth.hold));
      && id !in w'.callers
      && (w'.ledger, w'.auth) ==
         if w.auth.status == Approved && r.Succeeded? then (t, w.auth.(status := Voided)) else (w.ledger, w.auth)
  {
  }

  /** A chargeback of a settled authorization likewise, when the ledger reverses its purchase. */
  lemma {:induction false} AloneChargesBack(w: World, id: CallerId, key: Key)
    requires id !in w.callers && key != w.auth.settleKey
    ensures var w' := Do(Do(Do(w, Chargeback(id, key)), Step(id, true)), Step(id, true));
      && id !in w'.callers
      && (w'.ledger, w'.auth) ==
         if w.auth.status == Settled && w.auth.txn.Some? && SerialLedger.Call(w.ledger, Reverse(w.auth.txn.value, key)).1.Succeeded?
         then (SerialLedger.Call(w.ledger, Reverse(w.auth.txn.value, key)).0, w.auth.(status := ChargedBack))
         else (w.ledger, w.auth)
  {
  }
}
