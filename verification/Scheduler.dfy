/** One scheduled transfer and its runs, driven by a single ticker that may crash between any two statements. */
module Scheduler {
  import opened LedgerTables
  import opened AtomicLedger
  import opened Calendar
  import LedgerService
  import RequestHash
  import SerialLedger

  datatype Status = Active | Paused | Completed | Cancelled
  datatype RunStatus = Processing | RunCompleted | RunFailed
  datatype Run = Run(scheduledFor: Time, status: RunStatus, txn: Option<TxnId>)

  /** What a schedule says: whom to pay, how much (the table only takes positive amounts), and when first; no interval
      means once. */
  datatype Plan = Plan(id: string, from: AccountId, to: AccountId, amount: int, interval: Option<Interval>, first: Time) {
    predicate Valid() { |id| == 36 && amount > 0 && first.Valid() }

    function Due(k: nat): Time
      requires Valid()
    {
      if interval.Some? then Occurrence(first, interval.value, k) else first
    }

    function RunKey(t: Time): Key { "scheduled:" + id + ":" + RequestHash.Decimal(t.Unix()) }

    ghost function Terms(): Terms
      requires Valid()
    {
      TermsOf((k: nat) => Due(k), t => RunKey(t), TransferOp(from, to, amount, "").legs, interval)
    }
  }

  /** A plan seen from its runs: when the k-th is due, the key it pays under, and what it pays. */
  datatype Terms = TermsOf(due: nat -> Time, key: Time -> Key, legs: seq<Leg>, interval: Option<Interval>) {
    function Pay(t: Time): Op { Post(key(t), Transfer, legs) }

    ghost predicate Steps()
      requires interval.Some? && forall k: nat :: due(k).Valid()
    {
      forall j: nat, k: nat | k == j + 1 :: due(k) == Advance(due(j), interval.value)
    }

    ghost predicate Apart() {
      forall j: nat, k: nat | j < k :: key(due(j)) != key(due(k)) && due(j).Unix() + SECONDS_PER_DAY <= due(k).Unix()
    }

    ghost predicate Sound() {
      && (forall k: nat :: due(k).Valid())
      && (interval.Some? ==> Steps() && Apart())
    }
  }

  // ---------- run keys ----------

  lemma {:induction false} RunKeysDiffer(p: Plan, q: Plan, s: Time, t: Time)
    requires p.Valid() && q.Valid() && p.RunKey(s) == q.RunKey(t)
    ensures p.id == q.id && s.Unix() == t.Unix()
  {
    var a, b := p.RunKey(s), q.RunKey(t);
    assert a[10..46] == p.id && b[10..46] == q.id;
    assert a[47..] == RequestHash.Decimal(s.Unix()) && b[47..] == RequestHash.Decimal(t.Unix());
    RequestHash.DecimalInjective(s.Unix(), t.Unix());
  }

  lemma {:induction false} OccurrencesApart(p: Plan, j: nat, k: nat)
    requires p.Valid() && p.interval.Some? && j < k
    ensures p.RunKey(p.Due(j)) != p.RunKey(p.Due(k))
    ensures p.Due(j).Unix() + SECONDS_PER_DAY <= p.Due(k).Unix()
  {
    OccurrencesIncrease(p.first, p.interval.value, j, k);
    if p.RunKey(p.Due(j)) == p.RunKey(p.Due(k)) { RunKeysDiffer(p, p, p.Due(j), p.Due(k)); }
  }

  lemma {:induction false} PlansAreApart(p: Plan)
    requires p.Valid() && p.interval.Some?
    ensures p.Terms().Apart()
  {
    var x := p.Terms();
    forall j: nat, k: nat | j < k
      ensures x.key(x.due(j)) != x.key(x.due(k)) && x.due(j).Unix() + SECONDS_PER_DAY <= x.due(k).Unix()
    {
      OccurrencesApart(p, j, k);
    }
  }

  /** Occurrences come a day or more apart, each with a run key of its own. */
  lemma {:induction false} PlansAreSound(p: Plan)
    requires p.Valid()
    ensures p.Terms().Sound() && p.Terms().due(0) == p.first
  {
    if p.interval.Some? { PlansAreApart(p); }
  }

  // ---------- statements ----------

  /** The schedule's row and its rows in the runs table. */
  datatype View = View(ledger: Tables, next: Time, status: Status, runs: seq<Run>)

  /** INSERT ... ON CONFLICT DO NOTHING: no new run for an occurrence that has one. */
  predicate AlreadyClaimed(runs: seq<Run>, t: Time) { exists k :: 0 <= k < |runs| && runs[k].scheduledFor == t }

  function Claimed(v: View): View { v.(runs := v.runs + [Run(v.next, Processing, None)]) }

  /** Pays and records the outcome, stopped by a crash after `survived` of the two steps.  `allowed` is what the
      payment limits and switches answer before the ledger is asked. */
  function Executed(x: Terms, v: View, run: nat, allowed: bool, survived: nat): View
    requires run < |v.runs| && v.runs[run].scheduledFor.Valid()
  {
    if survived == 0 then v
    else
      var (ledger, paid) :=
        if allowed then SerialLedger.Call(v.ledger, x.Pay(v.runs[run].scheduledFor)) else (v.ledger, Rejected(DatabaseError));
      if survived == 1 then v.(ledger := ledger) else Recorded(x, v.(ledger := ledger), run, paid)
  }

  function Recorded(x: Terms, v: View, run: nat, paid: Outcome): View
    requires run < |v.runs| && v.runs[run].scheduledFor.Valid()
  {
    var r := v.runs[run];
    var outcome := if paid.Succeeded? then r.(status := RunCompleted, txn := Some(paid.id)) else r.(status := RunFailed);
    var v1 := v.(runs := v.runs[run := outcome]);
    match x.interval
    case None => v1.(status := Status.Completed)
    case Some(i) => v1.(next := Advance(r.scheduledFor, i))
  }

  // ---------- what holds between statements ----------

  function Unfinished(runs: seq<Run>): nat {
    if runs != [] && runs[|runs| - 1].status == Processing then 1 else 0
  }

  predicate RunOk(x: Terms, v: View, k: nat)
    requires k < |v.runs|
  {
    var run, key, keys := v.runs[k], x.key(x.due(k)), v.ledger.keys;
    && run.scheduledFor == x.due(k)
    && (run.status == Processing ==> k == |v.runs| - 1)
    && (key in keys ==> keys[key].hash == LegsHash(Transfer, x.legs))
    && (run.status == RunCompleted ==> key in keys && keys[key].response == run.txn)
  }

  predicate Unpaid(x: Terms, v: View, k: nat) { x.key(x.due(k)) !in v.ledger.keys }

  /** The runs are the first occurrences in order, only the latest may be unfinished, the schedule points at the
      first unfinished one, and nothing was paid for an occurrence that has no run. */
  ghost predicate ScheduleOk(x: Terms, v: View) {
    && (forall k: nat | k < |v.runs| :: RunOk(x, v, k))
    && (x.interval.Some? ==>
          && v.next == x.due(|v.runs| - Unfinished(v.runs))
          && forall k: nat | k >= |v.runs| :: Unpaid(x, v, k))
    && (x.interval.None? ==> |v.runs| <= 1 && v.next == x.due(0) && (v.runs == [] ==> Unpaid(x, v, 0)))
  }

  /** Finished runs are final and no run disappears. */
  ghost predicate Follows(v: View, v': View) {
    && |v.runs| <= |v'.runs|
    && (forall k | 0 <= k < |v.runs| ::
          v'.runs[k].scheduledFor == v.runs[k].scheduledFor && (v.runs[k].status != Processing ==> v'.runs[k] == v.runs[k]))
  }

  /** A claim is made only when no run is open, and takes the next occurrence. */
  lemma {:induction false} ClaimKeepsOk(x: Terms, v: View)
    requires ScheduleOk(x, v) && !AlreadyClaimed(v.runs, v.next)
    ensures ScheduleOk(x, Claimed(v)) && Unfinished(v.runs) == 0 && v.next == x.due(|v.runs|)
  {
    var n, v' := |v.runs|, Claimed(v);
    if n > 0 { assert RunOk(x, v, n - 1); }
    assert Unpaid(x, v, n);
    forall k: nat | k < |v'.runs| ensures RunOk(x, v', k) {
      if k < n { assert RunOk(x, v, k); }
    }
    if x.interval.Some? {
      forall k: nat | k >= |v'.runs| ensures Unpaid(x, v', k) { assert Unpaid(x, v, k); }
    }
  }

  lemma {:induction false} PaymentKeepsOk(x: Terms, v: View, run: nat)
    requires x.Sound() && ScheduleOk(x, v) && run < |v.runs|
    ensures ScheduleOk(x, v.(ledger := SerialLedger.Call(v.ledger, x.Pay(x.due(run))).0))
  {
    var v' := v.(ledger := SerialLedger.Call(v.ledger, x.Pay(x.due(run))).0);
    forall k: nat | k < |v'.runs| ensures RunOk(x, v', k) { assert RunOk(x, v, k); }
    if x.interval.Some? {
      forall k: nat | k >= |v'.runs| ensures Unpaid(x, v', k) { assert Unpaid(x, v, k); }
    }
  }

  lemma {:induction false} RecordKeepsOk(x: Terms, v: View, run: nat, paid: Outcome)
    requires x.Sound() && ScheduleOk(x, v) && run < |v.runs| && v.runs[run].status == Processing && RunOk(x, v, run)
    requires paid.Succeeded? ==>
      x.key(x.due(run)) in v.ledger.keys && v.ledger.keys[x.key(x.due(run))].response == Some(paid.id)
    ensures ScheduleOk(x, Recorded(x, v, run, paid)) && Follows(v, Recorded(x, v, run, paid))
  {
    var v' := Recorded(x, v, run, paid);
    forall k: nat | k < |v'.runs| ensures RunOk(x, v', k) { assert RunOk(x, v, k); }
    if x.interval.Some? {
      forall k: nat | k >= |v'.runs| ensures Unpaid(x, v', k) { assert Unpaid(x, v, k); }
    }
  }

  /** An open run may be executed any number of times, and die anywhere, without breaking the schedule. */
  lemma {:induction false} ExecuteKeepsOk(x: Terms, v: View, run: nat, allowed: bool, survived: nat)
    requires x.Sound() && KeysOk(v.ledger) && ScheduleOk(x, v)
    requires run < |v.runs| && v.runs[run].status == Processing && RunOk(x, v, run)
    ensures ScheduleOk(x, Executed(x, v, run, allowed, survived)) && Follows(v, Executed(x, v, run, allowed, survived))
  {
    if survived > 0 && allowed {
      var (t, paid) := SerialLedger.Call(v.ledger, x.Pay(x.due(run)));
      PaymentKeepsOk(x, v, run);
      if paid.Succeeded? { SerialLedger.ReplyIsStored(v.ledger, x.Pay(x.due(run))); }
      RecordKeepsOk(x, v.(ledger := t), run, paid);
    } else if survived > 1 {
      RecordKeepsOk(x, v, run, Rejected(DatabaseError));
    }
  }

  // ---------- what follows ----------

  /** Transaction i was posted for the k-th occurrence. */
  predicate PaidBy(x: Terms, v: View, k: nat, i: TxnId) {
    i < |v.ledger.txns| && v.ledger.txns[i].key == x.key(x.due(k))
  }

  /** Claimed occurrences are an initial segment of the schedule, in strictly increasing time, all but the latest
      finished. */
  ghost predicate ClaimedInOrder(p: Plan, v: View)
    requires p.Valid() && p.interval.Some?
  {
    && (forall k | 0 <= k < |v.runs| :: v.runs[k].scheduledFor == Occurrence(p.first, p.interval.value, k))
    && (forall j, k | 0 <= j < k < |v.runs| ::
          v.runs[j].status != Processing && v.runs[j].scheduledFor.Unix() + SECONDS_PER_DAY <= v.runs[k].scheduledFor.Unix())
  }

  /** Only claimed occurrences are paid, each by at most one transfer of the planned amount to the planned payee, and a
      completed run names it. */
  ghost predicate PaidInFullOnce(x: Terms, v: View) {
    && (forall k: nat, i: TxnId | PaidBy(x, v, k, i) ::
          k < |v.runs| && PostedUnder(v.ledger, x.key(x.due(k)), Transfer, x.legs, i))
    && (forall k: nat, i: TxnId, j: TxnId | PaidBy(x, v, k, i) && PaidBy(x, v, k, j) :: i == j)
    && (forall k: nat | k < |v.runs| && v.runs[k].status == RunCompleted ::
          v.runs[k].txn.Some? && PaidBy(x, v, k, v.runs[k].txn.value))
  }

  lemma {:induction false} SegmentInOrder(p: Plan, v: View)
    requires p.Valid() && p.interval.Some? && ScheduleOk(p.Terms(), v)
    ensures ClaimedInOrder(p, v)
  {
    forall k: nat | k < |v.runs| ensures v.runs[k].scheduledFor == p.Due(k) && (v.runs[k].status == Processing ==> k == |v.runs| - 1) {
      assert RunOk(p.Terms(), v, k);
    }
    forall j: nat, k: nat | j < k < |v.runs|
      ensures v.runs[j].scheduledFor.Unix() + SECONDS_PER_DAY <= v.runs[k].scheduledFor.Unix()
    {
      OccurrencesIncrease(p.first, p.interval.value, j, k);
    }
  }

  lemma {:induction false} OnePayment(x: Terms, v: View, k: nat, i: TxnId)
    requires KeysOk(v.ledger) && PostingsOk(v.ledger) && ScheduleOk(x, v) && x.interval.Some? && PaidBy(x, v, k, i)
    ensures k < |v.runs| && PostedUnder(v.ledger, x.key(x.due(k)), Transfer, x.legs, i)
    ensures v.ledger.keys[x.key(x.due(k))].response == Some(i)
  {
    assert k >= |v.runs| ==> Unpaid(x, v, k);
    assert RunOk(x, v, k);
    StoredPosting(v.ledger, x.key(x.due(k)), Transfer, x.legs);
  }

  lemma {:induction false} PaymentsAreSingle(x: Terms, v: View)
    requires KeysOk(v.ledger) && PostingsOk(v.ledger) && ScheduleOk(x, v) && x.interval.Some?
    ensures PaidInFullOnce(x, v)
  {
    forall k: nat, i: TxnId | PaidBy(x, v, k, i)
      ensures k < |v.runs| && PostedUnder(v.ledger, x.key(x.due(k)), Transfer, x.legs, i)
      ensures x.key(x.due(k)) in v.ledger.keys && v.ledger.keys[x.key(x.due(k))].response == Some(i)
    {
      OnePayment(x, v, k, i);
    }
    forall k: nat | k < |v.runs| && v.runs[k].status == RunCompleted
      ensures v.runs[k].txn.Some? && PaidBy(x, v, k, v.runs[k].txn.value)
    {
      assert RunOk(x, v, k);
    }
  }

  // ---------- whole runs ----------

  /** What the ticker, the owner and other callers do.  An attempt survives so many of its statements. */
  datatype Action =
    | Fire(now: int, allowed: bool, survived: nat)
    | Retry(run: nat, allowed: bool, survived: nat)
    | SetStatus(status: Status)
    | OtherCall(op: Op)

  /** Other callers do not use the schedule's run keys. */
  ghost predicate Foreign(x: Terms, op: Op) { op.Keyed() ==> forall k: nat :: op.key != x.key(x.due(k)) }

  ghost predicate Inv(x: Terms, v: View) { TablesOk(v.ledger) && ScheduleOk(x, v) && x.Sound() }

  ghost function Do(x: Terms, v: View, action: Action): View
    requires Inv(x, v)
  {
    match action
    case Fire(now, allowed, survived) =>
      if v.status != Status.Active || v.next.Unix() > now || survived == 0 || AlreadyClaimed(v.runs, v.next) then v
      else
        ClaimKeepsOk(x, v);
        Executed(x, Claimed(v), |v.runs|, allowed, survived - 1)
    case Retry(run, allowed, survived) =>
      if run >= |v.runs| || v.runs[run].status != Processing then v
      else
        assert RunOk(x, v, run);
        Executed(x, v, run, allowed, survived)
    case SetStatus(status) => v.(status := status)
    case OtherCall(op) => if Foreign(x, op) then v.(ledger := SerialLedger.Call(v.ledger, op).0) else v
  }

  lemma {:induction false} ExecuteKeepsTables(x: Terms, v: View, run: nat, allowed: bool, survived: nat)
    requires TablesOk(v.ledger) && run < |v.runs| && v.runs[run].scheduledFor.Valid()
    ensures TablesOk(Executed(x, v, run, allowed, survived).ledger)
  {
    SerialLedger.CallKeepsOk(v.ledger, x.Pay(v.runs[run].scheduledFor));
  }

  lemma {:induction false} CallKeepsInv(x: Terms, v: View, op: Op)
    requires Inv(x, v) && Foreign(x, op)
    ensures Inv(x, v.(ledger := SerialLedger.Call(v.ledger, op).0))
  {
    OtherKeysKeepOk(x, v, SerialLedger.Call(v.ledger, op).0);
    SerialLedger.CallKeepsOk(v.ledger, op);
  }

  lemma {:induction false} RetryKeepsInv(x: Terms, v: View, run: nat, allowed: bool, survived: nat)
    requires Inv(x, v) && run < |v.runs| && v.runs[run].status == Processing && RunOk(x, v, run)
    ensures var v' := Executed(x, v, run, allowed, survived); Inv(x, v') && Follows(v, v')
  {
    ExecuteKeepsOk(x, v, run, allowed, survived);
    ExecuteKeepsTables(x, v, run, allowed, survived);
  }

  lemma {:induction false} StatusKeepsOk(x: Terms, v: View, status: Status)
    requires ScheduleOk(x, v)
    ensures ScheduleOk(x, v.(status := status))
  {
    assert forall k: nat | k < |v.runs| :: RunOk(x, v, k) ==> RunOk(x, v.(status := status), k);
    assert forall k: nat :: Unpaid(x, v, k) ==> Unpaid(x, v.(status := status), k);
  }

  lemma {:induction false} DoKeepsInv(x: Terms, v: View, action: Action)
    requires Inv(x, v)
    ensures Inv(x, Do(x, v, action)) && Follows(v, Do(x, v, action))
  {
    if Do(x, v, action) != v {
      match action
      case Fire(now, allowed, survived) => FireKeepsInv(x, v, allowed, survived - 1);
      case Retry(run, allowed, survived) => RetryKeepsInv(x, v, run, allowed, survived);
      case SetStatus(status) => StatusKeepsOk(x, v, status);
      case OtherCall(op) => CallKeepsInv(x, v, op);
    }
  }

  lemma {:induction false} FireKeepsInv(x: Terms, v: View, allowed: bool, survived: nat)
    requires Inv(x, v) && !AlreadyClaimed(v.runs, v.next) && v.next.Valid()
    ensures var v' := Executed(x, Claimed(v), |v.runs|, allowed, survived); Inv(x, v') && Follows(v, v')
  {
    ClaimKeepsOk(x, v);
    assert RunOk(x, Claimed(v), |v.runs|);
    RetryKeepsInv(x, Claimed(v), |v.runs|, allowed, survived);
  }

  ghost function History(x: Terms, v: View, actions: seq<Action>): (v': View)
    requires Inv(x, v)
    ensures Inv(x, v')
  {
    if actions == [] then v
    else
      var v1 := History(x, v, actions[..|actions| - 1]);
      DoKeepsInv(x, v1, actions[|actions| - 1]);
      Do(x, v1, actions[|actions| - 1])
  }

  function Created(p: Plan, ledger: Tables): View { View(ledger, p.first, Status.Active, []) }

  /** A new schedule's id is new, so nothing was ever paid under its run keys. */
  ghost predicate NewPlan(p: Plan, ledger: Tables) {
    p.Valid() && TablesOk(ledger) && forall k: nat :: p.RunKey(p.Due(k)) !in ledger.keys
  }

  lemma {:induction false} CreatedIsOk(p: Plan, ledger: Tables)
    requires NewPlan(p, ledger)
    ensures p.Terms().Sound() && Inv(p.Terms(), Created(p, ledger))
  {
    PlansAreSound(p);
    var x, v := p.Terms(), Created(p, ledger);
    forall k: nat ensures Unpaid(x, v, k) { assert p.RunKey(p.Due(k)) !in ledger.keys; }
  }

  /** In every run of claims, crashes, retries, pauses and foreign ledger calls, a recurring schedule's claimed
      occurrences come in order with none skipped, and each is paid at most once and in full. */
  lemma {:induction false} OccurrencesInOrder(p: Plan, ledger: Tables, actions: seq<Action>)
    requires NewPlan(p, ledger) && p.interval.Some?
    ensures p.Terms().Sound() && Inv(p.Terms(), Created(p, ledger))
    ensures ClaimedInOrder(p, History(p.Terms(), Created(p, ledger), actions))
    ensures PaidInFullOnce(p.Terms(), History(p.Terms(), Created(p, ledger), actions))
  {
    CreatedIsOk(p, ledger);
    var v := History(p.Terms(), Created(p, ledger), actions);
    SegmentInOrder(p, v);
    PaymentsAreSingle(p.Terms(), v);
  }

  /** A run is recorded as completed exactly when the checks let the attempt through and the ledger pays or has
      already paid.  A run recorded as failed moved money exactly when an earlier attempt, cut short after its
      payment, had already moved it. */
  lemma {:induction false} FailedRunPaidIff(x: Terms, v: View, run: nat, allowed: bool)
    requires x.Sound() && KeysOk(v.ledger) && run < |v.runs| && RunOk(x, v, run)
    ensures var v', key := Executed(x, v, run, allowed, 2), x.key(x.due(run));
      && (v'.runs[run].status == RunCompleted <==>
            allowed && (key in v.ledger.keys || SerialLedger.CallError(v.ledger, x.Pay(x.due(run))).None?))
      && (v'.runs[run].status == RunFailed ==> (key in v'.ledger.keys <==> key in v.ledger.keys))
  {
  }

  /** Such a run exists: an attempt that dies right after paying, retried when the limits refuse. */
  lemma {:induction false} FailedRunMayHavePaid(x: Terms, v: View, run: nat)
    requires x.Sound() && KeysOk(v.ledger) && run < |v.runs| && RunOk(x, v, run)
    requires SerialLedger.Call(v.ledger, x.Pay(x.due(run))).1.Succeeded?
    ensures var v' := Executed(x, Executed(x, v, run, true, 1), run, false, 2);
      v'.runs[run].status == RunFailed && x.key(x.due(run)) in v'.ledger.keys
  {
  }

  // ---------- what an attempt does, told from the plan ----------

  /** The attempt moves money: it may, it got as far, the run key is unused, and the sender can bear the amount. */
  predicate PaysNow(p: Plan, t: Tables, key: Key, allowed: bool, survived: nat) {
    && allowed && survived >= 1 && key !in t.keys
    && p.from in t.accounts && p.to in t.accounts && Available(t, p.from) - p.amount >= Floor(t, p.from)
  }

  /** An attempt pays or not, and, when not cut short, moves a recurring schedule to its next occurrence and ends any
      other. */
  ghost predicate Attempted(p: Plan, v: View, v': View, run: nat, allowed: bool, survived: nat)
    requires p.Valid() && run < |v.runs| && v.runs[run].scheduledFor.Valid()
  {
    && PaidOrNot(p, v, v', run, allowed, survived)
    && (v'.status, v'.next) ==
       (if survived < 2 then (v.status, v.next)
        else if p.interval.None? then (Status.Completed, v.next)
        else (v.status, Advance(v.runs[run].scheduledFor, p.interval.value)))
  }

  /** Either one transfer of the planned amount to the planned payee is posted, or the ledger is left alone; when not cut
      short the run is recorded as completed exactly if its transfer is posted now or was before. */
  ghost predicate PaidOrNot(p: Plan, v: View, v': View, run: nat, allowed: bool, survived: nat)
    requires p.Valid() && run < |v.runs| && v.runs[run].scheduledFor.Valid()
  {
    var key, t, t' := p.RunKey(v.runs[run].scheduledFor), v.ledger, v'.ledger;
    && |v'.runs| == |v.runs|
    && (if PaysNow(p, t, key, allowed, survived) then
          && t'.txns == t.txns + [Txn(key, Transfer, Posted)]
          && LegsOf(t'.entries, |t.txns|) == [Leg(p.from, -p.amount), Leg(p.to, p.amount)]
          && (survived >= 2 ==> v'.runs[run] == Run(v.runs[run].scheduledFor, RunCompleted, Some(|t.txns|)))
        else
          && t' == t
          && (survived >= 2 ==>
                if allowed && key in t.keys
                then v'.runs[run] == Run(v.runs[run].scheduledFor, RunCompleted, t.keys[key].response)
                else v'.runs[run].status == RunFailed))
    && (if survived < 2 then v'.runs == v.runs && v'.next == v.next && v'.status == v.status
        else match p.interval
          case None => v'.status == Status.Completed && v'.next == v.next
          case Some(i) => v'.status == v.status && v'.next == Advance(v.runs[run].scheduledFor, i))
  }

  /** The next occurrence was claimed and its run attempted. */
  ghost predicate Fired(p: Plan, v: View, v': View, allowed: bool, survived: nat)
    requires p.Valid()
  {
    && survived >= 1 && v.next.Valid() && |v'.runs| == |v.runs| + 1 && v'.runs[|v.runs|].scheduledFor == v.next
    && Attempted(p, v.(runs := v.runs + [Run(v.next, Processing, None)]), v', |v.runs|, allowed, survived - 1)
  }

  /** The latest run was attempted again if it was still open and has timed out; otherwise nothing happened. */
  ghost predicate LatestTried(p: Plan, v: View, v': View, timedOut: bool, allowed: bool, survived: nat)
    requires p.Valid()
  {
    var last := |v.runs| - 1;
    if timedOut && last >= 0 && v.runs[last].status == Processing
    then v.runs[last].scheduledFor.Valid() && Attempted(p, v, v', last, allowed, survived)
    else v' == v
  }

  lemma {:induction false} FreshRunPays(p: Plan, v: View, run: nat, allowed: bool, survived: nat)
    requires p.Valid() && EntriesOk(v.ledger) && KeysOk(v.ledger)
    requires run < |v.runs| && v.runs[run].scheduledFor.Valid() && p.RunKey(v.runs[run].scheduledFor) !in v.ledger.keys
    ensures PaidOrNot(p, v, Executed(p.Terms(), v, run, allowed, survived), run, allowed, survived)
  {
    var key := p.RunKey(v.runs[run].scheduledFor);
    assert p.Terms().Pay(v.runs[run].scheduledFor) == TransferOp(p.from, p.to, p.amount, key);
    SerialLedger.FreshTransfer(v.ledger, p.from, p.to, p.amount, key);
  }

  lemma {:induction false} KnownRunRepeats(p: Plan, v: View, run: nat, allowed: bool, survived: nat)
    requires p.Valid() && KeysOk(v.ledger) && run < |v.runs| && RunOk(p.Terms(), v, run) && v.runs[run].scheduledFor.Valid()
    requires p.RunKey(v.runs[run].scheduledFor) in v.ledger.keys
    ensures PaidOrNot(p, v, Executed(p.Terms(), v, run, allowed, survived), run, allowed, survived)
  {
    assert p.Terms().Pay(v.runs[run].scheduledFor) == TransferOp(p.from, p.to, p.amount, p.RunKey(v.runs[run].scheduledFor));
  }

  lemma {:induction false} ExecutedIsAttempted(p: Plan, v: View, run: nat, allowed: bool, survived: nat)
    requires p.Valid() && EntriesOk(v.ledger) && KeysOk(v.ledger)
    requires run < |v.runs| && RunOk(p.Terms(), v, run) && v.runs[run].scheduledFor.Valid()
    ensures Attempted(p, v, Executed(p.Terms(), v, run, allowed, survived), run, allowed, survived)
  {
    if p.RunKey(v.runs[run].scheduledFor) in v.ledger.keys {
      KnownRunRepeats(p, v, run, allowed, survived);
    } else {
      FreshRunPays(p, v, run, allowed, survived);
    }
  }

  /** In a run, too, a due and active schedule fires its next occurrence unless it was claimed. */
  lemma {:induction false} RunsFire(p: Plan, v: View, now: int, allowed: bool, survived: nat)
    requires p.Valid() && Inv(p.Terms(), v)
    ensures var v' := Do(p.Terms(), v, Fire(now, allowed, survived));
      if v.status == Status.Active && v.next.Unix() <= now && survived >= 1 && forall k | 0 <= k < |v.runs| :: v.runs[k].scheduledFor != v.next
      then Fired(p, v, v', allowed, survived) else v' == v
  {
    if survived >= 1 && !AlreadyClaimed(v.runs, v.next) {
      ClaimKeepsOk(p.Terms(), v);
      assert RunOk(p.Terms(), Claimed(v), |v.runs|);
      ExecutedIsAttempted(p, Claimed(v), |v.runs|, allowed, survived - 1);
    }
  }

  /** And an open run is attempted again. */
  lemma {:induction false} RunsRetry(p: Plan, v: View, run: nat, allowed: bool, survived: nat)
    requires p.Valid() && Inv(p.Terms(), v)
    ensures var v' := Do(p.Terms(), v, Retry(run, allowed, survived));
      if run < |v.runs| && v.runs[run].status == Processing
      then v.runs[run].scheduledFor.Valid() && Attempted(p, v, v', run, allowed, survived) else v' == v
  {
    if run < |v.runs| {
      assert RunOk(p.Terms(), v, run);
      ExecutedIsAttempted(p, v, run, allowed, survived);
    }
  }

  lemma {:induction false} OpenIsLatest(x: Terms, v: View, run: nat)
    requires ScheduleOk(x, v) && run < |v.runs|
    ensures RunOk(x, v, run) && (v.runs[run].status == Processing ==> run == |v.runs| - 1)
  {
    assert RunOk(x, v, run);
  }

  // ---------- the ticker ----------

  class Schedule {
    const ledger: LedgerService.Service
    const plan: Plan
    var nextRunAt: Time
    var status: Status
    var runs: seq<Run>

    ghost function Look(): View
      reads this, ledger
    {
      View(ledger.Now(), nextRunAt, status, runs)
    }

    ghost predicate Valid()
      reads this, ledger
    {
      ledger.Valid() && plan.Valid() && ScheduleOk(plan.Terms(), Look())
    }

    /** Creates the schedule; its id is new, so nothing was ever paid under its run keys. */
    constructor (ledger: LedgerService.Service, plan: Plan)
      requires ledger.Valid() && plan.Valid() && forall k: nat :: plan.RunKey(plan.Due(k)) !in ledger.keys
      ensures Valid() && this.ledger == ledger && this.plan == plan
      ensures runs == [] && status == Status.Active && nextRunAt == plan.first
    {
      this.ledger, this.plan, nextRunAt, status, runs := ledger, plan, plan.first, Status.Active, [];
      new;
      PlansAreSound(plan);
    }

    method ExecuteAndFinalize(run: nat, allowed: bool, survived: nat)
      requires Valid() && run < |runs| && runs[run].status == Processing && RunOk(plan.Terms(), Look(), run)
      modifies this, ledger
      ensures Valid() && Follows(old(Look()), Look())
      ensures |runs| == |old(runs)| && forall k | 0 <= k < |runs| && k != run :: runs[k] == old(runs)[k]
      ensures survived >= 2 ==> runs[run].status != Processing
      ensures old(runs)[run].scheduledFor.Valid() && Attempted(plan, old(Look()), Look(), run, allowed, survived)
    {
      PlansAreSound(plan);
      ExecutedIsAttempted(plan, Look(), run, allowed, survived);
      ExecuteKeepsOk(plan.Terms(), Look(), run, allowed, survived);
      Execute(run, allowed, survived);
    }

    method Execute(run: nat, allowed: bool, survived: nat)
      requires ledger.Valid() && plan.Valid() && run < |runs| && runs[run].scheduledFor.Valid()
      modifies this, ledger
      ensures ledger.Valid() && Look() == Executed(plan.Terms(), old(Look()), run, allowed, survived)
    {
      var t := runs[run].scheduledFor;
      if survived == 0 {
        return;
      }
      var paid := Rejected(DatabaseError);
      if allowed {
        paid := ledger.Transfer(plan.from, plan.to, plan.amount, plan.RunKey(t));
      }
      if survived == 1 {
        return;
      }
      if paid.Succeeded? {
        runs := runs[run := runs[run].(status := RunCompleted, txn := Some(paid.id))];
      } else {
        runs := runs[run := runs[run].(status := RunFailed)];
      }
      match plan.interval
      case None => status := Status.Completed;
      case Some(interval) => nextRunAt := Advance(t, interval);
    }

    /** Claims the next occurrence and executes it, unless it was claimed before. */
    method FireOnce(allowed: bool, survived: nat)
      requires Valid()
      modifies this, ledger
      ensures Valid() && Follows(old(Look()), Look())
      ensures |runs| == |old(runs)| + (if survived > 0 && !AlreadyClaimed(old(runs), old(nextRunAt)) then 1 else 0)
      ensures |runs| == |old(runs)| ==> Look() == old(Look())
      ensures |runs| > |old(runs)| ==> Fired(plan, old(Look()), Look(), allowed, survived)
    {
      if survived == 0 || AlreadyClaimed(runs, nextRunAt) {
        return;
      }
      ghost var v := Look();
      ClaimKeepsOk(plan.Terms(), v);
      runs := runs + [Run(nextRunAt, Processing, None)];
      assert Look() == Claimed(v);
      assert RunOk(plan.Terms(), Look(), |runs| - 1);
      ExecuteAndFinalize(|runs| - 1, allowed, survived - 1);
    }

    /** Fires the schedule when it is active and due. */
    method RunDue(now: int, allowed: bool, survived: nat)
      requires Valid()
      modifies this, ledger
      ensures Valid() && Follows(old(Look()), Look()) && |old(runs)| <= |runs| <= |old(runs)| + 1
      ensures |runs| > |old(runs)| ==> old(status) == Status.Active && runs[|old(runs)|].scheduledFor.Unix() <= now
      ensures
        (&& old(status) == Status.Active && old(nextRunAt).Unix() <= now && survived > 0
         && forall k | 0 <= k < |old(runs)| :: old(runs)[k].scheduledFor != old(nextRunAt)) ==> |runs| == |old(runs)| + 1
      ensures |runs| == |old(runs)| ==> Look() == old(Look())
      ensures |runs| > |old(runs)| ==> Fired(plan, old(Look()), Look(), allowed, survived)
    {
      if status == Status.Active && nextRunAt.Unix() <= now {
        FireOnce(allowed, survived);
      }
    }

    /** Retries the run that has been processing for too long: the latest one, if it is still open. */
    method ResolveStuck(timedOut: bool, allowed: bool, survived: nat)
      requires Valid()
      modifies this, ledger
      ensures Valid() && Follows(old(Look()), Look()) && |runs| == |old(runs)|
      ensures timedOut && survived >= 2 ==> forall k | 0 <= k < |runs| :: runs[k].status != Processing
      ensures LatestTried(plan, old(Look()), Look(), timedOut, allowed, survived)
    {
      for i := 0 to |runs|
        invariant Valid() && Follows(old(Look()), Look()) && |runs| == |old(runs)|
        invariant i < |runs| ==> Look() == old(Look())
        invariant i == |runs| ==> LatestTried(plan, old(Look()), Look(), timedOut, allowed, survived)
        invariant timedOut && survived >= 2 ==> forall k | 0 <= k < i :: runs[k].status != Processing
      {
        RetryNext(i, timedOut, allowed, survived);
      }
    }

    method RetryNext(run: nat, timedOut: bool, allowed: bool, survived: nat)
      requires Valid() && run < |runs|
      modifies this, ledger
      ensures Valid() && Follows(old(Look()), Look()) && |runs| == |old(runs)|
      ensures forall k | 0 <= k < |runs| && k != run :: runs[k] == old(runs)[k]
      ensures timedOut && survived >= 2 ==> runs[run].status != Processing
      ensures if run == |runs| - 1 then LatestTried(plan, old(Look()), Look(), timedOut, allowed, survived) else Look() == old(Look())
    {
      RetryOne(run, timedOut, allowed, survived);
      assert forall k | 0 <= k < run :: runs[k] == runs[..run][k];
    }

    method RetryOne(run: nat, timedOut: bool, allowed: bool, survived: nat)
      requires Valid() && run < |runs|
      modifies this, ledger
      ensures Valid() && Follows(old(Look()), Look()) && |runs| == |old(runs)|
      ensures timedOut && survived >= 2 ==> runs[run].status != Processing
      ensures
        if timedOut && old(runs)[run].status == Processing then
          && run == |runs| - 1 && runs[..run] == old(runs)[..run]
          && old(runs)[run].scheduledFor.Valid() && Attempted(plan, old(Look()), Look(), run, allowed, survived)
        else Look() == old(Look())
    {
      OpenIsLatest(plan.Terms(), Look(), run);
      if runs[run].status == Processing && timedOut {
        ExecuteAndFinalize(run, allowed, survived);
      }
    }

    /** Ledger calls made elsewhere, under other keys, keep the schedule valid. */
    twostate lemma {:induction false} OthersKeepValid()
      requires old(Valid()) && ledger.Valid() && unchanged(this)
      requires SameKeys(plan.Terms(), old(ledger.Now()), ledger.Now())
      ensures Valid()
    {
      OtherKeysKeepOk(plan.Terms(), old(Look()), ledger.Now());
    }
  }

  ghost predicate SameKeys(x: Terms, t: Tables, t': Tables) {
    forall k: nat :: SameKey(x.key(x.due(k)), t, t')
  }

  predicate SameKey(key: Key, t: Tables, t': Tables) {
    (key in t'.keys <==> key in t.keys) && (key in t.keys ==> t'.keys[key] == t.keys[key])
  }

  lemma {:induction false} OtherKeysKeepOk(x: Terms, v: View, t: Tables)
    requires ScheduleOk(x, v) && SameKeys(x, v.ledger, t)
    ensures ScheduleOk(x, v.(ledger := t))
  {
    var v' := v.(ledger := t);
    forall k: nat | k < |v'.runs| ensures RunOk(x, v', k) {
      assert RunOk(x, v, k) && SameKey(x.key(x.due(k)), v.ledger, t);
    }
    if x.interval.Some? {
      forall k: nat | k >= |v'.runs| ensures Unpaid(x, v', k) {
        assert Unpaid(x, v, k) && SameKey(x.key(x.due(k)), v.ledger, t);
      }
    } else {
      assert SameKey(x.key(x.due(0)), v.ledger, t);
    }
  }
}
