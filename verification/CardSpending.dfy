/** Card requests answered by any number of overlapping Authorize calls, one statement at a time: the day's sum is read
    in one statement and the authorization inserted in a later one. */
module CardSpending {
  import opened LedgerTables
  import opened CardAuthorizations
  import AtomicLedger
  import SerialLedger

  type CallerId = nat
  type Cards = map<CardId, Card>

  /** The next statement of an Authorize call, with the day's sum it read. */
  datatype Pc =
    | Lookup
    | Judge
    | Reserve(sum: int)
    | Insert(status: AuthStatus, hold: Option<HoldId>, sum: int)

  datatype Caller = Caller(req: Request, pc: Pc)

  datatype World = World(view: View, now: nat, callers: map<CallerId, Caller>)

  datatype Action =
    | Start(id: CallerId, req: Request)
    | Step(id: CallerId, ok: bool)
    | Crash(id: CallerId)
    | Wait(to: nat)
    | Complete(auth: AuthId, codeMatches: bool)
    | Settle(auth: AuthId)
    | Void(auth: AuthId)
    | ChargeBack(auth: AuthId, key: Key)
    | OtherCall(op: AtomicLedger.Op)

  function Stop(w: World, id: CallerId): World { w.(callers := w.callers - {id}) }

  function Goto(w: World, id: CallerId, pc: Pc): World
    requires id in w.callers
  {
    w.(callers := w.callers[id := w.callers[id].(pc := pc)])
  }

  function DaySum(w: World, card: CardId): int { Spent(w.view.auths, card, w.now / DAY) }

  function StepCaller(cards: Cards, w: World, id: CallerId, ok: bool): World
    requires id in w.callers && w.callers[id].req.card in cards
  {
    var req := w.callers[id].req;
    match w.callers[id].pc
    case Lookup => if !ok || KeyKnown(w.view.auths, req.key) then Stop(w, id) else Goto(w, id, Judge)
    case Judge =>
      (var sum := DaySum(w, req.card);
       if !ok then Goto(w, id, Insert(Declined, None, sum))   // an unreadable sum declines
       else match Judged(cards, w.view.auths, req, w.now)
         case Decline => Goto(w, id, Insert(Declined, None, sum))
         case Challenge => Goto(w, id, Insert(Requires3DS, None, sum))
         case Approve => Goto(w, id, Reserve(sum)))
    case Reserve(sum) =>
      if !ok then Stop(w, id)
      else
        var (t, r) := HoldFor(w.view.ledger, cards[req.card], req.amount);
        if r.Succeeded? then Goto(w, id, Insert(Approved, Some(r.id), sum)).(view := w.view.(ledger := t))
        else if r.error == InsufficientBalance then Goto(w, id, Insert(Declined, None, sum))
        else Stop(w, id)
    case Insert(status, hold, _) =>
      if !ok || KeyKnown(w.view.auths, req.key) then Stop(w, id)   // unique violation: a hold stays behind
      else Stop(w, id).(view := w.view.(auths := w.view.auths + [NewAuth(req, status, hold, w.now)]))
  }

  function Do(cards: Cards, w: World, action: Action): World {
    match action
    case Start(id, req) => if id in w.callers || req.card !in cards then w else w.(callers := w.callers[id := Caller(req, Lookup)])
    case Step(id, ok) => if id in w.callers && w.callers[id].req.card in cards then StepCaller(cards, w, id, ok) else w
    case Crash(id) => Stop(w, id)
    case Wait(to) => if to >= w.now then w.(now := to) else w
    case Complete(i, codeMatches) =>
      if i < |w.view.auths| && w.view.auths[i].card in cards
      then w.(view := Completed3DS(cards, w.view, i, codeMatches, w.now)) else w
    case Settle(i) => if i < |w.view.auths| then w.(view := SettledAuth(w.view, i)) else w
    case Void(i) => if i < |w.view.auths| then w.(view := VoidedAuth(w.view, i)) else w
    case ChargeBack(i, key) => if i < |w.view.auths| then w.(view := ChargedBackAuth(w.view, i, key)) else w
    case OtherCall(op) => w.(view := w.view.(ledger := SerialLedger.Call(w.view.ledger, op).0))
  }

  function Run(cards: Cards, w: World, actions: seq<Action>): World {
    if actions == [] then w else Do(cards, Run(cards, w, actions[..|actions| - 1]), actions[|actions| - 1])
  }

  // ---------- what a caller knows ----------

  predicate CallerOk(cards: Cards, caller: Caller) {
    && caller.req.card in cards
    && match caller.pc
       case Lookup => true
       case Judge => true
       case Reserve(sum) =>
         caller.req.amount < THREE_DS_THRESHOLD && sum + caller.req.amount <= cards[caller.req.card].dailyLimit
       case Insert(status, _, sum) =>
         && (status == Requires3DS ==> caller.req.amount >= THREE_DS_THRESHOLD)
         && (status == Approved ==>
               0 < caller.req.amount < THREE_DS_THRESHOLD && sum + caller.req.amount <= cards[caller.req.card].dailyLimit)
         && status in {Approved, Declined, Requires3DS}
  }

  predicate CallersOk(cards: Cards, w: World) { forall id | id in w.callers :: CallerOk(cards, w.callers[id]) }

  lemma {:induction false} DoKeepsCallers(cards: Cards, w: World, action: Action)
    requires CallersOk(cards, w)
    ensures CallersOk(cards, Do(cards, w, action))
  {
    if action.Step? && action.id in w.callers { assert CallerOk(cards, w.callers[action.id]); }
  }

  // ---------- one approval ----------

  /** The INSERT of an approval that no row's key prevents. */
  predicate Approves(w: World, action: Action) {
    && action.Step? && action.ok && action.id in w.callers && w.callers[action.id].pc.Insert?
    && w.callers[action.id].pc.status == Approved && !KeyKnown(w.view.auths, w.callers[action.id].req.key)
  }

  /** The card has room for the request's amount now. */
  predicate HasRoom(cards: Cards, w: World, req: Request)
    requires req.card in cards
  {
    Unchallenged(w.view.auths, req.card, w.now / DAY) + req.amount <= cards[req.card].dailyLimit
  }

  lemma {:induction false} InsertCounts(auths: seq<Auth>, auth: Auth, card: CardId, day: nat)
    ensures Unchallenged(auths + [auth], card, day) ==
      Unchallenged(auths, card, day) + if auth.amount < THREE_DS_THRESHOLD then Counted(auth, card, day) else 0
  {
    assert (auths + [auth])[..|auths|] == auths;
  }

  /** An approval keeps the card's unchallenged spending of the day within its limit exactly when the spending at the
      INSERT, not the sum read before, leaves room for the amount; no other card or day is concerned. */
  lemma {:induction false} ApprovalKeepsLimitIff(cards: Cards, w: World, id: CallerId)
    requires CallersOk(cards, w) && Approves(w, Step(id, true))
    ensures var req, auths, auths' := w.callers[id].req, w.view.auths, Do(cards, w, Step(id, true)).view.auths;
      && req.card in cards
      && (UnchallengedWithin(cards, auths', req.card, w.now / DAY) <==> HasRoom(cards, w, req))
      && (forall card, day: nat | card != req.card || day != w.now / DAY :: Unchallenged(auths', card, day) == Unchallenged(auths, card, day))
  {
    var caller := w.callers[id];
    assert CallerOk(cards, caller);
    var auth := NewAuth(caller.req, Approved, caller.pc.hold, w.now);
    forall card, day: nat ensures Unchallenged(w.view.auths + [auth], card, day) ==
      Unchallenged(w.view.auths, card, day) + if card == auth.card && day == w.now / DAY then auth.amount else 0
    {
      InsertCounts(w.view.auths, auth, card, day);
    }
  }

  /** A sum that has not grown since it was read leaves room: what makes calls that do not overlap safe. */
  lemma {:induction false} CurrentSumHasRoom(cards: Cards, w: World, id: CallerId)
    requires CallersOk(cards, w) && Approves(w, Step(id, true))
    requires DaySum(w, w.callers[id].req.card) <= w.callers[id].pc.sum
    ensures w.callers[id].req.card in cards && HasRoom(cards, w, w.callers[id].req)
  {
    assert CallerOk(cards, w.callers[id]);
    UnchallengedIsPart(w.view.auths, w.callers[id].req.card, w.now / DAY);
  }

  // ---------- every other statement ----------

  lemma {:induction false} StepKeepsDesk(cards: Cards, w: World, action: Action)
    requires CallersOk(cards, w) && DeskOk(cards, w.view.auths) && action.Step?
    requires Approves(w, action) ==> HasRoom(cards, w, w.callers[action.id].req)
    ensures DeskOk(cards, Do(cards, w, action).view.auths)
  {
    var auths, auths' := w.view.auths, Do(cards, w, action).view.auths;
    if auths' != auths {
      var caller := w.callers[action.id];
      assert CallerOk(cards, caller);
      assert auths' == auths + [NewAuth(caller.req, caller.pc.status, caller.pc.hold, w.now)];
      forall card, day: nat | card in cards ensures UnchallengedWithin(cards, auths', card, day) {
        assert UnchallengedWithin(cards, auths, card, day);
        InsertCounts(auths, auths'[|auths|], card, day);
      }
    }
  }

  lemma {:induction false} OtherCallsKeepDesk(cards: Cards, w: World, action: Action)
    requires DeskOk(cards, w.view.auths) && !action.Step?
    ensures DeskOk(cards, Do(cards, w, action).view.auths)
  {
    var auths, auths' := w.view.auths, Do(cards, w, action).view.auths;
    if auths' != auths {
      if action.Complete? {
        CompletedKeepsLimits(cards, w.view, action.auth, action.codeMatches, w.now);
      } else {
        ClosedKeepsLimits(cards, auths, action.auth, auths'[action.auth]);
      }
    }
  }

  // ---------- every run ----------

  /** The n-th action is an approval the card has no room for. */
  predicate Overdraws(cards: Cards, w0: World, actions: seq<Action>, n: nat) {
    && n < |actions|
    && var w := Run(cards, w0, actions[..n]);
       && Approves(w, actions[n]) && w.callers[actions[n].id].req.card in cards
       && !HasRoom(cards, w, w.callers[actions[n].id].req)
  }

  ghost predicate Initial(cards: Cards, w: World) { w.callers == map[] && DeskOk(cards, w.view.auths) }

  lemma {:induction false} RunKeepsCallers(cards: Cards, w0: World, actions: seq<Action>)
    requires Initial(cards, w0)
    ensures CallersOk(cards, Run(cards, w0, actions))
  {
    if actions != [] {
      RunKeepsCallers(cards, w0, actions[..|actions| - 1]);
      DoKeepsCallers(cards, Run(cards, w0, actions[..|actions| - 1]), actions[|actions| - 1]);
    }
  }

  lemma {:induction false} NoOverdrawKeepsDesk(cards: Cards, w0: World, actions: seq<Action>, n: nat)
    requires Initial(cards, w0) && n <= |actions| && forall k: nat :: !Overdraws(cards, w0, actions, k)
    ensures DeskOk(cards, Run(cards, w0, actions[..n]).view.auths)
  {
    if n > 0 {
      var w := Run(cards, w0, actions[..n - 1]);
      assert actions[..n][..n - 1] == actions[..n - 1];
      NoOverdrawKeepsDesk(cards, w0, actions, n - 1);
      RunKeepsCallers(cards, w0, actions[..n - 1]);
      if actions[n - 1].Step? {
        assert !Overdraws(cards, w0, actions, n - 1);
        assert actions[n - 1].id in w.callers ==> CallerOk(cards, w.callers[actions[n - 1].id]);
        StepKeepsDesk(cards, w, actions[n - 1]);
      } else {
        OtherCallsKeepDesk(cards, w, actions[n - 1]);
      }
    }
  }

  lemma {:induction false} OverdrawBreaksLimit(cards: Cards, w0: World, actions: seq<Action>, n: nat)
    requires Initial(cards, w0) && Overdraws(cards, w0, actions, n)
    ensures !WithinLimits(cards, Run(cards, w0, actions[..n + 1]).view.auths)
  {
    var w := Run(cards, w0, actions[..n]);
    RunKeepsCallers(cards, w0, actions[..n]);
    assert actions[..n + 1][..n] == actions[..n];
    ApprovalKeepsLimitIff(cards, w, actions[n].id);
    assert !UnchallengedWithin(cards, Run(cards, w0, actions[..n + 1]).view.auths, w.callers[actions[n].id].req.card, w.now / DAY);
  }

  /** In every run of overlapping requests, crashes, completions, settlements, voids and charge backs: what needs no
      challenge stays within every card's daily limit at every moment exactly when no approval was inserted without
      room for it. */
  lemma {:induction false} LimitsHoldIff(cards: Cards, w0: World, actions: seq<Action>)
    requires Initial(cards, w0)
    ensures (forall n: nat | n <= |actions| :: WithinLimits(cards, Run(cards, w0, actions[..n]).view.auths)) <==>
      (forall n: nat :: !Overdraws(cards, w0, actions, n))
  {
    if forall n: nat :: !Overdraws(cards, w0, actions, n) {
      forall n: nat | n <= |actions| ensures WithinLimits(cards, Run(cards, w0, actions[..n]).view.auths) {
        NoOverdrawKeepsDesk(cards, w0, actions, n);
      }
    } else {
      var n: nat :| Overdraws(cards, w0, actions, n);
      OverdrawBreaksLimit(cards, w0, actions, n);
    }
  }

  // ---------- one call alone ----------

  /** n statements of one caller in a row, each answered. */
  function Steps(cards: Cards, w: World, id: CallerId, n: nat): World
    decreases n
  {
    if n == 0 then w else Steps(cards, Do(cards, w, Step(id, true)), id, n - 1)
  }

  lemma {:induction false} StoppedStays(cards: Cards, w: World, id: CallerId, n: nat)
    requires id !in w.callers
    ensures Steps(cards, w, id, n) == w
    decreases n
  {
    if n > 0 { StoppedStays(cards, w, id, n - 1); }
  }

  lemma {:induction false} ReservedAlone(cards: Cards, w: World, id: CallerId, req: Request, sum: int)
    requires id in w.callers && w.callers[id] == Caller(req, Reserve(sum)) && req.card in cards
    requires !KeyKnown(w.view.auths, req.key) && Judged(cards, w.view.auths, req, w.now) == Approve
    ensures Steps(cards, w, id, 2) == Stop(w, id).(view := Authorized(cards, w.view, req, w.now))
  {
    var w1 := Do(cards, w, Step(id, true));
    if id in w1.callers {
      assert Do(cards, w1, Step(id, true)) == Stop(w, id).(view := Authorized(cards, w.view, req, w.now));
    } else {
      StoppedStays(cards, w1, id, 1);
      assert Authorized(cards, w.view, req, w.now) == w.view;
    }
  }

  /** A call whose statements nothing interrupts gives the answer Authorized specifies. */
  lemma {:induction false} AloneIsAuthorized(cards: Cards, w: World, id: CallerId, req: Request)
    requires id in w.callers && w.callers[id] == Caller(req, Lookup) && req.card in cards
    ensures Steps(cards, w, id, 4) ==
      Stop(w, id).(view := if KeyKnown(w.view.auths, req.key) then w.view else Authorized(cards, w.view, req, w.now))
  {
    var w1 := Do(cards, w, Step(id, true));
    if KeyKnown(w.view.auths, req.key) {
      StoppedStays(cards, w1, id, 3);
    } else {
      var w2 := Do(cards, w1, Step(id, true));
      assert Steps(cards, w, id, 4) == Steps(cards, w1, id, 3) == Steps(cards, w2, id, 2);
      if w2.callers[id].pc.Reserve? {
        ReservedAlone(cards, w2, id, req, w2.callers[id].pc.sum);
        assert Stop(w2, id) == Stop(w, id);
      } else {
        var w3 := Do(cards, w2, Step(id, true));
        StoppedStays(cards, w3, id, 1);
        assert w3.callers == w.callers - {id};
      }
    }
  }

  // ---------- two calls that overlap ----------

  ghost predicate Reached(cards: Cards, w0: World, w: World) { exists actions :: Run(cards, w0, actions) == w }

  lemma {:induction false} OneMore(cards: Cards, w0: World, w: World, action: Action)
    requires Reached(cards, w0, w)
    ensures Reached(cards, w0, Do(cards, w, action))
  {
    var actions :| Run(cards, w0, actions) == w;
    assert (actions + [action])[..|actions|] == actions;
    assert Run(cards, w0, actions + [action]) == Do(cards, w, action);
  }

  lemma {:induction false} StepsReached(cards: Cards, w0: World, w: World, id: CallerId, n: nat)
    requires Reached(cards, w0, w)
    ensures Reached(cards, w0, Steps(cards, w, id, n))
    decreases n
  {
    if n > 0 {
      OneMore(cards, w0, w, Step(id, true));
      StepsReached(cards, w0, Do(cards, w, Step(id, true)), id, n - 1);
    }
  }

  /** Two requests on one card, each of which the card, the day and the account allow, and the day not both. */
  ghost predicate RoomForEither(cards: Cards, w: World, r1: Request, r2: Request) {
    && r1.card == r2.card && r1.card in cards && r1.key != r2.key
    && Approvable(cards, w, r1) && Approvable(cards, w, r2)
    && Unchallenged(w.view.auths, r1.card, w.now / DAY) + r1.amount + r2.amount > cards[r1.card].dailyLimit
    && var account := cards[r1.card].account;
       && account in w.view.ledger.accounts
       && Available(w.view.ledger, account) - r1.amount - r2.amount >= AtomicLedger.Floor(w.view.ledger, account)
  }

  predicate Approvable(cards: Cards, w: World, req: Request) {
    && req.card in cards && req.amount > 0 && !KeyKnown(w.view.auths, req.key)
    && Judged(cards, w.view.auths, req, w.now) == Approve
  }

  /** A caller that finds its key unknown and its purchase approved gets to its reservation. */
  lemma {:induction false} Decides(cards: Cards, w: World, id: CallerId, req: Request)
    requires id in w.callers && w.callers[id] == Caller(req, Lookup) && Approvable(cards, w, req)
    ensures Steps(cards, w, id, 2) == Goto(w, id, Reserve(DaySum(w, req.card)))
  {
    var w1 := Do(cards, w, Step(id, true));
    assert Steps(cards, w, id, 2) == Do(cards, w1, Step(id, true));
  }

  /** Both calls have read the same sum and decided. */
  function BothDecided(w: World, r1: Request, r2: Request): World {
    w.(callers := map[0 := Caller(r1, Reserve(DaySum(w, r1.card))), 1 := Caller(r2, Reserve(DaySum(w, r2.card)))])
  }

  function BothStarted(w: World, r1: Request, r2: Request): World {
    w.(callers := map[0 := Caller(r1, Lookup), 1 := Caller(r2, Lookup)])
  }

  lemma {:induction false} StartsAreReached(cards: Cards, w0: World, r1: Request, r2: Request)
    requires w0.callers == map[] && r1.card in cards && r2.card in cards
    ensures Reached(cards, w0, BothStarted(w0, r1, r2))
  {
    assert Run(cards, w0, []) == w0;
    OneMore(cards, w0, w0, Start(0, r1));
    var w1 := Do(cards, w0, Start(0, r1));
    OneMore(cards, w0, w1, Start(1, r2));
    assert Do(cards, w1, Start(1, r2)) == BothStarted(w0, r1, r2);
  }

  lemma {:induction false} DecidedIsReached(cards: Cards, w0: World, r1: Request, r2: Request)
    requires w0.callers == map[] && Approvable(cards, w0, r1) && Approvable(cards, w0, r2)
    ensures Reached(cards, w0, BothDecided(w0, r1, r2))
  {
    var w := BothStarted(w0, r1, r2);
    StartsAreReached(cards, w0, r1, r2);
    StepsReached(cards, w0, w, 0, 2);
    Decides(cards, w, 0, r1);
    var w1 := Steps(cards, w, 0, 2);
    StepsReached(cards, w0, w1, 1, 2);
    Decides(cards, w1, 1, r2);
    assert Steps(cards, w1, 1, 2) == BothDecided(w0, r1, r2);
  }

  /** A caller past its decision reserves and inserts, whatever was inserted since. */
  lemma {:induction false} DecidedInserts(cards: Cards, w: World, id: CallerId, req: Request, sum: int)
    requires id in w.callers && w.callers[id] == Caller(req, Reserve(sum)) && req.card in cards
    requires !KeyKnown(w.view.auths, req.key) && HoldFor(w.view.ledger, cards[req.card], req.amount).1.Succeeded?
    ensures var (t, r) := HoldFor(w.view.ledger, cards[req.card], req.amount);
      Steps(cards, w, id, 2) == Stop(w, id).(view := View(t, w.view.auths + [NewAuth(req, Approved, Some(r.id), w.now)]))
  {
    var w1 := Do(cards, w, Step(id, true));
    assert Steps(cards, w, id, 2) == Do(cards, w1, Step(id, true));
    assert w1.callers - {id} == w.callers - {id};
  }

  lemma {:induction false} BothInsert(cards: Cards, w0: World, r1: Request, r2: Request)
    requires RoomForEither(cards, w0, r1, r2)
    ensures Steps(cards, Steps(cards, BothDecided(w0, r1, r2), 0, 2), 1, 2).view.auths ==
      w0.view.auths + [NewAuth(r1, Approved, Some(|w0.view.ledger.holds|), w0.now)]
        + [NewAuth(r2, Approved, Some(|w0.view.ledger.holds| + 1), w0.now)]
  {
    var w := BothDecided(w0, r1, r2);
    TwoHoldsSucceed(w0.view.ledger, cards[r1.card], r1.amount, r2.amount);
    DecidedInserts(cards, w, 0, r1, DaySum(w0, r1.card));
    DecidedInserts(cards, Steps(cards, w, 0, 2), 1, r2, DaySum(w0, r2.card));
  }

  lemma {:induction false} TwoHoldsSucceed(t: Tables, card: Card, first: int, second: int)
    requires first > 0 && second > 0 && card.account in t.accounts
    requires Available(t, card.account) - first - second >= AtomicLedger.Floor(t, card.account)
    ensures var (t1, r1) := HoldFor(t, card, first);
      && r1 == Succeeded(|t.holds|) && HoldFor(t1, card, second).1 == Succeeded(|t.holds| + 1)
  {
    HoldSucceeds(t, card, first);
    HoldSucceeds(HoldFor(t, card, first).0, card, second);
  }

  lemma {:induction false} BothCounted(auths: seq<Auth>, a: Auth, b: Auth, card: CardId, day: nat)
    requires a.amount < THREE_DS_THRESHOLD && b.amount < THREE_DS_THRESHOLD
    ensures Unchallenged(auths + [a] + [b], card, day) ==
      Unchallenged(auths, card, day) + Counted(a, card, day) + Counted(b, card, day)
  {
    InsertCounts(auths, a, card, day);
    InsertCounts(auths + [a], b, card, day);
  }

  /** Wherever a day has room for either of two requests but not for both, overlapping calls approve both: each reads
      the sum before the other inserts, and together they exceed the daily limit. */
  lemma {:induction false} OverlapExceedsLimit(cards: Cards, w0: World, r1: Request, r2: Request)
    requires w0.callers == map[] && RoomForEither(cards, w0, r1, r2)
    ensures exists actions ::
      !UnchallengedWithin(cards, Run(cards, w0, actions).view.auths, r1.card, w0.now / DAY)
  {
    var decided, n := BothDecided(w0, r1, r2), |w0.view.ledger.holds|;
    DecidedIsReached(cards, w0, r1, r2);
    StepsReached(cards, w0, decided, 0, 2);
    StepsReached(cards, w0, Steps(cards, decided, 0, 2), 1, 2);
    BothInsert(cards, w0, r1, r2);
    BothCounted(w0.view.auths, NewAuth(r1, Approved, Some(n), w0.now), NewAuth(r2, Approved, Some(n + 1), w0.now),
      r1.card, w0.now / DAY);
    var actions :| Run(cards, w0, actions) == Steps(cards, Steps(cards, decided, 0, 2), 1, 2);
  }

  /** Such a moment: nothing spent yet, and two ordinary purchases of the same amount, more than half the limit. */
  lemma {:induction false} RoomOnEmptyTable(cards: Cards, w: World, r1: Request, r2: Request)
    requires r1.card in cards && r2 == r1.(key := r2.key) && r1.key != r2.key && w.view.auths == []
    requires 0 < r1.amount < THREE_DS_THRESHOLD && !Blocked(cards[r1.card], r1.merchant, r1.mcc, r1.amount)
    requires r1.amount <= cards[r1.card].dailyLimit < 2 * r1.amount && cards[r1.card].account in w.view.ledger.accounts
    requires Available(w.view.ledger, cards[r1.card].account) - 2 * r1.amount
      >= AtomicLedger.Floor(w.view.ledger, cards[r1.card].account)
    ensures RoomForEither(cards, w, r1, r2)
  {
    assert Spent([], r1.card, w.now / DAY) == 0 && Unchallenged([], r1.card, w.now / DAY) == 0;
  }
}
