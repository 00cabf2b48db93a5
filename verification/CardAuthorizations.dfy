/** Card authorizations: what a purchase request is answered, and how much of a card's daily limit it can use. */
module CardAuthorizations {
  import opened LedgerTables
  import AtomicLedger
  import LedgerService
  import SerialLedger
  import Text
  import opened Sums

  type CardId = nat
  type AuthId = nat

  datatype CardStatus = Usable | Unusable
  datatype Card = Card(account: AccountId, status: CardStatus, blockedMccs: seq<string>, perTransactionLimit: int, dailyLimit: nat)

  datatype AuthStatus = Requires3DS | Approved | Declined | Settled | Voided | ChargedBack
  datatype Auth = Auth(
    card: CardId, amount: int, status: AuthStatus, hold: Option<HoldId>, key: Key, createdAt: nat, expiresAt: nat,
    settleKey: Key,  // "settle:" and the row's id
    txn: Option<TxnId>)

  datatype Request = Request(card: CardId, merchant: string, mcc: string, amount: int, key: Key, settleKey: Key)

  /** The ledger and the card_authorizations table. */
  datatype View = View(ledger: Tables, auths: seq<Auth>)

  datatype Verdict = Approve | Decline | Challenge

  const DAY: nat := 86400
  const CHALLENGE_TTL: nat := 300
  const THREE_DS_THRESHOLD := 10_000_000
  const DECLINE_MARKER := "NETWORKDECLINE"

  // ---------- spending ----------

  function Counted(a: Auth, card: CardId, day: nat): int {
    if a.card == card && a.createdAt / DAY == day && a.status in {Approved, Settled} then a.amount else 0
  }

  /** What the card's approved and settled authorizations of one day add up to. */
  function Spent(auths: seq<Auth>, card: CardId, day: nat): int {
    if auths == [] then 0 else Spent(auths[..|auths| - 1], card, day) + Counted(auths[|auths| - 1], card, day)
  }

  /** The part of it that needed no 3-D Secure challenge: amounts below the challenge threshold. */
  function Unchallenged(auths: seq<Auth>, card: CardId, day: nat): int {
    if auths == [] then 0
    else
      Unchallenged(auths[..|auths| - 1], card, day)
      + if auths[|auths| - 1].amount < THREE_DS_THRESHOLD then Counted(auths[|auths| - 1], card, day) else 0
  }

  lemma {:induction false} UnchallengedIsPart(auths: seq<Auth>, card: CardId, day: nat)
    ensures Unchallenged(auths, card, day) <= Spent(auths, card, day)
  {
    if auths != [] { UnchallengedIsPart(auths[..|auths| - 1], card, day); }
  }

  lemma {:induction false} SpentUpdate(auths: seq<Auth>, i: nat, a: Auth, card: CardId, day: nat)
    requires i < |auths|
    ensures Spent(auths[i := a], card, day) == Spent(auths, card, day) - Counted(auths[i], card, day) + Counted(a, card, day)
    ensures a.amount == auths[i].amount ==>
      Unchallenged(auths[i := a], card, day) == Unchallenged(auths, card, day)
        + if a.amount < THREE_DS_THRESHOLD then Counted(a, card, day) - Counted(auths[i], card, day) else 0
  {
    var n := |auths| - 1;
    if i == n {
      assert auths[i := a][..n] == auths[..n];
    } else {
      assert auths[i := a][..n] == auths[..n][i := a];
      SpentUpdate(auths[..n], i, a, card, day);
    }
  }

  ghost predicate WithinLimits(cards: map<CardId, Card>, auths: seq<Auth>) {
    forall card, day: nat | card in cards :: UnchallengedWithin(cards, auths, card, day)
  }

  predicate UnchallengedWithin(cards: map<CardId, Card>, auths: seq<Auth>, card: CardId, day: nat)
    requires card in cards
  {
    Unchallenged(auths, card, day) <= cards[card].dailyLimit
  }

  // ---------- decisions ----------

  predicate Blocked(card: Card, merchant: string, mcc: string, amount: int) {
    || card.status != Usable
    || mcc in card.blockedMccs
    || amount > card.perTransactionLimit
    || Text.Contains(merchant, DECLINE_MARKER)
  }

  /** Declines what is blocked or does not fit the day's limit, and challenges large amounts. */
  function Judged(cards: map<CardId, Card>, auths: seq<Auth>, req: Request, now: nat): Verdict
    requires req.card in cards
  {
    var card := cards[req.card];
    if Blocked(card, req.merchant, req.mcc, req.amount) || Spent(auths, req.card, now / DAY) + req.amount > card.dailyLimit then Decline
    else if req.amount >= THREE_DS_THRESHOLD then Challenge
    else Approve
  }

  predicate KeyKnown(auths: seq<Auth>, key: Key) { exists i :: 0 <= i < |auths| && auths[i].key == key }

  /** The hold a purchase needs: placed, short of money, or refused by the database. */
  function HoldFor(t: Tables, card: Card, amount: int): (Tables, Outcome) {
    SerialLedger.Call(t, AtomicLedger.PlaceHold(card.account, amount))
  }

  function NewAuth(req: Request, status: AuthStatus, hold: Option<HoldId>, now: nat): Auth {
    Auth(req.card, req.amount, status, hold, req.key, now, now + CHALLENGE_TTL, req.settleKey, None)
  }

  /** A new request: recorded as declined, challenged or approved, or given up when the database refuses its hold. */
  function Authorized(cards: map<CardId, Card>, v: View, req: Request, now: nat): View
    requires req.card in cards
  {
    match Judged(cards, v.auths, req, now)
    case Decline => v.(auths := v.auths + [NewAuth(req, Declined, None, now)])
    case Challenge => v.(auths := v.auths + [NewAuth(req, Requires3DS, None, now)])
    case Approve =>
      var (t, r) := HoldFor(v.ledger, cards[req.card], req.amount);
      if r.Succeeded? then View(t, v.auths + [NewAuth(req, Approved, Some(r.id), now)])
      else if r.error == InsufficientBalance then v.(auths := v.auths + [NewAuth(req, Declined, None, now)])
      else v
  }

  /** A challenge answered: a late or wrong code declines; a right one needs the hold. */
  function Completed3DS(cards: map<CardId, Card>, v: View, i: AuthId, codeMatches: bool, now: nat): (v': View)
    requires i < |v.auths| && v.auths[i].card in cards
    ensures |v'.auths| == |v.auths| && forall j | 0 <= j < |v.auths| :: v'.auths[j].card == v.auths[j].card
  {
    var a := v.auths[i];
    if a.status != Requires3DS then v
    else if now > a.expiresAt || !codeMatches then v.(auths := v.auths[i := a.(status := Declined)])
    else
      var (t, r) := HoldFor(v.ledger, cards[a.card], a.amount);
      if r.Succeeded? then View(t, v.auths[i := a.(status := Approved, hold := Some(r.id))])
      else if r.error == InsufficientBalance then v.(auths := v.auths[i := a.(status := Declined)])
      else v
  }

  /** Settle, Void and Chargeback, each run alone. */
  function SettledAuth(v: View, i: AuthId): View
    requires i < |v.auths|
  {
    var a := v.auths[i];
    if a.status != Approved || a.hold.None? then v
    else
      var (t, r) := SerialLedger.Call(v.ledger, AtomicLedger.CaptureHold(a.hold.value, a.settleKey));
      if r.Rejected? then v else View(t, v.auths[i := a.(status := Settled, txn := Some(r.id))])
  }

  function VoidedAuth(v: View, i: AuthId): View
    requires i < |v.auths|
  {
    var a := v.auths[i];
    if a.status != Approved || a.hold.None? then v
    else
      var (t, r) := SerialLedger.Call(v.ledger, AtomicLedger.ReleaseHold(a.hold.value));
      if r.Rejected? then v else View(t, v.auths[i := a.(status := Voided)])
  }

  function ChargedBackAuth(v: View, i: AuthId, key: Key): View
    requires i < |v.auths|
  {
    var a := v.auths[i];
    if a.status != Settled || a.txn.None? then v
    else
      var (t, r) := SerialLedger.Call(v.ledger, AtomicLedger.Reverse(a.txn.value, key));
      if r.Rejected? then v else View(t, v.auths[i := a.(status := ChargedBack)])
  }

  // ---------- the daily limit ----------

  // ---------- answers, told from the tables ----------

  /** The amounts of the card's authorizations of one day that are approved or settled. */
  function SpentOn(auths: seq<Auth>, card: CardId, day: nat): nat -> int {
    (i: nat) =>
      if i < |auths| && auths[i].card == card && auths[i].createdAt / 86400 == day && auths[i].status in {Approved, Settled}
      then auths[i].amount else 0
  }

  lemma {:induction false} SpentSums(auths: seq<Auth>, card: CardId, day: nat)
    ensures Spent(auths, card, day) == Sum(SpentOn(auths, card, day), |auths|)
  {
    if auths != [] {
      var last := |auths| - 1;
      SpentSums(auths[..last], card, day);
      SameSum(SpentOn(auths[..last], card, day), SpentOn(auths, card, day), last);
    }
  }

  /** The card is not in use, its rules or the network refuse the purchase, or the day's limit has no room for it. */
  predicate Refuses(card: Card, auths: seq<Auth>, req: Request, now: nat) {
    || card.status != Usable || req.mcc in card.blockedMccs || req.amount > card.perTransactionLimit
    || Text.Contains(req.merchant, "NETWORKDECLINE")
    || Sum(SpentOn(auths, req.card, now / 86400), |auths|) + req.amount > card.dailyLimit
  }

  lemma {:induction false} JudgedIff(cards: map<CardId, Card>, auths: seq<Auth>, req: Request, now: nat)
    requires req.card in cards
    ensures Judged(cards, auths, req, now) ==
      if Refuses(cards[req.card], auths, req, now) then Decline else if req.amount >= 10_000_000 then Challenge else Approve
  {
    SpentSums(auths, req.card, now / DAY);
  }

  /** The account exists and its money does not cover the amount. */
  predicate Short(t: Tables, account: AccountId, amount: int) {
    account in t.accounts && Ledger(t, account) - Held(t, account) + t.accounts[account] < amount
  }

  /** A request is declined when refused, or when it needs no challenge and the money is short; challenged when large;
      approved when its hold could be placed; and not recorded when the database refuses its hold. */
  ghost predicate Answered(card: Card, v: View, v': View, req: Request, now: nat) {
    var Row := (status: AuthStatus, hold: Option<HoldId>) => Auth(req.card, req.amount, status, hold, req.key, now, now + 300, req.settleKey, None);
    if Refuses(card, v.auths, req, now) || (req.amount < 10_000_000 && Short(v.ledger, card.account, req.amount)) then
      v' == v.(auths := v.auths + [Row(Declined, None)])
    else if req.amount >= 10_000_000 then v' == v.(auths := v.auths + [Row(Requires3DS, None)])
    else if SerialLedger.Affords(v.ledger, card.account, req.amount) then
      v' == View(v.ledger.(holds := v.ledger.holds + [Hold(card.account, req.amount, Active)]),
                 v.auths + [Row(Approved, Some(|v.ledger.holds|))])
    else v' == v
  }

  lemma {:induction false} HoldForIff(t: Tables, card: Card, amount: int)
    ensures var (t', r) := HoldFor(t, card, amount);
      if SerialLedger.Affords(t, card.account, amount)
      then r == Succeeded(|t.holds|) && t' == t.(holds := t.holds + [Hold(card.account, amount, Active)])
      else t' == t && r.Rejected? && (r.error == InsufficientBalance <==> Short(t, card.account, amount))
  {
  }

  lemma {:induction false} AnswerHasReason(cards: map<CardId, Card>, v: View, req: Request, now: nat)
    requires req.card in cards
    ensures Answered(cards[req.card], v, Authorized(cards, v, req, now), req, now)
  {
    JudgedIff(cards, v.auths, req, now);
    HoldForIff(v.ledger, cards[req.card], req.amount);
  }

  /** What is approved at once leaves the day's spending within the limit. */
  lemma {:induction false} ApprovedFits(cards: map<CardId, Card>, v: View, req: Request, now: nat)
    requires req.card in cards
    ensures var v' := Authorized(cards, v, req, now);
      |v'.auths| > |v.auths| && v'.auths[|v.auths|].status == Approved ==>
        Sum(SpentOn(v'.auths, req.card, now / 86400), |v'.auths|) <= cards[req.card].dailyLimit
  {
    var v' := Authorized(cards, v, req, now);
    SpentSums(v'.auths, req.card, now / DAY);
    if |v'.auths| > |v.auths| { assert v'.auths[..|v.auths|] == v.auths; }
  }

  /** A challenge is declined by a late or wrong code or by lack of money, and approved with its hold otherwise. */
  ghost predicate ChallengeMet(card: Card, v: View, v': View, i: AuthId, codeMatches: bool, now: nat)
    requires i < |v.auths|
  {
    var a := v.auths[i];
    if a.status != Requires3DS then v' == v
    else if now > a.expiresAt || !codeMatches || Short(v.ledger, card.account, a.amount) then
      v' == v.(auths := v.auths[i := a.(status := Declined)])
    else if SerialLedger.Affords(v.ledger, card.account, a.amount) then
      v' == View(v.ledger.(holds := v.ledger.holds + [Hold(card.account, a.amount, Active)]),
                 v.auths[i := a.(status := Approved, hold := Some(|v.ledger.holds|))])
    else v' == v
  }

  lemma {:induction false} CompletionMeets(cards: map<CardId, Card>, v: View, i: AuthId, codeMatches: bool, now: nat)
    requires i < |v.auths| && v.auths[i].card in cards
    ensures ChallengeMet(cards[v.auths[i].card], v, Completed3DS(cards, v, i, codeMatches, now), i, codeMatches, now)
  {
    HoldForIff(v.ledger, cards[v.auths[i].card], v.auths[i].amount);
  }

  /** An approved row settles when the ledger captures its hold and is voided when it releases it; a settled one is
      charged back when the ledger reverses its purchase.  Any other row, or a refusal, changes nothing. */
  lemma {:induction false} ClosingIff(v: View, i: AuthId, key: Key)
    requires i < |v.auths|
    ensures var a := v.auths[i];
      var captured, released, reversed :=
        if a.hold.Some? then SerialLedger.Call(v.ledger, AtomicLedger.CaptureHold(a.hold.value, a.settleKey)) else (v.ledger, Rejected(HoldNotFound)),
        if a.hold.Some? then SerialLedger.Call(v.ledger, AtomicLedger.ReleaseHold(a.hold.value)) else (v.ledger, Rejected(HoldNotFound)),
        if a.txn.Some? then SerialLedger.Call(v.ledger, AtomicLedger.Reverse(a.txn.value, key)) else (v.ledger, Rejected(TransactionNotFound));
      && SettledAuth(v, i) == (if a.status == Approved && captured.1.Succeeded?
           then View(captured.0, v.auths[i := a.(status := Settled, txn := Some(captured.1.id))]) else v)
      && VoidedAuth(v, i) == (if a.status == Approved && released.1.Succeeded?
           then View(released.0, v.auths[i := a.(status := Voided)]) else v)
      && ChargedBackAuth(v, i, key) == (if a.status == Settled && reversed.1.Succeeded?
           then View(reversed.0, v.auths[i := a.(status := ChargedBack)]) else v)
  {
  }

  // ---------- every day's limit ----------

  predicate RowsSane(auths: seq<Auth>) {
    forall i | 0 <= i < |auths| ::
      && (auths[i].status == Requires3DS ==> auths[i].amount >= THREE_DS_THRESHOLD)
      && (auths[i].status in {Approved, Settled} ==> auths[i].amount > 0)
  }

  ghost predicate DeskOk(cards: map<CardId, Card>, auths: seq<Auth>) { WithinLimits(cards, auths) && RowsSane(auths) }

  /** Settling counts as before; voiding and charging back count less. */
  lemma {:induction false} ClosedKeepsLimits(cards: map<CardId, Card>, auths: seq<Auth>, i: AuthId, a: Auth)
    requires i < |auths| && DeskOk(cards, auths) && auths[i].status in {Approved, Settled}
    requires a == auths[i].(status := a.status, txn := a.txn) && a.status in {Settled, Voided, ChargedBack}
    ensures DeskOk(cards, auths[i := a])
  {
    var after := auths[i := a];
    forall card, day: nat | card in cards ensures UnchallengedWithin(cards, after, card, day) {
      assert UnchallengedWithin(cards, auths, card, day);
      SpentUpdate(auths, i, a, card, day);
    }
  }

  /** Requests that need no challenge keep every card within its daily limit. */
  lemma {:induction false} AuthorizedKeepsLimits(cards: map<CardId, Card>, v: View, req: Request, now: nat)
    requires req.card in cards && DeskOk(cards, v.auths)
    ensures DeskOk(cards, Authorized(cards, v, req, now).auths)
  {
    var v' := Authorized(cards, v, req, now);
    if v'.auths != v.auths {
      assert v'.auths[..|v.auths|] == v.auths;
      forall card, day: nat | card in cards ensures UnchallengedWithin(cards, v'.auths, card, day) {
        assert UnchallengedWithin(cards, v.auths, card, day);
        UnchallengedIsPart(v.auths, card, day);
      }
    }
  }

  lemma {:induction false} CompletedKeepsLimits(cards: map<CardId, Card>, v: View, i: AuthId, codeMatches: bool, now: nat)
    requires i < |v.auths| && v.auths[i].card in cards && DeskOk(cards, v.auths)
    ensures DeskOk(cards, Completed3DS(cards, v, i, codeMatches, now).auths)
  {
    var v' := Completed3DS(cards, v, i, codeMatches, now);
    if v'.auths != v.auths {
      forall card, day: nat | card in cards ensures UnchallengedWithin(cards, v'.auths, card, day) {
        assert UnchallengedWithin(cards, v.auths, card, day);
        SpentUpdate(v.auths, i, v'.auths[i], card, day);
      }
    }
  }

  /** A challenge completed in time leaves the card within its daily limit exactly when the amount still fits what
      was spent before: nothing in the completion asks. */
  lemma {:induction false} CompletionKeepsLimitIff(cards: map<CardId, Card>, v: View, i: AuthId, now: nat)
    requires i < |v.auths| && v.auths[i].card in cards && v.auths[i].status == Requires3DS && now <= v.auths[i].expiresAt
    requires HoldFor(v.ledger, cards[v.auths[i].card], v.auths[i].amount).1.Succeeded?
    ensures var a, v' := v.auths[i], Completed3DS(cards, v, i, true, now);
      && v'.auths[i].status == Approved
      && (Spent(v'.auths, a.card, a.createdAt / DAY) <= cards[a.card].dailyLimit <==>
            Spent(v.auths, a.card, a.createdAt / DAY) + a.amount <= cards[a.card].dailyLimit)
  {
    var a := v.auths[i];
    SpentUpdate(v.auths, i, Completed3DS(cards, v, i, true, now).auths[i], a.card, a.createdAt / DAY);
  }

  /** A card that may spend `limit` a day, and a ledger with money for twice that. */
  ghost predicate RichCard(cards: map<CardId, Card>, t: Tables, card: Card, limit: int) {
    && AtomicLedger.TablesOk(t) && limit >= THREE_DS_THRESHOLD && cards == map[0 := card]
    && card.status == Usable && card.dailyLimit == limit && card.perTransactionLimit >= limit && card.blockedMccs == []
    && card.account in t.accounts && Available(t, card.account) - 2 * limit >= AtomicLedger.Floor(t, card.account)
  }

  predicate TwoOnCardZero(auths: seq<Auth>) { |auths| == 2 && auths[0].card == 0 && auths[1].card == 0 }

  function BothCompleted(cards: map<CardId, Card>, v: View): View
    requires TwoOnCardZero(v.auths) && 0 in cards
  {
    Completed3DS(cards, Completed3DS(cards, v, 0, true, 0), 1, true, 0)
  }

  /** Two purchases of the whole daily limit, authorized one after the other on an empty table and then completed,
      spend twice the limit. */
  lemma {:induction false} TwoChallengesExceedLimit(cards: map<CardId, Card>, t: Tables, card: Card, limit: int, v1: View, v2: View)
    requires RichCard(cards, t, card, limit)
    requires v1 == Authorized(cards, View(t, []), Purchase(limit, "k1"), 0) && v2 == Authorized(cards, v1, Purchase(limit, "k2"), 0)
    ensures TwoOnCardZero(v2.auths) && Spent(v2.auths, 0, 0) == 0
    ensures Spent(BothCompleted(cards, v2).auths, 0, 0) == 2 * limit > card.dailyLimit
  {
    BothChallenged(cards, View(t, []), card, limit);
    var v3 := Completed3DS(cards, v2, 0, true, 0);
    HoldSucceeds(t, card, limit);
    SpentUpdate(v2.auths, 0, v3.auths[0], 0, 0);
    HoldSucceeds(v3.ledger, card, limit);
    SpentUpdate(v3.auths, 1, BothCompleted(cards, v2).auths[1], 0, 0);
  }

  /** An ordinary purchase on card 0. */
  function Purchase(amount: int, key: Key): Request { Request(0, "", "", amount, key, key) }

  lemma {:induction false} BothChallenged(cards: map<CardId, Card>, v: View, card: Card, limit: int)
    requires RichCard(cards, v.ledger, card, limit) && v.auths == []
    ensures var v2 := Authorized(cards, Authorized(cards, v, Purchase(limit, "k1"), 0), Purchase(limit, "k2"), 0);
      && v2.auths == [NewAuth(Purchase(limit, "k1"), Requires3DS, None, 0), NewAuth(Purchase(limit, "k2"), Requires3DS, None, 0)]
      && v2.ledger == v.ledger && Spent(v2.auths, 0, 0) == 0
  {
    assert !Text.Contains("", DECLINE_MARKER) by { assert |DECLINE_MARKER| == 14; }
    var a := NewAuth(Purchase(limit, "k1"), Requires3DS, None, 0);
    var b := NewAuth(Purchase(limit, "k2"), Requires3DS, None, 0);
    assert [] + [a] == [a] && [a] + [b] == [a, b] && [a][..0] == [] && [a, b][..1] == [a];
    assert Spent([a], 0, 0) == 0;
  }

  lemma {:induction false} HoldSucceeds(t: Tables, card: Card, amount: int)
    requires card.account in t.accounts && amount > 0 && Available(t, card.account) - amount >= AtomicLedger.Floor(t, card.account)
    ensures var (t', r) := HoldFor(t, card, amount);
      && r.Succeeded? && t'.accounts == t.accounts
      && Available(t', card.account) == Available(t, card.account) - amount
  {
    HeldSumAppend(t.holds, Hold(card.account, amount, Active), card.account);
  }

  // ---------- the service ----------

  class Service {
    const ledger: LedgerService.Service
    const cards: map<CardId, Card>
    var auths: seq<Auth>

    ghost function Look(): View
      reads this, ledger
    {
      View(ledger.Now(), auths)
    }

    ghost predicate Valid()
      reads this, ledger
    {
      ledger.Valid() && DeskOk(cards, auths)
    }

    constructor (ledger: LedgerService.Service, cards: map<CardId, Card>)
      requires ledger.Valid()
      ensures Valid() && this.ledger == ledger && this.cards == cards && auths == []
    {
      this.ledger, this.cards, auths := ledger, cards, [];
    }

    /** What today's approvals on the card add up to, as the query computes it. */
    method ApprovedTodaySum(card: CardId, now: nat) returns (sum: int)
      requires forall i | 0 <= i < |auths| :: auths[i].createdAt <= now
      ensures sum == Spent(auths, card, now / DAY)
    {
      sum := 0;
      for i := 0 to |auths|
        invariant sum == Spent(auths[..i], card, now / DAY)
      {
        assert auths[..i + 1][..i] == auths[..i];
        SameDay(auths[i].createdAt, now);
        if auths[i].card == card && auths[i].status in {Approved, Settled} && auths[i].createdAt >= now / DAY * DAY {
          sum := sum + auths[i].amount;
        }
      }
      assert auths[..|auths|] == auths;
    }

    static lemma {:induction false} SameDay(created: nat, now: nat)
      requires created <= now
      ensures created >= now / DAY * DAY <==> created / DAY == now / DAY
    {
    }

    /** Checks the card, its limits and the network in the order the program does. */
    method Evaluate(req: Request, now: nat) returns (v: Verdict)
      requires req.card in cards && forall i | 0 <= i < |auths| :: auths[i].createdAt <= now
      ensures v == Judged(cards, auths, req, now)
      ensures v == if Refuses(cards[req.card], auths, req, now) then Decline else if req.amount >= 10_000_000 then Challenge else Approve
    {
      JudgedIff(cards, auths, req, now);
      var card := cards[req.card];
      if card.status != Usable {
        return Decline;
      }
      for i := 0 to |card.blockedMccs|
        invariant req.mcc !in card.blockedMccs[..i]
      {
        if card.blockedMccs[i] == req.mcc {
          return Decline;
        }
      }
      assert card.blockedMccs[..|card.blockedMccs|] == card.blockedMccs;
      if req.amount > card.perTransactionLimit {
        return Decline;
      }
      var spentToday := ApprovedTodaySum(req.card, now);
      if spentToday + req.amount > card.dailyLimit {
        return Decline;
      }
      if Text.Contains(req.merchant, DECLINE_MARKER) {
        return Decline;
      }
      v := if req.amount >= THREE_DS_THRESHOLD then Challenge else Approve;
    }

    method FindByKey(key: Key) returns (found: Option<AuthId>)
      ensures found.Some? <==> KeyKnown(auths, key)
      ensures found.Some? ==> found.value < |auths| && auths[found.value].key == key
    {
      for i := 0 to |auths|
        invariant forall j | 0 <= j < i :: auths[j].key != key
      {
        if auths[i].key == key {
          return Some(i);
        }
      }
      found := None;
    }

    /** Repeats a known key's answer; otherwise records the answer to the request. */
    method Authorize(req: Request, switchedOn: bool, now: nat) returns (r: Option<AuthId>)
      requires Valid() && req.card in cards && forall i | 0 <= i < |auths| :: auths[i].createdAt <= now
      modifies this`auths, ledger
      ensures Valid() && (r.Some? ==> r.value < |auths| && auths[r.value].key == req.key)
      ensures KeyKnown(old(auths), req.key) ==> r.Some?
      ensures Look() == if KeyKnown(old(auths), req.key) || !switchedOn then old(Look()) else Authorized(cards, old(Look()), req, now)
      ensures !KeyKnown(old(auths), req.key) && switchedOn ==> Answered(cards[req.card], old(Look()), Look(), req, now)
      ensures !KeyKnown(old(auths), req.key) ==> (r.Some? <==> |auths| > |old(auths)|)
    {
      r := FindByKey(req.key);
      if r.Some? || !switchedOn {
        return;
      }
      AuthorizedKeepsLimits(cards, Look(), req, now);
      AnswerHasReason(cards, Look(), req, now);
      var v := Evaluate(req, now);
      var status, hold := Declined, None;
      if v == Challenge {
        status := Requires3DS;
      } else if v == Approve {
        var placed := ledger.PlaceHold(cards[req.card].account, req.amount);
        if placed.Succeeded? {
          status, hold := Approved, Some(placed.id);
        } else if placed.error != InsufficientBalance {
          return None;
        }
      }
      auths := auths + [NewAuth(req, status, hold, now)];
      r := Some(|auths| - 1);
    }

    /** Verifies the challenge and reserves the money; the daily limit is not consulted again. */
    method Complete3DS(i: AuthId, codeMatches: bool, now: nat)
      requires Valid() && (i < |auths| ==> auths[i].card in cards)
      modifies this`auths, ledger
      ensures Valid() && Look() == if i < |old(auths)| then Completed3DS(cards, old(Look()), i, codeMatches, now) else old(Look())
      ensures i < |old(auths)| ==> ChallengeMet(cards[old(auths)[i].card], old(Look()), Look(), i, codeMatches, now)
    {
      if i < |auths| { CompletionMeets(cards, Look(), i, codeMatches, now); }
      if i >= |auths| || auths[i].status != Requires3DS {
        return;
      }
      CompletedKeepsLimits(cards, Look(), i, codeMatches, now);
      var a := auths[i].(status := Declined);
      if now <= auths[i].expiresAt && codeMatches {
        var placed := ledger.PlaceHold(cards[auths[i].card].account, auths[i].amount);
        if placed.Succeeded? {
          a := a.(status := Approved, hold := Some(placed.id));
        } else if placed.error != InsufficientBalance {
          return;
        }
      }
      auths := auths[i := a];
    }

    method Settle(i: AuthId)
      requires Valid()
      modifies this`auths, ledger
      ensures Valid() && Look() == if i < |old(auths)| then SettledAuth(old(Look()), i) else old(Look())
    {
      if i >= |auths| || auths[i].status != Approved || auths[i].hold.None? {
        return;
      }
      var txn := ledger.CaptureHold(auths[i].hold.value, auths[i].settleKey);
      RefusalChangesNothing(old(ledger.Now()), AtomicLedger.CaptureHold(auths[i].hold.value, auths[i].settleKey));
      if txn.Succeeded? {
        ClosedKeepsLimits(cards, auths, i, auths[i].(status := Settled, txn := Some(txn.id)));
        auths := auths[i := auths[i].(status := Settled, txn := Some(txn.id))];
      }
    }

    method Void(i: AuthId)
      requires Valid()
      modifies this`auths, ledger
      ensures Valid() && Look() == if i < |old(auths)| then VoidedAuth(old(Look()), i) else old(Look())
    {
      if i >= |auths| || auths[i].status != Approved || auths[i].hold.None? {
        return;
      }
      var released := ledger.ReleaseHold(auths[i].hold.value);
      if released.Succeeded? {
        ClosedKeepsLimits(cards, auths, i, auths[i].(status := Voided));
        auths := auths[i := auths[i].(status := Voided)];
      }
    }

    method Chargeback(i: AuthId, key: Key)
      requires Valid()
      modifies this`auths, ledger
      ensures Valid() && Look() == if i < |old(auths)| then ChargedBackAuth(old(Look()), i, key) else old(Look())
    {
      if i >= |auths| || auths[i].status != Settled || auths[i].txn.None? {
        return;
      }
      var reversed := ledger.ReverseTransaction(auths[i].txn.value, key);
      RefusalChangesNothing(old(ledger.Now()), AtomicLedger.Reverse(auths[i].txn.value, key));
      if reversed.Succeeded? {
        ClosedKeepsLimits(cards, auths, i, auths[i].(status := ChargedBack));
        auths := auths[i := auths[i].(status := ChargedBack)];
      }
    }
  }

  lemma {:induction false} RefusalChangesNothing(t: Tables, op: AtomicLedger.Op)
    ensures SerialLedger.Call(t, op).1.Rejected? ==> SerialLedger.Call(t, op).0 == t
  {
  }
}
