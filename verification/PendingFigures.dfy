/** Who owns the active holds when calls run one at a time, without faults and under fresh keys: the outbound transfers,
    the cooling-off transfers and the card authorizations, over one ledger. */
module PendingFigures {
  import opened LedgerTables
  import opened AtomicLedger
  import CardAuthorizations
  import CoolingOff
  import CoolingOffRows
  import RiskGate
  import SerialLedger
  import TransferRows

  type Transfer = TransferRows.Row
  type CoolingRow = CoolingOffRows.Row
  type Auth = CardAuthorizations.Auth
  type Cards = map<CardAuthorizations.CardId, CardAuthorizations.Card>

  datatype Owner = OfTransfer(row: nat) | OfCoolingOff(row: nat) | OfAuthorization(row: nat)

  /** The three products' tables over one ledger, and two histories: for which row each hold was placed, and which row
      each key was set aside for. */
  datatype World = World(
    gate: RiskGate.View, cooling: seq<CoolingRow>, auths: seq<Auth>, placedFor: seq<Owner>, keyOf: map<Key, Owner>)
  {
    function Ledger(): Tables { gate.ledger }
  }

  // ---------- the figure ----------

  /** What a row contributes to the pending balance of an account while it is open. */
  datatype Share = Share(account: AccountId, amount: int, open: bool)

  function ShareWeight(s: Share, a: AccountId): int { if s.open && s.account == a then s.amount else 0 }

  function ShareSum(shares: seq<Share>, a: AccountId): int {
    if shares == [] then 0 else ShareSum(shares[..|shares| - 1], a) + ShareWeight(shares[|shares| - 1], a)
  }

  /** An outbound transfer is open until it completes or fails. */
  function TransferShare(row: Transfer): Share {
    Share(row.account, row.amount,
          row.direction == TransferRows.Outbound && row.status in {TransferRows.Status.Pending, TransferRows.Processing})
  }

  /** A cooling-off transfer is open while it is pending. */
  function CoolingShare(row: CoolingRow): Share { Share(row.from, row.amount, row.status == CoolingOffRows.Status.Pending) }

  /** A card authorization is open while it is approved and neither settled nor voided. */
  function AuthShare(cards: Cards, auth: Auth): Share {
    Share(if auth.card in cards then cards[auth.card].account else "", auth.amount, auth.status == CardAuthorizations.Approved)
  }

  function TransferShares(rows: seq<Transfer>): seq<Share> { seq(|rows|, i requires 0 <= i < |rows| => TransferShare(rows[i])) }

  function CoolingShares(rows: seq<CoolingRow>): seq<Share> { seq(|rows|, i requires 0 <= i < |rows| => CoolingShare(rows[i])) }

  function AuthShares(cards: Cards, auths: seq<Auth>): seq<Share> {
    seq(|auths|, i requires 0 <= i < |auths| => AuthShare(cards, auths[i]))
  }

  /** The amounts of an account's unfinished outbound transfers, pending cooling-off rows and approved authorizations. */
  function OpenSum(cards: Cards, w: World, a: AccountId): int {
    ShareSum(TransferShares(w.gate.rows), a) + ShareSum(CoolingShares(w.cooling), a) + ShareSum(AuthShares(cards, w.auths), a)
  }

  lemma {:induction false} ShareSumUpdate(shares: seq<Share>, i: nat, s: Share, a: AccountId)
    requires i < |shares|
    ensures ShareSum(shares[i := s], a) == ShareSum(shares, a) - ShareWeight(shares[i], a) + ShareWeight(s, a)
  {
    var n := |shares| - 1;
    if i == n {
      assert shares[i := s][..n] == shares[..n];
    } else {
      assert shares[i := s][..n] == shares[..n][i := s];
      ShareSumUpdate(shares[..n], i, s, a);
    }
  }

  lemma {:induction false} ShareSumAppend(shares: seq<Share>, s: Share, a: AccountId)
    ensures ShareSum(shares + [s], a) == ShareSum(shares, a) + ShareWeight(s, a)
  {
    assert (shares + [s])[..|shares|] == shares;
  }

  // ---------- what holds between calls ----------

  predicate CardHold(cards: Cards, t: Tables, auth: Auth, status: HoldStatus)
    requires auth.card in cards
  {
    && auth.hold.Some? && auth.hold.value < |t.holds|
    && t.holds[auth.hold.value] == Hold(cards[auth.card].account, auth.amount, status)
  }

  predicate AuthOk(cards: Cards, t: Tables, auth: Auth) {
    && auth.card in cards
    && match auth.status
       case Requires3DS => auth.hold.None?
       case Declined => auth.hold.None?
       case Approved => CardHold(cards, t, auth, Active)
       case Settled => CardHold(cards, t, auth, Captured)
       case Voided => CardHold(cards, t, auth, Released)
       case ChargedBack => CardHold(cards, t, auth, Captured)
  }

  /** A row a release attempt could not finish has its hold released already. */
  predicate CoolingRowOk(t: Tables, row: CoolingRow) {
    && CoolingOff.RowOk(t, row)
    && (row.status == CoolingOffRows.Processing ==> t.holds[row.hold].status == Released)
  }

  predicate Owns(w: World, who: Owner, hold: Option<HoldId>, key: Key) {
    && (hold.Some? ==> hold.value < |w.placedFor| && w.placedFor[hold.value] == who)
    && key in w.keyOf && w.keyOf[key] == who
  }

  ghost predicate TransfersOk(w: World) {
    && RiskGate.DeskOk(w.gate)
    && forall i | 0 <= i < |w.gate.rows| :: Owns(w, OfTransfer(i), w.gate.rows[i].hold, w.gate.rows[i].key)
  }

  ghost predicate CoolingOk(w: World) {
    && (forall i | 0 <= i < |w.cooling| :: CoolingRowOk(w.Ledger(), w.cooling[i]))
    && forall i | 0 <= i < |w.cooling| :: Owns(w, OfCoolingOff(i), Some(w.cooling[i].hold), w.cooling[i].key)
  }

  ghost predicate AuthsOk(cards: Cards, w: World) {
    && (forall i | 0 <= i < |w.auths| :: AuthOk(cards, w.Ledger(), w.auths[i]))
    && forall i | 0 <= i < |w.auths| :: Owns(w, OfAuthorization(i), w.auths[i].hold, w.auths[i].settleKey)
  }

  function HoldOf(w: World, who: Owner): Option<HoldId> {
    match who
    case OfTransfer(i) => if i < |w.gate.rows| then w.gate.rows[i].hold else None
    case OfCoolingOff(i) => if i < |w.cooling| then Some(w.cooling[i].hold) else None
    case OfAuthorization(i) => if i < |w.auths| then w.auths[i].hold else None
  }

  ghost predicate HoldsOwned(w: World) {
    && |w.placedFor| == |w.Ledger().holds|
    && forall h: HoldId | h < |w.placedFor| :: HoldOf(w, w.placedFor[h]) == Some(h)
  }

  ghost predicate Inv(cards: Cards, w: World) {
    TablesOk(w.Ledger()) && TransfersOk(w) && CoolingOk(w) && AuthsOk(cards, w) && HoldsOwned(w)
  }

  // ---------- one row acts ----------

  predicate SameKey(t: Tables, t': Tables, k: Key) {
    (k in t'.keys <==> k in t.keys) && (k in t.keys ==> t'.keys[k] == t.keys[k])
  }

  /** The ledger changed no hold and no key that belongs to a row other than `who`. */
  ghost predicate OnlyBy(w: World, t': Tables, who: Option<Owner>) {
    && |w.Ledger().holds| <= |t'.holds|
    && (forall h: HoldId | h < |w.Ledger().holds| && h < |w.placedFor| && Some(w.placedFor[h]) != who :: t'.holds[h] == w.Ledger().holds[h])
    && (forall k | k in w.keyOf && Some(w.keyOf[k]) != who :: SameKey(w.Ledger(), t', k))
  }

  ghost predicate Extends(w: World, w': World) {
    && w.placedFor <= w'.placedFor
    && forall k | k in w.keyOf :: k in w'.keyOf && w'.keyOf[k] == w.keyOf[k]
  }

  /** Row i was changed, or added as the next one. */
  predicate RowMoves<T(==)>(rows: seq<T>, rows': seq<T>, i: nat) {
    && i <= |rows| && |rows'| == (if i < |rows| then |rows| else |rows| + 1)
    && forall j | 0 <= j < |rows| && j != i :: rows'[j] == rows[j]
  }

  predicate TablesMove(w: World, w': World, who: Owner) {
    match who
    case OfTransfer(i) => RowMoves(w.gate.rows, w'.gate.rows, i) && w'.cooling == w.cooling && w'.auths == w.auths
    case OfCoolingOff(i) => w'.gate == w.gate.(ledger := w'.Ledger()) && RowMoves(w.cooling, w'.cooling, i) && w'.auths == w.auths
    case OfAuthorization(i) => w'.gate == w.gate.(ledger := w'.Ledger()) && w'.cooling == w.cooling && RowMoves(w.auths, w'.auths, i)
  }

  /** The row keeps its hold, or gets its first one. */
  predicate HoldMoves(w: World, w': World, who: Owner) {
    if |w'.Ledger().holds| == |w.Ledger().holds| then w'.placedFor == w.placedFor && HoldOf(w', who) == HoldOf(w, who)
    else
      && |w'.Ledger().holds| == |w.Ledger().holds| + 1 && w'.placedFor == w.placedFor + [who]
      && HoldOf(w, who) == None && HoldOf(w', who) == Some(|w.Ledger().holds|)
  }

  ghost predicate ActsFor(w: World, w': World, who: Owner) {
    Extends(w, w') && OnlyBy(w, w'.Ledger(), Some(who)) && TablesMove(w, w', who) && HoldMoves(w, w', who)
  }

  ghost predicate ActorOk(cards: Cards, w: World, who: Owner) {
    match who
    case OfTransfer(i) => i < |w.gate.rows| && RiskGate.DeskOk(w.gate) && Owns(w, who, w.gate.rows[i].hold, w.gate.rows[i].key)
    case OfCoolingOff(i) =>
      i < |w.cooling| && CoolingRowOk(w.Ledger(), w.cooling[i]) && Owns(w, who, Some(w.cooling[i].hold), w.cooling[i].key)
    case OfAuthorization(i) =>
      i < |w.auths| && AuthOk(cards, w.Ledger(), w.auths[i]) && Owns(w, who, w.auths[i].hold, w.auths[i].settleKey)
  }

  lemma {:induction false} TransfersStand(w: World, w': World, who: Option<Owner>)
    requires TransfersOk(w) && Extends(w, w') && OnlyBy(w, w'.Ledger(), who) && w'.gate == w.gate.(ledger := w'.Ledger())
    requires !(who.Some? && who.value.OfTransfer?)
    ensures TransfersOk(w')
  {
    forall i | 0 <= i < |w.gate.rows|
      ensures RiskGate.RowOk(w'.gate, i) && Owns(w', OfTransfer(i), w.gate.rows[i].hold, w.gate.rows[i].key)
    {
      assert RiskGate.RowOk(w.gate, i) && Owns(w, OfTransfer(i), w.gate.rows[i].hold, w.gate.rows[i].key);
      assert SameKey(w.Ledger(), w'.Ledger(), w.gate.rows[i].key);
    }
  }

  lemma {:induction false} TransferActs(w: World, w': World, i: nat)
    requires TransfersOk(w) && ActsFor(w, w', OfTransfer(i)) && ActorOk(map[], w', OfTransfer(i))
    ensures TransfersOk(w')
  {
    forall j | 0 <= j < |w'.gate.rows| ensures Owns(w', OfTransfer(j), w'.gate.rows[j].hold, w'.gate.rows[j].key) {
      if j != i { assert Owns(w, OfTransfer(j), w.gate.rows[j].hold, w.gate.rows[j].key); }
    }
  }

  lemma {:induction false} CoolingStands(w: World, w': World, who: Option<Owner>)
    requires CoolingOk(w) && Extends(w, w') && OnlyBy(w, w'.Ledger(), who)
    requires if who.Some? && who.value.OfCoolingOff? then RowMoves(w.cooling, w'.cooling, who.value.row) && ActorOk(map[], w', who.value)
             else w'.cooling == w.cooling
    ensures CoolingOk(w')
  {
    forall i | 0 <= i < |w'.cooling|
      ensures CoolingRowOk(w'.Ledger(), w'.cooling[i]) && Owns(w', OfCoolingOff(i), Some(w'.cooling[i].hold), w'.cooling[i].key)
    {
      if who != Some(OfCoolingOff(i)) {
        assert CoolingRowOk(w.Ledger(), w.cooling[i]) && Owns(w, OfCoolingOff(i), Some(w.cooling[i].hold), w.cooling[i].key);
        assert SameKey(w.Ledger(), w'.Ledger(), w.cooling[i].key);
      }
    }
  }

  lemma {:induction false} AuthsStand(cards: Cards, w: World, w': World, who: Option<Owner>)
    requires AuthsOk(cards, w) && Extends(w, w') && OnlyBy(w, w'.Ledger(), who)
    requires if who.Some? && who.value.OfAuthorization? then RowMoves(w.auths, w'.auths, who.value.row) && ActorOk(cards, w', who.value)
             else w'.auths == w.auths
    ensures AuthsOk(cards, w')
  {
    forall i | 0 <= i < |w'.auths|
      ensures AuthOk(cards, w'.Ledger(), w'.auths[i]) && Owns(w', OfAuthorization(i), w'.auths[i].hold, w'.auths[i].settleKey)
    {
      if who != Some(OfAuthorization(i)) {
        assert AuthOk(cards, w.Ledger(), w.auths[i]) && Owns(w, OfAuthorization(i), w.auths[i].hold, w.auths[i].settleKey);
      }
    }
  }

  lemma {:induction false} OthersKeepHolds(w: World, w': World, who: Owner, x: Owner)
    requires TablesMove(w, w', who) && x != who
    ensures HoldOf(w', x) == HoldOf(w, x)
  {
  }

  lemma {:induction false} HoldsStayOwned(w: World, w': World, who: Owner)
    requires HoldsOwned(w) && TablesMove(w, w', who) && HoldMoves(w, w', who)
    ensures HoldsOwned(w')
  {
    forall h: HoldId | h < |w'.placedFor| ensures HoldOf(w', w'.placedFor[h]) == Some(h) {
      if h < |w.placedFor| && w.placedFor[h] != who { OthersKeepHolds(w, w', who, w.placedFor[h]); }
    }
  }

  /** When one row acts, every other row of the three products keeps its hold and its key. */
  lemma {:induction false} ActingKeepsInv(cards: Cards, w: World, w': World, who: Owner)
    requires Inv(cards, w) && TablesOk(w'.Ledger()) && ActsFor(w, w', who) && ActorOk(cards, w', who)
    ensures Inv(cards, w')
  {
    if who.OfTransfer? { TransferActs(w, w', who.row); } else { TransfersStand(w, w', Some(who)); }
    CoolingStands(w, w', Some(who));
    AuthsStand(cards, w, w', Some(who));
    HoldsStayOwned(w, w', who);
  }

  // ---------- the figure moves with the row ----------

  function ShareOf(cards: Cards, w: World, who: Owner): Share {
    match who
    case OfTransfer(i) => if i < |w.gate.rows| then TransferShare(w.gate.rows[i]) else Share("", 0, false)
    case OfCoolingOff(i) => if i < |w.cooling| then CoolingShare(w.cooling[i]) else Share("", 0, false)
    case OfAuthorization(i) => if i < |w.auths| then AuthShare(cards, w.auths[i]) else Share("", 0, false)
  }

  lemma {:induction false} SharesMove(shares: seq<Share>, shares': seq<Share>, i: nat, a: AccountId)
    requires RowMoves(shares, shares', i)
    ensures ShareSum(shares', a) - ShareSum(shares, a) ==
      ShareWeight(shares'[i], a) - if i < |shares| then ShareWeight(shares[i], a) else 0
  {
    if i < |shares| {
      assert shares' == shares[i := shares'[i]];
      ShareSumUpdate(shares, i, shares'[i], a);
    } else {
      assert shares' == shares + [shares'[i]];
      ShareSumAppend(shares, shares'[i], a);
    }
  }

  lemma {:induction false} OpenSumMoves(cards: Cards, w: World, w': World, who: Owner, a: AccountId)
    requires TablesMove(w, w', who)
    ensures OpenSum(cards, w', a) - OpenSum(cards, w, a) ==
      ShareWeight(ShareOf(cards, w', who), a) - ShareWeight(ShareOf(cards, w, who), a)
  {
    match who
    case OfTransfer(i) => SharesMove(TransferShares(w.gate.rows), TransferShares(w'.gate.rows), i, a);
    case OfCoolingOff(i) => SharesMove(CoolingShares(w.cooling), CoolingShares(w'.cooling), i, a);
    case OfAuthorization(i) => SharesMove(AuthShares(cards, w.auths), AuthShares(cards, w'.auths), i, a);
  }

  /** What a row contributes to the figure is what its hold weighs. */
  predicate ShareIsWeight(cards: Cards, w: World, who: Owner, a: AccountId) {
    match HoldOf(w, who)
    case None => ShareWeight(ShareOf(cards, w, who), a) == 0
    case Some(h) => h < |w.Ledger().holds| && ShareWeight(ShareOf(cards, w, who), a) == Weight(w.Ledger().holds[h], a)
  }

  lemma {:induction false} ActorShare(cards: Cards, w: World, who: Owner, a: AccountId)
    requires ActorOk(cards, w, who)
    ensures ShareIsWeight(cards, w, who, a)
  {
    if who.OfTransfer? { assert RiskGate.RowOk(w.gate, who.row); }
  }

  lemma {:induction false} ShareBefore(cards: Cards, w: World, who: Owner, a: AccountId)
    requires TransfersOk(w) && CoolingOk(w) && AuthsOk(cards, w)
    ensures ShareIsWeight(cards, w, who, a)
  {
    match who
    case OfTransfer(i) =>
      if i < |w.gate.rows| {
        assert Owns(w, OfTransfer(i), w.gate.rows[i].hold, w.gate.rows[i].key);
        ActorShare(cards, w, who, a);
      }
    case OfCoolingOff(i) =>
      if i < |w.cooling| {
        assert Owns(w, OfCoolingOff(i), Some(w.cooling[i].hold), w.cooling[i].key);
        ActorShare(cards, w, who, a);
      }
    case OfAuthorization(i) =>
      if i < |w.auths| {
        assert Owns(w, OfAuthorization(i), w.auths[i].hold, w.auths[i].settleKey);
        ActorShare(cards, w, who, a);
      }
  }

  lemma {:induction false} HeldMoves(w: World, w': World, who: Owner, a: AccountId)
    requires HoldsOwned(w) && OnlyBy(w, w'.Ledger(), Some(who)) && HoldMoves(w, w', who)
    ensures var t, t' := w.Ledger(), w'.Ledger();
      Held(t', a) - Held(t, a) ==
        (match HoldOf(w', who) case None => 0 case Some(h) => if h < |t'.holds| then Weight(t'.holds[h], a) else 0)
        - (match HoldOf(w, who) case None => 0 case Some(h) => if h < |t.holds| then Weight(t.holds[h], a) else 0)
  {
    var t, t', n := w.Ledger(), w'.Ledger(), |w.Ledger().holds|;
    forall h: HoldId | h < n && Some(h) != HoldOf(w, who) ensures t'.holds[h] == t.holds[h] {
      assert w.placedFor[h] != who;
    }
    if |t'.holds| > n {
      assert t'.holds == t.holds + [t'.holds[n]];
      HeldSumAppend(t.holds, t'.holds[n], a);
    } else if HoldOf(w, who).Some? && HoldOf(w, who).value < n {
      var h := HoldOf(w, who).value;
      assert t'.holds == t.holds[h := t'.holds[h]];
      HeldSumUpdate(t.holds, h, t'.holds[h], a);
    } else {
      assert t'.holds == t.holds;
    }
  }

  lemma {:induction false} FigureMoves(cards: Cards, w: World, w': World, who: Owner, a: AccountId)
    requires HoldsOwned(w) && ActsFor(w, w', who) && ShareIsWeight(cards, w, who, a) && ShareIsWeight(cards, w', who, a)
    ensures Held(w'.Ledger(), a) - OpenSum(cards, w', a) == Held(w.Ledger(), a) - OpenSum(cards, w, a)
  {
    HeldMoves(w, w', who, a);
    OpenSumMoves(cards, w, w', who, a);
  }

  ghost predicate Acts(cards: Cards, w: World, w': World, who: Owner) {
    TablesOk(w'.Ledger()) && ActsFor(w, w', who) && ActorOk(cards, w', who)
  }

  /** The pending figure and the open rows' amounts, per account. */
  ghost predicate FiguresAgree(cards: Cards, w: World) { forall a :: Held(w.Ledger(), a) == OpenSum(cards, w, a) }

  lemma {:induction false} ActingKeepsFigures(cards: Cards, w: World, w': World, who: Owner)
    requires Inv(cards, w) && FiguresAgree(cards, w) && Acts(cards, w, w', who)
    ensures Inv(cards, w') && FiguresAgree(cards, w')
  {
    ActingKeepsInv(cards, w, w', who);
    forall a ensures Held(w'.Ledger(), a) == OpenSum(cards, w', a) {
      ShareBefore(cards, w, who, a);
      ActorShare(cards, w', who, a);
      FigureMoves(cards, w, w', who, a);
    }
  }

  // ---------- the services' calls ----------

  datatype Step =
    | SubmitTransfer(request: TransferRows.Request, now: nat)
    | ClaimTransfer(row: nat)
    | ProcessTransfer(row: nat, now: nat, accepted: Option<bool>)  // what the rail answers, if it answers
    | DecideTransfer(row: nat, approve: bool)
    | HoldBack(heldBack: CoolingRow, now: nat)
    | CancelHeldBack(row: nat, requester: string)
    | ReleaseHeldBack(row: nat, now: nat)
    | Authorize(purchase: CardAuthorizations.Request, now: nat)
    | Complete3DS(auth: nat, codeMatches: bool, now: nat)
    | SettleCard(auth: nat)
    | VoidCard(auth: nat)
    | ChargeBackCard(auth: nat, key: Key)
    | Posting(key: Key, ty: TxnType, legs: seq<Leg>)               // any credit, debit, transfer or fee
    | Reversing(original: TxnId, key: Key)

  /** Neither used in the ledger nor set aside for a row. */
  predicate FreshKey(w: World, key: Key) { key !in w.Ledger().keys && key !in w.keyOf }

  function WithLedger(w: World, t: Tables): World { w.(gate := w.gate.(ledger := t)) }

  ghost function Submitted(w: World, req: TransferRows.Request, now: nat): World {
    var who := OfTransfer(|w.gate.rows|);
    w.(gate := RiskGate.Submitted(w.gate, req, now),
       placedFor := w.placedFor + if req.direction == TransferRows.Outbound then [who] else [],
       keyOf := w.keyOf[req.key := who])
  }

  function HeldBack(w: World, req: CoolingRow, now: nat): World {
    var t, who := w.Ledger(), OfCoolingOff(|w.cooling|);
    var row := req.(hold := |t.holds|, releaseAt := now + CoolingOff.WINDOW, status := CoolingOffRows.Status.Pending, txn := None);
    WithLedger(w, t.(holds := t.holds + [Hold(req.from, req.amount, Active)]))
      .(cooling := w.cooling + [row], placedFor := w.placedFor + [who], keyOf := w.keyOf[req.key := who])
  }

  function WithCooling(w: World, i: nat, t: Tables, row: CoolingRow): World
    requires i < |w.cooling|
  {
    WithLedger(w, t).(cooling := w.cooling[i := row])
  }

  function CardView(w: World): CardAuthorizations.View { CardAuthorizations.View(w.Ledger(), w.auths) }

  /** The cards' tables after a call on authorization i; a hold it placed is its own. */
  function WithCards(w: World, v: CardAuthorizations.View, i: nat): World {
    WithLedger(w, v.ledger).(
      auths := v.auths, placedFor := w.placedFor + if |v.ledger.holds| > |w.Ledger().holds| then [OfAuthorization(i)] else [])
  }

  ghost function Do(cards: Cards, w: World, step: Step): World
    requires Inv(cards, w)
  {
    var t := w.Ledger();
    match step
    case SubmitTransfer(req, now) =>
      if !FreshKey(w, req.key) || (req.direction == TransferRows.Outbound && !CanCommit(t, PlaceHold(req.account, req.amount)))
      then w else Submitted(w, req, now)
    case ClaimTransfer(i) =>
      if i >= |w.gate.rows| || !RiskGate.Waiting(w.gate.rows[i]) then w
      else w.(gate := w.gate.(rows := w.gate.rows[i := w.gate.rows[i].(status := TransferRows.Processing)]))
    case ProcessTransfer(i, now, accepted) =>
      if i >= |w.gate.rows| || w.gate.rows[i].status != TransferRows.Processing then w
      else
        RiskGate.ProcessingIsInHand(w.gate, i);
        w.(gate := RiskGate.Processed(w.gate, i, now, accepted))
    case DecideTransfer(i, approve) =>
      if i >= |w.gate.rows| || w.gate.rows[i].risk != TransferRows.Held then w
      else
        assert RiskGate.RowOk(w.gate, i);
        w.(gate := RiskGate.Resolved(w.gate, i, approve))
    case HoldBack(req, now) => if !FreshKey(w, req.key) || !CanCommit(t, PlaceHold(req.from, req.amount)) then w else HeldBack(w, req, now)
    case CancelHeldBack(i, requester) =>
      if i >= |w.cooling| || w.cooling[i].sender != requester || w.cooling[i].status != CoolingOffRows.Status.Pending then w
      else
        var (t', released) := SerialLedger.Call(t, ReleaseHold(w.cooling[i].hold));
        if released.Rejected? then w else WithCooling(w, i, t', w.cooling[i].(status := CoolingOffRows.Cancelled))
    case ReleaseHeldBack(i, now) =>
      if i >= |w.cooling| || !Releasable(w.cooling[i], now) then w
      else
        var (t', row) := CoolingOffRows.Attempt(t, w.cooling[i].(status := CoolingOffRows.Processing), 3);
        WithCooling(w, i, t', row)
    case Authorize(req, now) =>
      if req.card !in cards || CardAuthorizations.KeyKnown(w.auths, req.key) || !FreshKey(w, req.settleKey) then w
      else
        var v := CardAuthorizations.Authorized(cards, CardView(w), req, now);
        if v == CardView(w) then w
        else WithCards(w, v, |w.auths|).(keyOf := w.keyOf[req.settleKey := OfAuthorization(|w.auths|)])
    case Complete3DS(i, codeMatches, now) =>
      if i >= |w.auths| then w
      else
        assert AuthOk(cards, t, w.auths[i]);
        WithCards(w, CardAuthorizations.Completed3DS(cards, CardView(w), i, codeMatches, now), i)
    case SettleCard(i) => if i >= |w.auths| then w else WithCards(w, CardAuthorizations.SettledAuth(CardView(w), i), i)
    case VoidCard(i) => if i >= |w.auths| then w else WithCards(w, CardAuthorizations.VoidedAuth(CardView(w), i), i)
    case ChargeBackCard(i, key) =>
      if i >= |w.auths| || !FreshKey(w, key) then w else WithCards(w, CardAuthorizations.ChargedBackAuth(CardView(w), i, key), i)
    case Posting(key, ty, legs) => if !FreshKey(w, key) then w else WithLedger(w, SerialLedger.Call(t, Post(key, ty, legs)).0)
    case Reversing(original, key) => if !FreshKey(w, key) then w else WithLedger(w, SerialLedger.Call(t, Reverse(original, key)).0)
  }

  /** A matured row, or one an earlier attempt could not finish. */
  predicate Releasable(row: CoolingRow, now: nat) {
    (row.status == CoolingOffRows.Status.Pending && row.releaseAt <= now) || row.status == CoolingOffRows.Processing
  }

  // ---------- transfers ----------

  lemma {:induction false} SubmitActs(cards: Cards, w: World, req: TransferRows.Request, now: nat)
    requires Inv(cards, w) && FreshKey(w, req.key)
    requires req.direction == TransferRows.Outbound ==> CanCommit(w.Ledger(), PlaceHold(req.account, req.amount))
    ensures Acts(cards, w, Submitted(w, req, now), OfTransfer(|w.gate.rows|))
  {
    forall i | 0 <= i < |w.gate.rows| ensures w.gate.rows[i].key != req.key {
      assert Owns(w, OfTransfer(i), w.gate.rows[i].hold, w.gate.rows[i].key);
    }
    RiskGate.SubmitKeepsOk(w.gate, req, now);
  }

  lemma {:induction false} GateActs(cards: Cards, w: World, v: RiskGate.View, i: nat)
    requires TransfersOk(w) && i < |w.gate.rows| && RiskGate.OnlyRow(w.gate, v, i) && RiskGate.Ok(v)
    ensures Acts(cards, w, w.(gate := v), OfTransfer(i))
  {
    assert Owns(w, OfTransfer(i), w.gate.rows[i].hold, w.gate.rows[i].key);
  }

  // ---------- cooling-off rows ----------

  lemma {:induction false} HoldBackActs(cards: Cards, w: World, req: CoolingRow, now: nat)
    requires Inv(cards, w) && FreshKey(w, req.key) && CanCommit(w.Ledger(), PlaceHold(req.from, req.amount))
    ensures Acts(cards, w, HeldBack(w, req, now), OfCoolingOff(|w.cooling|))
  {
    CommitKeepsOk(w.Ledger(), PlaceHold(req.from, req.amount));
  }

  lemma {:induction false} CoolingActs(cards: Cards, w: World, i: nat, t: Tables, row: CoolingRow)
    requires CoolingOk(w) && i < |w.cooling| && CoolingOff.OnlyFor(w.Ledger(), t, w.cooling[i])
    requires TablesOk(t) && CoolingRowOk(t, row) && row.key == w.cooling[i].key && row.hold == w.cooling[i].hold
    ensures Acts(cards, w, WithCooling(w, i, t, row), OfCoolingOff(i))
  {
    assert Owns(w, OfCoolingOff(i), Some(w.cooling[i].hold), w.cooling[i].key);
  }

  lemma {:induction false} CancelActs(cards: Cards, w: World, i: nat)
    requires Inv(cards, w) && i < |w.cooling| && w.cooling[i].status == CoolingOffRows.Status.Pending
    ensures var (t, r) := SerialLedger.Call(w.Ledger(), ReleaseHold(w.cooling[i].hold));
      r.Succeeded? && Acts(cards, w, WithCooling(w, i, t, w.cooling[i].(status := CoolingOffRows.Cancelled)), OfCoolingOff(i))
  {
    assert CoolingRowOk(w.Ledger(), w.cooling[i]);
    SerialLedger.CallKeepsOk(w.Ledger(), ReleaseHold(w.cooling[i].hold));
    CoolingActs(cards, w, i, SerialLedger.Call(w.Ledger(), ReleaseHold(w.cooling[i].hold)).0,
      w.cooling[i].(status := CoolingOffRows.Cancelled));
  }

  lemma {:induction false} AttemptReleases(t: Tables, row: CoolingRow)
    requires KeysOk(t) && CoolingOff.RowOk(t, row) && row.status == CoolingOffRows.Processing
    ensures var (t', row') := CoolingOffRows.Attempt(t, row, 3);
      CoolingRowOk(t', row') && CoolingOff.OnlyFor(t, t', row) && row'.key == row.key && row'.hold == row.hold
  {
    CoolingOff.AttemptKeepsRow(t, row, 3);
  }

  lemma {:induction false} ReleaseActs(cards: Cards, w: World, i: nat, now: nat)
    requires Inv(cards, w) && i < |w.cooling| && Releasable(w.cooling[i], now)
    ensures var (t, row) := CoolingOffRows.Attempt(w.Ledger(), w.cooling[i].(status := CoolingOffRows.Processing), 3);
      Acts(cards, w, WithCooling(w, i, t, row), OfCoolingOff(i))
  {
    var claimed := w.cooling[i].(status := CoolingOffRows.Processing);
    assert CoolingRowOk(w.Ledger(), w.cooling[i]);
    CoolingOff.AttemptKeepsTables(w.Ledger(), claimed, 3);
    AttemptReleases(w.Ledger(), claimed);
    var (t, row) := CoolingOffRows.Attempt(w.Ledger(), claimed, 3);
    CoolingActs(cards, w, i, t, row);
  }

  // ---------- card authorizations ----------

  /** Authorization i changed without a new hold. */
  lemma {:induction false} CardActs(cards: Cards, w: World, v: CardAuthorizations.View, i: nat)
    requires AuthsOk(cards, w) && i < |w.auths| && |v.ledger.holds| == |w.Ledger().holds| && TablesOk(v.ledger)
    requires |v.auths| == |w.auths| && v.auths == w.auths[i := v.auths[i]] && OnlyBy(w, v.ledger, Some(OfAuthorization(i)))
    requires v.auths[i].hold == w.auths[i].hold && v.auths[i].settleKey == w.auths[i].settleKey && AuthOk(cards, v.ledger, v.auths[i])
    ensures Acts(cards, w, WithCards(w, v, i), OfAuthorization(i))
  {
    assert Owns(w, OfAuthorization(i), w.auths[i].hold, w.auths[i].settleKey);
  }

  /** The hold of a purchase: the next one, active, for the card's account. */
  ghost predicate Reserves(cards: Cards, t: Tables, card: CardAuthorizations.CardId, amount: int, t': Tables)
    requires card in cards
  {
    TablesOk(t') && t' == t.(holds := t.holds + [Hold(cards[card].account, amount, Active)])
  }

  lemma {:induction false} HoldReserves(cards: Cards, t: Tables, card: CardAuthorizations.CardId, amount: int)
    requires TablesOk(t) && card in cards
    ensures var (t', r) := CardAuthorizations.HoldFor(t, cards[card], amount);
      if r.Succeeded? then r.id == |t.holds| && Reserves(cards, t, card, amount, t') else t' == t
  {
    SerialLedger.CallKeepsOk(t, PlaceHold(cards[card].account, amount));
  }

  /** A challenged authorization gets its hold. */
  lemma {:induction false} ApprovalActs(cards: Cards, w: World, v: CardAuthorizations.View, i: nat)
    requires AuthsOk(cards, w) && HoldsOwned(w) && i < |w.auths| && w.auths[i].status == CardAuthorizations.Requires3DS
    requires w.auths[i].card in cards && Reserves(cards, w.Ledger(), w.auths[i].card, w.auths[i].amount, v.ledger)
    requires v.auths == w.auths[i := w.auths[i].(status := CardAuthorizations.Approved, hold := Some(|w.Ledger().holds|))]
    ensures Acts(cards, w, WithCards(w, v, i), OfAuthorization(i))
  {
    assert AuthOk(cards, w.Ledger(), w.auths[i]);
    assert Owns(w, OfAuthorization(i), w.auths[i].hold, w.auths[i].settleKey);
  }

  /** A new authorization, with its hold if it is approved. */
  lemma {:induction false} NewAuthActs(cards: Cards, w: World, v: CardAuthorizations.View, auth: Auth)
    requires HoldsOwned(w) && TablesOk(v.ledger) && auth.card in cards && FreshKey(w, auth.settleKey)
    requires v.auths == w.auths + [auth]
    requires if auth.status == CardAuthorizations.Approved
             then auth.hold == Some(|w.Ledger().holds|) && Reserves(cards, w.Ledger(), auth.card, auth.amount, v.ledger)
             else auth.hold == None && v.ledger == w.Ledger()
                  && auth.status in {CardAuthorizations.Requires3DS, CardAuthorizations.Declined}
    ensures Acts(cards, w, WithCards(w, v, |w.auths|).(keyOf := w.keyOf[auth.settleKey := OfAuthorization(|w.auths|)]),
      OfAuthorization(|w.auths|))
  {
  }

  lemma {:induction false} AuthorizeActs(cards: Cards, w: World, req: CardAuthorizations.Request, now: nat)
    requires Inv(cards, w) && req.card in cards && FreshKey(w, req.settleKey)
    requires CardAuthorizations.Authorized(cards, CardView(w), req, now) != CardView(w)
    ensures Acts(cards, w, WithCards(w, CardAuthorizations.Authorized(cards, CardView(w), req, now), |w.auths|)
        .(keyOf := w.keyOf[req.settleKey := OfAuthorization(|w.auths|)]), OfAuthorization(|w.auths|))
  {
    var v := CardAuthorizations.Authorized(cards, CardView(w), req, now);
    HoldReserves(cards, w.Ledger(), req.card, req.amount);
    NewAuthActs(cards, w, v, v.auths[|w.auths|]);
  }

  lemma {:induction false} CompleteActs(cards: Cards, w: World, i: nat, codeMatches: bool, now: nat)
    requires Inv(cards, w) && i < |w.auths| && AuthOk(cards, w.Ledger(), w.auths[i])
    ensures var v := CardAuthorizations.Completed3DS(cards, CardView(w), i, codeMatches, now);
      v == CardView(w) || Acts(cards, w, WithCards(w, v, i), OfAuthorization(i))
  {
    var v := CardAuthorizations.Completed3DS(cards, CardView(w), i, codeMatches, now);
    HoldReserves(cards, w.Ledger(), w.auths[i].card, w.auths[i].amount);
    if v != CardView(w) {
      if v.auths[i].status == CardAuthorizations.Approved {
        ApprovalActs(cards, w, v, i);
      } else {
        CardActs(cards, w, v, i);
      }
    }
  }

  /** An active hold was captured under no key, so a capture that succeeds is the first. */
  lemma {:induction false} FirstCapture(t: Tables, h: HoldId, key: Key)
    requires KeysOk(t) && CapturesOk(t) && h < |t.holds| && t.holds[h].status == Active
    ensures var (t', r) := SerialLedger.Call(t, CaptureHold(h, key));
      if r.Rejected? then t' == t
      else t'.holds == t.holds[h := t.holds[h].(status := Captured)] && forall k | k != key :: SameKey(t, t', k)
  {
    if key in t.keys && t.keys[key].hash == CaptureHash(h) {
      assert Captures(t, t.keys[key].response.value, h);
    }
  }

  lemma {:induction false} SettleActs(cards: Cards, w: World, i: nat)
    requires Inv(cards, w) && i < |w.auths|
    ensures var v := CardAuthorizations.SettledAuth(CardView(w), i);
      v == CardView(w) || Acts(cards, w, WithCards(w, v, i), OfAuthorization(i))
  {
    var v, auth := CardAuthorizations.SettledAuth(CardView(w), i), w.auths[i];
    assert AuthOk(cards, w.Ledger(), auth) && Owns(w, OfAuthorization(i), auth.hold, auth.settleKey);
    if v != CardView(w) {
      FirstCapture(w.Ledger(), auth.hold.value, auth.settleKey);
      SerialLedger.CallKeepsOk(w.Ledger(), CaptureHold(auth.hold.value, auth.settleKey));
      CardActs(cards, w, v, i);
    }
  }

  lemma {:induction false} FirstRelease(t: Tables, h: HoldId)
    requires h < |t.holds| && t.holds[h].status == Active
    ensures SerialLedger.Call(t, ReleaseHold(h)).0 == SetHold(t, h, Released)
  {
  }

  lemma {:induction false} VoidActs(cards: Cards, w: World, i: nat)
    requires Inv(cards, w) && i < |w.auths|
    ensures var v := CardAuthorizations.VoidedAuth(CardView(w), i);
      v == CardView(w) || Acts(cards, w, WithCards(w, v, i), OfAuthorization(i))
  {
    var v, auth := CardAuthorizations.VoidedAuth(CardView(w), i), w.auths[i];
    assert AuthOk(cards, w.Ledger(), auth) && Owns(w, OfAuthorization(i), auth.hold, auth.settleKey);
    if v != CardView(w) {
      FirstRelease(w.Ledger(), auth.hold.value);
      SerialLedger.CallKeepsOk(w.Ledger(), ReleaseHold(auth.hold.value));
      CardActs(cards, w, v, i);
    }
  }

  /** A posting or a reversal leaves the holds alone and uses one key. */
  lemma {:induction false} PostingOnly(w: World, op: Op)
    requires (op.Post? || op.Reverse?) && FreshKey(w, op.key)
    ensures var t' := SerialLedger.Call(w.Ledger(), op).0; t'.holds == w.Ledger().holds && OnlyBy(w, t', None)
  {
  }

  lemma {:induction false} ChargeBackActs(cards: Cards, w: World, i: nat, key: Key)
    requires Inv(cards, w) && i < |w.auths| && FreshKey(w, key)
    ensures var v := CardAuthorizations.ChargedBackAuth(CardView(w), i, key);
      v == CardView(w) || Acts(cards, w, WithCards(w, v, i), OfAuthorization(i))
  {
    var v, auth := CardAuthorizations.ChargedBackAuth(CardView(w), i, key), w.auths[i];
    assert AuthOk(cards, w.Ledger(), auth);
    if v != CardView(w) {
      PostingOnly(w, Reverse(auth.txn.value, key));
      SerialLedger.CallKeepsOk(w.Ledger(), Reverse(auth.txn.value, key));
      CardActs(cards, w, v, i);
    }
  }

  // ---------- every call, every run ----------

  lemma {:induction false} PostingKeepsInv(cards: Cards, w: World, op: Op)
    requires Inv(cards, w) && (op.Post? || op.Reverse?) && FreshKey(w, op.key)
    ensures Inv(cards, WithLedger(w, SerialLedger.Call(w.Ledger(), op).0))
  {
    var w' := WithLedger(w, SerialLedger.Call(w.Ledger(), op).0);
    PostingOnly(w, op);
    SerialLedger.CallKeepsOk(w.Ledger(), op);
    TransfersStand(w, w', None);
    CoolingStands(w, w', None);
    AuthsStand(cards, w, w', None);
    HoldsStillOwned(w, w'.Ledger());
  }

  lemma {:induction false} HoldsStillOwned(w: World, t: Tables)
    requires HoldsOwned(w) && t.holds == w.Ledger().holds
    ensures HoldsOwned(WithLedger(w, t))
  {
    forall h: HoldId | h < |w.placedFor| ensures HoldOf(WithLedger(w, t), w.placedFor[h]) == Some(h) {
      assert HoldOf(w, w.placedFor[h]) == Some(h);
    }
  }

  lemma {:induction false} PostingKeepsFigures(cards: Cards, w: World, op: Op)
    requires FiguresAgree(cards, w) && (op.Post? || op.Reverse?) && FreshKey(w, op.key)
    ensures FiguresAgree(cards, WithLedger(w, SerialLedger.Call(w.Ledger(), op).0))
  {
    PostingOnly(w, op);
    var w' := WithLedger(w, SerialLedger.Call(w.Ledger(), op).0);
    forall a ensures Held(w'.Ledger(), a) == OpenSum(cards, w', a) {
      assert Held(w.Ledger(), a) == OpenSum(cards, w, a);
    }
  }

  lemma {:induction false} TransferKeepsFigures(cards: Cards, w: World, step: Step)
    requires Inv(cards, w) && FiguresAgree(cards, w)
    requires step.SubmitTransfer? || step.ClaimTransfer? || step.ProcessTransfer? || step.DecideTransfer?
    ensures Inv(cards, Do(cards, w, step)) && FiguresAgree(cards, Do(cards, w, step))
  {
    var w' := Do(cards, w, step);
    if w' != w {
      match step {
        case SubmitTransfer(req, now) => SubmitActs(cards, w, req, now);
        case ClaimTransfer(i) => RiskGate.ClaimedOk(w.gate, i, w'.gate.rows[i]);
        case ProcessTransfer(i, now, accepted) =>
          RiskGate.ProcessingIsInHand(w.gate, i);
          RiskGate.ProcessedOk(w.gate, i, now, accepted);
        case DecideTransfer(i, approve) =>
          assert RiskGate.RowOk(w.gate, i);
          RiskGate.ResolvedOk(w.gate, i, approve);
      }
      if step.SubmitTransfer? {
        ActingKeepsFigures(cards, w, w', OfTransfer(|w.gate.rows|));
      } else {
        GateActs(cards, w, w'.gate, step.row);
        ActingKeepsFigures(cards, w, w', OfTransfer(step.row));
      }
    }
  }

  lemma {:induction false} CoolingKeepsFigures(cards: Cards, w: World, step: Step)
    requires Inv(cards, w) && FiguresAgree(cards, w) && (step.HoldBack? || step.CancelHeldBack? || step.ReleaseHeldBack?)
    ensures Inv(cards, Do(cards, w, step)) && FiguresAgree(cards, Do(cards, w, step))
  {
    var w' := Do(cards, w, step);
    if w' != w {
      match step {
        case HoldBack(req, now) => HoldBackActs(cards, w, req, now);
        case CancelHeldBack(i, requester) => CancelActs(cards, w, i);
        case ReleaseHeldBack(i, now) => ReleaseActs(cards, w, i, now);
      }
      ActingKeepsFigures(cards, w, w', OfCoolingOff(if step.HoldBack? then |w.cooling| else step.row));
    }
  }

  lemma {:induction false} CardKeepsFigures(cards: Cards, w: World, step: Step)
    requires Inv(cards, w) && FiguresAgree(cards, w)
    requires step.Authorize? || step.Complete3DS? || step.SettleCard? || step.VoidCard? || step.ChargeBackCard?
    ensures Inv(cards, Do(cards, w, step)) && FiguresAgree(cards, Do(cards, w, step))
  {
    var w' := Do(cards, w, step);
    if w' != w {
      match step {
        case Authorize(req, now) => AuthorizeActs(cards, w, req, now);
        case Complete3DS(i, codeMatches, now) =>
          assert AuthOk(cards, w.Ledger(), w.auths[i]);
          CompleteActs(cards, w, i, codeMatches, now);
        case SettleCard(i) => SettleActs(cards, w, i);
        case VoidCard(i) => VoidActs(cards, w, i);
        case ChargeBackCard(i, key) => ChargeBackActs(cards, w, i, key);
      }
      ActingKeepsFigures(cards, w, w', OfAuthorization(if step.Authorize? then |w.auths| else step.auth));
    }
  }

  lemma {:induction false} DoKeepsFigures(cards: Cards, w: World, step: Step)
    requires Inv(cards, w) && FiguresAgree(cards, w)
    ensures Inv(cards, Do(cards, w, step)) && FiguresAgree(cards, Do(cards, w, step))
  {
    match step
    case Posting(key, ty, legs) =>
      if FreshKey(w, key) {
        PostingKeepsInv(cards, w, Post(key, ty, legs));
        PostingKeepsFigures(cards, w, Post(key, ty, legs));
      }
    case Reversing(original, key) =>
      if FreshKey(w, key) {
        PostingKeepsInv(cards, w, Reverse(original, key));
        PostingKeepsFigures(cards, w, Reverse(original, key));
      }
    case HoldBack(_, _) => CoolingKeepsFigures(cards, w, step);
    case CancelHeldBack(_, _) => CoolingKeepsFigures(cards, w, step);
    case ReleaseHeldBack(_, _) => CoolingKeepsFigures(cards, w, step);
    case SubmitTransfer(_, _) => TransferKeepsFigures(cards, w, step);
    case ClaimTransfer(_) => TransferKeepsFigures(cards, w, step);
    case ProcessTransfer(_, _, _) => TransferKeepsFigures(cards, w, step);
    case DecideTransfer(_, _) => TransferKeepsFigures(cards, w, step);
    case _ => CardKeepsFigures(cards, w, step);
  }

  // ---------- every step that can act does ----------

  lemma {:induction false} TransferStepsAct(cards: Cards, w: World, step: Step)
    requires Inv(cards, w)
    ensures var v, v' := w.gate, Do(cards, w, step).gate;
      match step
      case SubmitTransfer(req, now) =>
        if FreshKey(w, req.key) && (req.direction == TransferRows.Inbound || SerialLedger.Affords(v.ledger, req.account, req.amount))
        then RiskGate.Queued(v, v', req, now) else v' == v
      case ClaimTransfer(i) =>
        if i < |v.rows| && v.rows[i].status == TransferRows.Status.Pending && v.rows[i].risk == TransferRows.Clear
        then v' == v.(rows := v.rows[i := v.rows[i].(status := TransferRows.Processing)]) else v' == v
      case ProcessTransfer(i, now, answer) =>
        if i < |v.rows| && v.rows[i].status == TransferRows.Processing then RiskGate.Turn(v, v', i, now, answer) else v' == v
      case DecideTransfer(i, approve) =>
        if i < |v.rows| && v.rows[i].risk == TransferRows.Held then RiskGate.Decided(v, v', i, approve) else v' == v
      case _ => true
  {
    match step
    case SubmitTransfer(req, now) => RiskGate.SubmittedQueues(w.gate, req, now);
    case ProcessTransfer(i, now, answer) => if i < |w.gate.rows| && w.gate.rows[i].status == TransferRows.Processing {
        RiskGate.ProcessingIsInHand(w.gate, i);
        RiskGate.ProcessedTurn(w.gate, i, now, answer);
      }
    case DecideTransfer(i, approve) => if i < |w.gate.rows| && w.gate.rows[i].risk == TransferRows.Held {
        assert RiskGate.RowOk(w.gate, i);
        RiskGate.ResolvedDecides(w.gate, i, approve);
      }
    case _ =>
  }

  lemma {:induction false} CoolingStepsAct(cards: Cards, w: World, step: Step)
    requires Inv(cards, w)
    ensures var w', t, t' := Do(cards, w, step), w.Ledger(), Do(cards, w, step).Ledger();
      match step
      case HoldBack(req, now) =>
        if FreshKey(w, req.key) && SerialLedger.Affords(t, req.from, req.amount)
        then CoolingOff.HeldBack(t, w.cooling, t', w'.cooling, req, now) else w' == w
      case CancelHeldBack(i, requester) =>
        if i < |w.cooling| && w.cooling[i].sender == requester && w.cooling[i].status == CoolingOffRows.Status.Pending then
          && w'.cooling == w.cooling[i := w.cooling[i].(status := CoolingOffRows.Cancelled)]
          && w.cooling[i].hold < |t.holds| && t' == SetHold(t, w.cooling[i].hold, Released)
        else w' == w
      case ReleaseHeldBack(i, now) =>
        if i < |w.cooling| && (w.cooling[i].status == CoolingOffRows.Processing
             || (w.cooling[i].status == CoolingOffRows.Status.Pending && w.cooling[i].releaseAt <= now))
        then
          var (after, row) := CoolingOffRows.Attempt(t, w.cooling[i].(status := CoolingOffRows.Processing), 3);
          t' == after && w'.cooling == w.cooling[i := row]
        else w' == w
      case _ => true
  {
    match step
    case CancelHeldBack(i, _) => if i < |w.cooling| && w.cooling[i].status == CoolingOffRows.Status.Pending {
        assert CoolingRowOk(w.Ledger(), w.cooling[i]);
      }
    case _ =>
  }

  lemma {:induction false} CardStepsAct(cards: Cards, w: World, step: Step)
    requires Inv(cards, w)
    ensures var v, v' := CardView(w), CardView(Do(cards, w, step));
      match step
      case Authorize(req, now) =>
        if req.card in cards && !CardAuthorizations.KeyKnown(w.auths, req.key) && FreshKey(w, req.settleKey)
        then CardAuthorizations.Answered(cards[req.card], v, v', req, now) else v' == v
      case Complete3DS(i, codeMatches, now) =>
        if i < |w.auths| && w.auths[i].card in cards
        then CardAuthorizations.ChallengeMet(cards[w.auths[i].card], v, v', i, codeMatches, now) else v' == v
      case SettleCard(i) => v' == if i < |w.auths| then CardAuthorizations.SettledAuth(v, i) else v
      case VoidCard(i) => v' == if i < |w.auths| then CardAuthorizations.VoidedAuth(v, i) else v
      case ChargeBackCard(i, key) => v' == if i < |w.auths| && FreshKey(w, key) then CardAuthorizations.ChargedBackAuth(v, i, key) else v
      case Posting(key, ty, legs) => FreshKey(w, key) ==> v'.ledger == SerialLedger.Call(v.ledger, Post(key, ty, legs)).0
      case Reversing(original, key) => FreshKey(w, key) ==> v'.ledger == SerialLedger.Call(v.ledger, Reverse(original, key)).0
      case _ => true
  {
    match step
    case Authorize(req, now) => if req.card in cards { CardAuthorizations.AnswerHasReason(cards, CardView(w), req, now); }
    case Complete3DS(i, codeMatches, now) => if i < |w.auths| {
        assert AuthOk(cards, w.Ledger(), w.auths[i]);
        CardAuthorizations.CompletionMeets(cards, CardView(w), i, codeMatches, now);
      }
    case _ =>
  }

  // ---------- every run ----------

  ghost predicate Started(cards: Cards, w: World) { Inv(cards, w) && FiguresAgree(cards, w) }

  ghost function Run(cards: Cards, w: World, steps: seq<Step>): (w': World)
    requires Started(cards, w)
    ensures Started(cards, w')
  {
    if steps == [] then w
    else
      var w1 := Run(cards, w, steps[..|steps| - 1]);
      DoKeepsFigures(cards, w1, steps[|steps| - 1]);
      Do(cards, w1, steps[|steps| - 1])
  }

  /** The three products' tables are empty and the ledger, however full, holds nothing back. */
  function Opened(t: Tables): World { World(RiskGate.View(t, [], map[], {}, {}), [], [], [], map[]) }

  lemma {:induction false} OpenedIsStarted(cards: Cards, t: Tables)
    requires TablesOk(t) && t.holds == []
    ensures Started(cards, Opened(t))
  {
    var w := Opened(t);
    assert TransferShares(w.gate.rows) == [] && CoolingShares(w.cooling) == [] && AuthShares(cards, w.auths) == [];
  }

  /** The row for which the hold was placed still waits for the money: an unfinished outbound transfer, a pending
      cooling-off row or an approved authorization. */
  predicate OpenRow(cards: Cards, w: World, who: Owner) { ShareOf(cards, w, who).open }

  predicate ActiveHold(w: World, h: HoldId) { h < |w.Ledger().holds| && w.Ledger().holds[h].status == Active }

  lemma {:induction false} OpenIffActive(cards: Cards, w: World, who: Owner)
    requires TransfersOk(w) && CoolingOk(w) && AuthsOk(cards, w)
    ensures OpenRow(cards, w, who) <==> HoldOf(w, who).Some? && ActiveHold(w, HoldOf(w, who).value)
  {
    match who
    case OfTransfer(i) => if i < |w.gate.rows| { assert RiskGate.RowOk(w.gate, i); }
    case OfCoolingOff(i) => if i < |w.cooling| { assert CoolingRowOk(w.Ledger(), w.cooling[i]); }
    case OfAuthorization(i) => if i < |w.auths| { assert AuthOk(cards, w.Ledger(), w.auths[i]); }
  }

  lemma {:induction false} OneOwner(cards: Cards, w: World, who: Owner)
    requires TransfersOk(w) && CoolingOk(w) && AuthsOk(cards, w) && HoldOf(w, who).Some?
    ensures HoldOf(w, who).value < |w.placedFor| && w.placedFor[HoldOf(w, who).value] == who
  {
    match who
    case OfTransfer(i) => assert Owns(w, who, w.gate.rows[i].hold, w.gate.rows[i].key);
    case OfCoolingOff(i) => assert Owns(w, who, Some(w.cooling[i].hold), w.cooling[i].key);
    case OfAuthorization(i) => assert Owns(w, who, w.auths[i].hold, w.auths[i].settleKey);
  }

  /** In every run of the three products' calls and of any other postings and reversals: each active hold belongs to
      exactly one open row and each open row has an active hold, so the pending balance of every account is the sum of
      its open rows' amounts. */
  lemma {:induction false} PendingIsOpenRows(cards: Cards, t: Tables, steps: seq<Step>)
    requires TablesOk(t) && t.holds == []
    ensures Started(cards, Opened(t))
    ensures var w := Run(cards, Opened(t), steps);
      && (forall a :: Held(w.Ledger(), a) == OpenSum(cards, w, a))
      && (forall h: HoldId | ActiveHold(w, h) :: h < |w.placedFor| && HoldOf(w, w.placedFor[h]) == Some(h) && OpenRow(cards, w, w.placedFor[h]))
      && (forall x, y | HoldOf(w, x).Some? && HoldOf(w, x) == HoldOf(w, y) :: x == y)
      && (forall who | OpenRow(cards, w, who) :: HoldOf(w, who).Some? && ActiveHold(w, HoldOf(w, who).value))
  {
    OpenedIsStarted(cards, t);
    var w := Run(cards, Opened(t), steps);
    forall who: Owner ensures OpenRow(cards, w, who) <==> HoldOf(w, who).Some? && ActiveHold(w, HoldOf(w, who).value) {
      OpenIffActive(cards, w, who);
    }
    forall x: Owner, y: Owner | HoldOf(w, x).Some? && HoldOf(w, x) == HoldOf(w, y) ensures x == y {
      OneOwner(cards, w, x);
      OneOwner(cards, w, y);
    }
  }
}
