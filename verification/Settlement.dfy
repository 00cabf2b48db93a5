/** One merchant's settlement: charges gathered into cycles, their net paid out less a reserve, and the reserve paid
    later, by one ticker that may crash between any two statements. */
module Settlement {
  import LedgerTables
  import opened Sums
  import Calendar
  import GoArithmetic

  type ChargeId = nat
  type CycleId = nat

  /** A charge, whether its transfer completed and its transaction still stands, and its fee once applied. */
  datatype Charge = Charge(amount: int, completed: bool, posted: bool, fee: LedgerTables.Option<int>)

  datatype Cycle = Cycle(gross: int, fees: int, reserve: int, net: int, releaseAt: nat, released: bool, linked: bool, reserveLinked: bool)

  datatype PayoutKey = CyclePayout(cycle: CycleId) | ReservePayout(cycle: CycleId)

  datatype Config = Config(reserveBps: int, holdDays: nat, interval: Calendar.Interval) {
    predicate Valid() { 0 <= reserveBps <= 10000 && (interval == Calendar.Daily || interval == Calendar.Weekly) }
  }

  /** `items` says which cycle took each charge; `transfers` holds the outbound transfer sent under each key. */
  datatype Books = Books(
    charges: seq<Charge>,
    items: map<ChargeId, CycleId>,
    cycles: seq<Cycle>,
    transfers: map<PayoutKey, int>,
    payouts: set<PayoutKey>)

  // ---------- payout keys ----------

  function KeyText(k: PayoutKey, idOf: CycleId -> string): string {
    match k
    case CyclePayout(c) => "settlement:" + idOf(c)
    case ReservePayout(c) => "settlement-reserve:" + idOf(c)
  }

  lemma {:induction false} PayoutKeysDiffer(a: PayoutKey, b: PayoutKey, idOf: CycleId -> string)
    requires forall c: nat, d: nat | idOf(c) == idOf(d) :: c == d
    requires KeyText(a, idOf) == KeyText(b, idOf)
    ensures a == b
  {
    var x, y := KeyText(a, idOf), KeyText(b, idOf);
    assert x[10] == (if a.CyclePayout? then ':' else '-') && y[10] == (if b.CyclePayout? then ':' else '-');
    if a.CyclePayout? {
      assert x[11..] == idOf(a.cycle) && y[11..] == idOf(b.cycle);
    } else {
      assert x[19..] == idOf(a.cycle) && y[19..] == idOf(b.cycle);
    }
  }

  // ---------- shares ----------

  function Amounts(charges: seq<Charge>): nat -> int { (i: nat) => if i < |charges| then charges[i].amount else 0 }

  function Fees(charges: seq<Charge>): nat -> int {
    (i: nat) => if i < |charges| && charges[i].fee.Some? then charges[i].fee.value else 0
  }

  /** The weights of the charges that cycle c took, and of those that cycles below m took. */
  function TakenBy(items: map<ChargeId, CycleId>, w: nat -> int, c: CycleId): nat -> int {
    (i: nat) => if i in items && items[i] == c then w(i) else 0
  }

  function TakenBelow(items: map<ChargeId, CycleId>, w: nat -> int, m: nat): nat -> int {
    (i: nat) => if i in items && items[i] < m then w(i) else 0
  }

  /** What the charges taken by cycle c add up to. */
  function Share(items: map<ChargeId, CycleId>, w: nat -> int, c: CycleId, n: nat): int { Sum(TakenBy(items, w, c), n) }

  function Shares(items: map<ChargeId, CycleId>, w: nat -> int, n: nat): nat -> int { (c: nat) => Share(items, w, c, n) }

  predicate Ready(charge: Charge) { charge.completed && charge.posted && charge.fee.Some? }

  predicate Eligible(b: Books, i: ChargeId) { i < |b.charges| && Ready(b.charges[i]) && i !in b.items }

  // ---------- what holds at every statement boundary ----------

  predicate CycleOk(b: Books, c: CycleId)
    requires c < |b.cycles|
  {
    var cycle := b.cycles[c];
    && cycle.gross == Share(b.items, Amounts(b.charges), c, |b.charges|)
    && cycle.fees == Share(b.items, Fees(b.charges), c, |b.charges|)
    && cycle.net == cycle.gross - cycle.fees >= 0
    && 0 <= cycle.reserve <= cycle.net
    && (cycle.released ==> ReservePayout(c) in b.transfers)
  }

  predicate TransferOk(b: Books, k: PayoutKey)
    requires k in b.transfers
  {
    && k.cycle < |b.cycles|
    && b.transfers[k] > 0
    && b.transfers[k] == if k.CyclePayout? then b.cycles[k.cycle].net - b.cycles[k.cycle].reserve else b.cycles[k.cycle].reserve
  }

  ghost predicate Ok(b: Books) {
    && (forall i | i in b.items :: i < |b.charges| && b.items[i] < |b.cycles| && b.charges[i].fee.Some?)
    && (forall c | 0 <= c < |b.cycles| :: CycleOk(b, c))
    && (forall k | k in b.transfers :: TransferOk(b, k))
    && b.payouts <= b.transfers.Keys
  }

  /** A cycle splits its gross into fees, reserve and payout, and never sends more than those. */
  lemma {:induction false} CycleAddsUp(b: Books, c: CycleId)
    requires Ok(b) && c < |b.cycles|
    ensures var cycle := b.cycles[c];
      && cycle.gross == cycle.fees + cycle.reserve + (cycle.net - cycle.reserve)
      && 0 <= cycle.reserve <= cycle.net
      && Sent(b, CyclePayout(c)) + Sent(b, ReservePayout(c)) <= cycle.gross - cycle.fees
  {
    assert CycleOk(b, c);
    if CyclePayout(c) in b.transfers { assert TransferOk(b, CyclePayout(c)); }
    if ReservePayout(c) in b.transfers { assert TransferOk(b, ReservePayout(c)); }
  }

  function Sent(b: Books, k: PayoutKey): int { if k in b.transfers then b.transfers[k] else 0 }

  /** Splitting settled charges by cycle loses and repeats nothing. */
  lemma {:induction false} SharesAddUp(items: map<ChargeId, CycleId>, w: nat -> int, cycles: nat, n: nat)
    ensures Sum(Shares(items, w, n), cycles) == Sum(TakenBelow(items, w, cycles), n)
  {
    if cycles == 0 {
      ZeroSum(TakenBelow(items, w, 0), n);
    } else {
      SharesAddUp(items, w, cycles - 1, n);
      SplitSum(TakenBelow(items, w, cycles - 1), TakenBy(items, w, cycles - 1), TakenBelow(items, w, cycles), n);
    }
  }

  function CycleGross(b: Books): nat -> int { (c: nat) => if c < |b.cycles| then b.cycles[c].gross else 0 }

  function CycleFees(b: Books): nat -> int { (c: nat) => if c < |b.cycles| then b.cycles[c].fees else 0 }

  function Settled(b: Books, w: nat -> int): nat -> int { (i: nat) => if i in b.items then w(i) else 0 }

  /** The cycles' gross amounts and fees are exactly the amounts and fees of the charges they took. */
  lemma {:induction false} NothingLostOrRepeated(b: Books)
    requires Ok(b)
    ensures Sum(CycleGross(b), |b.cycles|) == Sum(Settled(b, Amounts(b.charges)), |b.charges|)
    ensures Sum(CycleFees(b), |b.cycles|) == Sum(Settled(b, Fees(b.charges)), |b.charges|)
  {
    var m, n := |b.cycles|, |b.charges|;
    forall c: nat | c < m
      ensures CycleGross(b)(c) == Shares(b.items, Amounts(b.charges), n)(c) && CycleFees(b)(c) == Shares(b.items, Fees(b.charges), n)(c)
    {
      assert CycleOk(b, c);
    }
    SameSum(CycleGross(b), Shares(b.items, Amounts(b.charges), n), m);
    SameSum(CycleFees(b), Shares(b.items, Fees(b.charges), n), m);
    SharesAddUp(b.items, Amounts(b.charges), m, n);
    SharesAddUp(b.items, Fees(b.charges), m, n);
    SameSum(TakenBelow(b.items, Amounts(b.charges), m), Settled(b, Amounts(b.charges)), n);
    SameSum(TakenBelow(b.items, Fees(b.charges), m), Settled(b, Fees(b.charges)), n);
  }

  // ---------- a new cycle ----------

  /** The weights of the charges waiting to be settled. */
  function Waiting(b: Books, w: nat -> int): nat -> int { (i: nat) => if Eligible(b, i) then w(i) else 0 }

  function Payout(net: int, bps: int): (int, int) {
    var reserve := GoArithmetic.Div(net * bps, 10000);
    (reserve, net - reserve)
  }

  /** Every eligible charge, and nothing else, goes into the new cycle. */
  function ItemsWith(b: Books): map<ChargeId, CycleId> {
    b.items + map i: nat | i < |b.charges| && Eligible(b, i) :: |b.cycles|
  }

  /** The cycle and its items, committed together; the table refuses negative amounts. */
  function Settle(b: Books, config: Config, now: nat): Books {
    var gross, fees := Sum(Waiting(b, Amounts(b.charges)), |b.charges|), Sum(Waiting(b, Fees(b.charges)), |b.charges|);
    var (reserve, _) := Payout(gross - fees, config.reserveBps);
    if gross < 0 || fees < 0 || reserve < 0 || gross < fees then b
    else
      b.(items := ItemsWith(b),
         cycles := b.cycles + [Cycle(gross, fees, reserve, gross - fees, now + config.holdDays * 86400, false, false, false)])
  }

  lemma {:induction false} OldShareKept(b: Books, w: nat -> int, c: CycleId)
    requires Ok(b) && c < |b.cycles|
    ensures Share(ItemsWith(b), w, c, |b.charges|) == Share(b.items, w, c, |b.charges|)
  {
    SameSum(TakenBy(ItemsWith(b), w, c), TakenBy(b.items, w, c), |b.charges|);
  }

  lemma {:induction false} NewShareIsWaiting(b: Books, w: nat -> int)
    requires Ok(b)
    ensures Share(ItemsWith(b), w, |b.cycles|, |b.charges|) == Sum(Waiting(b, w), |b.charges|)
  {
    SameSum(TakenBy(ItemsWith(b), w, |b.cycles|), Waiting(b, w), |b.charges|);
  }

  /** Reserve and payout split the net amount; with a valid percentage neither is negative. */
  lemma {:induction false} PayoutSplitsNet(net: int, bps: int)
    requires net >= 0 && 0 <= bps <= 10000
    ensures var (reserve, payout) := Payout(net, bps);
      0 <= reserve <= net && 0 <= payout && reserve + payout == net
  {
  }

  lemma {:induction false} SettleKeepsOk(b: Books, config: Config, now: nat)
    requires Ok(b) && config.Valid()
    ensures Ok(Settle(b, config, now))
  {
    var b' := Settle(b, config, now);
    if b' != b {
      forall c | 0 <= c < |b'.cycles| ensures CycleOk(b', c) {
        if c < |b.cycles| {
          assert CycleOk(b, c);
          OldShareKept(b, Amounts(b.charges), c);
          OldShareKept(b, Fees(b.charges), c);
        } else {
          NewShareIsWaiting(b, Amounts(b.charges));
          NewShareIsWaiting(b, Fees(b.charges));
          PayoutSplitsNet(b'.cycles[c].net, config.reserveBps);
        }
      }
      forall k | k in b'.transfers ensures TransferOk(b', k) { assert TransferOk(b, k); }
    }
  }

  /** Eligible charges move together: either none is taken, or all of them go into exactly one new cycle. */
  lemma {:induction false} EligibleMoveTogether(b: Books, config: Config, now: nat)
    requires Ok(b)
    ensures var b' := Settle(b, config, now);
      && (forall i | i in b.items :: i in b'.items && b'.items[i] == b.items[i])
      && (b' == b || (|b'.cycles| == |b.cycles| + 1 &&
            forall i: nat :: !Eligible(b', i) && (Eligible(b, i) <==> i in b'.items && b'.items[i] == |b.cycles|)))
  {
  }

  // ---------- paying out ----------

  /** payouts.Create: a known key is answered with its payout; otherwise the transfer is sent once under the key and
      the payout recorded, a crash possible after each. */
  function Created(b: Books, k: PayoutKey, amount: int, allowed: bool, survived: nat): Books {
    if k in b.payouts || !allowed || survived == 0 then b
    else
      var b1 := if k in b.transfers then b else b.(transfers := b.transfers[k := amount]);
      if survived == 1 then b1 else b1.(payouts := b1.payouts + {k})
  }

  function Due(b: Books, k: PayoutKey): int
    requires k.cycle < |b.cycles|
  {
    if k.CyclePayout? then b.cycles[k.cycle].net - b.cycles[k.cycle].reserve else b.cycles[k.cycle].reserve
  }

  lemma {:induction false} CreateKeepsOk(b: Books, k: PayoutKey, allowed: bool, survived: nat)
    requires Ok(b) && k.cycle < |b.cycles| && Due(b, k) > 0
    ensures var b' := Created(b, k, Due(b, k), allowed, survived);
      && Ok(b') && b'.cycles == b.cycles && b'.items == b.items && b'.charges == b.charges
      && (forall x | x in b.transfers :: x in b'.transfers && b'.transfers[x] == b.transfers[x])
      && (k in b'.payouts ==> k in b'.transfers)
  {
    var b' := Created(b, k, Due(b, k), allowed, survived);
    forall c | 0 <= c < |b'.cycles| ensures CycleOk(b', c) { assert CycleOk(b, c); }
    forall x | x in b'.transfers ensures TransferOk(b', x) { if x in b.transfers { assert TransferOk(b, x); } }
  }

  function Linked(b: Books, c: CycleId): Books
    requires c < |b.cycles|
  {
    b.(cycles := b.cycles[c := b.cycles[c].(linked := true)])
  }

  function Released(b: Books, c: CycleId): Books
    requires c < |b.cycles|
  {
    b.(cycles := b.cycles[c := b.cycles[c].(released := true, reserveLinked := true)])
  }

  /** Only the flags of one cycle differ. */
  lemma {:induction false} FlagsKeepOk(b: Books, c: CycleId, cycle: Cycle)
    requires Ok(b) && c < |b.cycles|
    requires cycle == b.cycles[c].(released := cycle.released, linked := cycle.linked, reserveLinked := cycle.reserveLinked)
    requires cycle.released ==> ReservePayout(c) in b.transfers
    ensures Ok(b.(cycles := b.cycles[c := cycle]))
  {
    var b' := b.(cycles := b.cycles[c := cycle]);
    forall x | 0 <= x < |b'.cycles| ensures CycleOk(b', x) { assert CycleOk(b, x); }
    forall x | x in b'.transfers ensures TransferOk(b', x) { assert TransferOk(b, x); }
  }

  /** The rest of a cycle's run: pay the net less the reserve, then link the payout. */
  function PaidOut(b: Books, c: CycleId, allowed: bool, survived: nat): Books
    requires c < |b.cycles|
  {
    if Due(b, CyclePayout(c)) <= 0 then b
    else
      var b1 := Created(b, CyclePayout(c), Due(b, CyclePayout(c)), allowed, survived);
      if CyclePayout(c) !in b1.payouts || survived < 3 then b1 else Linked(b1, c)
  }

  /** One matured reserve: pay it, then mark it released. */
  function ReservePaid(b: Books, c: CycleId, allowed: bool, survived: nat): Books
    requires c < |b.cycles|
  {
    var b1 := Created(b, ReservePayout(c), Due(b, ReservePayout(c)), allowed, survived);
    if ReservePayout(c) !in b1.payouts || survived < 3 then b1 else Released(b1, c)
  }

  lemma {:induction false} PaidOutKeepsOk(b: Books, c: CycleId, allowed: bool, survived: nat)
    requires Ok(b) && c < |b.cycles|
    ensures Ok(PaidOut(b, c, allowed, survived))
  {
    if Due(b, CyclePayout(c)) > 0 {
      CreateKeepsOk(b, CyclePayout(c), allowed, survived);
      var b1 := Created(b, CyclePayout(c), Due(b, CyclePayout(c)), allowed, survived);
      assert CycleOk(b1, c);
      FlagsKeepOk(b1, c, b1.cycles[c].(linked := true));
    }
  }

  lemma {:induction false} ReservePaidKeepsOk(b: Books, c: CycleId, allowed: bool, survived: nat)
    requires Ok(b) && c < |b.cycles| && b.cycles[c].reserve > 0
    ensures Ok(ReservePaid(b, c, allowed, survived))
  {
    CreateKeepsOk(b, ReservePayout(c), allowed, survived);
    var b1 := Created(b, ReservePayout(c), Due(b, ReservePayout(c)), allowed, survived);
    if ReservePayout(c) in b1.payouts {
      FlagsKeepOk(b1, c, b1.cycles[c].(released := true, reserveLinked := true));
    }
  }

  // ---------- whole runs ----------

  predicate NoneEligible(b: Books) { forall i: nat | i < |b.charges| :: !Eligible(b, i) }

  /** One tick over the merchant's configuration, cut short after `survived` statements: the schedule is advanced
      first, then the cycle committed, then its payout made. */
  function Cycled(b: Books, config: Config, now: nat, allowed: bool, survived: nat): Books {
    if survived < 2 || NoneEligible(b) then b
    else
      var b1 := Settle(b, config, now);
      if b1 == b then b else PaidOut(b1, |b.cycles|, allowed, survived - 2)
  }

  lemma {:induction false} CycledKeepsOk(b: Books, config: Config, now: nat, allowed: bool, survived: nat)
    requires Ok(b) && config.Valid()
    ensures Ok(Cycled(b, config, now, allowed, survived))
  {
    SettleKeepsOk(b, config, now);
    if Settle(b, config, now) != b && survived >= 2 { PaidOutKeepsOk(Settle(b, config, now), |b.cycles|, allowed, survived - 2); }
  }

  datatype Step =
    | RunCycle(config: Config, now: nat, allowed: bool, survived: nat)
    | ReleaseReserve(cycle: CycleId, now: nat, allowed: bool, survived: nat)
    | AddCharge(amount: int)
    | ChangeCharge(charge: ChargeId, completed: bool, posted: bool)
    | ApplyFee(charge: ChargeId, fee: int)

  function Do(b: Books, step: Step): Books {
    match step
    case RunCycle(config, now, allowed, survived) => if config.Valid() then Cycled(b, config, now, allowed, survived) else b
    case ReleaseReserve(c, now, allowed, survived) =>
      if c < |b.cycles| && !b.cycles[c].released && b.cycles[c].reserve > 0 && b.cycles[c].releaseAt <= now
      then ReservePaid(b, c, allowed, survived) else b
    case AddCharge(amount) => b.(charges := b.charges + [Charge(amount, false, false, LedgerTables.None)])
    case ChangeCharge(i, completed, posted) =>
      if i < |b.charges| then b.(charges := b.charges[i := b.charges[i].(completed := completed, posted := posted)]) else b
    case ApplyFee(i, fee) =>
      if i < |b.charges| && b.charges[i].fee.None? then b.(charges := b.charges[i := b.charges[i].(fee := LedgerTables.Some(fee))]) else b
  }

  lemma {:induction false} ChargesKeepOk(b: Books, charges: seq<Charge>)
    requires Ok(b) && |b.charges| <= |charges|
    requires forall i | i in b.items :: i < |charges| && charges[i].amount == b.charges[i].amount && charges[i].fee == b.charges[i].fee
    ensures Ok(b.(charges := charges))
  {
    var b' := b.(charges := charges);
    forall c | 0 <= c < |b'.cycles| ensures CycleOk(b', c) {
      assert CycleOk(b, c);
      LongerShare(b.items, Amounts(b.charges), Amounts(charges), c, |b.charges|, |charges|);
      LongerShare(b.items, Fees(b.charges), Fees(charges), c, |b.charges|, |charges|);
    }
    forall x | x in b'.transfers ensures TransferOk(b', x) { assert TransferOk(b, x); }
  }

  lemma {:induction false} LongerShare(items: map<ChargeId, CycleId>, w: nat -> int, w': nat -> int, c: CycleId, n: nat, n': nat)
    requires n <= n' && forall i: nat | i in items :: i < n && w'(i) == w(i)
    ensures Share(items, w', c, n') == Share(items, w, c, n)
    decreases n' - n
  {
    if n == n' {
      SameSum(TakenBy(items, w', c), TakenBy(items, w, c), n);
    } else {
      LongerShare(items, w, w', c, n, n' - 1);
    }
  }

  lemma {:induction false} DoKeepsOk(b: Books, step: Step)
    requires Ok(b)
    ensures Ok(Do(b, step))
  {
    match step
    case RunCycle(config, now, allowed, survived) => if config.Valid() { CycledKeepsOk(b, config, now, allowed, survived); }
    case ReleaseReserve(c, now, allowed, survived) =>
      if c < |b.cycles| && b.cycles[c].reserve > 0 { ReservePaidKeepsOk(b, c, allowed, survived); }
    case AddCharge(_) => ChargesKeepOk(b, Do(b, step).charges);
    case ChangeCharge(_, _, _) => ChargesKeepOk(b, Do(b, step).charges);
    case ApplyFee(_, _) => ChargesKeepOk(b, Do(b, step).charges);
  }

  function Run(b: Books, steps: seq<Step>): Books {
    if steps == [] then b else Do(Run(b, steps[..|steps| - 1]), steps[|steps| - 1])
  }

  const EMPTY := Books([], map[], [], map[], {})

  lemma {:induction false} RunKeepsOk(steps: seq<Step>)
    ensures Ok(Run(EMPTY, steps))
  {
    if steps != [] {
      RunKeepsOk(steps[..|steps| - 1]);
      DoKeepsOk(Run(EMPTY, steps[..|steps| - 1]), steps[|steps| - 1]);
    }
  }

  /** Items are never moved, transfers never repeated or changed, cycles' amounts never rewritten. */
  predicate Extends(b: Books, b': Books) {
    && |b.cycles| <= |b'.cycles|
    && (forall i | i in b.items :: i in b'.items && b'.items[i] == b.items[i])
    && (forall k | k in b.transfers :: k in b'.transfers && b'.transfers[k] == b.transfers[k])
    && (forall c | 0 <= c < |b.cycles| :: SameAmounts(b.cycles[c], b'.cycles[c]))
    && (forall c: CycleId | c < |b.cycles| && CyclePayout(c) !in b.transfers :: CyclePayout(c) !in b'.transfers)
  }

  predicate SameAmounts(x: Cycle, y: Cycle) { y == x.(released := y.released, linked := y.linked, reserveLinked := y.reserveLinked) }

  lemma {:induction false} PaidOutTouchesOne(b: Books, c: CycleId, allowed: bool, survived: nat)
    requires c < |b.cycles|
    ensures var b' := PaidOut(b, c, allowed, survived);
      && b'.items == b.items && |b'.cycles| == |b.cycles|
      && (forall k | k in b.transfers :: k in b'.transfers && b'.transfers[k] == b.transfers[k])
      && (forall k | k in b'.transfers && k != CyclePayout(c) :: k in b.transfers)
      && (forall x | 0 <= x < |b.cycles| :: SameAmounts(b.cycles[x], b'.cycles[x]))
  {
  }

  lemma {:induction false} CycledExtends(b: Books, config: Config, now: nat, allowed: bool, survived: nat)
    requires Ok(b)
    ensures Extends(b, Cycled(b, config, now, allowed, survived))
  {
    EligibleMoveTogether(b, config, now);
    var b1 := Settle(b, config, now);
    if b1 != b && survived >= 2 { PaidOutTouchesOne(b1, |b.cycles|, allowed, survived - 2); }
  }

  lemma {:induction false} ReservePaidExtends(b: Books, c: CycleId, allowed: bool, survived: nat)
    requires Ok(b) && c < |b.cycles|
    ensures Extends(b, ReservePaid(b, c, allowed, survived))
  {
  }

  /** What one maturity pass may send: reserves of cycles whose hold is over. */
  predicate OnlyReserves(b: Books, b': Books, now: nat) {
    forall k | k in b'.transfers && k !in b.transfers ::
      k.ReservePayout? && k.cycle < |b'.cycles| && b'.cycles[k.cycle].releaseAt <= now
  }

  lemma {:induction false} OneMoreReserve(b0: Books, b1: Books, b2: Books, c: CycleId, now: nat)
    requires Extends(b0, b1) && Extends(b1, b2) && OnlyReserves(b0, b1, now)
    requires c < |b1.cycles| && b1.cycles[c].releaseAt <= now && |b2.cycles| == |b1.cycles|
    requires forall k | k in b2.transfers && k != ReservePayout(c) :: k in b1.transfers
    ensures Extends(b0, b2) && OnlyReserves(b0, b2, now)
  {
  }

  lemma {:induction false} DoExtends(b: Books, step: Step)
    requires Ok(b)
    ensures Extends(b, Do(b, step))
  {
    match step
    case RunCycle(config, now, allowed, survived) => CycledExtends(b, config, now, allowed, survived);
    case ReleaseReserve(c, _, allowed, survived) => if c < |b.cycles| { ReservePaidExtends(b, c, allowed, survived); }
    case AddCharge(_) =>
    case ChangeCharge(_, _, _) =>
    case ApplyFee(_, _) =>
  }

  /** In every run, crashes included: each settled charge stays in its one cycle, each cycle's payout and reserve
      are each sent at most once and for the cycle's own amount, and a payout that was not sent in the cycle's own
      run is never sent later. */
  lemma {:induction false} SettledOnceForAll(steps: seq<Step>, n: nat)
    requires n <= |steps|
    ensures Ok(Run(EMPTY, steps)) && Extends(Run(EMPTY, steps[..n]), Run(EMPTY, steps))
  {
    RunKeepsOk(steps);
    if n == |steps| {
      assert steps[..n] == steps;
    } else {
      var front := steps[..|steps| - 1];
      assert front[..n] == steps[..n];
      SettledOnceForAll(front, n);
      DoExtends(Run(EMPTY, front), steps[|steps| - 1]);
    }
  }

  /** The payout of the cycle a run commits is sent in that run or never: every later run finds it sent exactly
      when something is due, the payout is not refused, and the run survives the statement that sends it. */
  lemma {:induction false} PayoutIsSentIff(steps: seq<Step>, more: seq<Step>, config: Config, now: nat, allowed: bool, survived: nat)
    requires config.Valid() && survived >= 2
    requires !NoneEligible(Run(EMPTY, steps)) && Settle(Run(EMPTY, steps), config, now) != Run(EMPTY, steps)
    ensures var b, c := Run(EMPTY, steps), |Run(EMPTY, steps).cycles|;
      var later := Run(EMPTY, steps + [RunCycle(config, now, allowed, survived)] + more);
      && c < |later.cycles|
      && Due(later, CyclePayout(c)) == Due(Settle(b, config, now), CyclePayout(c))
      && (CyclePayout(c) in later.transfers <==> Due(later, CyclePayout(c)) > 0 && allowed && survived >= 3)
  {
    var b, tick := Run(EMPTY, steps), RunCycle(config, now, allowed, survived);
    var upto := steps + [tick];
    assert upto[..|upto| - 1] == steps && upto[|upto| - 1] == tick;
    RunKeepsOk(steps);
    NewCycleSentIff(b, config, now, allowed, survived);
    SettledOnceForAll(upto + more, |upto|);
    assert (upto + more)[..|upto|] == upto;
    var c := |b.cycles|;
    assert SameAmounts(Run(EMPTY, upto).cycles[c], Run(EMPTY, upto + more).cycles[c]);
  }

  /** A cycle of one charge of 100, committed by a run that dies there: 100 is due and was never sent. */
  lemma {:induction false} PayoutCanBeLost()
    ensures var b := Do(Do(Do(EMPTY, AddCharge(100)), ChangeCharge(0, true, true)), ApplyFee(0, 0));
      var later := Do(b, RunCycle(Config(0, 0, Calendar.Daily), 0, true, 2));
      |later.cycles| == 1 && Due(later, CyclePayout(0)) == 100 && CyclePayout(0) !in later.transfers
  {
    var b := Do(Do(Do(EMPTY, AddCharge(100)), ChangeCharge(0, true, true)), ApplyFee(0, 0));
    assert b.charges == [Charge(100, true, true, LedgerTables.Some(0))] && Eligible(b, 0);
    assert Sum(Waiting(b, Amounts(b.charges)), 1) == Sum(Waiting(b, Amounts(b.charges)), 0) + 100;
    assert Sum(Waiting(b, Fees(b.charges)), 1) == Sum(Waiting(b, Fees(b.charges)), 0) + 0;
  }

  lemma {:induction false} NewCycleSentIff(b: Books, config: Config, now: nat, allowed: bool, survived: nat)
    requires Ok(b) && survived >= 2 && !NoneEligible(b) && Settle(b, config, now) != b
    ensures var b', c := Cycled(b, config, now, allowed, survived), |b.cycles|;
      && |b'.cycles| == c + 1 && Due(b', CyclePayout(c)) == Due(Settle(b, config, now), CyclePayout(c))
      && (CyclePayout(c) in b'.transfers <==> Due(b', CyclePayout(c)) > 0 && allowed && survived >= 3)
  {
    var c := |b.cycles|;
    assert CyclePayout(c) in b.transfers ==> TransferOk(b, CyclePayout(c));
    PaidOutTouchesOne(Settle(b, config, now), c, allowed, survived - 2);
  }

  // ---------- what a run does, told from the tables ----------

  /** A charge whose transfer completed and still stands, whose fee was applied, and which no cycle took. */
  predicate Unsettled(b: Books, i: ChargeId) {
    i < |b.charges| && b.charges[i].completed && b.charges[i].posted && b.charges[i].fee.Some? && i !in b.items
  }

  function UnsettledAmounts(b: Books): nat -> int { (i: nat) => if Unsettled(b, i) then b.charges[i].amount else 0 }

  function UnsettledFees(b: Books): nat -> int { (i: nat) => if Unsettled(b, i) then b.charges[i].fee.value else 0 }

  /** A new cycle withholds the reserve percentage of the net amount, rounded down, for the hold's days. */
  predicate NewCycle(b: Books, cycle: Cycle, config: Config, now: nat) {
    && cycle.gross == Sum(UnsettledAmounts(b), |b.charges|) && cycle.fees == Sum(UnsettledFees(b), |b.charges|)
    && cycle.net == cycle.gross - cycle.fees
    && cycle.reserve * 10000 <= cycle.net * config.reserveBps < (cycle.reserve + 1) * 10000
    && cycle.releaseAt == now + config.holdDays * 86400 && !cycle.released
  }

  /** It takes every unsettled charge and no other, and moves none that was taken before. */
  ghost predicate Takes(b: Books, b': Books) {
    && (forall i: nat :: i in b'.items <==> i in b.items || Unsettled(b, i))
    && (forall i: nat | i in b'.items :: b'.items[i] == if i in b.items then b.items[i] else |b.cycles|)
  }

  /** A run that lasts past the commit makes one new cycle when there is something unsettled and its amounts are not
      negative, and sends its net less its reserve, if that is positive, when allowed and not cut short. */
  ghost predicate RanCycle(b: Books, b': Books, config: Config, now: nat, allowed: bool, survived: nat) {
    var n, gross, fees := |b.cycles|, Sum(UnsettledAmounts(b), |b.charges|), Sum(UnsettledFees(b), |b.charges|);
    if survived >= 2 && (exists i: nat :: Unsettled(b, i)) && 0 <= fees <= gross then
      && |b'.cycles| == n + 1 && b'.cycles[..n] == b.cycles && NewCycle(b, b'.cycles[n], config, now) && Takes(b, b')
      && var payout := b'.cycles[n].net - b'.cycles[n].reserve;
         b'.transfers == if payout > 0 && allowed && survived >= 3 then b.transfers[CyclePayout(n) := payout] else b.transfers
    else b' == b
  }

  lemma {:induction false} UnsettledSums(b: Books)
    ensures Sum(Waiting(b, Amounts(b.charges)), |b.charges|) == Sum(UnsettledAmounts(b), |b.charges|)
    ensures Sum(Waiting(b, Fees(b.charges)), |b.charges|) == Sum(UnsettledFees(b), |b.charges|)
  {
    forall i: nat | i < |b.charges|
      ensures Waiting(b, Amounts(b.charges))(i) == UnsettledAmounts(b)(i) && Waiting(b, Fees(b.charges))(i) == UnsettledFees(b)(i)
    {
      assert Eligible(b, i) <==> Unsettled(b, i);
    }
    SameSum(Waiting(b, Amounts(b.charges)), UnsettledAmounts(b), |b.charges|);
    SameSum(Waiting(b, Fees(b.charges)), UnsettledFees(b), |b.charges|);
  }

  lemma {:induction false} SettledIsNew(b: Books, config: Config, now: nat)
    requires config.Valid()
    ensures var b', n := Settle(b, config, now), |b.cycles|;
      if 0 <= Sum(UnsettledFees(b), |b.charges|) <= Sum(UnsettledAmounts(b), |b.charges|) then
        && |b'.cycles| == n + 1 && b'.cycles[..n] == b.cycles && NewCycle(b, b'.cycles[n], config, now)
        && Takes(b, b') && b' == b.(items := b'.items, cycles := b'.cycles)
      else b' == b
  {
    UnsettledSums(b);
  }

  lemma {:induction false} NewPayoutSends(b: Books, c: CycleId, allowed: bool, survived: nat)
    requires c < |b.cycles| && CyclePayout(c) !in b.transfers && CyclePayout(c) !in b.payouts
    ensures var b', payout := PaidOut(b, c, allowed, survived), b.cycles[c].net - b.cycles[c].reserve;
      && b'.items == b.items && |b'.cycles| == |b.cycles| && b'.cycles[..c] == b.cycles[..c] && SameAmounts(b.cycles[c], b'.cycles[c])
      && b'.cycles[c].released == b.cycles[c].released
      && b'.transfers == if payout > 0 && allowed && survived >= 1 then b.transfers[CyclePayout(c) := payout] else b.transfers
  {
  }

  lemma {:induction false} NoneUnsettled(b: Books)
    ensures NoneEligible(b) <==> !exists i: nat :: Unsettled(b, i)
  {
    assert forall i: nat :: Unsettled(b, i) <==> Eligible(b, i);
  }

  lemma {:induction false} UnsentYet(b: Books)
    requires Ok(b)
    ensures CyclePayout(|b.cycles|) !in b.transfers && CyclePayout(|b.cycles|) !in b.payouts
  {
    forall k | k in b.transfers ensures k.cycle < |b.cycles| { assert TransferOk(b, k); }
  }

  lemma {:induction false} CommittedRan(b: Books, b1: Books, config: Config, now: nat, allowed: bool, survived: nat)
    requires survived >= 2 && (exists i: nat :: Unsettled(b, i))
    requires 0 <= Sum(UnsettledFees(b), |b.charges|) <= Sum(UnsettledAmounts(b), |b.charges|)
    requires |b1.cycles| == |b.cycles| + 1 && b1.cycles[..|b.cycles|] == b.cycles && b1 == b.(items := b1.items, cycles := b1.cycles)
    requires NewCycle(b, b1.cycles[|b.cycles|], config, now) && Takes(b, b1)
    requires CyclePayout(|b.cycles|) !in b.transfers && CyclePayout(|b.cycles|) !in b.payouts
    ensures RanCycle(b, PaidOut(b1, |b.cycles|, allowed, survived - 2), config, now, allowed, survived)
  {
    NewPayoutSends(b1, |b.cycles|, allowed, survived - 2);
  }

  /** A run over valid books does exactly that. */
  lemma {:induction false} CycledRan(b: Books, config: Config, now: nat, allowed: bool, survived: nat)
    requires Ok(b) && config.Valid()
    ensures RanCycle(b, Cycled(b, config, now, allowed, survived), config, now, allowed, survived)
  {
    SettledIsNew(b, config, now);
    NoneUnsettled(b);
    UnsentYet(b);
    if survived >= 2 && !NoneEligible(b) && 0 <= Sum(UnsettledFees(b), |b.charges|) <= Sum(UnsettledAmounts(b), |b.charges|) {
      CommittedRan(b, Settle(b, config, now), config, now, allowed, survived);
    }
  }

  /** A reserve is paid in full once its hold is over and the payout is not refused, and is then marked released;
      before that, and once it is released, nothing happens. */
  lemma {:induction false} ReserveIsPaidWhenDue(b: Books, c: CycleId, now: nat, allowed: bool, survived: nat)
    requires Ok(b) && c < |b.cycles|
    ensures var b', cycle := Do(b, ReleaseReserve(c, now, allowed, survived)), b.cycles[c];
      if cycle.released || cycle.reserve <= 0 || now < cycle.releaseAt then b' == b
      else
        && (allowed && survived >= 1 ==> ReservePayout(c) in b'.transfers && b'.transfers[ReservePayout(c)] == cycle.reserve)
        && (allowed && survived >= 3 ==> b'.cycles[c].released)
  {
    if ReservePayout(c) in b.transfers { assert TransferOk(b, ReservePayout(c)); }
  }

  // ---------- the ticker ----------

  function AmountSum(charges: seq<Charge>, ids: seq<ChargeId>): int
    requires forall i | 0 <= i < |ids| :: ids[i] < |charges|
  {
    if ids == [] then 0 else AmountSum(charges, ids[..|ids| - 1]) + charges[ids[|ids| - 1]].amount
  }

  function FeeSum(charges: seq<Charge>, ids: seq<ChargeId>): int
    requires forall i | 0 <= i < |ids| :: ids[i] < |charges| && charges[ids[i]].fee.Some?
  {
    if ids == [] then 0 else FeeSum(charges, ids[..|ids| - 1]) + charges[ids[|ids| - 1]].fee.value
  }

  class Merchant {
    var config: Config
    var nextCycleAt: Calendar.Time
    var charges: seq<Charge>
    var items: map<ChargeId, CycleId>
    var cycles: seq<Cycle>
    var transfers: map<PayoutKey, int>
    var payouts: set<PayoutKey>

    ghost function Look(): Books
      reads this
    {
      Books(charges, items, cycles, transfers, payouts)
    }

    ghost predicate Valid()
      reads this
    {
      Ok(Look()) && config.Valid() && nextCycleAt.Valid()
    }

    constructor (config: Config, first: Calendar.Time)
      requires config.Valid() && first.Valid()
      ensures Valid() && Look() == EMPTY && this.config == config && nextCycleAt == first
    {
      this.config, nextCycleAt := config, first;
      charges, items, cycles, transfers, payouts := [], map[], [], map[], {};
    }

    /** The charges the query returns, with their amounts and fees added up on the way. */
    method FindEligible() returns (ids: seq<ChargeId>)
      ensures forall i | 0 <= i < |ids| :: ids[i] < |charges| && charges[ids[i]].completed && charges[ids[i]].posted
      ensures forall i | 0 <= i < |ids| :: charges[ids[i]].fee.Some? && ids[i] !in items
      ensures forall i: nat | i < |charges| && charges[i].completed && charges[i].posted && charges[i].fee.Some? && i !in items :: i in ids
      ensures AmountSum(charges, ids) == Sum(Waiting(Look(), Amounts(charges)), |charges|)
      ensures FeeSum(charges, ids) == Sum(Waiting(Look(), Fees(charges)), |charges|)
    {
      ids := [];
      for i := 0 to |charges|
        invariant forall k | 0 <= k < |ids| :: Eligible(Look(), ids[k])
        invariant forall k: nat | k < i && Eligible(Look(), k) :: k in ids
        invariant AmountSum(charges, ids) == Sum(Waiting(Look(), Amounts(charges)), i)
        invariant FeeSum(charges, ids) == Sum(Waiting(Look(), Fees(charges)), i)
      {
        if charges[i].completed && charges[i].posted && charges[i].fee.Some? && i !in items {
          assert (ids + [i])[..|ids|] == ids;
          ids := ids + [i];
        }
      }
    }

    method AddUp(ids: seq<ChargeId>) returns (gross: int, feesTotal: int)
      requires forall i | 0 <= i < |ids| :: ids[i] < |charges| && charges[ids[i]].fee.Some?
      ensures gross == AmountSum(charges, ids) && feesTotal == FeeSum(charges, ids)
    {
      gross, feesTotal := 0, 0;
      for i := 0 to |ids|
        invariant gross == AmountSum(charges, ids[..i]) && feesTotal == FeeSum(charges, ids[..i])
      {
        assert ids[..i + 1][..i] == ids[..i];
        gross := gross + charges[ids[i]].amount;
        feesTotal := feesTotal + charges[ids[i]].fee.value;
      }
      assert ids[..|ids|] == ids;
    }

    /** Inserts the cycle and one item per charge in one transaction. */
    method InsertCycle(cycle: Cycle, ids: seq<ChargeId>)
      requires forall i | 0 <= i < |ids| :: Eligible(Look(), ids[i])
      requires forall i: nat | Eligible(Look(), i) :: i in ids
      modifies this`items, this`cycles
      ensures cycles == old(cycles) + [cycle] && items == ItemsWith(old(Look()))
    {
      cycles := cycles + [cycle];
      for k := 0 to |ids|
        invariant cycles == old(cycles) + [cycle] && forall i | 0 <= i < |ids| :: ids[i] !in old(items)
        invariant forall i: nat :: i in items <==> i in old(items) || i in ids[..k]
        invariant forall i: nat | i in items :: items[i] == if i in old(items) then old(items)[i] else |old(cycles)|
      {
        items := items[ids[k] := |cycles| - 1];
      }
      assert ids[..|ids|] == ids;
    }

    method Create(k: PayoutKey, amount: int, allowed: bool, survived: nat) returns (ok: bool)
      modifies this`transfers, this`payouts
      ensures Look() == Created(old(Look()), k, amount, allowed, survived)
      ensures ok <==> k in payouts
    {
      if k in payouts || !allowed || survived == 0 {
        return k in payouts;
      }
      if k !in transfers {
        transfers := transfers[k := amount];
      }
      if survived == 1 {
        return false;
      }
      payouts := payouts + {k};
      ok := true;
    }

    method RunCycleFor(now: nat, allowed: bool, survived: nat)
      requires Valid()
      modifies this
      ensures Valid() && config == old(config)
      ensures Look() == Cycled(old(Look()), config, now, allowed, survived)
      ensures RanCycle(old(Look()), Look(), config, now, allowed, survived)
      ensures nextCycleAt == if survived == 0 then old(nextCycleAt) else Calendar.Advance(old(nextCycleAt), config.interval)
    {
      CycledRan(Look(), config, now, allowed, survived);
      CycledKeepsOk(Look(), config, now, allowed, survived);
      Calendar.AdvanceStep(nextCycleAt, config.interval);
      AggregateAndPay(now, allowed, survived);
    }

    /** The statements of one run: select, advance the schedule, commit the cycle, pay it out. */
    method AggregateAndPay(now: nat, allowed: bool, survived: nat)
      requires config.Valid() && nextCycleAt.Valid()
      modifies this`nextCycleAt, this`items, this`cycles, this`transfers, this`payouts
      ensures Look() == Cycled(old(Look()), config, now, allowed, survived)
      ensures nextCycleAt == if survived == 0 then old(nextCycleAt) else Calendar.Advance(old(nextCycleAt), config.interval)
    {
      var ids := FindEligible();
      if survived == 0 {
        return;
      }
      nextCycleAt := Calendar.Advance(nextCycleAt, config.interval);
      if survived == 1 || |ids| == 0 {
        return;
      }
      assert Eligible(Look(), ids[0]);
      CommitAndPay(ids, now, allowed, survived - 2);
    }

    method CommitAndPay(ids: seq<ChargeId>, now: nat, allowed: bool, survived: nat)
      requires config.Valid()
      requires forall i | 0 <= i < |ids| :: ids[i] < |charges| && charges[ids[i]].fee.Some? && Eligible(Look(), ids[i])
      requires forall i: nat | Eligible(Look(), i) :: i in ids
      requires AmountSum(charges, ids) == Sum(Waiting(Look(), Amounts(charges)), |charges|)
      requires FeeSum(charges, ids) == Sum(Waiting(Look(), Fees(charges)), |charges|)
      modifies this`items, this`cycles, this`transfers, this`payouts
      ensures var b, b1 := old(Look()), Settle(old(Look()), config, now);
        Look() == if b1 == b then b else PaidOut(b1, |b.cycles|, allowed, survived)
    {
      var committed := CommitCycle(ids, now);
      if committed {
        PayCycle(|cycles| - 1, allowed, survived);
      }
    }

    /** Adds up the charges and commits the cycle with its items, unless the tables refuse its amounts. */
    method CommitCycle(ids: seq<ChargeId>, now: nat) returns (committed: bool)
      requires config.Valid()
      requires forall i | 0 <= i < |ids| :: ids[i] < |charges| && charges[ids[i]].fee.Some? && Eligible(Look(), ids[i])
      requires forall i: nat | Eligible(Look(), i) :: i in ids
      requires AmountSum(charges, ids) == Sum(Waiting(Look(), Amounts(charges)), |charges|)
      requires FeeSum(charges, ids) == Sum(Waiting(Look(), Fees(charges)), |charges|)
      modifies this`items, this`cycles
      ensures Look() == Settle(old(Look()), config, now)
      ensures |cycles| == |old(cycles)| + if committed then 1 else 0
      ensures !committed ==> Look() == old(Look())
      ensures committed ==> NewCycle(old(Look()), cycles[|old(cycles)|], config, now) && Takes(old(Look()), Look())
    {
      var gross, feesTotal := AddUp(ids);
      var net := gross - feesTotal;
      var reserve := GoArithmetic.Div(net * config.reserveBps, 10000);
      if gross < 0 || feesTotal < 0 || reserve < 0 || net < 0 {
        return false;
      }
      InsertCycle(Cycle(gross, feesTotal, reserve, net, now + config.holdDays * 86400, false, false, false), ids);
      SettledIsNew(old(Look()), config, now);
      committed := true;
    }

    method PayCycle(c: CycleId, allowed: bool, survived: nat)
      requires c < |cycles|
      modifies this`cycles, this`transfers, this`payouts
      ensures Look() == PaidOut(old(Look()), c, allowed, survived)
    {
      var payout := cycles[c].net - cycles[c].reserve;
      if payout > 0 {
        var ok := Create(CyclePayout(c), payout, allowed, survived);
        if ok && survived >= 3 {
          cycles := cycles[c := cycles[c].(linked := true)];
        }
      }
    }

    /** Pays every matured reserve; what is left unpaid by a refusal or a crash stays due. */
    method ReleaseMaturedReserves(now: nat, allowed: CycleId -> bool, survived: CycleId -> nat)
      requires Valid()
      modifies this`cycles, this`transfers, this`payouts
      ensures Valid() && Extends(old(Look()), Look()) && OnlyReserves(old(Look()), Look(), now) && |cycles| == |old(cycles)|
      ensures forall c | 0 <= c < |cycles| && !old(cycles)[c].released && old(cycles)[c].reserve > 0 && old(cycles)[c].releaseAt <= now
        && allowed(c) && survived(c) >= 3 ::
        cycles[c].released && ReservePayout(c) in transfers && transfers[ReservePayout(c)] == old(cycles)[c].reserve
    {
      for c := 0 to |cycles|
        invariant Valid() && Extends(old(Look()), Look()) && OnlyReserves(old(Look()), Look(), now) && |cycles| == |old(cycles)|
        invariant forall x | c <= x < |cycles| :: cycles[x] == old(cycles)[x]
        invariant forall x | 0 <= x < c && !old(cycles)[x].released && old(cycles)[x].reserve > 0 && old(cycles)[x].releaseAt <= now
          && allowed(x) && survived(x) >= 3 :: cycles[x].released
      {
        if !cycles[c].released && cycles[c].reserve > 0 && cycles[c].releaseAt <= now {
          ghost var b1 := Look();
          ReleaseOne(c, allowed(c), survived(c));
          OneMoreReserve(old(Look()), b1, Look(), c, now);
        }
      }
      forall c | 0 <= c < |cycles| && cycles[c].released
        ensures ReservePayout(c) in transfers && transfers[ReservePayout(c)] == old(cycles)[c].reserve
      {
        ReleasedMeansSent(Look(), c);
        assert SameAmounts(old(cycles)[c], cycles[c]);
      }
    }

    method ReleaseOne(c: CycleId, allowed: bool, survived: nat)
      requires Valid() && c < |cycles| && !cycles[c].released && cycles[c].reserve > 0
      modifies this`cycles, this`transfers, this`payouts
      ensures Valid() && Extends(old(Look()), Look())
      ensures Look() == ReservePaid(old(Look()), c, allowed, survived)
      ensures |cycles| == |old(cycles)| && forall x | 0 <= x < |cycles| && x != c :: cycles[x] == old(cycles)[x]
      ensures forall k | k in transfers && k != ReservePayout(c) :: k in old(transfers)
      ensures allowed && survived >= 3 ==> cycles[c].released
    {
      ReservePaidKeepsOk(Look(), c, allowed, survived);
      ReservePaidExtends(Look(), c, allowed, survived);
      var ok := Create(ReservePayout(c), cycles[c].reserve, allowed, survived);
      if ok && survived >= 3 {
        cycles := cycles[c := cycles[c].(released := true, reserveLinked := true)];
      }
    }
  }

  /** A released cycle's reserve has been sent. */
  lemma {:induction false} ReleasedMeansSent(b: Books, c: CycleId)
    requires Ok(b) && c < |b.cycles| && b.cycles[c].released
    ensures ReservePayout(c) in b.transfers && b.transfers[ReservePayout(c)] == b.cycles[c].reserve
  {
    assert CycleOk(b, c);
    assert TransferOk(b, ReservePayout(c));
  }
}
