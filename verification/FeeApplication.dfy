/** Fees: which rule applies and what it charges, and the ticker that posts each fee once and records it once. */
module FeeApplication {
  import opened LedgerTables
  import opened AtomicLedger
  import GoArithmetic
  import LedgerService
  import SerialLedger

  const PLATFORM_FEES_ACCOUNT_NGN: AccountId := "00000000-0000-0000-0000-000000000003"
  const APPLY_BATCH_SIZE := 50
  const ANY_RAIL := "*"

  datatype Flow = ChargeFlow | PayoutFlow
  datatype Source = Source(flow: Flow, id: string)
  datatype Item = Item(merchant: string, account: AccountId, amount: int, rail: string)

  datatype Rule = Rule(
    merchant: Option<string>, flow: Flow, rail: string, minAmount: int, maxAmount: Option<int>,
    percentBps: nat, fixed: nat, cap: Option<nat>, taxBps: nat, active: bool)

  datatype Breakdown = Breakdown(rule: Option<nat>, fee: int, tax: int, total: int)

  // ---------- which rule ----------

  predicate Applies(rule: Rule, flow: Flow, item: Item) {
    && rule.active && rule.flow == flow
    && (rule.rail == item.rail || rule.rail == ANY_RAIL)
    && rule.minAmount <= item.amount
    && (rule.maxAmount.Some? ==> rule.maxAmount.value >= item.amount)
    && (rule.merchant.Some? ==> rule.merchant.value == item.merchant)
  }

  /** A merchant's own rule before a default one, then an exact rail before the wildcard. */
  function Specificity(rule: Rule): nat {
    (if rule.merchant.Some? then 2 else 0) + if rule.rail != ANY_RAIL then 1 else 0
  }

  /** The most specific applicable rule among the first n; the earliest of equals. */
  function Best(rules: seq<Rule>, flow: Flow, item: Item, n: nat): (r: Option<nat>)
    requires n <= |rules|
    ensures r.Some? ==> r.value < n && Applies(rules[r.value], flow, item)
  {
    if n == 0 then None
    else
      var before := Best(rules, flow, item, n - 1);
      if !Applies(rules[n - 1], flow, item) then before
      else if before.Some? && Specificity(rules[before.value]) >= Specificity(rules[n - 1]) then before
      else Some(n - 1)
  }

  /** No rule means none applies; otherwise the chosen one applies and none applicable is more specific. */
  lemma {:induction false} BestIsMostSpecific(rules: seq<Rule>, flow: Flow, item: Item, n: nat)
    requires n <= |rules|
    ensures Best(rules, flow, item, n).None? <==> forall i | 0 <= i < n :: !Applies(rules[i], flow, item)
    ensures Best(rules, flow, item, n).Some? ==> forall i | 0 <= i < n && Applies(rules[i], flow, item) ::
      Specificity(rules[i]) <= Specificity(rules[Best(rules, flow, item, n).value])
  {
    if n > 0 { BestIsMostSpecific(rules, flow, item, n - 1); }
  }

  // ---------- how much ----------

  function Charged(rule: Rule, amount: int): (int, int) {
    var fee := GoArithmetic.Div(amount * rule.percentBps, 10000) + rule.fixed;
    var capped := if rule.cap.Some? && fee > rule.cap.value then rule.cap.value else fee;
    (capped, GoArithmetic.Div(capped * rule.taxBps, 10000))
  }

  /** For one rule, a larger amount never pays less, nothing is negative, and the cap holds. */
  lemma {:induction false} ChargedIsMonotoneAndCapped(rule: Rule, a: int, b: int)
    requires 0 <= a <= b
    ensures 0 <= Charged(rule, a).0 <= Charged(rule, b).0
    ensures 0 <= Charged(rule, a).1 <= Charged(rule, b).1
    ensures rule.cap.Some? ==> Charged(rule, b).0 <= rule.cap.value
  {
    GoArithmetic.PartMonotone(a, b, rule.percentBps);
    GoArithmetic.PartMonotone(Charged(rule, a).0, Charged(rule, b).0, rule.taxBps);
  }

  function Resolved(rules: seq<Rule>, flow: Flow, item: Item): Breakdown {
    match Best(rules, flow, item, |rules|)
    case None => Breakdown(None, 0, 0, 0)
    case Some(i) =>
      var (fee, tax) := Charged(rules[i], item.amount);
      Breakdown(Some(i), fee, tax, fee + tax)
  }

  // ---------- the price list, told from the rules' columns ----------

  predicate Covers(rule: Rule, flow: Flow, item: Item) {
    && rule.active && rule.flow == flow && rule.rail in {item.rail, "*"} && rule.merchant in {None, Some(item.merchant)}
    && rule.minAmount <= item.amount && !(rule.maxAmount.Some? && rule.maxAmount.value < item.amount)
  }

  /** Rule i covers the item; only a rule for every merchant gives way to one for this merchant, and among rules alike
      in that a wildcard rail to an exact one. */
  predicate Chosen(rules: seq<Rule>, flow: Flow, item: Item, i: nat) {
    && i < |rules| && Covers(rules[i], flow, item)
    && forall j | 0 <= j < |rules| && Covers(rules[j], flow, item) ::
         && (rules[i].merchant.None? ==> rules[j].merchant.None?)
         && (rules[i].merchant.None? == rules[j].merchant.None? && rules[i].rail == "*" ==> rules[j].rail == "*")
  }

  /** The percentage, rounded down, and the fixed part make the fee, unless that is above the cap; the tax is a
      percentage of that fee, rounded down. */
  predicate Price(rule: Rule, amount: int, fee: int, tax: int) {
    && (if rule.cap.Some? && amount * rule.percentBps >= (rule.cap.value + 1 - rule.fixed) * 10000 then fee == rule.cap.value
        else (fee - rule.fixed) * 10000 <= amount * rule.percentBps < (fee + 1 - rule.fixed) * 10000)
    && tax * 10000 <= fee * rule.taxBps < (tax + 1) * 10000
  }

  /** Nothing is charged when no rule covers the item, and the chosen rule's price otherwise. */
  predicate Priced(rules: seq<Rule>, flow: Flow, item: Item, b: Breakdown) {
    match b.rule
    case None => b == Breakdown(None, 0, 0, 0) && forall i | 0 <= i < |rules| :: !Covers(rules[i], flow, item)
    case Some(i) => Chosen(rules, flow, item, i) && Price(rules[i], item.amount, b.fee, b.tax) && b.total == b.fee + b.tax
  }

  lemma {:induction false} ChargedIsPrice(rule: Rule, amount: int)
    requires amount >= 0
    ensures Price(rule, amount, Charged(rule, amount).0, Charged(rule, amount).1)
  {
    ChargedIsMonotoneAndCapped(rule, 0, amount);
  }

  lemma {:induction false} ResolvedIsPriced(rules: seq<Rule>, flow: Flow, item: Item)
    requires item.amount >= 0
    ensures Priced(rules, flow, item, Resolved(rules, flow, item))
  {
    BestIsMostSpecific(rules, flow, item, |rules|);
    assert forall i | 0 <= i < |rules| :: Applies(rules[i], flow, item) <==> Covers(rules[i], flow, item);
    var best := Best(rules, flow, item, |rules|);
    if best.Some? {
      assert forall j | 0 <= j < |rules| && Covers(rules[j], flow, item) :: Specificity(rules[j]) <= Specificity(rules[best.value]);
      ChargedIsPrice(rules[best.value], item.amount);
    }
  }

  method Resolve(rules: seq<Rule>, flow: Flow, item: Item) returns (b: Breakdown)
    ensures b == Resolved(rules, flow, item)
    ensures item.amount >= 0 ==> Priced(rules, flow, item, b)
  {
    if item.amount >= 0 { ResolvedIsPriced(rules, flow, item); }
    var best: Option<nat> := None;
    for i := 0 to |rules|
      invariant best == Best(rules, flow, item, i)
    {
      if Applies(rules[i], flow, item) && (best.None? || Specificity(rules[best.value]) < Specificity(rules[i])) {
        best := Some(i);
      }
    }
    if best.None? {
      return Breakdown(None, 0, 0, 0);
    }
    var rule := rules[best.value];
    var fee := GoArithmetic.Div(item.amount * rule.percentBps, 10000) + rule.fixed;
    if rule.cap.Some? && fee > rule.cap.value {
      fee := rule.cap.value;
    }
    var tax := GoArithmetic.Div(fee * rule.taxBps, 10000);
    b := Breakdown(best, fee, tax, fee + tax);
  }

  // ---------- posting and recording ----------

  datatype FeeRow = FeeRow(breakdown: Breakdown, txn: Option<TxnId>)

  /** The ledger and the fee_charges table. */
  datatype View = View(ledger: Tables, recorded: map<Source, FeeRow>)

  /** The rules in force, and what is known of each completed charge and payout. */
  datatype Terms = TermsOf(rules: seq<Rule>, items: map<Source, Item>, key: Source -> Key) {
    function Breakdown(s: Source): Breakdown
      requires s in items
    {
      Resolved(rules, s.flow, items[s])
    }

    function Legs(s: Source): seq<Leg>
      requires s in items
    {
      [Leg(items[s].account, -Breakdown(s).total), Leg(PLATFORM_FEES_ACCOUNT_NGN, Breakdown(s).total)]
    }

    function Pay(s: Source): Op
      requires s in items
    {
      Op.Post(key(s), Transfer, Legs(s))
    }

    ghost predicate Sound() { forall s, r | s in items && r in items && key(s) == key(r) :: s == r }
  }

  function FeeKey(s: Source): Key {
    "fee:" + (if s.flow == ChargeFlow then "charge" else "payout") + ":" + s.id
  }

  lemma {:induction false} FeeKeysDiffer(s: Source, r: Source)
    requires FeeKey(s) == FeeKey(r)
    ensures s == r
  {
    var x, y := FeeKey(s), FeeKey(r);
    assert x[4] == (if s.flow == ChargeFlow then 'c' else 'p') && y[4] == (if r.flow == ChargeFlow then 'c' else 'p');
    assert x[11..] == s.id && y[11..] == r.id;
  }

  /** One application: post a positive total, then record it; cut short by a crash after `survived` statements. */
  function Applied(x: Terms, v: View, s: Source, survived: nat): View
    requires s in x.items
  {
    var b := x.Breakdown(s);
    if b.total <= 0 then
      if survived == 0 then v else Recorded(v, s, FeeRow(b, None))
    else if survived == 0 then v
    else
      var (t, paid) := SerialLedger.Call(v.ledger, x.Pay(s));
      if paid.Rejected? || survived == 1 then v.(ledger := t)
      else Recorded(v.(ledger := t), s, FeeRow(b, Some(paid.id)))
  }

  /** A second row for the same source is refused. */
  function Recorded(v: View, s: Source, row: FeeRow): View {
    if s in v.recorded then v else v.(recorded := v.recorded[s := row])
  }

  predicate SourceOk(x: Terms, v: View, s: Source)
    requires s in x.items
  {
    var key, keys, b := x.key(s), v.ledger.keys, x.Breakdown(s);
    && (key in keys ==> b.total > 0 && keys[key].hash == LegsHash(Transfer, x.Legs(s)))
    && (s in v.recorded ==>
          && v.recorded[s].breakdown == b
          && (b.total > 0 ==> key in keys && keys[key].response == v.recorded[s].txn)
          && (b.total <= 0 ==> v.recorded[s].txn.None?))
  }

  ghost predicate FeesOk(x: Terms, v: View) {
    && x.Sound()
    && (forall s | s in x.items :: SourceOk(x, v, s))
    && (forall s | s in v.recorded :: s in x.items)
  }

  lemma {:induction false} AppliedKeepsOk(x: Terms, v: View, s: Source, survived: nat)
    requires KeysOk(v.ledger) && FeesOk(x, v) && s in x.items
    ensures FeesOk(x, Applied(x, v, s, survived))
  {
    var v' := Applied(x, v, s, survived);
    assert SourceOk(x, v, s);
    if SerialLedger.Call(v.ledger, x.Pay(s)).1.Succeeded? { SerialLedger.ReplyIsStored(v.ledger, x.Pay(s)); }
    forall r | r in x.items ensures SourceOk(x, v', r) {
      assert SourceOk(x, v, r);
    }
  }

  /** An application cut short anywhere, then a full one, ends where a full one alone ends. */
  lemma {:induction false} RetryIsHarmless(x: Terms, v: View, s: Source, survived: nat)
    requires s in x.items
    ensures Applied(x, Applied(x, v, s, survived), s, 2) == Applied(x, v, s, 2)
  {
  }

  /** What is recorded is what was posted: the one transaction under the source's key is a transfer whose entries
      take exactly the recorded total from the merchant's account and give it to the platform's. */
  lemma {:induction false} RecordedEqualsPosted(x: Terms, v: View, s: Source)
    requires KeysOk(v.ledger) && PostingsOk(v.ledger) && FeesOk(x, v)
    requires s in v.recorded && v.recorded[s].breakdown.total > 0
    ensures var t, row := v.ledger, v.recorded[s];
      && row.txn.Some? && PostedUnder(t, x.key(s), Transfer, x.Legs(s), row.txn.value)
      && (forall i: TxnId | i < |t.txns| && t.txns[i].key == x.key(s) :: Some(i) == row.txn)
      && (x.items[s].account != PLATFORM_FEES_ACCOUNT_NGN ==>
            && LegSum(LegsOf(t.entries, row.txn.value), x.items[s].account) == -row.breakdown.total
            && LegSum(LegsOf(t.entries, row.txn.value), PLATFORM_FEES_ACCOUNT_NGN) == row.breakdown.total)
  {
    assert SourceOk(x, v, s);
    StoredPosting(v.ledger, x.key(s), Transfer, x.Legs(s));
    if x.items[s].account != PLATFORM_FEES_ACCOUNT_NGN { FeeLegSums(x, s); }
  }

  lemma {:induction false} FeeLegSums(x: Terms, s: Source)
    requires s in x.items && x.items[s].account != PLATFORM_FEES_ACCOUNT_NGN
    ensures LegSum(x.Legs(s), x.items[s].account) == -x.Breakdown(s).total
    ensures LegSum(x.Legs(s), PLATFORM_FEES_ACCOUNT_NGN) == x.Breakdown(s).total
  {
    SerialLedger.PairSums(x.Legs(s)[0], x.Legs(s)[1], x.items[s].account);
    SerialLedger.PairSums(x.Legs(s)[0], x.Legs(s)[1], PLATFORM_FEES_ACCOUNT_NGN);
  }

  // ---------- rules that change between a crash and its retry ----------

  /** The source's fee was posted under rules x, and the process died before recording it. */
  ghost predicate PostedUnrecorded(x: Terms, v: View, s: Source) {
    FeesOk(x, v) && s in x.items && s !in v.recorded && x.key(s) in v.ledger.keys
  }

  /** A crash right after a successful posting leaves exactly that. */
  lemma {:induction false} CrashLeavesPosted(x: Terms, v: View, s: Source)
    requires KeysOk(v.ledger) && FeesOk(x, v) && s in x.items && s !in v.recorded
    requires x.Breakdown(s).total > 0 && SerialLedger.Call(v.ledger, x.Pay(s)).1.Succeeded?
    ensures PostedUnrecorded(x, Applied(x, v, s, 1), s)
  {
    AppliedKeepsOk(x, v, s, 1);
    SerialLedger.ReplyIsStored(v.ledger, x.Pay(s));
  }

  /** The retry under rules y records what was posted exactly when the rules still come to the same total.  A
      different positive total is refused for ever; a total of zero is recorded over the posted fee. */
  lemma {:induction false} RetryRecordsPostedIff(x: Terms, y: Terms, v: View, s: Source)
    requires PostedUnrecorded(x, v, s) && KeysOk(v.ledger) && y == x.(rules := y.rules)
    ensures var v', total := Applied(y, v, s, 2), y.Breakdown(s).total;
      && v'.ledger == v.ledger
      && (s in v'.recorded && v'.recorded[s].breakdown.total == x.Breakdown(s).total <==> total == x.Breakdown(s).total)
      && (total == x.Breakdown(s).total ==> v'.recorded[s].txn == v.ledger.keys[x.key(s)].response)
      && (total > 0 && total != x.Breakdown(s).total ==>
            SerialLedger.Call(v.ledger, y.Pay(s)) == (v.ledger, Rejected(KeyReused)) && v' == v)
      && (total <= 0 ==> v'.recorded == v.recorded[s := FeeRow(y.Breakdown(s), None)])
  {
    assert SourceOk(x, v, s);
    assert y.Breakdown(s).total != x.Breakdown(s).total ==> x.Legs(s)[1] != y.Legs(s)[1];
  }

  function AppliedAll(x: Terms, v: View, batch: seq<Source>, survived: Source -> nat): View
    requires forall i | 0 <= i < |batch| :: batch[i] in x.items
  {
    if batch == [] then v
    else
      var s := batch[|batch| - 1];
      Applied(x, AppliedAll(x, v, batch[..|batch| - 1], survived), s, survived(s))
  }

  lemma {:induction false} AppliedRecords(x: Terms, v: View, s: Source, survived: nat)
    requires s in x.items
    ensures var v' := Applied(x, v, s, survived);
      && (v'.recorded == v.recorded || (s !in v.recorded && s in v'.recorded && v'.recorded == v.recorded[s := v'.recorded[s]]))
      && (s !in v.recorded && s in v'.recorded ==> v'.recorded[s].breakdown == x.Breakdown(s))
  {
  }

  /** A batch records only its own sources, each with the rules' breakdown, and rewrites nothing. */
  lemma {:induction false} BatchRecords(x: Terms, v: View, batch: seq<Source>, survived: Source -> nat)
    requires forall i | 0 <= i < |batch| :: batch[i] in x.items
    ensures var v' := AppliedAll(x, v, batch, survived);
      && (forall s | s in v.recorded :: s in v'.recorded && v'.recorded[s] == v.recorded[s])
      && (forall s | s in v'.recorded && s !in v.recorded :: s in batch && s in x.items && v'.recorded[s].breakdown == x.Breakdown(s))
  {
    if batch != [] {
      BatchRecords(x, v, batch[..|batch| - 1], survived);
      AppliedRecords(x, AppliedAll(x, v, batch[..|batch| - 1], survived), batch[|batch| - 1], survived(batch[|batch| - 1]));
      assert forall s | s in batch[..|batch| - 1] :: s in batch;
    }
  }

  /** Nothing is due for the source, or the ledger accepts its transfer to the platform. */
  ghost predicate Accepts(x: Terms, t: Tables, s: Source)
    requires s in x.items
  {
    var item, total := x.items[s], Resolved(x.rules, s.flow, x.items[s]).total;
    total <= 0 || SerialLedger.Call(t, TransferOp(item.account, PLATFORM_FEES_ACCOUNT_NGN, total, x.key(s))).1.Succeeded?
  }

  lemma {:induction false} AcceptedIsRecorded(x: Terms, v: View, s: Source, survived: nat)
    requires s in x.items && survived >= 2 && Accepts(x, v.ledger, s)
    ensures s in Applied(x, v, s, survived).recorded
  {
  }

  lemma {:induction false} OneMoreStays(x: Terms, v: View, r: Source, survived: nat, s: Source)
    requires r in x.items && s in v.recorded
    ensures s in Applied(x, v, r, survived).recorded
  {
  }

  lemma {:induction false} StaysRecorded(x: Terms, v: View, batch: seq<Source>, survived: Source -> nat, n: nat, s: Source)
    requires n <= |batch| && forall k | 0 <= k < |batch| :: batch[k] in x.items
    requires s in AppliedAll(x, v, batch[..n], survived).recorded
    ensures s in AppliedAll(x, v, batch, survived).recorded
  {
    if n == |batch| {
      assert batch[..n] == batch;
    } else {
      var last := |batch| - 1;
      assert batch[..last][..n] == batch[..n];
      StaysRecorded(x, v, batch[..last], survived, n, s);
      OneMoreStays(x, AppliedAll(x, v, batch[..last], survived), batch[last], survived(batch[last]), s);
    }
  }

  /** A source whose turn is not cut short, and whose fee is then accepted, is recorded when the batch is done. */
  lemma {:induction false} BatchApplies(x: Terms, v: View, batch: seq<Source>, survived: Source -> nat, i: nat)
    requires i < |batch| && forall k | 0 <= k < |batch| :: batch[k] in x.items
    requires survived(batch[i]) >= 2 && Accepts(x, AppliedAll(x, v, batch[..i], survived).ledger, batch[i])
    ensures batch[i] in AppliedAll(x, v, batch, survived).recorded
  {
    assert batch[..i + 1][..i] == batch[..i];
    AcceptedIsRecorded(x, AppliedAll(x, v, batch[..i], survived), batch[i], survived(batch[i]));
    StaysRecorded(x, v, batch, survived, i + 1, batch[i]);
  }

  /** Every accepted source whose turn was not cut short is recorded, and what is newly recorded is what the price list
      says for a source of the batch. */
  ghost predicate BatchDone(x: Terms, v: View, v': View, batch: seq<Source>, survived: Source -> nat)
    requires forall i | 0 <= i < |batch| :: batch[i] in x.items
  {
    && (forall i: nat | i < |batch| && survived(batch[i]) >= 2 && Accepts(x, AppliedAll(x, v, batch[..i], survived).ledger, batch[i]) ::
          batch[i] in v'.recorded)
    && (forall s | s in v'.recorded && s !in v.recorded :: s in batch
          && (x.items[s].amount >= 0 ==> Priced(x.rules, s.flow, x.items[s], v'.recorded[s].breakdown)))
  }

  lemma {:induction false} BatchIsDone(x: Terms, v: View, batch: seq<Source>, survived: Source -> nat)
    requires forall i | 0 <= i < |batch| :: batch[i] in x.items
    ensures BatchDone(x, v, AppliedAll(x, v, batch, survived), batch, survived)
  {
    var v' := AppliedAll(x, v, batch, survived);
    BatchRecords(x, v, batch, survived);
    forall s | s in v'.recorded && s !in v.recorded && x.items[s].amount >= 0
      ensures Priced(x.rules, s.flow, x.items[s], v'.recorded[s].breakdown)
    {
      ResolvedIsPriced(x.rules, s.flow, x.items[s]);
    }
    forall i: nat | i < |batch| && survived(batch[i]) >= 2 && Accepts(x, AppliedAll(x, v, batch[..i], survived).ledger, batch[i])
      ensures batch[i] in v'.recorded
    {
      BatchApplies(x, v, batch, survived, i);
    }
  }

  // ---------- the ticker ----------

  class Service {
    const ledger: LedgerService.Service
    const rules: seq<Rule>
    var items: map<Source, Item>      // completed charges and payouts
    var recorded: map<Source, FeeRow>

    ghost function Look(): View
      reads this, ledger
    {
      View(ledger.Now(), recorded)
    }

    function Terms(): Terms
      reads this
    {
      TermsOf(rules, items, (s: Source) => FeeKey(s))
    }

    ghost predicate Valid()
      reads this, ledger
    {
      ledger.Valid() && FeesOk(Terms(), Look())
    }

    constructor (ledger: LedgerService.Service, rules: seq<Rule>)
      requires ledger.Valid()
      ensures Valid() && this.ledger == ledger && this.rules == rules && items == map[] && recorded == map[]
    {
      this.ledger, this.rules, items, recorded := ledger, rules, map[], map[];
    }

    method ApplyOne(s: Source, survived: nat)
      requires Valid() && s in items
      modifies this`recorded, ledger
      ensures Valid() && Look() == Applied(Terms(), old(Look()), s, survived)
    {
      AppliedKeepsOk(Terms(), Look(), s, survived);
      Apply(s, survived);
    }

    method Post(s: Source, total: int) returns (paid: Outcome)
      requires ledger.Valid() && s in items && total == Resolved(rules, s.flow, items[s]).total
      modifies ledger
      ensures ledger.Valid() && (ledger.Now(), paid) == SerialLedger.Call(old(ledger.Now()), Terms().Pay(s))
    {
      paid := ledger.Transfer(items[s].account, PLATFORM_FEES_ACCOUNT_NGN, total, FeeKey(s));
    }

    method Apply(s: Source, survived: nat)
      requires ledger.Valid() && s in items
      modifies this`recorded, ledger
      ensures ledger.Valid() && Look() == Applied(Terms(), old(Look()), s, survived)
    {
      if survived == 0 {
        return;
      }
      var b := Resolve(rules, s.flow, items[s]);
      var txn: Option<TxnId> := None;
      if b.total > 0 {
        var paid := Post(s, b.total);
        if paid.Rejected? || survived == 1 {
          return;
        }
        txn := Some(paid.id);
      }
      if s !in recorded {
        recorded := recorded[s := FeeRow(b, txn)];
      }
    }

    /** Applies the fees of a batch of sources that have none recorded, in the order the query returned them. */
    method ApplyFor(batch: seq<Source>, survived: Source -> nat)
      requires Valid() && |batch| <= APPLY_BATCH_SIZE && forall i | 0 <= i < |batch| :: batch[i] in items && batch[i] !in recorded
      modifies this`recorded, ledger
      ensures Valid() && Look() == AppliedAll(Terms(), old(Look()), batch, survived)
      ensures BatchDone(Terms(), old(Look()), Look(), batch, survived)
    {
      for i := 0 to |batch|
        invariant Valid() && Look() == AppliedAll(Terms(), old(Look()), batch[..i], survived)
      {
        assert batch[..i + 1][..i] == batch[..i];
        ApplyOne(batch[i], survived(batch[i]));
      }
      assert batch[..|batch|] == batch;
      BatchIsDone(Terms(), old(Look()), batch, survived);
    }

    /** A charge or payout completes; nothing was posted under its fee key before. */
    method Complete(s: Source, item: Item)
      requires Valid() && s !in items && FeeKey(s) !in ledger.keys
      modifies this`items
      ensures Valid() && items == old(items)[s := item]
    {
      forall r | r in items && FeeKey(r) == FeeKey(s) ensures false { FeeKeysDiffer(r, s); }
      NewItemKeepsOk(Terms(), Look(), s, item);
      items := items[s := item];
    }
  }

  lemma {:induction false} NewItemKeepsOk(x: Terms, v: View, s: Source, item: Item)
    requires FeesOk(x, v) && s !in x.items && x.key(s) !in v.ledger.keys
    requires forall r | r in x.items :: x.key(r) != x.key(s)
    ensures FeesOk(x.(items := x.items[s := item]), v)
  {
  }
}
