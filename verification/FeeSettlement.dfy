/** Fees and settlement together: a charge's fee is what the fee ticker recorded for it, and what a cycle deducts is
    what the ledger posted. */
module FeeSettlement {
  import opened LedgerTables
  import opened AtomicLedger
  import opened Sums
  import F = FeeApplication
  import S = Settlement
  import SerialLedger

  /** `ids` gives each charge its id; a charge's fee column is the total of its row in fee_charges. */
  datatype World = World(fees: F.View, terms: F.Terms, books: S.Books, ids: nat -> string) {
    function Source(i: nat): F.Source { F.Source(F.ChargeFlow, ids(i)) }

    function Key(i: nat): Key { terms.key(Source(i)) }
  }

  datatype Step =
    | NewCharge(item: F.Item)
    | ChangeCharge(charge: nat, completed: bool, posted: bool)
    | ApplyFee(charge: nat, survived: nat)
    | Tick(step: S.Step)    // a settlement cycle or a matured reserve
    | OtherCall(op: Op)     // any ledger call that is not a fee of a known charge or payout

  predicate Foreign(x: F.Terms, op: Op) { op.Keyed() ==> forall s | s in x.items :: x.key(s) != op.key }

  function Do(w: World, step: Step): World {
    match step
    case NewCharge(item) =>
      var i := |w.books.charges|;
      if w.Source(i) in w.terms.items || w.Key(i) in w.fees.ledger.keys || !Sensible(item)
         || exists s :: s in w.terms.items && w.terms.key(s) == w.Key(i)
      then w
      else
        w.(terms := w.terms.(items := w.terms.items[w.Source(i) := item]),
           books := S.Do(w.books, S.AddCharge(item.amount)))
    case ChangeCharge(i, completed, posted) => w.(books := S.Do(w.books, S.ChangeCharge(i, completed, posted)))
    case ApplyFee(i, survived) =>
      if i >= |w.books.charges| || !w.books.charges[i].completed || w.Source(i) !in w.terms.items || w.Source(i) in w.fees.recorded then w
      else
        var v := F.Applied(w.terms, w.fees, w.Source(i), survived);
        w.(fees := v,
           books := if w.Source(i) in v.recorded then S.Do(w.books, S.ApplyFee(i, v.recorded[w.Source(i)].breakdown.total)) else w.books)
    case Tick(step) => if step.RunCycle? || step.ReleaseReserve? then w.(books := S.Do(w.books, step)) else w
    case OtherCall(op) =>
      if Foreign(w.terms, op) then w.(fees := w.fees.(ledger := SerialLedger.Call(w.fees.ledger, op).0)) else w
  }

  function Run(w: World, steps: seq<Step>): World {
    if steps == [] then w else Do(Run(w, steps[..|steps| - 1]), steps[|steps| - 1])
  }

  /** What the tables promise of a charge: a non-negative amount on an account other than the platform's. */
  predicate Sensible(item: F.Item) { item.amount >= 0 && item.account != F.PLATFORM_FEES_ACCOUNT_NGN }

  // ---------- the invariant ----------

  predicate Linked(w: World, i: nat)
    requires i < |w.books.charges|
  {
    var charge, s := w.books.charges[i], w.Source(i);
    && s in w.terms.items && Sensible(w.terms.items[s]) && w.terms.items[s].amount == charge.amount
    && charge.fee == if s in w.fees.recorded then Some(w.fees.recorded[s].breakdown.total) else None
  }

  ghost predicate DistinctIds(ids: nat -> string) { forall i, j | ids(i) == ids(j) :: i == j }

  ghost predicate LinkOk(w: World) {
    && DistinctIds(w.ids)
    && F.FeesOk(w.terms, w.fees)
    && S.Ok(w.books)
    && forall i: nat | i < |w.books.charges| :: Linked(w, i)
  }

  ghost predicate Inv(w: World) { TablesOk(w.fees.ledger) && LinkOk(w) }

  lemma {:induction false} NewChargeKeepsOk(w: World, item: F.Item)
    requires LinkOk(w)
    ensures LinkOk(Do(w, NewCharge(item)))
  {
    var w' := Do(w, NewCharge(item));
    if w' != w {
      F.NewItemKeepsOk(w.terms, w.fees, w.Source(|w.books.charges|), item);
      S.DoKeepsOk(w.books, S.AddCharge(item.amount));
      forall i: nat | i < |w'.books.charges| ensures Linked(w', i) {
        if i < |w.books.charges| { assert Linked(w, i); }
      }
    }
  }

  lemma {:induction false} BooksStepKeepsOk(w: World, step: S.Step)
    requires LinkOk(w) && (step.RunCycle? || step.ReleaseReserve? || step.ChangeCharge?)
    ensures LinkOk(w.(books := S.Do(w.books, step)))
  {
    S.DoKeepsOk(w.books, step);
    var w' := w.(books := S.Do(w.books, step));
    forall i: nat | i < |w'.books.charges| ensures Linked(w', i) { assert Linked(w, i); }
  }

  lemma {:induction false} ApplyFeeKeepsOk(w: World, i: nat, survived: nat)
    requires KeysOk(w.fees.ledger) && LinkOk(w)
    ensures LinkOk(Do(w, ApplyFee(i, survived)))
  {
    var w' := Do(w, ApplyFee(i, survived));
    if w' != w {
      F.AppliedKeepsOk(w.terms, w.fees, w.Source(i), survived);
      F.AppliedRecords(w.terms, w.fees, w.Source(i), survived);
      assert Linked(w, i);
      if w.Source(i) in w'.fees.recorded {
        S.DoKeepsOk(w.books, S.ApplyFee(i, w'.fees.recorded[w.Source(i)].breakdown.total));
      }
      forall j: nat | j < |w'.books.charges| ensures Linked(w', j) {
        assert Linked(w, j);
        assert w.Source(i) == w.Source(j) ==> w.ids(i) == w.ids(j);
      }
    }
  }

  lemma {:induction false} OtherCallKeepsOk(w: World, op: Op)
    requires LinkOk(w) && Foreign(w.terms, op)
    ensures LinkOk(w.(fees := w.fees.(ledger := SerialLedger.Call(w.fees.ledger, op).0)))
  {
    var w' := w.(fees := w.fees.(ledger := SerialLedger.Call(w.fees.ledger, op).0));
    forall s | s in w.terms.items ensures F.SourceOk(w.terms, w'.fees, s) { assert F.SourceOk(w.terms, w.fees, s); }
    forall i: nat | i < |w'.books.charges| ensures Linked(w', i) { assert Linked(w, i); }
  }

  lemma {:induction false} DoKeepsTables(w: World, step: Step)
    requires TablesOk(w.fees.ledger)
    ensures TablesOk(Do(w, step).fees.ledger)
  {
    match step
    case ApplyFee(i, _) => if w.Source(i) in w.terms.items { SerialLedger.CallKeepsOk(w.fees.ledger, w.terms.Pay(w.Source(i))); }
    case OtherCall(op) => SerialLedger.CallKeepsOk(w.fees.ledger, op);
    case NewCharge(_) =>
    case ChangeCharge(_, _, _) =>
    case Tick(_) =>
  }

  lemma {:induction false} DoKeepsOk(w: World, step: Step)
    requires KeysOk(w.fees.ledger) && LinkOk(w)
    ensures LinkOk(Do(w, step))
  {
    match step
    case NewCharge(item) => NewChargeKeepsOk(w, item);
    case ChangeCharge(i, completed, posted) => BooksStepKeepsOk(w, S.ChangeCharge(i, completed, posted));
    case ApplyFee(i, survived) => ApplyFeeKeepsOk(w, i, survived);
    case Tick(s) => if s.RunCycle? || s.ReleaseReserve? { BooksStepKeepsOk(w, s); }
    case OtherCall(op) => if Foreign(w.terms, op) { OtherCallKeepsOk(w, op); }
  }

  /** Every step that can act does: a new charge is added with its item, a completed charge's fee is recorded in both
      tables once the ledger accepts it, and a cycle runs. */
  lemma {:induction false} StepsAct(w: World, step: Step)
    requires LinkOk(w)
    ensures var w', n := Do(w, step), |w.books.charges|;
      match step
      case NewCharge(item) =>
        (forall s | s in w.terms.items :: w.terms.key(s) != w.Key(n)) && w.Source(n) !in w.terms.items
          && w.Key(n) !in w.fees.ledger.keys && Sensible(item) ==>
          && w'.books.charges == w.books.charges + [S.Charge(item.amount, false, false, None)]
          && w'.terms.items == w.terms.items[w.Source(n) := item]
      case ChangeCharge(i, completed, posted) =>
        i < n ==> w'.books.charges == w.books.charges[i := w.books.charges[i].(completed := completed, posted := posted)]
      case ApplyFee(i, survived) =>
        i < n && w.books.charges[i].completed && w.Source(i) in w.terms.items && w.Source(i) !in w.fees.recorded
          && survived >= 2 && F.Accepts(w.terms, w.fees.ledger, w.Source(i)) ==>
          var total := F.Resolved(w.terms.rules, F.ChargeFlow, w.terms.items[w.Source(i)]).total;
          && w.Source(i) in w'.fees.recorded && w'.fees.recorded[w.Source(i)].breakdown.total == total
          && w'.books.charges == w.books.charges[i := w.books.charges[i].(fee := Some(total))]
      case Tick(tick) =>
        tick.RunCycle? && tick.config.Valid() ==>
          S.RanCycle(w.books, w'.books, tick.config, tick.now, tick.allowed, tick.survived)
      case OtherCall(_) => w'.books == w.books && w'.terms == w.terms
  {
    match step
    case ApplyFee(i, survived) =>
      if i < |w.books.charges| && w.Source(i) in w.terms.items && survived >= 2 && F.Accepts(w.terms, w.fees.ledger, w.Source(i)) {
        assert Linked(w, i);
        F.AcceptedIsRecorded(w.terms, w.fees, w.Source(i), survived);
        F.AppliedRecords(w.terms, w.fees, w.Source(i), survived);
      }
    case Tick(tick) => if tick.RunCycle? && tick.config.Valid() {
        S.CycledRan(w.books, tick.config, tick.now, tick.allowed, tick.survived);
      }
    case _ =>
  }

  /** A ledger in use, with no charges yet. */
  ghost predicate Initial(w: World) {
    && TablesOk(w.fees.ledger) && w.fees.recorded == map[] && w.terms.items == map[]
    && w.books == S.EMPTY && DistinctIds(w.ids)
  }

  lemma {:induction false} RunKeepsInv(w: World, steps: seq<Step>)
    requires Initial(w)
    ensures Inv(Run(w, steps))
  {
    if steps != [] {
      RunKeepsInv(w, steps[..|steps| - 1]);
      DoKeepsTables(Run(w, steps[..|steps| - 1]), steps[|steps| - 1]);
      DoKeepsOk(Run(w, steps[..|steps| - 1]), steps[|steps| - 1]);
    }
  }

  // ---------- deducted is posted ----------

  /** What the transaction under a key gave the platform's fee account; nothing when there is none. */
  function PostedFee(t: Tables, key: Key): int {
    if key in t.keys && t.keys[key].response.Some?
    then LegSum(LegsOf(t.entries, t.keys[key].response.value), F.PLATFORM_FEES_ACCOUNT_NGN)
    else 0
  }

  function PostedFees(w: World): nat -> int { (i: nat) => PostedFee(w.fees.ledger, w.Key(i)) }

  lemma {:induction false} TotalIsNotNegative(rules: seq<F.Rule>, flow: F.Flow, item: F.Item)
    requires item.amount >= 0
    ensures F.Resolved(rules, flow, item).total >= 0
  {
    var best := F.Best(rules, flow, item, |rules|);
    if best.Some? { F.ChargedIsMonotoneAndCapped(rules[best.value], item.amount, item.amount); }
  }

  /** A recorded fee, zero or not, is what the ledger posted for the charge. */
  lemma {:induction false} FeeWasPosted(w: World, i: nat)
    requires KeysOk(w.fees.ledger) && PostingsOk(w.fees.ledger) && LinkOk(w)
    requires i < |w.books.charges| && w.books.charges[i].fee.Some?
    ensures w.books.charges[i].fee.value == PostedFee(w.fees.ledger, w.Key(i))
  {
    var s := w.Source(i);
    assert Linked(w, i);
    assert F.SourceOk(w.terms, w.fees, s);
    TotalIsNotNegative(w.terms.rules, s.flow, w.terms.items[s]);
    if w.terms.Breakdown(s).total > 0 { F.RecordedEqualsPosted(w.terms, w.fees, s); }
  }

  /** In every run, crashes in both tickers included, the fees a cycle deducts are the sum of the fee transactions
      the ledger posted for the charges it took. */
  lemma {:induction false} FeesDeductedWerePosted(w0: World, steps: seq<Step>, c: S.CycleId)
    requires Initial(w0) && c < |Run(w0, steps).books.cycles|
    ensures var w := Run(w0, steps);
      w.books.cycles[c].fees == S.Share(w.books.items, PostedFees(w), c, |w.books.charges|)
  {
    RunKeepsInv(w0, steps);
    var w := Run(w0, steps);
    assert S.CycleOk(w.books, c);
    var n, charged := |w.books.charges|, S.Fees(w.books.charges);
    forall i: nat | i < n
      ensures S.TakenBy(w.books.items, charged, c)(i) == S.TakenBy(w.books.items, PostedFees(w), c)(i)
    {
      if i in w.books.items { FeeWasPosted(w, i); }
    }
    SameSum(S.TakenBy(w.books.items, charged, c), S.TakenBy(w.books.items, PostedFees(w), c), n);
  }
}
