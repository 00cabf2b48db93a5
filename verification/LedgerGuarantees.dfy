/** What the ledger promises in every state that any interleaving of calls can reach. */
module LedgerGuarantees {
  import opened LedgerTables
  import opened AtomicLedger
  import opened ReadCommitted

  ghost function Reached(accounts: map<AccountId, nat>, actions: seq<Action>): State {
    Run(Opened(accounts), actions)
  }

  lemma {:induction false} ReachedIsOk(accounts: map<AccountId, nat>, actions: seq<Action>)
    ensures Inv(Reached(accounts, actions))
    ensures Reached(accounts, actions).tables.accounts == accounts
  {
    OpenedIsOk(accounts);
    InterleavingIsSerial(Opened(accounts), actions);
    RunKeeps(Opened(accounts).tables, Log(Opened(accounts), actions));
  }

  // ---------- overdraft bound ----------

  /** No interleaving takes an account's available balance below its authorized overdraft. */
  lemma {:induction false} NeverOverdrawn(accounts: map<AccountId, nat>, actions: seq<Action>, a: AccountId)
    requires a in accounts
    ensures Available(Reached(accounts, actions).tables, a) + accounts[a] >= 0
  {
    ReachedIsOk(accounts, actions);
    assert NotOverdrawn(Reached(accounts, actions).tables, a);
  }

  // ---------- nothing is rewritten ----------

  /** Entries, key rows and resolved holds stay; accounts do not change. */
  ghost predicate Extends(t: Tables, t': Tables) {
    && t'.accounts == t.accounts
    && t.entries <= t'.entries
    && |t.txns| <= |t'.txns|
    && (forall id | 0 <= id < |t.txns| :: t'.txns[id].key == t.txns[id].key && t'.txns[id].ty == t.txns[id].ty)
    && (forall k | k in t.keys :: k in t'.keys && t'.keys[k] == t.keys[k])
    && |t.holds| <= |t'.holds|
    && (forall h | 0 <= h < |t.holds| ::
          && t'.holds[h].account == t.holds[h].account && t'.holds[h].amount == t.holds[h].amount
          && (t.holds[h].status != Active ==> t'.holds[h] == t.holds[h]))
  }

  lemma {:induction false} CommitExtends(t: Tables, op: Op)
    requires CanCommit(t, op)
    ensures Extends(t, Commit(t, op))
  {
  }

  lemma {:induction false} RunKeeps(t: Tables, ops: seq<Op>)
    requires TablesOk(t) && CanRun(t, ops)
    ensures TablesOk(RunOps(t, ops))
    ensures Extends(t, RunOps(t, ops))
  {
    if ops != [] {
      var front := ops[..|ops| - 1];
      RunKeeps(t, front);
      CommitKeepsOk(RunOps(t, front), ops[|ops| - 1]);
      CommitExtends(RunOps(t, front), ops[|ops| - 1]);
    }
  }

  lemma {:induction false} HistoryIsAppendOnly(st: State, actions: seq<Action>)
    requires Inv(st)
    ensures Extends(st.tables, Run(st, actions).tables)
  {
    InterleavingIsSerial(st, actions);
    RunKeeps(st.tables, Log(st, actions));
  }

  // ---------- conservation ----------

  function EntryTotal(es: seq<Entry>): int {
    if es == [] then 0 else EntryTotal(es[..|es| - 1]) + es[|es| - 1].leg.amount
  }

  function SumOfBalances(es: seq<Entry>, order: seq<AccountId>): int {
    if order == [] then 0
    else SumOfBalances(es, order[..|order| - 1]) + EntrySum(es, order[|order| - 1])
  }

  ghost predicate Lists(order: seq<AccountId>, all: set<AccountId>) {
    && (forall x :: x in order <==> x in all)
    && (forall i, j | 0 <= i < j < |order| :: order[i] != order[j])
  }

  lemma {:induction false} EntryTotalTag(es: seq<Entry>, id: TxnId, legs: seq<Leg>)
    ensures EntryTotal(es + Tag(id, legs)) == EntryTotal(es) + Total(legs)
  {
    if legs == [] {
      assert es + Tag(id, legs) == es;
    } else {
      var front := legs[..|legs| - 1];
      assert (es + Tag(id, legs))[..|es| + |legs| - 1] == es + Tag(id, front);
      EntryTotalTag(es, id, front);
    }
  }

  lemma {:induction false} RunBalances(t: Tables, ops: seq<Op>)
    requires CanRun(t, ops)
    ensures EntryTotal(RunOps(t, ops).entries) == EntryTotal(t.entries)
  {
    if ops != [] {
      var mid := RunOps(t, ops[..|ops| - 1]);
      var op := ops[|ops| - 1];
      RunBalances(t, ops[..|ops| - 1]);
      if op.Keyed() {
        EntryTotalTag(mid.entries, |mid.txns|, LegsFor(mid, op));
      }
    }
  }

  /** One more entry changes the sum of balances by its amount, counted once. */
  lemma {:induction false} LastEntryCountsOnce(es: seq<Entry>, order: seq<AccountId>)
    requires es != [] && forall i, j | 0 <= i < j < |order| :: order[i] != order[j]
    ensures SumOfBalances(es, order) == SumOfBalances(es[..|es| - 1], order)
      + if es[|es| - 1].leg.account in order then es[|es| - 1].leg.amount else 0
  {
    if order != [] {
      var front := order[..|order| - 1];
      LastEntryCountsOnce(es, front);
      assert forall x :: x in order <==> x in front || x == order[|order| - 1];
    }
  }

  lemma {:induction false} NoEntriesNoBalances(order: seq<AccountId>)
    ensures SumOfBalances([], order) == 0
  {
    if order != [] { NoEntriesNoBalances(order[..|order| - 1]); }
  }

  lemma {:induction false} BalancesAddUp(es: seq<Entry>, order: seq<AccountId>)
    requires forall i, j | 0 <= i < j < |order| :: order[i] != order[j]
    requires forall i | 0 <= i < |es| :: es[i].leg.account in order
    ensures SumOfBalances(es, order) == EntryTotal(es)
  {
    if es == [] {
      NoEntriesNoBalances(order);
    } else {
      BalancesAddUp(es[..|es| - 1], order);
      LastEntryCountsOnce(es, order);
    }
  }

  /** The ledger balances of all accounts, each counted once, sum to zero. */
  lemma {:induction false} BalancesSumToZero(accounts: map<AccountId, nat>, actions: seq<Action>, order: seq<AccountId>)
    requires Lists(order, accounts.Keys)
    ensures SumOfBalances(Reached(accounts, actions).tables.entries, order) == 0
    ensures forall id: TxnId :: Balanced(Reached(accounts, actions).tables, id)
  {
    ReachedIsOk(accounts, actions);
    OpenedIsOk(accounts);
    InterleavingIsSerial(Opened(accounts), actions);
    RunBalances(Opened(accounts).tables, Log(Opened(accounts), actions));
    BalancesAddUp(Reached(accounts, actions).tables.entries, order);
  }

  // ---------- idempotency ----------

  /** Once a key is stored, nothing more commits under it. */
  lemma {:induction false} StoredKeyIsSpent(t: Tables, ops: seq<Op>, i: nat)
    requires TablesOk(t) && CanRun(t, ops) && i < |ops| && ops[i].Keyed()
    ensures ops[i].key !in t.keys
  {
    var n := |ops| - 1;
    if i == n {
      RunKeeps(t, ops[..n]);
    } else {
      StoredKeyIsSpent(t, ops[..n], i);
    }
  }

  /** Every commit under a key is the one the key's row names. */
  lemma {:induction false} CommitOwnsItsKey(t: Tables, ops: seq<Op>, i: nat)
    requires TablesOk(t) && CanRun(t, ops) && i < |ops| && ops[i].Keyed()
    ensures var k := RunOps(t, ops).keys;
      ops[i].key in k && k[ops[i].key].hash == HashOf(ops[i]) && k[ops[i].key].status == Completed
  {
    var n := |ops| - 1;
    RunKeeps(t, ops[..n]);
    if i < n {
      CommitOwnsItsKey(t, ops[..n], i);
      CommitExtends(RunOps(t, ops[..n]), ops[n]);
    }
  }

  lemma {:induction false} KeysComeFromCommits(t: Tables, ops: seq<Op>, k: Key)
    requires TablesOk(t) && CanRun(t, ops) && k in RunOps(t, ops).keys && k !in t.keys
    ensures exists i :: 0 <= i < |ops| && ops[i].Keyed() && ops[i].key == k
  {
    var n := |ops| - 1;
    if ops[n].Keyed() && ops[n].key == k {
    } else {
      KeysComeFromCommits(t, ops[..n], k);
      var i :| 0 <= i < n && ops[..n][i].Keyed() && ops[..n][i].key == k;
      assert ops[i].Keyed() && ops[i].key == k;
    }
  }

  lemma {:induction false} LaterKeysDiffer(t: Tables, ops: seq<Op>, i: nat, j: nat)
    requires TablesOk(t) && CanRun(t, ops) && i < j < |ops| && ops[i].Keyed() && ops[j].Keyed()
    ensures ops[i].key != ops[j].key
  {
    var n := |ops| - 1;
    if j == n {
      CommitOwnsItsKey(t, ops[..n], i);
      assert ops[..n][i] == ops[i];
    } else {
      LaterKeysDiffer(t, ops[..n], i, j);
    }
  }

  /** At most one execution commits under a key; the stored keys are exactly the keys of the committed
      executions, each with its own request's hash, completed, and matched one to one with transactions. */
  lemma {:induction false} AtMostOneExecution(accounts: map<AccountId, nat>, actions: seq<Action>)
    ensures var log, t := Log(Opened(accounts), actions), Reached(accounts, actions).tables;
      && (forall i, j | 0 <= i < j < |log| && log[i].Keyed() && log[j].Keyed() :: log[i].key != log[j].key)
      && (forall i | 0 <= i < |log| && log[i].Keyed() :: log[i].key in t.keys && t.keys[log[i].key].hash == HashOf(log[i]))
      && (forall k | k in t.keys :: exists i :: 0 <= i < |log| && log[i].Keyed() && log[i].key == k)
      && KeysOk(t)
  {
    OpenedIsOk(accounts);
    InterleavingIsSerial(Opened(accounts), actions);
    var log, t0 := Log(Opened(accounts), actions), Opened(accounts).tables;
    var t := Reached(accounts, actions).tables;
    forall i, j | 0 <= i < j < |log| && log[i].Keyed() && log[j].Keyed() ensures log[i].key != log[j].key {
      LaterKeysDiffer(t0, log, i, j);
    }
    forall i | 0 <= i < |log| && log[i].Keyed()
      ensures log[i].key in t.keys && t.keys[log[i].key].hash == HashOf(log[i])
    {
      CommitOwnsItsKey(t0, log, i);
    }
    forall k | k in t.keys ensures exists i :: 0 <= i < |log| && log[i].Keyed() && log[i].key == k {
      KeysComeFromCommits(t0, log, k);
    }
  }

  /** Successful calls under one key carried the same request and got the same stored response. */
  lemma {:induction false} RepliesAgree(accounts: map<AccountId, nat>, actions: seq<Action>, i: SessionId, j: SessionId)
    requires var sessions := Reached(accounts, actions).sessions;
      && i in sessions && j in sessions
      && sessions[i].pc.Finished? && sessions[i].pc.outcome.Succeeded? && sessions[i].op.Keyed()
      && sessions[j].pc.Finished? && sessions[j].pc.outcome.Succeeded? && sessions[j].op.Keyed()
      && sessions[i].op.key == sessions[j].op.key
    ensures var sessions := Reached(accounts, actions).sessions;
      && HashOf(sessions[i].op) == HashOf(sessions[j].op)
      && sessions[i].pc.outcome == sessions[j].pc.outcome
  {
    ReachedIsOk(accounts, actions);
    var st := Reached(accounts, actions);
    assert SessionOk(st.tables, st.sessions[i]) && SessionOk(st.tables, st.sessions[j]);
  }

  /** No caller is ever told that a key is in progress or missing: neither row state is ever committed. */
  lemma {:induction false} RetryLaterIsUnreachable(accounts: map<AccountId, nat>, actions: seq<Action>, i: SessionId)
    requires i in Reached(accounts, actions).sessions
    ensures var s := Reached(accounts, actions).sessions[i];
      s.pc != Finished(Rejected(KeyInProgress)) && s.pc != Finished(Rejected(KeyMissing))
  {
    ReachedIsOk(accounts, actions);
    var st := Reached(accounts, actions);
    assert SessionOk(st.tables, st.sessions[i]);
  }

  /** A call that reuses a stored key for another request never commits and never succeeds. */
  lemma {:induction false} ReusedKeyChangesNothing(st: State, actions: seq<Action>, op: Op, i: SessionId)
    requires Inv(st) && op.Keyed() && op.key in st.tables.keys && st.tables.keys[op.key].hash != HashOf(op)
    ensures op !in Log(st, actions)
    ensures var st' := Run(st, actions);
      i in st'.sessions && st'.sessions[i].op == op && st'.sessions[i].pc.Finished? ==> st'.sessions[i].pc.outcome.Rejected?
  {
    InterleavingIsSerial(st, actions);
    HistoryIsAppendOnly(st, actions);
    var log := Log(st, actions);
    if op in log {
      var n :| 0 <= n < |log| && log[n] == op;
      StoredKeyIsSpent(st.tables, log, n);
    }
    var st' := Run(st, actions);
    if i in st'.sessions { assert SessionOk(st'.tables, st'.sessions[i]); }
  }

  // ---------- reversals and captures ----------

  /** A transaction is marked reversed exactly when one compensating transaction exists, and there is
      never a second; the compensation's legs are the original's, negated. */
  lemma {:induction false} ReversedIffCompensatedOnce(accounts: map<AccountId, nat>, actions: seq<Action>, o: TxnId)
    requires o < |Reached(accounts, actions).tables.txns|
    ensures var t := Reached(accounts, actions).tables;
      && (t.txns[o].state == Reversed <==> exists r: TxnId :: Reverses(t, r, o))
      && (forall r: TxnId | Reverses(t, r, o) :: LegsOf(t.entries, r) == Negated(LegsOf(t.entries, o)))
      && (forall r1: TxnId, r2: TxnId | Reverses(t, r1, o) && Reverses(t, r2, o) :: r1 == r2)
  {
    ReachedIsOk(accounts, actions);
  }

  /** A hold is captured exactly when one debit of its amount exists, and there is never a second. */
  lemma {:induction false} CapturedIffDebitedOnce(accounts: map<AccountId, nat>, actions: seq<Action>, h: HoldId)
    requires h < |Reached(accounts, actions).tables.holds|
    ensures var t := Reached(accounts, actions).tables;
      && (t.holds[h].status == Captured <==> exists c: TxnId :: Captures(t, c, h))
      && (forall c: TxnId | Captures(t, c, h) :: LegsOf(t.entries, c) == CaptureLegs(t.holds[h]))
      && (forall c1: TxnId, c2: TxnId | Captures(t, c1, h) && Captures(t, c2, h) :: c1 == c2)
  {
    ReachedIsOk(accounts, actions);
  }

  /** ids[0] is an original and each later id reverses the one before it. */
  ghost predicate Chain(t: Tables, ids: seq<TxnId>) {
    ids != [] && forall i | 0 < i < |ids| :: Reverses(t, ids[i], ids[i - 1])
  }

  ghost function ChainSum(t: Tables, ids: seq<TxnId>, a: AccountId): int {
    if ids == [] then 0
    else ChainSum(t, ids[..|ids| - 1], a) + LegSum(LegsOf(t.entries, ids[|ids| - 1]), a)
  }

  lemma {:induction false} ChainLegs(t: Tables, ids: seq<TxnId>, i: nat)
    requires ReversalsOk(t) && Chain(t, ids) && i < |ids|
    ensures var legs := LegsOf(t.entries, ids[0]);
      LegsOf(t.entries, ids[i]) == if i % 2 == 0 then legs else Negated(legs)
  {
    if i > 0 {
      ChainLegs(t, ids, i - 1);
      assert Reverses(t, ids[i], ids[i - 1]);
      NegatedTwice(LegsOf(t.entries, ids[0]));
    }
  }

  /** Legs that alternate with their negation cancel in pairs. */
  lemma {:induction false} AlternatingSum(t: Tables, ids: seq<TxnId>, legs: seq<Leg>, a: AccountId)
    requires forall i | 0 <= i < |ids| :: LegsOf(t.entries, ids[i]) == if i % 2 == 0 then legs else Negated(legs)
    ensures ChainSum(t, ids, a) == if |ids| % 2 == 1 then LegSum(legs, a) else 0
  {
    if ids != [] {
      var front := ids[..|ids| - 1];
      assert forall i | 0 <= i < |front| :: front[i] == ids[i];
      AlternatingSum(t, front, legs, a);
      NegatedSums(legs, a);
    }
  }

  lemma {:induction false} ChainReversed(t: Tables, ids: seq<TxnId>, i: nat)
    requires ReversalsOk(t) && Chain(t, ids) && i + 1 < |ids|
    ensures ids[i] < |t.txns| && t.txns[ids[i]].state == Reversed
  {
    assert Reverses(t, ids[i + 1], ids[i + 1 - 1]);
  }

  ghost predicate AllReversed(t: Tables, ids: seq<TxnId>) {
    forall i | 0 <= i < |ids| :: ids[i] < |t.txns| && t.txns[ids[i]].state == Reversed
  }

  lemma {:induction false} ChainEffect(t: Tables, ids: seq<TxnId>, a: AccountId)
    requires ReversalsOk(t) && Chain(t, ids)
    ensures ChainSum(t, ids, a) == if |ids| % 2 == 1 then LegSum(LegsOf(t.entries, ids[0]), a) else 0
    ensures AllReversed(t, ids[..|ids| - 1])
  {
    forall i: nat | i < |ids|
      ensures LegsOf(t.entries, ids[i]) == if i % 2 == 0 then LegsOf(t.entries, ids[0]) else Negated(LegsOf(t.entries, ids[0]))
    {
      ChainLegs(t, ids, i);
    }
    AlternatingSum(t, ids, LegsOf(t.entries, ids[0]), a);
    forall i: nat | i < |ids| - 1 ensures ids[i] < |t.txns| && t.txns[ids[i]].state == Reversed {
      ChainReversed(t, ids, i);
    }
  }

  /** An original and its n successive reversals move each account by the original's legs when n is even
      and by nothing when n is odd; every link but the last is marked reversed. */
  lemma {:induction false} ReversalChain(accounts: map<AccountId, nat>, actions: seq<Action>, ids: seq<TxnId>, a: AccountId)
    requires Chain(Reached(accounts, actions).tables, ids)
    ensures var t, n := Reached(accounts, actions).tables, |ids| - 1;
      && ChainSum(t, ids, a) == (if n % 2 == 0 then LegSum(LegsOf(t.entries, ids[0]), a) else 0)
      && AllReversed(t, ids[..n])
  {
    assert ReversalsOk(Reached(accounts, actions).tables) by { ReachedIsOk(accounts, actions); }
    ChainEffect(Reached(accounts, actions).tables, ids, a);
  }
}
