/** The ledger's committed tables and the sums the database derives from them. */
module LedgerTables {

  datatype Option<+T> = None | Some(value: T)

  type AccountId = string
  type Key = string
  type TxnId = nat   // position of the row in commit order
  type HoldId = nat  // position of the row in commit order

  /** The contra account that takes the other leg of a credit, a debit or a capture. */
  const SYSTEM_ACCOUNT_NGN: AccountId := "00000000-0000-0000-0000-000000000001"

  datatype TxnType = Credit | Debit | Transfer | Reversal
  datatype TxnState = Pending | Posted | Failed | Reversed
  datatype HoldStatus = Active | Released | Captured
  datatype KeyStatus = InProgress | Completed

  /** One side of a posting, in minor units. */
  datatype Leg = Leg(account: AccountId, amount: int)

  /** What a request's digest identifies; module RequestHash shows the digests do not collide. */
  datatype RequestHash =
    | LegsHash(ty: TxnType, legs: seq<Leg>)
    | CaptureHash(hold: HoldId)
    | ReversalHash(original: TxnId)

  datatype KeyRow = KeyRow(hash: RequestHash, status: KeyStatus, response: Option<TxnId>)
  datatype Txn = Txn(key: Key, ty: TxnType, state: TxnState)
  datatype Entry = Entry(txn: TxnId, leg: Leg)
  datatype Hold = Hold(account: AccountId, amount: int, status: HoldStatus)

  datatype Tables = Tables(
    accounts: map<AccountId, nat>,  // overdraft limit of each account
    keys: map<Key, KeyRow>,
    txns: seq<Txn>,
    entries: seq<Entry>,
    holds: seq<Hold>)

  /** How a call ends: with the id it stored, or with an error and nothing stored. */
  datatype Outcome = Succeeded(id: nat) | Rejected(error: Error)

  datatype Error =
    | InsufficientBalance | AccountNotFound | HoldNotFound | HoldNotActive
    | TransactionNotFound | NotReversible | UnbalancedTransaction
    | KeyReused | KeyInProgress | KeyMissing
    | DatabaseError  // any other refusal, a deadlock, a lost connection, a crash

  // ---------- sums ----------

  function LegSum(legs: seq<Leg>, a: AccountId): int {
    if legs == [] then 0
    else
      var last := legs[|legs| - 1];
      LegSum(legs[..|legs| - 1], a) + if last.account == a then last.amount else 0
  }

  function Total(legs: seq<Leg>): int {
    if legs == [] then 0 else Total(legs[..|legs| - 1]) + legs[|legs| - 1].amount
  }

  function EntrySum(es: seq<Entry>, a: AccountId): int {
    if es == [] then 0
    else
      var last := es[|es| - 1].leg;
      EntrySum(es[..|es| - 1], a) + if last.account == a then last.amount else 0
  }

  function Weight(h: Hold, a: AccountId): int {
    if h.account == a && h.status == Active then h.amount else 0
  }

  function HeldSum(hs: seq<Hold>, a: AccountId): int {
    if hs == [] then 0 else HeldSum(hs[..|hs| - 1], a) + Weight(hs[|hs| - 1], a)
  }

  function Ledger(t: Tables, a: AccountId): int { EntrySum(t.entries, a) }

  function Held(t: Tables, a: AccountId): int { HeldSum(t.holds, a) }

  /** What the account can spend: posted balance minus active holds. */
  function Available(t: Tables, a: AccountId): int { Ledger(t, a) - Held(t, a) }

  // ---------- rows of one transaction ----------

  function LegsOf(es: seq<Entry>, id: TxnId): seq<Leg> {
    if es == [] then []
    else
      var last := es[|es| - 1];
      LegsOf(es[..|es| - 1], id) + if last.txn == id then [last.leg] else []
  }

  function Tag(id: TxnId, legs: seq<Leg>): seq<Entry> {
    seq(|legs|, i requires 0 <= i < |legs| => Entry(id, legs[i]))
  }

  function Negated(legs: seq<Leg>): seq<Leg> {
    seq(|legs|, i requires 0 <= i < |legs| => Leg(legs[i].account, -legs[i].amount))
  }

  // ---------- how the sums behave ----------

  lemma {:induction false} EntrySumTag(es: seq<Entry>, id: TxnId, legs: seq<Leg>, a: AccountId)
    ensures EntrySum(es + Tag(id, legs), a) == EntrySum(es, a) + LegSum(legs, a)
  {
    if legs == [] {
      assert es + Tag(id, legs) == es;
    } else {
      var front := legs[..|legs| - 1];
      assert (es + Tag(id, legs))[..|es| + |legs| - 1] == es + Tag(id, front);
      EntrySumTag(es, id, front, a);
    }
  }

  lemma {:induction false} HeldSumAppend(hs: seq<Hold>, h: Hold, a: AccountId)
    ensures HeldSum(hs + [h], a) == HeldSum(hs, a) + Weight(h, a)
  {
  }

  lemma {:induction false} HeldSumUpdate(hs: seq<Hold>, i: nat, h: Hold, a: AccountId)
    requires i < |hs|
    ensures HeldSum(hs[i := h], a) == HeldSum(hs, a) - Weight(hs[i], a) + Weight(h, a)
  {
    var n := |hs| - 1;
    if i == n {
      assert hs[i := h][..n] == hs[..n];
    } else {
      assert hs[i := h][..n] == hs[..n][i := h];
      HeldSumUpdate(hs[..n], i, h, a);
    }
  }

  /** A transaction's own rows are found again, and other transactions' rows are untouched. */
  lemma {:induction false} LegsOfTag(es: seq<Entry>, id: TxnId, legs: seq<Leg>, other: TxnId)
    ensures LegsOf(es + Tag(id, legs), other) == LegsOf(es, other) + if other == id then legs else []
  {
    if legs == [] {
      assert es + Tag(id, legs) == es;
    } else {
      var front := legs[..|legs| - 1];
      assert (es + Tag(id, legs))[..|es| + |legs| - 1] == es + Tag(id, front);
      LegsOfTag(es, id, front, other);
      assert front + [legs[|legs| - 1]] == legs;
    }
  }

  lemma {:induction false} LegsOfFresh(es: seq<Entry>, id: TxnId)
    requires forall i | 0 <= i < |es| :: es[i].txn != id
    ensures LegsOf(es, id) == []
  {
    if es != [] {
      LegsOfFresh(es[..|es| - 1], id);
    }
  }

  lemma {:induction false} NegatedSums(legs: seq<Leg>, a: AccountId)
    ensures LegSum(Negated(legs), a) == -LegSum(legs, a)
    ensures Total(Negated(legs)) == -Total(legs)
  {
    if legs != [] {
      var front := legs[..|legs| - 1];
      assert Negated(legs)[..|legs| - 1] == Negated(front);
      NegatedSums(front, a);
    }
  }

  lemma NegatedTwice(legs: seq<Leg>)
    ensures Negated(Negated(legs)) == legs
  {
  }

  /** Legs that are all positive on an account cannot lower it. */
  lemma {:induction false} PositiveLegSum(legs: seq<Leg>, a: AccountId)
    requires forall i | 0 <= i < |legs| && legs[i].account == a :: legs[i].amount >= 0
    ensures LegSum(legs, a) >= 0
  {
    if legs != [] {
      PositiveLegSum(legs[..|legs| - 1], a);
    }
  }
}
