/** The ledger service as the program runs it: each call opens a transaction, writes rows one by one
    and commits or rolls back.  Every call is proved equal to one step of SerialLedger.Call. */
module LedgerService {
  import opened LedgerTables
  import opened AtomicLedger
  import opened SerialLedger

  class Service {
    var accounts: map<AccountId, nat>
    var keys: map<Key, KeyRow>
    var txns: seq<Txn>
    var entries: seq<Entry>
    var holds: seq<Hold>

    function Now(): Tables
      reads this
    {
      Tables(accounts, keys, txns, entries, holds)
    }

    ghost predicate Valid()
      reads this
    {
      TablesOk(Now())
    }

    /** The entries belong to transactions the table knows. */
    ghost predicate Numbered()
      reads this
    {
      forall i | 0 <= i < |entries| :: entries[i].txn < |txns|
    }

    constructor (accounts: map<AccountId, nat>)
      ensures Valid() && Now() == Tables(accounts, map[], [], [], [])
    {
      this.accounts, keys, txns, entries, holds := accounts, map[], [], [], [];
      new;
      assert forall id: TxnId :: Balanced(Now(), id);
      assert forall a | a in accounts :: NotOverdrawn(Now(), a);
    }

    // ---------- balances and holds ----------

    method GetBalance(account: AccountId) returns (ledger: int, pending: int, available: int, found: bool)
      requires Valid()
      ensures found <==> account in accounts
      ensures found ==> ledger == Ledger(Now(), account) && pending == Held(Now(), account)
      ensures found ==> available == ledger - pending && available + accounts[account] >= 0
    {
      found := account in accounts;
      ledger := EntrySum(entries, account);
      pending := HeldSum(holds, account);
      available := ledger - pending;
      assert found ==> NotOverdrawn(Now(), account);
    }

    method PlaceHold(account: AccountId, amount: int) returns (r: Outcome)
      requires Valid()
      modifies this
      ensures Valid()
      ensures (Now(), r) == Call(old(Now()), AtomicLedger.PlaceHold(account, amount))
    {
      CallKeepsOk(Now(), AtomicLedger.PlaceHold(account, amount));
      if account !in accounts {
        return Rejected(AccountNotFound);
      }
      var overdraft: int := accounts[account];
      var ledgerMinor := EntrySum(entries, account);
      var heldMinor := HeldSum(holds, account);
      var available := ledgerMinor - heldMinor;
      if available - amount < -overdraft {
        return Rejected(InsufficientBalance);
      }
      if amount <= 0 {
        return Rejected(DatabaseError);
      }
      r := Succeeded(|holds|);
      holds := holds + [Hold(account, amount, Active)];
    }

    method ReleaseHold(hold: HoldId) returns (r: Outcome)
      requires Valid()
      modifies this
      ensures Valid()
      ensures (Now(), r) == Call(old(Now()), AtomicLedger.ReleaseHold(hold))
    {
      CallKeepsOk(Now(), AtomicLedger.ReleaseHold(hold));
      if hold >= |holds| {
        return Rejected(HoldNotFound);
      }
      if holds[hold].status != Active {
        return Rejected(HoldNotActive);
      }
      holds := holds[hold := holds[hold].(status := Released)];
      r := Succeeded(hold);
    }

    // ---------- the transaction around a keyed call ----------

    method Reserve(key: Key, hash: RequestHash)
      requires key !in keys
      modifies this`keys
      ensures keys == old(keys)[key := KeyRow(hash, InProgress, None)]
    {
      keys := keys[key := KeyRow(hash, InProgress, None)];
    }

    method FetchCompleted(op: Op) returns (r: Outcome)
      requires Valid() && op.Keyed() && op.key in keys
      ensures r == Replay(keys[op.key], op) && r != Rejected(KeyInProgress)
    {
      var row := keys[op.key];
      if row.hash != HashOf(op) {
        return Rejected(KeyReused);
      }
      if row.status != Completed {
        return Rejected(KeyInProgress);
      }
      match row.response
      case Some(id) => return Succeeded(id);
      case None => return Rejected(DatabaseError);
    }

    method Rollback(saved: Tables)
      requires saved.accounts == accounts
      modifies this
      ensures Now() == saved
    {
      keys, txns, entries, holds := saved.keys, saved.txns, saved.entries, saved.holds;
    }

    /** The row trigger and the row constraints for one entry about to be inserted. */
    method CheckAvailableBalance(leg: Leg) returns (e: Option<Error>)
      ensures e == LegError(Now(), [], leg)
    {
      if leg.amount > 0 {
        return if leg.account in accounts then None else Some(DatabaseError);
      }
      if leg.account !in accounts {
        return Some(AccountNotFound);
      }
      var overdraft: int := accounts[leg.account];
      var ledgerBalance := EntrySum(entries, leg.account);
      var held := HeldSum(holds, leg.account);
      var resulting := ledgerBalance + leg.amount;
      if resulting - held < -overdraft {
        return Some(InsufficientBalance);
      }
      e := if leg.amount == 0 then Some(DatabaseError) else None;
    }

    /** Writes the transaction row and its entries, stopping at the first refused row. */
    method InsertPostedTransaction(ty: TxnType, key: Key, legs: seq<Leg>) returns (e: Option<Error>)
      requires Numbered()
      modifies this`txns, this`entries
      ensures e == if TxnKeyTaken(old(Now()), key) then Some(DatabaseError) else LegsError(old(Now()), legs)
      ensures e.None? ==> txns == old(txns) + [Txn(key, ty, Posted)] && entries == old(entries) + Tag(|old(txns)|, legs)
      ensures e.None? ==> LegsOf(entries, |old(txns)|) == legs
    {
      ghost var before := Now();
      if TxnKeyTaken(Now(), key) {
        return Some(DatabaseError);
      }
      var id := |txns|;
      txns := txns + [Txn(key, ty, Posted)];
      var i := 0;
      assert entries == before.entries + Tag(id, legs[..0]);
      while i < |legs|
        invariant 0 <= i <= |legs|
        invariant txns == old(txns) + [Txn(key, ty, Posted)]
        invariant entries == before.entries + Tag(id, legs[..i])
        invariant LegsError(before, legs[..i]).None?
      {
        EntrySumTag(before.entries, id, legs[..i], legs[i].account);
        e := CheckAvailableBalance(legs[i]);
        assert legs[..i + 1][..i] == legs[..i];
        assert e == LegError(before, legs[..i], legs[i]) == LegsError(before, legs[..i + 1]);
        if e.Some? {
          FirstErrorStands(before, legs, i + 1);
          return;
        }
        entries := entries + [Entry(id, legs[i])];
        assert Tag(id, legs[..i + 1]) == Tag(id, legs[..i]) + [Entry(id, legs[i])];
        i := i + 1;
      }
      assert legs[..i] == legs;
      LegsOfFresh(before.entries, id);
      LegsOfTag(before.entries, id, legs, id);
      e := None;
    }

    /** Completes the key, then the deferred check that the entries sum to zero, then the commit. */
    method CommitOrRollback(op: Op, id: TxnId, saved: Tables) returns (r: Outcome)
      requires op.Keyed() && saved.accounts == accounts
      requires keys == saved.keys[op.key := KeyRow(HashOf(op), InProgress, None)]
      modifies this
      ensures Total(LegsOf(old(entries), id)) == 0 ==>
        && r == Succeeded(id)
        && Now() == old(Now()).(keys := saved.keys[op.key := KeyRow(HashOf(op), Completed, Some(id))])
      ensures Total(LegsOf(old(entries), id)) != 0 ==> r == Rejected(UnbalancedTransaction) && Now() == saved
    {
      keys := keys[op.key := KeyRow(HashOf(op), Completed, Some(id))];
      if Total(LegsOf(entries, id)) != 0 {
        Rollback(saved);
        return Rejected(UnbalancedTransaction);
      }
      r := Succeeded(id);
    }

    /** Inserts the transaction and its legs under the reserved key, rolling everything back on an error. */
    method InsertOrRollback(op: Op, legs: seq<Leg>, saved: Tables) returns (e: Option<Error>)
      requires op.Keyed() && op.key !in saved.keys && Numbered()
      requires Now() == saved.(keys := saved.keys[op.key := KeyRow(HashOf(op), InProgress, None)])
      requires TargetError(saved, op).None? && legs == LegsFor(saved, op)
      modifies this
      ensures e.Some? ==> Now() == saved && Call(saved, op) == (saved, Rejected(e.value))
      ensures e.None? ==>
        && Now() == old(Now()).(txns := saved.txns + [Txn(op.key, TypeOf(op), Posted)],
                                entries := saved.entries + Tag(|saved.txns|, legs))
        && LegsOf(entries, |saved.txns|) == legs
        && CallError(saved, op) == (if Total(legs) != 0 then Some(UnbalancedTransaction) else None)
    {
      LegsErrorFrame(saved, Now(), legs);
      e := InsertPostedTransaction(TypeOf(op), op.key, legs);
      if e.Some? {
        Rollback(saved);
      }
    }

    // ---------- postings, captures, reversals ----------

    method PostTransaction(ty: TxnType, key: Key, legs: seq<Leg>) returns (r: Outcome)
      requires Valid()
      modifies this
      ensures Valid()
      ensures (Now(), r) == Call(old(Now()), Post(key, ty, legs))
    {
      CallKeepsOk(Now(), Post(key, ty, legs));
      if key in keys {
        r := FetchCompleted(Post(key, ty, legs));
      } else {
        r := ExecutePost(ty, key, legs);
      }
    }

    method ExecutePost(ty: TxnType, key: Key, legs: seq<Leg>) returns (r: Outcome)
      requires Numbered() && key !in keys
      modifies this
      ensures (Now(), r) == Call(old(Now()), Post(key, ty, legs))
    {
      var op := Post(key, ty, legs);
      var saved := Now();
      Reserve(key, HashOf(op));
      var e := InsertOrRollback(op, legs, saved);
      if e.Some? {
        return Rejected(e.value);
      }
      r := CommitOrRollback(op, |saved.txns|, saved);
    }

    method Credit(account: AccountId, amount: int, key: Key) returns (r: Outcome)
      requires Valid()
      modifies this
      ensures Valid()
      ensures (Now(), r) == Call(old(Now()), CreditOp(account, amount, key))
    {
      r := PostTransaction(TxnType.Credit, key, [Leg(account, amount), Leg(SYSTEM_ACCOUNT_NGN, -amount)]);
    }

    method Debit(account: AccountId, amount: int, key: Key) returns (r: Outcome)
      requires Valid()
      modifies this
      ensures Valid()
      ensures (Now(), r) == Call(old(Now()), DebitOp(account, amount, key))
    {
      r := PostTransaction(TxnType.Debit, key, [Leg(account, -amount), Leg(SYSTEM_ACCOUNT_NGN, amount)]);
    }

    method Transfer(from: AccountId, to: AccountId, amount: int, key: Key) returns (r: Outcome)
      requires Valid()
      modifies this
      ensures Valid()
      ensures (Now(), r) == Call(old(Now()), TransferOp(from, to, amount, key))
    {
      r := PostTransaction(TxnType.Transfer, key, [Leg(from, -amount), Leg(to, amount)]);
    }

    method CaptureHold(hold: HoldId, key: Key) returns (r: Outcome)
      requires Valid()
      modifies this
      ensures Valid()
      ensures (Now(), r) == Call(old(Now()), AtomicLedger.CaptureHold(hold, key))
    {
      CallKeepsOk(Now(), AtomicLedger.CaptureHold(hold, key));
      if key in keys {
        r := FetchCompleted(AtomicLedger.CaptureHold(hold, key));
      } else {
        r := ExecuteCapture(hold, key);
      }
    }

    method ExecuteCapture(hold: HoldId, key: Key) returns (r: Outcome)
      requires Numbered() && key !in keys
      modifies this
      ensures (Now(), r) == Call(old(Now()), AtomicLedger.CaptureHold(hold, key))
    {
      var op := AtomicLedger.CaptureHold(hold, key);
      var saved := Now();
      Reserve(key, HashOf(op));
      if hold >= |holds| {
        Rollback(saved);
        return Rejected(HoldNotFound);
      }
      if holds[hold].status != Active {
        Rollback(saved);
        return Rejected(HoldNotActive);
      }
      r := PostCapture(hold, key, saved);
    }

    method PostCapture(hold: HoldId, key: Key, saved: Tables) returns (r: Outcome)
      requires Numbered() && key !in saved.keys && TargetError(saved, AtomicLedger.CaptureHold(hold, key)).None?
      requires Now() == saved.(keys := saved.keys[key := KeyRow(CaptureHash(hold), InProgress, None)])
      modifies this
      ensures (Now(), r) == Call(saved, AtomicLedger.CaptureHold(hold, key))
    {
      var op := AtomicLedger.CaptureHold(hold, key);
      var row := holds[hold];
      var legs := [Leg(row.account, -row.amount), Leg(SYSTEM_ACCOUNT_NGN, row.amount)];
      var e := InsertOrRollback(op, legs, saved);
      if e.Some? {
        return Rejected(e.value);
      }
      holds := holds[hold := row.(status := Captured)];
      r := CommitOrRollback(op, |saved.txns|, saved);
    }

    method ReverseTransaction(original: TxnId, key: Key) returns (r: Outcome)
      requires Valid()
      modifies this
      ensures Valid()
      ensures (Now(), r) == Call(old(Now()), Reverse(original, key))
    {
      CallKeepsOk(Now(), Reverse(original, key));
      if key in keys {
        r := FetchCompleted(Reverse(original, key));
      } else {
        r := ExecuteReverse(original, key);
      }
    }

    /** Checks the original and collects its entries, each negated. */
    method CompensatingLegs(original: TxnId, key: Key) returns (e: Option<Error>, legs: seq<Leg>)
      ensures e == TargetError(Now(), Reverse(original, key))
      ensures e.None? ==> legs == Negated(LegsOf(entries, original))
    {
      legs := [];
      if original >= |txns| {
        return Some(TransactionNotFound), [];
      }
      if txns[original].state != Posted {
        return Some(NotReversible), [];
      }
      var rows := LegsOf(entries, original);
      for i := 0 to |rows|
        invariant legs == Negated(rows[..i])
      {
        legs := legs + [Leg(rows[i].account, -rows[i].amount)];
      }
      assert rows[..|rows|] == rows;
      e := if |legs| == 0 then Some(TransactionNotFound) else None;
    }

    method ExecuteReverse(original: TxnId, key: Key) returns (r: Outcome)
      requires Numbered() && key !in keys
      modifies this
      ensures (Now(), r) == Call(old(Now()), Reverse(original, key))
    {
      var saved := Now();
      Reserve(key, ReversalHash(original));
      var e, legs := CompensatingLegs(original, key);
      if e.Some? {
        Rollback(saved);
        return Rejected(e.value);
      }
      r := PostReversal(original, key, legs, saved);
    }

    method PostReversal(original: TxnId, key: Key, legs: seq<Leg>, saved: Tables) returns (r: Outcome)
      requires Numbered() && key !in saved.keys
      requires Now() == saved.(keys := saved.keys[key := KeyRow(ReversalHash(original), InProgress, None)])
      requires TargetError(saved, Reverse(original, key)).None? && legs == LegsFor(saved, Reverse(original, key))
      modifies this
      ensures (Now(), r) == Call(saved, Reverse(original, key))
    {
      var op := Reverse(original, key);
      var e := InsertOrRollback(op, legs, saved);
      if e.Some? {
        return Rejected(e.value);
      }
      txns := txns[original := txns[original].(state := Reversed)];
      assert txns == SetReversed(saved, original).txns + [Txn(key, Reversal, Posted)];
      r := CommitOrRollback(op, |saved.txns|, saved);
    }

    /** The checks read only accounts, entries and holds. */
    lemma {:induction false} LegsErrorFrame(t: Tables, t': Tables, legs: seq<Leg>)
      requires t'.accounts == t.accounts && t'.entries == t.entries && t'.holds == t.holds
      ensures LegsError(t', legs) == LegsError(t, legs)
    {
      if legs != [] { LegsErrorFrame(t, t', legs[..|legs| - 1]); }
    }
  }
}
