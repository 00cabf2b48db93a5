/** SELECT ... ORDER BY age LIMIT n: how every ticker claims its rows. */
module Claims {
  import opened LedgerTables

  /** Rows ids[0], ids[1], ... are candidates (rows with an age), oldest first and none twice; a candidate is left
      out only when the batch is full, and then it is no older than any chosen row. */
  predicate OldestOf(ages: seq<Option<nat>>, ids: seq<nat>, limit: nat) {
    && |ids| <= limit
    && (forall i | 0 <= i < |ids| :: ids[i] < |ages| && ages[ids[i]].Some?)
    && (forall i, j | 0 <= i < j < |ids| :: ids[i] != ids[j] && ages[ids[i]].value <= ages[ids[j]].value)
    && (forall c: nat | c < |ages| && ages[c].Some? && c !in ids :: |ids| == limit && NoOlderThan(ages, ids, c))
  }

  predicate NoOlderThan(ages: seq<Option<nat>>, ids: seq<nat>, c: nat)
    requires c < |ages| && ages[c].Some? && forall i | 0 <= i < |ids| :: ids[i] < |ages| && ages[ids[i]].Some?
  {
    forall i | 0 <= i < |ids| :: ages[ids[i]].value <= ages[c].value
  }

  /** The first of the oldest candidates not chosen yet. */
  method Oldest(ages: seq<Option<nat>>, ids: seq<nat>) returns (best: Option<nat>)
    ensures best.None? ==> forall c: nat | c < |ages| && ages[c].Some? :: c in ids
    ensures best.Some? ==> best.value < |ages| && ages[best.value].Some? && best.value !in ids
    ensures best.Some? ==> forall c: nat | c < |ages| && ages[c].Some? && c !in ids :: ages[best.value].value <= ages[c].value
  {
    best := None;
    for c := 0 to |ages|
      invariant best.None? ==> forall x: nat | x < c && ages[x].Some? :: x in ids
      invariant best.Some? ==> best.value < c && ages[best.value].Some? && best.value !in ids
      invariant best.Some? ==> forall x: nat | x < c && ages[x].Some? && x !in ids :: ages[best.value].value <= ages[x].value
    {
      if ages[c].Some? && c !in ids && (best.None? || ages[c].value < ages[best.value].value) {
        best := Some(c);
      }
    }
  }

  method OldestFirst(ages: seq<Option<nat>>, limit: nat) returns (ids: seq<nat>)
    ensures OldestOf(ages, ids, limit)
  {
    ids := [];
    while |ids| < limit
      invariant |ids| <= limit
      invariant forall i | 0 <= i < |ids| :: ids[i] < |ages| && ages[ids[i]].Some?
      invariant forall i, j | 0 <= i < j < |ids| :: ids[i] != ids[j] && ages[ids[i]].value <= ages[ids[j]].value
      invariant forall c: nat | c < |ages| && ages[c].Some? && c !in ids :: NoOlderThan(ages, ids, c)
    {
      var best := Oldest(ages, ids);
      if best.None? {
        return;
      }
      assert NoOlderThan(ages, ids, best.value);
      forall c: nat | c < |ages| && ages[c].Some? && c !in ids + [best.value] ensures NoOlderThan(ages, ids + [best.value], c) {
        assert NoOlderThan(ages, ids, c);
      }
      ids := ids + [best.value];
    }
  }
}
