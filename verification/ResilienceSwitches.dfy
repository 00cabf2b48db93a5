/** Kill switches and read-only mode: scopes, what a check decides from a snapshot, and the cached service of
    one process run by one caller at a time. */
module ResilienceSwitches {
  import opened LedgerTables

  datatype ScopeType = Integration | Merchant | Feature
  datatype Scope = Scope(ty: ScopeType, value: string) {
    function Key(): string { TypeName(ty) + ":" + value }
  }

  function TypeName(ty: ScopeType): string {
    match ty
    case Integration => "integration"
    case Merchant => "merchant"
    case Feature => "feature"
  }

  /** What the two tables say: the mode, and the keys of the disabled switches. */
  datatype Config = Config(readOnly: bool, tripped: set<string>)

  datatype Decision = Proceed | ReadOnlyMode | Tripped(scope: Scope) | Unknown

  function FirstTripped(c: Config, scopes: seq<Scope>): Decision {
    if scopes == [] then Proceed
    else if FirstTripped(c, scopes[..|scopes| - 1]) != Proceed then FirstTripped(c, scopes[..|scopes| - 1])
    else if scopes[|scopes| - 1].Key() in c.tripped then Tripped(scopes[|scopes| - 1])
    else Proceed
  }

  function Decide(c: Config, scopes: seq<Scope>): Decision {
    if c.readOnly then ReadOnlyMode else FirstTripped(c, scopes)
  }

  // ---------- scopes ----------

  /** Two different scopes never share a switch. */
  lemma {:induction false} ScopeKeysDiffer(a: Scope, b: Scope)
    requires a.Key() == b.Key()
    ensures a == b
  {
    var x, y := a.Key(), b.Key();
    assert x[0] == TypeName(a.ty)[0] && y[0] == TypeName(b.ty)[0];
    assert x[|TypeName(a.ty)| + 1..] == a.value;
    assert y[|TypeName(b.ty)| + 1..] == b.value;
  }

  /** The earliest of the scopes that is disabled, if one is. */
  predicate IsFirstTripped(c: Config, scopes: seq<Scope>, i: nat) {
    i < |scopes| && scopes[i].Key() in c.tripped && forall j | 0 <= j < i :: scopes[j].Key() !in c.tripped
  }

  lemma {:induction false} FirstTrippedIsFirst(c: Config, scopes: seq<Scope>)
    ensures match FirstTripped(c, scopes)
      case Tripped(scope) => exists i: nat :: IsFirstTripped(c, scopes, i) && scope == scopes[i]
      case d => d == Proceed && forall i | 0 <= i < |scopes| :: scopes[i].Key() !in c.tripped
  {
    if scopes != [] {
      var n := |scopes| - 1;
      FirstTrippedIsFirst(c, scopes[..n]);
      assert forall i | 0 <= i < n :: scopes[..n][i] == scopes[i];
      if FirstTripped(c, scopes[..n]) != Proceed {
        var i: nat :| IsFirstTripped(c, scopes[..n], i) && FirstTripped(c, scopes).scope == scopes[..n][i];
        assert IsFirstTripped(c, scopes, i);
      } else if scopes[n].Key() in c.tripped {
        assert IsFirstTripped(c, scopes, n);
      }
    }
  }

  /** Money may move exactly when the system is writable and none of the scopes is disabled; otherwise the
      earliest disabled scope is named. */
  lemma {:induction false} ProceedIff(c: Config, scopes: seq<Scope>)
    ensures Decide(c, scopes) == Proceed <==> !c.readOnly && forall i | 0 <= i < |scopes| :: scopes[i].Key() !in c.tripped
    ensures Decide(c, scopes) == ReadOnlyMode <==> c.readOnly
    ensures Decide(c, scopes) != Unknown
    ensures Decide(c, scopes).Tripped? ==> exists i: nat :: IsFirstTripped(c, scopes, i) && Decide(c, scopes).scope == scopes[i]
  {
    FirstTrippedIsFirst(c, scopes);
  }

  // ---------- one process, one caller at a time ----------

  const CACHE_TTL := 2_000_000_000  // nanoseconds

  /** The two tables, which other processes write as well. */
  class Database {
    var config: Config

    constructor (config: Config)
      ensures this.config == config
    {
      this.config := config;
    }
  }

  /** Fetched less than two seconds, in nanoseconds, before. */
  predicate TwoSeconds(fetchedAt: Option<nat>, now: nat) { fetchedAt.Some? && now < fetchedAt.value + 2_000_000_000 }

  class Service {
    const db: Database
    var cached: Config
    var fetchedAt: Option<nat>  // none is Go's zero time, which is never fresh

    constructor (db: Database)
      ensures this.db == db && fetchedAt.None?
    {
      this.db, cached, fetchedAt := db, Config(false, {}), None;
    }

    predicate Fresh(now: nat)
      reads this
    {
      fetchedAt.Some? && now - fetchedAt.value < CACHE_TTL
    }

    method Snapshot(now: nat, reachable: bool) returns (state: Option<Config>)
      modifies this
      ensures (state, cached, fetchedAt) ==
        if TwoSeconds(old(fetchedAt), now) then (Some(old(cached)), old(cached), old(fetchedAt))
        else if reachable then (Some(db.config), db.config, Some(now))
        else (None, old(cached), old(fetchedAt))
    {
      if Fresh(now) {
        return Some(cached);
      }
      if !reachable {
        return None;
      }
      cached, fetchedAt := db.config, Some(now);
      state := Some(cached);
    }

    /** Fails closed: an unreachable database never lets money move on an expired snapshot. */
    method Check(scopes: seq<Scope>, now: nat, reachable: bool) returns (d: Decision)
      modifies this
      ensures d ==
        if TwoSeconds(old(fetchedAt), now) then Decide(old(cached), scopes)
        else if reachable then Decide(db.config, scopes) else Unknown
      ensures d == Proceed ==> Fresh(now) && !cached.readOnly && forall i | 0 <= i < |scopes| :: scopes[i].Key() !in cached.tripped
    {
      var state := Snapshot(now, reachable);
      if state.None? {
        return Unknown;
      }
      ProceedIff(state.value, scopes);
      if state.value.readOnly {
        return ReadOnlyMode;
      }
      for i := 0 to |scopes|
        invariant FirstTripped(state.value, scopes[..i]) == Proceed
      {
        assert scopes[..i + 1][..i] == scopes[..i];
        if scopes[i].Key() in state.value.tripped {
          TrippedStays(state.value, scopes, i + 1);
          return Tripped(scopes[i]);
        }
      }
      assert scopes[..|scopes|] == scopes;
      d := Proceed;
    }

    lemma {:induction false} TrippedStays(c: Config, scopes: seq<Scope>, n: nat)
      requires n <= |scopes| && FirstTripped(c, scopes[..n]) != Proceed
      ensures FirstTripped(c, scopes) == FirstTripped(c, scopes[..n])
    {
      if n == |scopes| {
        assert scopes[..n] == scopes;
      } else {
        assert scopes[..|scopes| - 1][..n] == scopes[..n];
        TrippedStays(c, scopes[..|scopes| - 1], n);
      }
    }

    method Invalidate()
      modifies this`fetchedAt
      ensures fetchedAt == None
    {
      fetchedAt := None;
    }

    /** After either setter returns, the next check reads the tables again. */
    method SetKillSwitch(scope: Scope, enabled: bool)
      modifies this`fetchedAt, db
      ensures db.config == old(db.config).(tripped := if enabled then old(db.config.tripped) - {scope.Key()} else old(db.config.tripped) + {scope.Key()})
      ensures fetchedAt == None
    {
      var tripped := if enabled then db.config.tripped - {scope.Key()} else db.config.tripped + {scope.Key()};
      db.config := db.config.(tripped := tripped);
      Invalidate();
    }

    method SetReadOnly(readOnly: bool)
      modifies this`fetchedAt, db
      ensures db.config == old(db.config).(readOnly := readOnly)
      ensures fetchedAt == None
    {
      db.config := db.config.(readOnly := readOnly);
      Invalidate();
    }
  }
}
