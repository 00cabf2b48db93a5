/** The cached switches of one process under any number of concurrent checks, refreshes and setters, statement by
    statement, with other processes writing the same tables. */
module ResilienceCache {
  import opened LedgerTables
  import opened ResilienceSwitches

  type ThreadId = nat
  type Version = nat  // position of a write in the tables' history

  /** A snapshot with, for the record, the write each of its two reads saw and when the first read began. */
  datatype Snapshot = Snapshot(config: Config, mode: Version, switches: Version, began: nat, fetchedAt: Option<nat>)

  datatype Pc =
    | ReadLock
    | JudgeCopy(copy: Snapshot)                 // under the read lock: is the copy fresh?
    | WriteLock
    | JudgeAgain                                // under the write lock: did someone else refresh?
    | ReadMode
    | ReadSwitches(readOnly: bool, mode: Version, began: nat)
    | Store(config: Config, mode: Version, switches: Version, began: nat)
    | Decided(used: Snapshot, at: nat)
    | Unreadable

  datatype Thread =
    | Checking(pc: Pc, floor: Version)          // floor: the latest write whose setter had returned at the start
    | Setting(change: Config)                   // about to write
    | Invalidating(wrote: Version)              // written, about to clear the cache

  datatype Write = Write(config: Config, at: nat)

  datatype World = World(
    now: nat,
    history: seq<Write>,                        // the tables' successive contents, the last one current
    cache: Snapshot,
    writer: Option<ThreadId>,                   // holder of the write lock
    readers: set<ThreadId>,                     // holders of the read lock
    threads: map<ThreadId, Thread>,
    returned: Version)                          // the latest write whose setter has returned

  datatype Action =
    | Tick(elapsed: nat)
    | StartCheck(id: ThreadId)
    | StartSet(id: ThreadId, change: Config)
    | Step(id: ThreadId, ok: bool)
    | OtherProcessWrites(change: Config)

  predicate Fresh(s: Snapshot, now: nat) { s.fetchedAt.Some? && now - s.fetchedAt.value < CACHE_TTL }

  function Latest(w: World): Version
    requires w.history != []
  {
    |w.history| - 1
  }

  // ---------- one statement ----------

  function Goto(w: World, id: ThreadId, floor: Version, pc: Pc): World {
    w.(threads := w.threads[id := Checking(pc, floor)])
  }

  function StepCheck(w: World, id: ThreadId, pc: Pc, floor: Version, ok: bool): World
    requires w.history != []
  {
    match pc
    case ReadLock =>
      if w.writer.Some? then w
      else Goto(w, id, floor, JudgeCopy(w.cache)).(readers := w.readers + {id})
    case JudgeCopy(copy) =>
      Goto(w, id, floor, if Fresh(copy, w.now) then Decided(copy, w.now) else WriteLock).(readers := w.readers - {id})
    case WriteLock =>
      if w.writer.Some? || w.readers != {} then w else Goto(w, id, floor, JudgeAgain).(writer := Some(id))
    case JudgeAgain =>
      if Fresh(w.cache, w.now) then Goto(w, id, floor, Decided(w.cache, w.now)).(writer := None)
      else Goto(w, id, floor, ReadMode)
    case ReadMode =>
      if !ok then Goto(w, id, floor, Unreadable).(writer := None)
      else Goto(w, id, floor, ReadSwitches(w.history[Latest(w)].config.readOnly, Latest(w), w.now))
    case ReadSwitches(readOnly, mode, began) =>
      if !ok then Goto(w, id, floor, Unreadable).(writer := None)
      else Goto(w, id, floor, Store(Config(readOnly, w.history[Latest(w)].config.tripped), mode, Latest(w), began))
    case Store(config, mode, switches, began) =>
      var s := Snapshot(config, mode, switches, began, Some(w.now));
      Goto(w, id, floor, Decided(s, w.now)).(cache := s, writer := None)
    case Decided(_, _) => w
    case Unreadable => w
  }

  function StepSet(w: World, id: ThreadId, thread: Thread, ok: bool): World
    requires w.history != [] && !thread.Checking?
  {
    match thread
    case Setting(change) =>
      if !ok then w.(threads := w.threads - {id})
      else w.(history := w.history + [Write(change, w.now)], threads := w.threads[id := Invalidating(|w.history|)])
    case Invalidating(wrote) =>
      if w.writer.Some? || w.readers != {} then w
      else
        w.(cache := w.cache.(fetchedAt := None),
           threads := w.threads - {id},
           returned := if wrote > w.returned then wrote else w.returned)
  }

  function Do(w: World, action: Action): World
    requires w.history != []
  {
    match action
    case Tick(elapsed) => w.(now := w.now + elapsed)
    case StartCheck(id) => if id in w.threads then w else Goto(w, id, w.returned, ReadLock)
    case StartSet(id, change) => if id in w.threads then w else w.(threads := w.threads[id := Setting(change)])
    case Step(id, ok) =>
      if id !in w.threads then w
      else if w.threads[id].Checking? then StepCheck(w, id, w.threads[id].pc, w.threads[id].floor, ok)
      else StepSet(w, id, w.threads[id], ok)
    case OtherProcessWrites(change) => w.(history := w.history + [Write(change, w.now)])
  }

  // ---------- the invariant ----------

  /** Every write committed before this moment is one of the first `v` + 1. */
  predicate SeesAllBefore(history: seq<Write>, v: Version, moment: nat) {
    v < |history| && forall i | v < i < |history| :: history[i].at >= moment
  }

  /** The snapshot holds what the tables held at the two writes it names, both no older than its first read. */
  predicate SnapshotOk(history: seq<Write>, now: nat, s: Snapshot) {
    s.fetchedAt.Some? ==>
      && s.mode < |history| && s.config.readOnly == history[s.mode].config.readOnly
      && s.switches < |history| && s.config.tripped == history[s.switches].config.tripped
      && SeesAllBefore(history, s.mode, s.began) && SeesAllBefore(history, s.switches, s.began)
      && s.began <= s.fetchedAt.value <= now
  }

  predicate AtLeast(s: Snapshot, v: Version) { s.fetchedAt.Some? ==> s.mode >= v && s.switches >= v }

  predicate HoldsWriteLock(pc: Pc) { pc == JudgeAgain || pc == ReadMode || pc.ReadSwitches? || pc.Store? }

  predicate CheckOk(w: World, id: ThreadId, pc: Pc, floor: Version) {
    && floor <= w.returned
    && (HoldsWriteLock(pc) <==> w.writer == Some(id))
    && (pc.JudgeCopy? <==> id in w.readers)
    && match pc
       case JudgeCopy(copy) => SnapshotOk(w.history, w.now, copy) && AtLeast(copy, floor)
       case ReadSwitches(readOnly, mode, began) =>
         && mode < |w.history| && readOnly == w.history[mode].config.readOnly && mode >= w.returned
         && began <= w.now && SeesAllBefore(w.history, mode, began)
       case Store(config, mode, switches, began) =>
         SnapshotOk(w.history, w.now, Snapshot(config, mode, switches, began, Some(w.now))) && mode >= w.returned && switches >= w.returned
       case Decided(used, at) =>
         SnapshotOk(w.history, at, used) && AtLeast(used, floor) && Fresh(used, at) && at <= w.now
       case _ => true
  }

  predicate ThreadOk(w: World, id: ThreadId, thread: Thread) {
    match thread
    case Checking(pc, floor) => CheckOk(w, id, pc, floor)
    case Setting(_) => w.writer != Some(id) && id !in w.readers
    case Invalidating(wrote) => wrote < |w.history| && w.writer != Some(id) && id !in w.readers
  }

  ghost predicate Inv(w: World) {
    && w.history != [] && w.returned < |w.history|
    && (forall i | 0 <= i < |w.history| :: w.history[i].at <= w.now)
    && SnapshotOk(w.history, w.now, w.cache) && AtLeast(w.cache, w.returned)
    && (forall id | id in w.threads :: ThreadOk(w, id, w.threads[id]))
    && (w.writer.Some? ==> w.readers == {} && w.writer.value in w.threads)
    && (forall id | id in w.readers :: id in w.threads)
  }

  lemma {:induction false} LaterHistory(history: seq<Write>, more: Write, now: nat, s: Snapshot)
    requires SnapshotOk(history, now, s) && more.at >= now
    ensures SnapshotOk(history + [more], more.at, s)
  {
  }

  /** A write, by this process or another, happens no earlier than anything recorded so far. */
  lemma {:induction false} WriteKeepsThread(w: World, change: Config, id: ThreadId)
    requires Inv(w) && id in w.threads
    ensures ThreadOk(w.(history := w.history + [Write(change, w.now)]), id, w.threads[id])
  {
  }

  lemma {:induction false} WriteKeepsInv(w: World, change: Config)
    requires Inv(w)
    ensures Inv(w.(history := w.history + [Write(change, w.now)]))
  {
    LaterHistory(w.history, Write(change, w.now), w.now, w.cache);
    forall id | id in w.threads
      ensures ThreadOk(w.(history := w.history + [Write(change, w.now)]), id, w.threads[id])
    {
      WriteKeepsThread(w, change, id);
    }
  }

  lemma {:induction false} TickKeepsInv(w: World, elapsed: nat)
    requires Inv(w)
    ensures Inv(w.(now := w.now + elapsed))
  {
  }

  lemma {:induction false} SetKeepsInv(w: World, id: ThreadId, ok: bool)
    requires Inv(w) && id in w.threads && !w.threads[id].Checking?
    ensures Inv(StepSet(w, id, w.threads[id], ok))
  {
    assert ThreadOk(w, id, w.threads[id]);
    var w' := StepSet(w, id, w.threads[id], ok);
    if w.threads[id].Setting? && ok { WriteKeepsInv(w, w.threads[id].change); }
    forall x | x in w'.threads ensures ThreadOk(w', x, w'.threads[x]) {
      if x != id { assert ThreadOk(w, x, w.threads[x]); }
    }
  }

  lemma {:induction false} OwnStepOk(w: World, id: ThreadId, pc: Pc, floor: Version, ok: bool)
    requires Inv(w) && id in w.threads && w.threads[id] == Checking(pc, floor) && CheckOk(w, id, pc, floor)
    ensures ThreadOk(StepCheck(w, id, pc, floor, ok), id, StepCheck(w, id, pc, floor, ok).threads[id])
  {
  }

  /** A checker's step changes the locks and the cache only when no other thread relies on them. */
  lemma {:induction false} OtherThreadsOk(w: World, id: ThreadId, pc: Pc, floor: Version, ok: bool, other: ThreadId)
    requires Inv(w) && id in w.threads && w.threads[id] == Checking(pc, floor) && CheckOk(w, id, pc, floor)
    requires other in w.threads && other != id && ThreadOk(w, other, w.threads[other])
    ensures ThreadOk(StepCheck(w, id, pc, floor, ok), other, w.threads[other])
  {
  }

  lemma {:induction false} CheckKeepsInv(w: World, id: ThreadId, pc: Pc, floor: Version, ok: bool)
    requires Inv(w) && id in w.threads && w.threads[id] == Checking(pc, floor)
    ensures Inv(StepCheck(w, id, pc, floor, ok))
  {
    assert ThreadOk(w, id, w.threads[id]);
    var w' := StepCheck(w, id, pc, floor, ok);
    forall x | x in w'.threads ensures ThreadOk(w', x, w'.threads[x]) {
      if x == id { OwnStepOk(w, id, pc, floor, ok); } else { OtherThreadsOk(w, id, pc, floor, ok, x); }
    }
  }

  lemma {:induction false} DoKeepsInv(w: World, action: Action)
    requires Inv(w)
    ensures Inv(Do(w, action))
  {
    match action
    case Tick(elapsed) => TickKeepsInv(w, elapsed);
    case OtherProcessWrites(change) => WriteKeepsInv(w, change);
    case Step(id, ok) =>
      if id in w.threads {
        if w.threads[id].Checking? { CheckKeepsInv(w, id, w.threads[id].pc, w.threads[id].floor, ok); } else { SetKeepsInv(w, id, ok); }
      }
    case StartCheck(id) =>
    case StartSet(id, _) =>
  }

  // ---------- every run ----------

  function Opened(config: Config, now: nat): World {
    World(now, [Write(config, now)], Snapshot(Config(false, {}), 0, 0, 0, None), None, {}, map[], 0)
  }

  ghost function Run(w: World, actions: seq<Action>): World
    requires Inv(w)
    ensures Inv(Run(w, actions))
  {
    if actions == [] then w
    else
      DoKeepsInv(Run(w, actions[..|actions| - 1]), actions[|actions| - 1]);
      Do(Run(w, actions[..|actions| - 1]), actions[|actions| - 1])
  }

  /** A check that starts after a setter returned decides on the mode and the switches as they were after that
      setter's write, or later. */
  lemma {:induction false} SettersAreSeen(config: Config, start: nat, actions: seq<Action>, id: ThreadId)
    requires var w := Run(Opened(config, start), actions); id in w.threads && w.threads[id].Checking? && w.threads[id].pc.Decided?
    ensures var w := Run(Opened(config, start), actions);
      var used, floor := w.threads[id].pc.used, w.threads[id].floor;
      && floor <= used.mode < |w.history| && used.config.readOnly == w.history[used.mode].config.readOnly
      && floor <= used.switches < |w.history| && used.config.tripped == w.history[used.switches].config.tripped
  {
  }

  /** A check misses no write older than the cache lifetime plus the time its snapshot took to read. */
  lemma {:induction false} StalenessIsBounded(config: Config, start: nat, actions: seq<Action>, id: ThreadId, i: nat)
    requires var w := Run(Opened(config, start), actions);
      && id in w.threads && w.threads[id].Checking? && w.threads[id].pc.Decided? && i < |w.history|
      && w.threads[id].pc.used.fetchedAt.Some?
      && var used := w.threads[id].pc.used;
         w.history[i].at + 2_000_000_000 + (used.fetchedAt.value - used.began) <= w.threads[id].pc.at
    ensures var w := Run(Opened(config, start), actions);
      i <= w.threads[id].pc.used.mode && i <= w.threads[id].pc.used.switches
  {
  }

  // ---------- a thread left alone gets to its end ----------

  /** n statements of one thread in a row, the tables answering. */
  function Steps(w: World, id: ThreadId, n: nat): World
    requires w.history != []
    decreases n
  {
    if n == 0 then w else Steps(Do(w, Step(id, true)), id, n - 1)
  }

  predicate Unlocked(w: World, id: ThreadId) { w.history != [] && id !in w.threads && w.writer.None? && w.readers == {} }

  lemma {:induction false} DecidedStays(w: World, id: ThreadId, n: nat)
    requires w.history != [] && id in w.threads && w.threads[id].Checking? && w.threads[id].pc.Decided?
    ensures Steps(w, id, n) == w
  {
    if n > 0 { DecidedStays(w, id, n - 1); }
  }

  lemma {:induction false} NextStep(w: World, id: ThreadId, n: nat)
    requires w.history != [] && n > 0
    ensures Steps(w, id, n) == Steps(Do(w, Step(id, true)), id, n - 1)
  {
  }

  /** From an expired copy a check takes the write lock, reads both tables and stores what it read. */
  lemma {:induction false} ReadsTables(w: World, id: ThreadId, floor: Version, n: nat)
    requires w.history != [] && id in w.threads && w.threads[id] == Checking(WriteLock, floor) && n >= 5
    requires w.writer.None? && w.readers == {} && !(w.cache.fetchedAt.Some? && w.now < w.cache.fetchedAt.value + 2_000_000_000)
    ensures var now, read := Latest(w), Snapshot(w.history[Latest(w)].config, Latest(w), Latest(w), w.now, Some(w.now));
      Steps(w, id, n) == w.(cache := read, threads := w.threads[id := Checking(Decided(read, w.now), floor)])
  {
    var w1 := Do(w, Step(id, true));
    assert w1 == w.(threads := w.threads[id := Checking(JudgeAgain, floor)], writer := Some(id));
    var w2 := Do(w1, Step(id, true));
    assert w2 == w1.(threads := w.threads[id := Checking(ReadMode, floor)]);
    var w3 := Do(w2, Step(id, true));
    assert w3 == w1.(threads := w.threads[id := Checking(ReadSwitches(w.history[Latest(w)].config.readOnly, Latest(w), w.now), floor)]);
    var w4 := Do(w3, Step(id, true));
    assert w4 == w1.(threads := w.threads[id := Checking(Store(w.history[Latest(w)].config, Latest(w), Latest(w), w.now), floor)]);
    var w5 := Do(w4, Step(id, true));
    NextStep(w, id, n);
    NextStep(w1, id, n - 1);
    NextStep(w2, id, n - 2);
    NextStep(w3, id, n - 3);
    NextStep(w4, id, n - 4);
    DecidedStays(w5, id, n - 5);
  }

  /** A check nobody disturbs decides within seven statements: on the cached copy while it is fresh, and otherwise on
      what the tables hold, which it caches. */
  lemma {:induction false} AloneDecides(w: World, id: ThreadId, n: nat)
    requires Unlocked(w, id) && n >= 7
    ensures var read := Snapshot(w.history[Latest(w)].config, Latest(w), Latest(w), w.now, Some(w.now));
      var used := if w.cache.fetchedAt.Some? && w.now < w.cache.fetchedAt.value + 2_000_000_000 then w.cache else read;
      Steps(Do(w, StartCheck(id)), id, n) ==
        w.(cache := used, threads := w.threads[id := Checking(Decided(used, w.now), w.returned)])
  {
    var w1 := Do(w, StartCheck(id));
    var w2 := Do(w1, Step(id, true));
    assert w2 == w.(threads := w.threads[id := Checking(JudgeCopy(w.cache), w.returned)], readers := {id});
    var w3 := Do(w2, Step(id, true));
    NextStep(w1, id, n);
    NextStep(w2, id, n - 1);
    assert w3.readers == {};
    if Fresh(w.cache, w.now) {
      assert w3 == w.(threads := w.threads[id := Checking(Decided(w.cache, w.now), w.returned)]);
      DecidedStays(w3, id, n - 2);
    } else {
      assert w3 == w.(threads := w.threads[id := Checking(WriteLock, w.returned)]);
      ReadsTables(w3, id, w.returned, n - 2);
    }
  }

  /** A setter nobody disturbs writes the tables, clears the cache and returns. */
  lemma {:induction false} AloneSets(w: World, id: ThreadId, change: Config)
    requires Unlocked(w, id)
    ensures var w' := Do(Do(Do(w, StartSet(id, change)), Step(id, true)), Step(id, true));
      && w'.history == w.history + [Write(change, w.now)] && w'.cache.fetchedAt.None? && id !in w'.threads
      && w'.returned >= |w.history|
  {
  }
}
