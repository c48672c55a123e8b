/**
  The resolver used by any number of tasks at once, at the granularity of its two
  read-write locks. A lock is fair: requests queue, and only the head of the queue is
  granted. Between two steps of one task any other task may run. The observed
  generation is a torn read: the global counter is loaded first, without a lock, the
  project's counter later, under the read lock.
*/
module ResolverRuns {
  import opened Options
  import opened WorktreeCache

  // ---- fair read-write locks ----

  datatype Mode = Shared | Exclusive
  datatype Request = Request(tid: nat, mode: Mode)
  datatype Lock = Lock(writer: Option<nat>, readers: set<nat>, queue: seq<Request>)

  const FREE_LOCK: Lock := Lock(None, {}, [])

  function Enqueue(l: Lock, tid: nat, mode: Mode): Lock {
    l.(queue := l.queue + [Request(tid, mode)])
  }

  predicate Grantable(l: Lock, tid: nat) {
    && l.queue != [] && l.queue[0].tid == tid
    && l.writer.None?
    && (l.queue[0].mode.Exclusive? ==> l.readers == {})
  }

  function Grant(l: Lock): Lock {
    if l.queue == [] then l
    else
      var r := l.queue[0];
      if r.mode.Exclusive? then l.(writer := Some(r.tid), queue := l.queue[1..])
      else l.(readers := l.readers + {r.tid}, queue := l.queue[1..])
  }

  function Release(l: Lock, tid: nat): Lock {
    if l.writer == Some(tid) then l.(writer := None) else l.(readers := l.readers - {tid})
  }

  // ---- tasks ----

  datatype Kind = Refresh(key: Key) | Cached(key: Key) | Invalidate(key: Key) | InvalidateAll

  /** What a call of `generation_for` is for. */
  datatype Purpose = ForAttempt | ForHit | ForRefresh | ForFresh

  /** Where a call is. At a point named Await its request for a lock is queued; at a point named
      Hold it has been granted. */
  datatype Pc =
    | Begin
    // generation_for
    | LoadGlobal(purpose: Purpose) | AskProject(purpose: Purpose)
    | AwaitProject(purpose: Purpose) | HoldProject(purpose: Purpose)
    // the cache read of cached_worktrees
    | AskCache | AwaitCache | HoldCache
    // list_worktrees and discover_targets
    | StartListing | InListing
    // store_if_current
    | AskStore | AwaitStore | HoldStore | AwaitInsert | HoldInsert | Stored
    // invalidate and invalidate_all
    | AskBump | AwaitBump | HoldBump | Bumped | AwaitRemove | HoldRemove | Removed
    | Returned(result: Option<Listing>)

  /** `loaded` is the half-read generation, `outer` and `inner` the generations observed by
      `cached_worktrees` and by `refresh_discovery`, `seen` when the latter was completed, and
      `floor` the last relevant invalidation completed when the call began. */
  datatype Task = Task(
    kind: Kind, pc: Pc, loaded: nat, outer: Generation, inner: Generation, seen: nat,
    listing: Listing, found: Option<Listing>, attempts: nat, floor: nat)

  function NewTask(kind: Kind): Task {
    Task(kind, Begin, 0, Generation(0, 0), Generation(0, 0), 0, Listing(0, []), None, 0, 0)
  }

  function KeyOf(kind: Kind): Key {
    if kind.InvalidateAll? then "" else kind.key
  }

  // ---- which program points hold or await which lock ----

  datatype Which = Generations | Entries

  predicate Shares(w: Which, pc: Pc) {
    match w
    case Generations => pc.HoldProject? || pc.HoldStore? || pc.AwaitInsert? || pc.HoldInsert?
    case Entries => pc.HoldCache?
  }

  predicate Excludes(w: Which, pc: Pc) {
    match w
    case Generations => pc.HoldBump? || pc.Bumped? || pc.AwaitRemove? || pc.HoldRemove? || pc.Removed?
    case Entries => pc.HoldInsert? || pc.HoldRemove?
  }

  function Awaits(w: Which, pc: Pc): Option<Mode> {
    match w
    case Generations =>
      if pc.AwaitProject? || pc.AwaitStore? then Some(Shared) else if pc.AwaitBump? then Some(Exclusive) else None
    case Entries =>
      if pc.AwaitCache? then Some(Shared) else if pc.AwaitInsert? || pc.AwaitRemove? then Some(Exclusive) else None
  }

  predicate Holds(w: Which, pc: Pc) {
    Shares(w, pc) || Excludes(w, pc)
  }

  /** The lock after a task went from program point `was` to `pc`: its request was queued, or was
      granted, or the lock was released, or nothing happened to it. */
  function Follow(w: Which, l: Lock, tid: nat, was: Pc, pc: Pc): Lock {
    if Awaits(w, was).None? && Awaits(w, pc).Some? then Enqueue(l, tid, Awaits(w, pc).value)
    else if Awaits(w, was).Some? && Holds(w, pc) then Grant(l)
    else if Holds(w, was) && !Holds(w, pc) then Release(l, tid)
    else l
  }

  // ---- shared data and steps ----

  /** The data behind the locks; `lastInvalidated` and `lastInvalidatedAll` record when an
      `invalidate` of a key and an `invalidate_all` last completed. */
  datatype Data = Data(
    cache: map<Key, Entry>, global: nat, projects: map<Key, nat>,
    lastInvalidated: map<Key, nat>, lastInvalidatedAll: nat)

  /** `clock` counts steps. */
  datatype Sys = Sys(data: Data, maxEntries: nat, generations: Lock, entries: Lock, tasks: seq<Task>, clock: nat)

  /** What the environment decides at a step: whether I/O succeeds, what it lists, whether a cached
      entry is still young, the time of day, and which of several oldest entries is evicted. */
  datatype Choice = Choice(ok: bool, worktrees: seq<string>, young: bool, now: nat, kept: map<Key, Entry>)

  datatype Event = Event(tid: nat, choice: Choice)

  function LastInvalidated(d: Data, key: Key): nat {
    if key in d.lastInvalidated then d.lastInvalidated[key] else 0
  }

  /** When an invalidation that concerns `key` last completed. */
  function LastRelevant(d: Data, key: Key): nat {
    if LastInvalidated(d, key) < d.lastInvalidatedAll then d.lastInvalidatedAll else LastInvalidated(d, key)
  }

  function Current(d: Data, key: Key): Generation {
    CurrentGeneration(d.global, d.projects, key)
  }

  /** The second half of `generation_for`, under the read lock, and what its caller does with it. */
  function ReadProject(d: Data, clock: nat, t: Task, purpose: Purpose): Task {
    var observed := Generation(t.loaded, ProjectGeneration(d.projects, KeyOf(t.kind)));
    match purpose
    case ForAttempt => t.(pc := AskCache, outer := observed)
    case ForRefresh => t.(pc := StartListing, inner := observed, seen := clock)
    case ForHit => t.(pc := if observed == t.outer then Returned(t.found) else LoadGlobal(ForRefresh))
    case ForFresh =>
      if observed == t.outer then t.(pc := Returned(Some(t.listing)))
      else if t.attempts < 2 then t.(pc := LoadGlobal(ForAttempt), attempts := t.attempts + 1)
      else t.(pc := Returned(None))
  }

  function ReadCache(d: Data, t: Task, c: Choice): Task {
    var found := if KeyOf(t.kind) in d.cache then Some(d.cache[KeyOf(t.kind)].listing) else None;
    t.(pc := LoadGlobal(if found.Some? && c.young then ForHit else ForRefresh), found := found)
  }

  /** A call begins; a configured root that cannot be resolved ends it at once. */
  function BeginCall(d: Data, t: Task, c: Choice): Task {
    match t.kind
    case Refresh(key) =>
      t.(pc := if c.ok then LoadGlobal(ForRefresh) else Returned(None), floor := LastRelevant(d, key))
    case Cached(key) =>
      t.(pc := if c.ok then LoadGlobal(ForAttempt) else Returned(None), floor := LastRelevant(d, key))
    case _ => t.(pc := AskBump)
  }

  /** What the task becomes by its next step. */
  function Advance(d: Data, clock: nat, t: Task, c: Choice): Task {
    match t.pc
    case Begin => BeginCall(d, t, c)
    case LoadGlobal(purpose) => t.(pc := AskProject(purpose), loaded := d.global)
    case AskProject(purpose) => t.(pc := AwaitProject(purpose))
    case AwaitProject(purpose) => t.(pc := HoldProject(purpose))
    case HoldProject(purpose) => ReadProject(d, clock, t, purpose)
    case AskCache => t.(pc := AwaitCache)
    case AwaitCache => t.(pc := HoldCache)
    case HoldCache => ReadCache(d, t, c)
    case StartListing => t.(pc := InListing, listing := Listing(clock, []))
    case InListing =>
      if c.ok then t.(pc := AskStore, listing := t.listing.(worktrees := c.worktrees)) else t.(pc := Returned(None))
    case AskStore => t.(pc := AwaitStore)
    case AwaitStore => t.(pc := HoldStore)
    // the first comparison: wait for the second lock with the first held, or give up
    case HoldStore => t.(pc := if Current(d, KeyOf(t.kind)) == t.inner then AwaitInsert else Stored)
    case AwaitInsert => t.(pc := HoldInsert)
    case HoldInsert => t.(pc := Stored)
    case Stored => t.(pc := if t.kind.Cached? then LoadGlobal(ForFresh) else Returned(Some(t.listing)))
    case AskBump => t.(pc := AwaitBump)
    case AwaitBump => t.(pc := HoldBump)
    case HoldBump => t.(pc := Bumped)
    case Bumped => t.(pc := AwaitRemove)
    case AwaitRemove => t.(pc := HoldRemove)
    case HoldRemove => t.(pc := Removed)
    case Removed => t.(pc := Returned(None))
    case Returned(_) => t
  }

  /** The second comparison, insertion and eviction, with both locks held. */
  function Insert(d: Data, t: Task, c: Choice): Data {
    if Current(d, KeyOf(t.kind)) == t.inner then d.(cache := c.kept) else d
  }

  /** The cache that `store_if_current` trims: what was there plus the new entry. */
  function Inserted(d: Data, t: Task, c: Choice): map<Key, Entry> {
    d.cache[KeyOf(t.kind) := Entry(c.now, t.listing)]
  }

  function RaiseGeneration(d: Data, kind: Kind): Data {
    if kind.InvalidateAll? then d.(global := d.global + 1, projects := map[])
    else d.(projects := Bump(d.projects, KeyOf(kind)))
  }

  function RemoveEntries(d: Data, kind: Kind): Data {
    d.(cache := if kind.InvalidateAll? then map[] else d.cache - {KeyOf(kind)})
  }

  /** The write lock on the generations is released and the invalidation has completed. */
  function CompleteInvalidation(d: Data, clock: nat, kind: Kind): Data {
    if kind.InvalidateAll? then d.(lastInvalidatedAll := clock)
    else d.(lastInvalidated := d.lastInvalidated[KeyOf(kind) := clock])
  }

  /** What the shared data become by the task's next step. */
  function Change(d: Data, clock: nat, t: Task, c: Choice): Data {
    match t.pc
    case HoldInsert => Insert(d, t, c)
    case HoldBump => RaiseGeneration(d, t.kind)
    case HoldRemove => RemoveEntries(d, t.kind)
    case Removed => CompleteInvalidation(d, clock, t.kind)
    case _ => d
  }

  /** The task has returned, or waits for a lock it cannot be granted yet. */
  predicate Blocked(s: Sys, tid: nat)
    requires tid < |s.tasks|
  {
    var pc := s.tasks[tid].pc;
    || pc.Returned?
    || (Awaits(Generations, pc).Some? && !Grantable(s.generations, tid))
    || (Awaits(Entries, pc).Some? && !Grantable(s.entries, tid))
  }

  /** The next step of a task that is not blocked. */
  function Act(s: Sys, tid: nat, c: Choice): Sys
    requires tid < |s.tasks|
  {
    var t := s.tasks[tid];
    var u := Advance(s.data, s.clock, t, c);
    Sys(Change(s.data, s.clock, t, c), s.maxEntries,
        Follow(Generations, s.generations, tid, t.pc, u.pc),
        Follow(Entries, s.entries, tid, t.pc, u.pc),
        s.tasks[tid := u], s.clock + 1)
  }

  /** Eviction may keep only what trimming allows. */
  ghost predicate Possible(s: Sys, e: Event) {
    && e.tid < |s.tasks| && !Blocked(s, e.tid)
    && (s.tasks[e.tid].pc.HoldInsert? ==>
          Trimmed(Inserted(s.data, s.tasks[e.tid], e.choice), e.choice.kept, s.maxEntries))
  }

  /** One step of one task; an impossible step leaves everything as it is. */
  ghost function Step(s: Sys, e: Event): Sys {
    if Possible(s, e) then Act(s, e.tid, e.choice) else s
  }

  function Initial(kinds: seq<Kind>, maxEntries: nat): Sys {
    Sys(Data(map[], 0, map[], map[], 0), maxEntries, FREE_LOCK, FREE_LOCK,
        seq(|kinds|, i requires 0 <= i < |kinds| => NewTask(kinds[i])), 1)
  }

  /** The state after a run, for any collection of concurrent calls. */
  ghost function Run(kinds: seq<Kind>, maxEntries: nat, events: seq<Event>): Sys {
    if events == [] then Initial(kinds, maxEntries)
    else Step(Run(kinds, maxEntries, events[..|events| - 1]), events[|events| - 1])
  }
}
