/**
  What every reachable state of the concurrent resolver satisfies: the locks are held and
  awaited by exactly the tasks whose program point says so, an observed generation that
  is still current was observed after the last invalidation, and no cached entry is stale.
*/
module ResolverInvariants {
  import opened Options
  import opened SetSizes
  import opened WorktreeCache
  import opened ResolverRuns

  // ---- locks ----

  ghost predicate Queued(q: seq<Request>, tid: nat) {
    exists k :: 0 <= k < |q| && q[k].tid == tid
  }

  /** The lock's state and the tasks' program points agree. */
  ghost predicate LockAgrees(w: Which, l: Lock, ts: seq<Task>) {
    && (forall i: nat :: i in l.readers <==> i < |ts| && Shares(w, ts[i].pc))
    && (forall i: nat :: l.writer == Some(i) <==> i < |ts| && Excludes(w, ts[i].pc))
    && (l.writer.Some? ==> l.readers == {})
    && (forall k | 0 <= k < |l.queue| :: l.queue[k].tid < |ts| && Awaits(w, ts[l.queue[k].tid].pc) == Some(l.queue[k].mode))
    && (forall i: nat | i < |ts| && Awaits(w, ts[i].pc).Some? :: Queued(l.queue, i))
    && (forall k, n | 0 <= k < n < |l.queue| :: l.queue[k].tid != l.queue[n].tid)
  }

  ghost predicate Locks(s: Sys) {
    LockAgrees(Generations, s.generations, s.tasks) && LockAgrees(Entries, s.entries, s.tasks)
  }

  /** A task comes to hold a lock only from awaiting it, and asks only when it has nothing to do with it. */
  predicate Proper(w: Which, was: Pc, pc: Pc) {
    && (Awaits(w, was).Some? ==>
          Shares(w, pc) == Awaits(w, was).value.Shared? && Excludes(w, pc) == Awaits(w, was).value.Exclusive?
          && Awaits(w, pc).None?)
    && (Awaits(w, was).None? && !Holds(w, was) ==> !Holds(w, pc))
    && (Holds(w, was) ==> Awaits(w, pc).None?
                          && (Holds(w, pc) ==> Shares(w, pc) == Shares(w, was) && Excludes(w, pc) == Excludes(w, was)))
  }

  lemma AgreesIdle(w: Which, l: Lock, ts: seq<Task>, tid: nat, t: Task)
    requires LockAgrees(w, l, ts) && tid < |ts|
    requires Shares(w, t.pc) == Shares(w, ts[tid].pc) && Excludes(w, t.pc) == Excludes(w, ts[tid].pc)
    requires Awaits(w, t.pc) == Awaits(w, ts[tid].pc)
    ensures LockAgrees(w, l, ts[tid := t])
  {
  }

  lemma AgreesEnqueue(w: Which, l: Lock, ts: seq<Task>, tid: nat, t: Task, mode: Mode)
    requires LockAgrees(w, l, ts) && tid < |ts| && !Holds(w, ts[tid].pc) && Awaits(w, ts[tid].pc).None?
    requires !Holds(w, t.pc) && Awaits(w, t.pc) == Some(mode)
    ensures LockAgrees(w, Enqueue(l, tid, mode), ts[tid := t])
  {
    var m, us := Enqueue(l, tid, mode), ts[tid := t];
    assert m.queue[|l.queue|] == Request(tid, mode);
    forall i: nat | i < |us| && Awaits(w, us[i].pc).Some? ensures Queued(m.queue, i) {
      if i != tid {
        var k :| 0 <= k < |l.queue| && l.queue[k].tid == i;
        assert m.queue[k].tid == i;
      }
    }
  }

  lemma AgreesGrant(w: Which, l: Lock, ts: seq<Task>, tid: nat, t: Task)
    requires LockAgrees(w, l, ts) && tid < |ts| && Grantable(l, tid)
    requires Awaits(w, t.pc).None?
    requires Awaits(w, ts[tid].pc) == Some(Shared) ==> Shares(w, t.pc) && !Excludes(w, t.pc)
    requires Awaits(w, ts[tid].pc) == Some(Exclusive) ==> Excludes(w, t.pc) && !Shares(w, t.pc)
    ensures LockAgrees(w, Grant(l), ts[tid := t])
  {
    var m, us := Grant(l), ts[tid := t];
    assert forall k | 0 <= k < |m.queue| :: m.queue[k] == l.queue[k + 1];
    assert l.queue[0].tid == tid;
    forall i: nat | i < |us| && Awaits(w, us[i].pc).Some? ensures Queued(m.queue, i) {
      var k :| 0 <= k < |l.queue| && l.queue[k].tid == i;
      assert m.queue[k - 1].tid == i;
    }
  }

  lemma AgreesRelease(w: Which, l: Lock, ts: seq<Task>, tid: nat, t: Task)
    requires LockAgrees(w, l, ts) && tid < |ts| && Holds(w, ts[tid].pc)
    requires Awaits(w, ts[tid].pc).None? && !Holds(w, t.pc) && Awaits(w, t.pc).None?
    ensures LockAgrees(w, Release(l, tid), ts[tid := t])
  {
  }

  lemma AgreesFollows(w: Which, l: Lock, ts: seq<Task>, tid: nat, t: Task)
    requires LockAgrees(w, l, ts) && tid < |ts| && Proper(w, ts[tid].pc, t.pc)
    requires Awaits(w, ts[tid].pc).Some? ==> Grantable(l, tid)
    ensures LockAgrees(w, Follow(w, l, tid, ts[tid].pc, t.pc), ts[tid := t])
  {
    var was := ts[tid].pc;
    if Awaits(w, was).Some? { AgreesGrant(w, l, ts, tid, t); }
    else if Awaits(w, t.pc).Some? { AgreesEnqueue(w, l, ts, tid, t, Awaits(w, t.pc).value); }
    else if Holds(w, was) && !Holds(w, t.pc) { AgreesRelease(w, l, ts, tid, t); }
    else { AgreesIdle(w, l, ts, tid, t); }
  }

  lemma AdvanceIsProper(d: Data, clock: nat, t: Task, c: Choice)
    requires !t.pc.Returned?
    ensures Proper(Generations, t.pc, Advance(d, clock, t, c).pc) && Proper(Entries, t.pc, Advance(d, clock, t, c).pc)
  {
  }

  lemma LocksFollow(s: Sys, tid: nat, c: Choice)
    requires Locks(s) && tid < |s.tasks| && !Blocked(s, tid)
    ensures Locks(Act(s, tid, c))
  {
    var t := s.tasks[tid];
    var u := Advance(s.data, s.clock, t, c);
    AdvanceIsProper(s.data, s.clock, t, c);
    AgreesFollows(Generations, s.generations, s.tasks, tid, u);
    AgreesFollows(Entries, s.entries, s.tasks, tid, u);
  }

  // ---- what tasks remember ----

  /** The generation observed by `refresh_discovery` is complete and may still lead to a store. */
  predicate Observing(pc: Pc) {
    pc.StartListing? || pc.InListing? || pc.AskStore? || pc.AwaitStore? || pc.HoldStore? || pc.AwaitInsert? || pc.HoldInsert?
  }

  predicate Loading(pc: Pc) {
    pc.AskProject? || pc.AwaitProject? || pc.HoldProject?
  }

  /** The listing that is to be stored or returned has been started. */
  predicate Listed(pc: Pc) {
    || pc.InListing? || pc.AskStore? || pc.AwaitStore? || pc.HoldStore? || pc.AwaitInsert? || pc.HoldInsert? || pc.Stored?
    || ((pc.LoadGlobal? || Loading(pc)) && pc.purpose.ForFresh?)
  }

  /** A cached listing is about to be returned if the generation has not moved. */
  predicate OnHit(pc: Pc) {
    (pc.LoadGlobal? || Loading(pc)) && pc.purpose.ForHit?
  }

  predicate Refreshes(kind: Kind) {
    kind.Refresh? || kind.Cached?
  }

  predicate Invalidates(pc: Pc) {
    pc.AskBump? || pc.AwaitBump? || pc.HoldBump? || pc.Bumped? || pc.AwaitRemove? || pc.HoldRemove? || pc.Removed?
  }

  /** Which program points a call of each kind can be at. */
  predicate Fits(t: Task) {
    && (Invalidates(t.pc) ==> !Refreshes(t.kind))
    && (!t.pc.Begin? && !t.pc.Returned? && !Invalidates(t.pc) ==> Refreshes(t.kind))
    && t.attempts <= 2
  }

  /** If the observed generation is still the current one, it was observed after the last completed
      invalidation; project counters only grow while the global one stands still. */
  predicate SeesNow(d: Data, t: Task) {
    var k := KeyOf(t.kind);
    && t.inner.global <= d.global
    && (t.inner.global == d.global ==> t.inner.project <= ProjectGeneration(d.projects, k))
    && (t.inner == Current(d, k) ==> LastRelevant(d, k) < t.seen)
  }

  /** What a task remembers, in terms of the ghost clock. */
  predicate Remembers(d: Data, clock: nat, t: Task) {
    && Fits(t)
    && (Loading(t.pc) ==> t.loaded <= d.global)
    && (Observing(t.pc) ==> SeesNow(d, t) && t.seen < clock)
    && (Observing(t.pc) && Listed(t.pc) ==> t.seen < t.listing.began)
    && (Refreshes(t.kind) && !t.pc.Begin? ==> t.floor <= LastRelevant(d, KeyOf(t.kind)) && t.floor < clock)
    && (Listed(t.pc) ==> t.floor < t.listing.began < clock)
    && (OnHit(t.pc) ==> t.found.Some? && t.floor < t.found.value.began)
    && (t.pc.Returned? && t.pc.result.Some? ==> t.floor < t.pc.result.value.began)
  }

  ghost predicate AllRemember(d: Data, clock: nat, ts: seq<Task>) {
    forall i | 0 <= i < |ts| :: Remembers(d, clock, ts[i])
  }

  /** An invalidation has raised its generation and not completed yet. */
  predicate Raised(pc: Pc) {
    pc.Bumped? || pc.AwaitRemove? || pc.HoldRemove? || pc.Removed?
  }

  ghost predicate NoneRaised(ts: seq<Task>) {
    forall i | 0 <= i < |ts| :: !Raised(ts[i].pc)
  }

  /** Once a generation is raised, nobody's earlier observation for that key matches any more. */
  predicate Outdates(d: Data, writer: Task, t: Task) {
    Raised(writer.pc) && Observing(t.pc) ==>
      if writer.kind.InvalidateAll? then t.inner.global < d.global
      else KeyOf(t.kind) == KeyOf(writer.kind) ==> t.inner != Current(d, KeyOf(t.kind))
  }

  ghost predicate RaisedOutdates(d: Data, ts: seq<Task>) {
    forall i, j | 0 <= i < |ts| && 0 <= j < |ts| :: Outdates(d, ts[i], ts[j])
  }

  /** Once entries are removed, they stay removed until the invalidation completes. */
  predicate Emptied(d: Data, t: Task) {
    t.pc.Removed? ==> if t.kind.InvalidateAll? then d.cache == map[] else KeyOf(t.kind) !in d.cache
  }

  ghost predicate RemovedStaysRemoved(d: Data, ts: seq<Task>) {
    forall i | 0 <= i < |ts| :: Emptied(d, ts[i])
  }

  /** Every cached listing was started after the last completed invalidation that concerns its key. */
  ghost predicate NothingStale(d: Data, clock: nat) {
    forall k | k in d.cache :: LastRelevant(d, k) < d.cache[k].listing.began < clock
  }

  ghost predicate PastInvalidations(d: Data, clock: nat) {
    d.lastInvalidatedAll < clock && forall k | k in d.lastInvalidated :: d.lastInvalidated[k] < clock
  }

  /** All invariants but the locks and the bound. */
  ghost predicate Fresh(d: Data, clock: nat, ts: seq<Task>) {
    && AllRemember(d, clock, ts)
    && RaisedOutdates(d, ts)
    && RemovedStaysRemoved(d, ts)
    && NothingStale(d, clock)
    && PastInvalidations(d, clock)
  }

  ghost predicate Inv(s: Sys) {
    Locks(s) && Fresh(s.data, s.clock, s.tasks) && |s.data.cache| <= s.maxEntries
  }

  /** While a task holds the generations in common, no invalidation is between raising and completing. */
  lemma SharedMeansNoneRaised(l: Lock, ts: seq<Task>, tid: nat)
    requires LockAgrees(Generations, l, ts) && tid < |ts| && Shares(Generations, ts[tid].pc)
    ensures NoneRaised(ts)
  {
    assert tid in l.readers;
    assert l.writer.None?;
    forall i: nat | i < |ts| ensures !Raised(ts[i].pc) {
      assert !Excludes(Generations, ts[i].pc);
    }
  }

  lemma OnlyBumperRaises(l: Lock, ts: seq<Task>, tid: nat)
    requires LockAgrees(Generations, l, ts) && tid < |ts| && ts[tid].pc.HoldBump?
    ensures NoneRaised(ts)
  {
    assert l.writer == Some(tid);
    forall i: nat | i < |ts| ensures !Raised(ts[i].pc) {
      assert Excludes(Generations, ts[i].pc) ==> i == tid;
    }
  }

  // ---- steps that change no shared data ----

  predicate Private(pc: Pc) {
    !pc.HoldInsert? && !pc.HoldBump? && !pc.HoldRemove? && !pc.Removed?
  }

  lemma RememberLonger(d: Data, clock: nat, t: Task)
    requires Remembers(d, clock, t)
    ensures Remembers(d, clock + 1, t)
  {
  }

  lemma BeginRemembers(d: Data, clock: nat, t: Task, c: Choice)
    requires Remembers(d, clock, t) && PastInvalidations(d, clock) && t.pc.Begin?
    ensures Remembers(d, clock + 1, BeginCall(d, t, c))
  {
  }

  /** The torn read completes while no invalidation is under way, so an observation that matches now
      was made after all of them. */
  lemma ReadProjectRemembers(d: Data, clock: nat, t: Task)
    requires Remembers(d, clock, t) && PastInvalidations(d, clock) && t.pc.HoldProject?
    ensures Remembers(d, clock + 1, ReadProject(d, clock, t, t.pc.purpose))
  {
  }

  lemma ReadCacheRemembers(d: Data, clock: nat, t: Task, c: Choice)
    requires Remembers(d, clock, t) && NothingStale(d, clock) && t.pc.HoldCache?
    ensures Remembers(d, clock + 1, ReadCache(d, t, c))
  {
  }

  /** The other steps of `generation_for` and of the cache read. */
  lemma AskingRemembers(d: Data, clock: nat, t: Task, c: Choice)
    requires Remembers(d, clock, t)
    requires t.pc.LoadGlobal? || t.pc.AskProject? || t.pc.AwaitProject? || t.pc.AskCache? || t.pc.AwaitCache?
    ensures Remembers(d, clock + 1, Advance(d, clock, t, c))
  {
  }

  lemma ObservingRemembers(d: Data, clock: nat, t: Task, c: Choice)
    requires Remembers(d, clock, t) && (Observing(t.pc) || t.pc.Stored?) && Private(t.pc)
    ensures Remembers(d, clock + 1, Advance(d, clock, t, c))
  {
  }

  lemma InvalidatingRemembers(d: Data, clock: nat, t: Task, c: Choice)
    requires Remembers(d, clock, t) && (Invalidates(t.pc) || t.pc.Returned?) && Private(t.pc)
    ensures Remembers(d, clock + 1, Advance(d, clock, t, c))
  {
  }

  /** What the moving task remembers afterwards is still true. */
  lemma AdvanceRemembers(d: Data, clock: nat, t: Task, c: Choice)
    requires Remembers(d, clock, t) && NothingStale(d, clock) && PastInvalidations(d, clock)
    requires Private(t.pc)
    ensures Remembers(d, clock + 1, Advance(d, clock, t, c))
  {
    if t.pc.Begin? { BeginRemembers(d, clock, t, c); }
    else if t.pc.HoldProject? { ReadProjectRemembers(d, clock, t); }
    else if t.pc.HoldCache? { ReadCacheRemembers(d, clock, t, c); }
    else if Observing(t.pc) || t.pc.Stored? { ObservingRemembers(d, clock, t, c); }
    else if Invalidates(t.pc) || t.pc.Returned? { InvalidatingRemembers(d, clock, t, c); }
    else { AskingRemembers(d, clock, t, c); }
  }

  lemma AdvancePrivately(d: Data, clock: nat, t: Task, c: Choice)
    requires Private(t.pc)
    ensures var u := Advance(d, clock, t, c);
            && u.kind == t.kind && (Raised(u.pc) ==> Raised(t.pc)) && !u.pc.Removed?
            && (Observing(u.pc) ==> Shares(Generations, t.pc) || (Observing(t.pc) && u.inner == t.inner))
  {
  }

  lemma PrivateStepKeeps(s: Sys, tid: nat, c: Choice)
    requires Inv(s) && tid < |s.tasks| && Private(s.tasks[tid].pc)
    ensures Fresh(s.data, s.clock + 1, s.tasks[tid := Advance(s.data, s.clock, s.tasks[tid], c)])
  {
    var d, ts, t := s.data, s.tasks, s.tasks[tid];
    var u := Advance(d, s.clock, t, c);
    assert Remembers(d, s.clock, t);
    AdvanceRemembers(d, s.clock, t, c);
    AdvancePrivately(d, s.clock, t, c);
    if Shares(Generations, t.pc) { SharedMeansNoneRaised(s.generations, ts, tid); }
    OthersUntouched(d, s.clock, ts, tid, u);
  }

  lemma OthersUntouched(d: Data, clock: nat, ts: seq<Task>, tid: nat, u: Task)
    requires Fresh(d, clock, ts) && tid < |ts| && Remembers(d, clock + 1, u) && u.kind == ts[tid].kind
    requires Raised(u.pc) ==> Raised(ts[tid].pc)
    requires !u.pc.Removed?
    requires Observing(u.pc) ==> NoneRaised(ts) || (Observing(ts[tid].pc) && u.inner == ts[tid].inner)
    ensures Fresh(d, clock + 1, ts[tid := u])
  {
    var us := ts[tid := u];
    forall i | 0 <= i < |us| ensures Remembers(d, clock + 1, us[i]) && Emptied(d, us[i]) {
      if i != tid {
        assert Remembers(d, clock, ts[i]) && Emptied(d, ts[i]);
        RememberLonger(d, clock, ts[i]);
      }
    }
    forall i, j | 0 <= i < |us| && 0 <= j < |us| ensures Outdates(d, us[i], us[j]) {
      assert Outdates(d, ts[i], ts[j]);
    }
  }

  // ---- the store ----

  /** Remembering does not depend on the cache. */
  lemma RememberWithoutCache(d: Data, cache: map<Key, Entry>, clock: nat, t: Task)
    requires Remembers(d, clock, t)
    ensures Remembers(d.(cache := cache), clock + 1, t)
  {
  }

  /** What is stored was listed after every completed invalidation, because its generation still
      matches and, with the read lock held, none is under way. */
  lemma InsertKeeps(s: Sys, tid: nat, c: Choice)
    requires Inv(s) && tid < |s.tasks| && s.tasks[tid].pc.HoldInsert?
    requires Trimmed(Inserted(s.data, s.tasks[tid], c), c.kept, s.maxEntries)
    ensures var t := s.tasks[tid];
            Fresh(Insert(s.data, t, c), s.clock + 1, s.tasks[tid := t.(pc := Stored)])
            && |Insert(s.data, t, c).cache| <= s.maxEntries
  {
    var d, ts, t := s.data, s.tasks, s.tasks[tid];
    var e, us := Insert(d, t, c), ts[tid := t.(pc := Stored)];
    assert Remembers(d, s.clock, t);
    SharedMeansNoneRaised(s.generations, ts, tid);
    forall i | 0 <= i < |us| ensures Remembers(e, s.clock + 1, us[i]) && !Raised(us[i].pc) {
      assert Remembers(d, s.clock, ts[i]) && !Raised(ts[i].pc);
      RememberWithoutCache(d, e.cache, s.clock, ts[i]);
    }
    InsertStaysFresh(d, s.clock, t, c, s.maxEntries);
  }

  lemma InsertStaysFresh(d: Data, clock: nat, t: Task, c: Choice, maxEntries: nat)
    requires NothingStale(d, clock) && t.pc.HoldInsert? && Remembers(d, clock, t)
    requires Trimmed(Inserted(d, t, c), c.kept, maxEntries)
    ensures NothingStale(Insert(d, t, c), clock + 1)
  {
  }

  // ---- invalidations ----

  /** A raised generation leaves every earlier observation behind. */
  lemma RaiseRemembers(d: Data, clock: nat, kind: Kind, t: Task)
    requires Remembers(d, clock, t)
    ensures Remembers(RaiseGeneration(d, kind), clock + 1, t)
  {
  }

  lemma RaiseOutdates(d: Data, clock: nat, writer: Task, t: Task)
    requires Remembers(d, clock, t)
    ensures Outdates(RaiseGeneration(d, writer.kind), writer, t)
  {
  }

  lemma BumpKeeps(s: Sys, tid: nat)
    requires Inv(s) && tid < |s.tasks| && s.tasks[tid].pc.HoldBump?
    ensures Fresh(RaiseGeneration(s.data, s.tasks[tid].kind), s.clock + 1, s.tasks[tid := s.tasks[tid].(pc := Bumped)])
  {
    var d, ts, t := s.data, s.tasks, s.tasks[tid];
    var e, us := RaiseGeneration(d, t.kind), ts[tid := t.(pc := Bumped)];
    OnlyBumperRaises(s.generations, ts, tid);
    forall i | 0 <= i < |us| ensures Remembers(e, s.clock + 1, us[i]) && Emptied(e, us[i]) {
      assert Remembers(d, s.clock, ts[i]) && Emptied(d, ts[i]);
      RaiseRemembers(d, s.clock, t.kind, ts[i]);
    }
    forall i, j | 0 <= i < |us| && 0 <= j < |us| ensures Outdates(e, us[i], us[j]) {
      assert Remembers(d, s.clock, ts[j]) && !Raised(ts[i].pc);
      RaiseOutdates(d, s.clock, us[tid], ts[j]);
    }
    forall k | k in e.cache ensures LastRelevant(e, k) < e.cache[k].listing.began < s.clock + 1 {
      assert LastRelevant(d, k) < d.cache[k].listing.began;
    }
  }

  lemma RemovalShrinks(d: Data, clock: nat, kind: Kind)
    requires NothingStale(d, clock)
    ensures |RemoveEntries(d, kind).cache| <= |d.cache| && NothingStale(RemoveEntries(d, kind), clock + 1)
  {
    var e := RemoveEntries(d, kind);
    SubsetSize(e.cache.Keys, d.cache.Keys);
    assert |e.cache.Keys| == |e.cache| && |d.cache.Keys| == |d.cache|;
  }

  lemma RemoveKeeps(s: Sys, tid: nat)
    requires Inv(s) && tid < |s.tasks| && s.tasks[tid].pc.HoldRemove?
    ensures var e := RemoveEntries(s.data, s.tasks[tid].kind);
            Fresh(e, s.clock + 1, s.tasks[tid := s.tasks[tid].(pc := Removed)]) && |e.cache| <= s.maxEntries
  {
    var d, ts, t := s.data, s.tasks, s.tasks[tid];
    var e, us := RemoveEntries(d, t.kind), ts[tid := t.(pc := Removed)];
    RemovalShrinks(d, s.clock, t.kind);
    forall i | 0 <= i < |us| ensures Remembers(e, s.clock + 1, us[i]) && Emptied(e, us[i]) {
      assert Remembers(d, s.clock, ts[i]) && Emptied(d, ts[i]);
      RememberWithoutCache(d, e.cache, s.clock, ts[i]);
    }
    forall i, j | 0 <= i < |us| && 0 <= j < |us| ensures Outdates(e, us[i], us[j]) {
      assert Outdates(d, ts[i], ts[j]);
    }
  }

  /** When an invalidation completes, no pending observation of its key matches. */
  lemma CompleteRemembers(d: Data, clock: nat, writer: Task, t: Task)
    requires Remembers(d, clock, t) && Outdates(d, writer, t) && writer.pc.Removed? && PastInvalidations(d, clock)
    ensures Remembers(CompleteInvalidation(d, clock, writer.kind), clock + 1, t)
  {
  }

  lemma CompleteKeeps(s: Sys, tid: nat)
    requires Inv(s) && tid < |s.tasks| && s.tasks[tid].pc.Removed?
    ensures Fresh(CompleteInvalidation(s.data, s.clock, s.tasks[tid].kind), s.clock + 1,
                  s.tasks[tid := s.tasks[tid].(pc := Returned(None))])
  {
    var d, ts, t := s.data, s.tasks, s.tasks[tid];
    var e, us := CompleteInvalidation(d, s.clock, t.kind), ts[tid := t.(pc := Returned(None))];
    assert Emptied(d, t);
    forall i | 0 <= i < |us| ensures Remembers(e, s.clock + 1, us[i]) && Emptied(e, us[i]) {
      assert Remembers(d, s.clock, ts[i]) && Emptied(d, ts[i]) && Outdates(d, t, ts[i]);
      CompleteRemembers(d, s.clock, t, ts[i]);
    }
    forall i, j | 0 <= i < |us| && 0 <= j < |us| ensures Outdates(e, us[i], us[j]) {
      assert Outdates(d, ts[i], ts[j]);
    }
    forall k | k in e.cache ensures LastRelevant(e, k) < e.cache[k].listing.began < s.clock + 1 {
      assert LastRelevant(d, k) < d.cache[k].listing.began;
    }
  }

  // ---- all steps, all runs ----

  /** What the four steps that change shared data do. */
  lemma SharedChanges(d: Data, clock: nat, t: Task, c: Choice)
    requires !Private(t.pc)
    ensures t.pc.HoldInsert? ==> Change(d, clock, t, c) == Insert(d, t, c) && Advance(d, clock, t, c) == t.(pc := Stored)
    ensures t.pc.HoldBump? ==> Change(d, clock, t, c) == RaiseGeneration(d, t.kind) && Advance(d, clock, t, c) == t.(pc := Bumped)
    ensures t.pc.HoldRemove? ==> Change(d, clock, t, c) == RemoveEntries(d, t.kind) && Advance(d, clock, t, c) == t.(pc := Removed)
    ensures t.pc.Removed? ==> Change(d, clock, t, c) == CompleteInvalidation(d, clock, t.kind)
                              && Advance(d, clock, t, c) == t.(pc := Returned(None))
    ensures !t.pc.HoldInsert? && !t.pc.HoldRemove? ==> Change(d, clock, t, c).cache == d.cache
  {
  }

  lemma SharedStepKeeps(s: Sys, tid: nat, c: Choice, d: Data, u: Task)
    requires Inv(s) && tid < |s.tasks| && !Private(s.tasks[tid].pc)
    requires s.tasks[tid].pc.HoldInsert? ==> Trimmed(Inserted(s.data, s.tasks[tid], c), c.kept, s.maxEntries)
    requires d == Change(s.data, s.clock, s.tasks[tid], c) && u == Advance(s.data, s.clock, s.tasks[tid], c)
    ensures Fresh(d, s.clock + 1, s.tasks[tid := u]) && |d.cache| <= s.maxEntries
  {
    SharedChanges(s.data, s.clock, s.tasks[tid], c);
    if s.tasks[tid].pc.HoldInsert? { InsertKeeps(s, tid, c); }
    else if s.tasks[tid].pc.HoldBump? { BumpKeeps(s, tid); }
    else if s.tasks[tid].pc.HoldRemove? { RemoveKeeps(s, tid); }
    else { CompleteKeeps(s, tid); }
  }

  lemma StepKeeps(s: Sys, e: Event)
    requires Inv(s)
    ensures Inv(Step(s, e))
  {
    if Possible(s, e) {
      LocksFollow(s, e.tid, e.choice);
      if Private(s.tasks[e.tid].pc) {
        PrivateStepKeeps(s, e.tid, e.choice);
      } else {
        SharedStepKeeps(s, e.tid, e.choice, Step(s, e).data, Step(s, e).tasks[e.tid]);
      }
    }
  }

  lemma InitialKeeps(kinds: seq<Kind>, maxEntries: nat)
    ensures Inv(Initial(kinds, maxEntries))
  {
    var s := Initial(kinds, maxEntries);
    assert forall i | 0 <= i < |s.tasks| :: s.tasks[i] == NewTask(kinds[i]);
  }

  lemma {:induction false} RunKeeps(kinds: seq<Kind>, maxEntries: nat, events: seq<Event>)
    ensures Inv(Run(kinds, maxEntries, events))
  {
    if events == [] {
      InitialKeeps(kinds, maxEntries);
    } else {
      RunKeeps(kinds, maxEntries, events[..|events| - 1]);
      StepKeeps(Run(kinds, maxEntries, events[..|events| - 1]), events[|events| - 1]);
    }
  }
}
