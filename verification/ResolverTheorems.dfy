/**
  What the discovery cache promises to its callers, over every run of any number of
  concurrent calls: no stale entry, fresh results, no deadlock, and an end.
*/
module ResolverTheorems {
  import opened Options
  import opened WorktreeCache
  import opened ResolverRuns
  import opened ResolverInvariants

  // ---- safety ----

  /** The Git listing behind every cached entry was started after the last completed `invalidate` of
      its key and the last completed `invalidate_all`, and the cache keeps its bound. */
  lemma NoEntryIsStale(kinds: seq<Kind>, maxEntries: nat, events: seq<Event>)
    ensures var d := Run(kinds, maxEntries, events).data;
            && |d.cache| <= maxEntries
            && forall k | k in d.cache ::
                 LastInvalidated(d, k) < d.cache[k].listing.began && d.lastInvalidatedAll < d.cache[k].listing.began
  {
    RunKeeps(kinds, maxEntries, events);
    BoundIsConstant(kinds, maxEntries, events);
    var d := Run(kinds, maxEntries, events).data;
    forall k | k in d.cache
      ensures LastInvalidated(d, k) < d.cache[k].listing.began && d.lastInvalidatedAll < d.cache[k].listing.began
    {
      assert LastRelevant(d, k) < d.cache[k].listing.began;
    }
  }

  lemma {:induction false} BoundIsConstant(kinds: seq<Kind>, maxEntries: nat, events: seq<Event>)
    ensures Run(kinds, maxEntries, events).maxEntries == maxEntries
    ensures |Run(kinds, maxEntries, events).tasks| == |kinds|
  {
    if events != [] { BoundIsConstant(kinds, maxEntries, events[..|events| - 1]); }
  }

  // ---- freshness of results ----

  lemma InvalidationsAdvance(d: Data, clock: nat, t: Task, c: Choice, key: Key)
    requires PastInvalidations(d, clock)
    ensures LastRelevant(d, key) <= LastRelevant(Change(d, clock, t, c), key)
  {
  }

  lemma AdvanceFromBegin(d: Data, clock: nat, t: Task, c: Choice)
    requires t.pc.Begin?
    ensures !Advance(d, clock, t, c).pc.Begin? && Advance(d, clock, t, c).kind == t.kind
    ensures Refreshes(t.kind) ==> Advance(d, clock, t, c).floor == LastRelevant(d, KeyOf(t.kind))
  {
  }

  lemma AdvanceLater(d: Data, clock: nat, t: Task, c: Choice)
    requires !t.pc.Begin?
    ensures !Advance(d, clock, t, c).pc.Begin? && Advance(d, clock, t, c).kind == t.kind
    ensures Advance(d, clock, t, c).floor == t.floor
  {
  }

  /** `when` is no later than the moment up to which the call's result takes invalidations into account. */
  predicate FloorAbove(d: Data, t: Task, when: nat) {
    if t.pc.Begin? then when <= LastRelevant(d, KeyOf(t.kind)) else Refreshes(t.kind) ==> when <= t.floor
  }

  lemma StepKeepsFloor(s: Sys, e: Event, tid: nat, when: nat)
    requires Inv(s) && tid < |s.tasks| && FloorAbove(s.data, s.tasks[tid], when)
    ensures tid < |Step(s, e).tasks| && Step(s, e).tasks[tid].kind == s.tasks[tid].kind
    ensures FloorAbove(Step(s, e).data, Step(s, e).tasks[tid], when)
  {
    if Possible(s, e) {
      var t := s.tasks[e.tid];
      InvalidationsAdvance(s.data, s.clock, t, e.choice, KeyOf(s.tasks[tid].kind));
      if t.pc.Begin? { AdvanceFromBegin(s.data, s.clock, t, e.choice); } else { AdvanceLater(s.data, s.clock, t, e.choice); }
    }
  }

  lemma {:induction false} RunKeepsFloor(kinds: seq<Kind>, maxEntries: nat, events: seq<Event>, n: nat, tid: nat, when: nat)
    requires n <= |events| && tid < |Run(kinds, maxEntries, events[..n]).tasks|
    requires var s := Run(kinds, maxEntries, events[..n]);
             s.tasks[tid].pc.Begin? && when <= LastRelevant(s.data, KeyOf(s.tasks[tid].kind))
    ensures var s := Run(kinds, maxEntries, events);
            && tid < |s.tasks| && s.tasks[tid].kind == Run(kinds, maxEntries, events[..n]).tasks[tid].kind
            && FloorAbove(s.data, s.tasks[tid], when)
  {
    if n == |events| {
      assert events[..n] == events;
    } else {
      var before := events[..|events| - 1];
      assert before[..n] == events[..n];
      RunKeepsFloor(kinds, maxEntries, before, n, tid, when);
      RunKeeps(kinds, maxEntries, before);
      StepKeepsFloor(Run(kinds, maxEntries, before), events[|events| - 1], tid, when);
    }
  }

  /** Whatever `refresh` or `cached_worktrees` returns, from the cache or from Git and in whichever
      attempt, was listed after every relevant invalidation that had completed at any moment at which
      the call had not begun yet. */
  lemma ResultIsFresh(kinds: seq<Kind>, maxEntries: nat, events: seq<Event>, n: nat, tid: nat)
    requires n <= |events| && tid < |Run(kinds, maxEntries, events[..n]).tasks|
    requires Run(kinds, maxEntries, events[..n]).tasks[tid].pc.Begin?
    ensures var was, s := Run(kinds, maxEntries, events[..n]), Run(kinds, maxEntries, events);
            && tid < |s.tasks|
            && (s.tasks[tid].pc.Returned? && s.tasks[tid].pc.result.Some? ==>
                  LastRelevant(was.data, KeyOf(was.tasks[tid].kind)) < s.tasks[tid].pc.result.value.began)
  {
    var was, s := Run(kinds, maxEntries, events[..n]), Run(kinds, maxEntries, events);
    RunKeepsFloor(kinds, maxEntries, events, n, tid, LastRelevant(was.data, KeyOf(was.tasks[tid].kind)));
    RunKeeps(kinds, maxEntries, events);
    assert Remembers(s.data, s.clock, s.tasks[tid]);
    if s.tasks[tid].pc.Returned? && s.tasks[tid].pc.result.Some? {
      OnlyRefreshesReturn(kinds, maxEntries, events, tid);
    }
  }

  lemma AdvanceReturns(d: Data, clock: nat, t: Task, c: Choice)
    requires Fits(t) && (t.pc.Returned? && t.pc.result.Some? ==> Refreshes(t.kind))
    ensures var u := Advance(d, clock, t, c); u.pc.Returned? && u.pc.result.Some? ==> Refreshes(u.kind)
  {
  }

  lemma {:induction false} OnlyRefreshesReturn(kinds: seq<Kind>, maxEntries: nat, events: seq<Event>, tid: nat)
    requires tid < |Run(kinds, maxEntries, events).tasks|
    ensures var t := Run(kinds, maxEntries, events).tasks[tid];
            t.pc.Returned? && t.pc.result.Some? ==> Refreshes(t.kind)
  {
    if events != [] {
      var before, e := events[..|events| - 1], events[|events| - 1];
      var s := Run(kinds, maxEntries, before);
      OnlyRefreshesReturn(kinds, maxEntries, before, tid);
      RunKeeps(kinds, maxEntries, before);
      assert Remembers(s.data, s.clock, s.tasks[tid]);
      if Possible(s, e) && e.tid == tid { AdvanceReturns(s.data, s.clock, s.tasks[tid], e.choice); }
    }
  }

  // ---- deadlock freedom ----

  ghost predicate AllReturned(s: Sys) {
    forall i | 0 <= i < |s.tasks| :: s.tasks[i].pc.Returned?
  }

  predicate Waiting(pc: Pc) {
    Awaits(Generations, pc).Some? || Awaits(Entries, pc).Some?
  }

  /** A task that is not blocked has a choice with which it can step: trimming is always possible. */
  lemma UnblockedCanStep(s: Sys, tid: nat)
    requires tid < |s.tasks| && !Blocked(s, tid)
    ensures exists e :: Possible(s, e)
  {
    var cache := Inserted(s.data, s.tasks[tid], Choice(true, [], true, 0, map[]));
    var kept := TrimExists(cache, cache, s.maxEntries);
    assert Possible(s, Event(tid, Choice(true, [], true, 0, kept)));
  }

  /** The head of a queue can be granted a lock that nobody holds. */
  lemma HeadIsGrantable(w: Which, l: Lock, ts: seq<Task>, i: nat)
    requires LockAgrees(w, l, ts) && i < |ts| && Awaits(w, ts[i].pc).Some?
    requires forall j | 0 <= j < |ts| :: !Holds(w, ts[j].pc)
    ensures l.queue != [] && Grantable(l, l.queue[0].tid) && l.queue[0].tid < |ts|
    ensures Awaits(w, ts[l.queue[0].tid].pc).Some?
  {
    assert Queued(l.queue, i);
  }

  /** A task that holds the cache lock never waits, and one that holds the generations waits for the
      cache lock at most. */
  lemma WhatHoldersAwait(pc: Pc)
    ensures Holds(Entries, pc) ==> !Waiting(pc)
    ensures Holds(Generations, pc) ==> Awaits(Generations, pc).None?
  {
  }

  /** If nobody runs, nobody holds the cache lock, so its queue can move. */
  lemma EntriesMove(s: Sys, i: nat)
    requires LockAgrees(Entries, s.entries, s.tasks) && i < |s.tasks| && Awaits(Entries, s.tasks[i].pc).Some?
    requires forall j | 0 <= j < |s.tasks| :: s.tasks[j].pc.Returned? || Waiting(s.tasks[j].pc)
    ensures exists e :: Possible(s, e)
  {
    forall j | 0 <= j < |s.tasks| ensures !Holds(Entries, s.tasks[j].pc) { WhatHoldersAwait(s.tasks[j].pc); }
    HeadIsGrantable(Entries, s.entries, s.tasks, i);
    UnblockedCanStep(s, s.entries.queue[0].tid);
  }

  /** If everybody waits for the generations, nobody holds them, so their queue can move. */
  lemma GenerationsMove(s: Sys, i: nat)
    requires LockAgrees(Generations, s.generations, s.tasks) && i < |s.tasks| && Waiting(s.tasks[i].pc)
    requires forall j | 0 <= j < |s.tasks| :: s.tasks[j].pc.Returned? || Awaits(Generations, s.tasks[j].pc).Some?
    ensures exists e :: Possible(s, e)
  {
    forall j | 0 <= j < |s.tasks| ensures !Holds(Generations, s.tasks[j].pc) { WhatHoldersAwait(s.tasks[j].pc); }
    HeadIsGrantable(Generations, s.generations, s.tasks, i);
    UnblockedCanStep(s, s.generations.queue[0].tid);
  }

  lemma SomeTaskCanStep(s: Sys)
    requires Locks(s) && !AllReturned(s)
    ensures exists e :: Possible(s, e)
  {
    var i: nat :| i < |s.tasks| && !s.tasks[i].pc.Returned?;
    if j: nat :| j < |s.tasks| && !s.tasks[j].pc.Returned? && !Waiting(s.tasks[j].pc) {
      UnblockedCanStep(s, j);
    } else if j: nat :| j < |s.tasks| && Awaits(Entries, s.tasks[j].pc).Some? {
      EntriesMove(s, j);
    } else {
      GenerationsMove(s, i);
    }
  }

  /** Whatever calls run together and however they interleave, either all have returned or one can
      take a step. */
  lemma NoDeadlock(kinds: seq<Kind>, maxEntries: nat, events: seq<Event>)
    ensures var s := Run(kinds, maxEntries, events); AllReturned(s) || exists e :: Possible(s, e)
  {
    RunKeeps(kinds, maxEntries, events);
    if !AllReturned(Run(kinds, maxEntries, events)) { SomeTaskCanStep(Run(kinds, maxEntries, events)); }
  }

  // ---- every call ends ----

  function AfterObserving(purpose: Purpose): nat {
    match purpose
    case ForAttempt => 30
    case ForHit => 23
    case ForRefresh => 16
    case ForFresh => 1
  }

  /** How many steps one attempt can still take. */
  function Stage(pc: Pc): nat {
    match pc
    case Begin => 39
    case LoadGlobal(p) => AfterObserving(p) + 4
    case AskProject(p) => AfterObserving(p) + 3
    case AwaitProject(p) => AfterObserving(p) + 2
    case HoldProject(p) => AfterObserving(p) + 1
    case AskCache => 30
    case AwaitCache => 29
    case HoldCache => 28
    case StartListing => 16
    case InListing => 15
    case AskStore => 14
    case AwaitStore => 13
    case HoldStore => 12
    case AwaitInsert => 11
    case HoldInsert => 10
    case Stored => 9
    case AskBump => 8
    case AwaitBump => 7
    case HoldBump => 6
    case Bumped => 5
    case AwaitRemove => 4
    case HoldRemove => 3
    case Removed => 2
    case Returned(_) => 0
  }

  /** How many steps a call can still take, its three attempts included. */
  function Rank(t: Task): nat {
    if t.pc.Returned? || t.attempts > 2 then 0 else (2 - t.attempts) * 40 + Stage(t.pc)
  }

  lemma AdvanceDescends(d: Data, clock: nat, t: Task, c: Choice)
    requires !t.pc.Returned? && t.attempts <= 2
    ensures Rank(Advance(d, clock, t, c)) < Rank(t)
  {
  }

  function TotalRank(ts: seq<Task>): nat {
    if ts == [] then 0 else TotalRank(ts[..|ts| - 1]) + Rank(ts[|ts| - 1])
  }

  lemma {:induction false} TotalDescends(ts: seq<Task>, tid: nat, u: Task)
    requires tid < |ts| && Rank(u) < Rank(ts[tid])
    ensures TotalRank(ts[tid := u]) < TotalRank(ts)
  {
    var us, last := ts[tid := u], |ts| - 1;
    if tid == last {
      assert us[..last] == ts[..last];
    } else {
      assert us[..last] == ts[..last][tid := u];
      TotalDescends(ts[..last], tid, u);
    }
  }

  lemma {:induction false} TotalAtFirst(ts: seq<Task>)
    requires forall i | 0 <= i < |ts| :: ts[i].pc.Begin? && ts[i].attempts == 0
    ensures TotalRank(ts) == 119 * |ts|
  {
    if ts != [] { TotalAtFirst(ts[..|ts| - 1]); }
  }

  /** How many of the events were steps. */
  ghost function Taken(kinds: seq<Kind>, maxEntries: nat, events: seq<Event>): nat {
    if events == [] then 0
    else
      var before := events[..|events| - 1];
      Taken(kinds, maxEntries, before)
      + if Possible(Run(kinds, maxEntries, before), events[|events| - 1]) then 1 else 0
  }

  /** All calls together take at most 119 steps each; with `NoDeadlock`, a run that goes on as long as it
      can ends with every call returned. */
  lemma {:induction false} EveryRunEnds(kinds: seq<Kind>, maxEntries: nat, events: seq<Event>)
    ensures Taken(kinds, maxEntries, events) + TotalRank(Run(kinds, maxEntries, events).tasks) <= 119 * |kinds|
  {
    if events == [] {
      TotalAtFirst(Initial(kinds, maxEntries).tasks);
    } else {
      var before, e := events[..|events| - 1], events[|events| - 1];
      var s := Run(kinds, maxEntries, before);
      EveryRunEnds(kinds, maxEntries, before);
      if Possible(s, e) {
        RunKeeps(kinds, maxEntries, before);
        assert Remembers(s.data, s.clock, s.tasks[e.tid]);
        AdvanceDescends(s.data, s.clock, s.tasks[e.tid], e.choice);
        TotalDescends(s.tasks, e.tid, Advance(s.data, s.clock, s.tasks[e.tid], e.choice));
      }
    }
  }

  /** How many of the events were steps of one call. */
  ghost function TakenBy(kinds: seq<Kind>, maxEntries: nat, events: seq<Event>, tid: nat): nat {
    if events == [] then 0
    else
      var before, e := events[..|events| - 1], events[|events| - 1];
      TakenBy(kinds, maxEntries, before, tid)
      + if e.tid == tid && Possible(Run(kinds, maxEntries, before), e) then 1 else 0
  }

  /** One call takes at most 119 steps, its three attempts included, whatever the others do. */
  lemma {:induction false} EachCallEnds(kinds: seq<Kind>, maxEntries: nat, events: seq<Event>, tid: nat)
    requires tid < |kinds|
    ensures tid < |Run(kinds, maxEntries, events).tasks|
    ensures TakenBy(kinds, maxEntries, events, tid) + Rank(Run(kinds, maxEntries, events).tasks[tid]) <= 119
  {
    BoundIsConstant(kinds, maxEntries, events);
    if events != [] {
      var before, e := events[..|events| - 1], events[|events| - 1];
      var s := Run(kinds, maxEntries, before);
      EachCallEnds(kinds, maxEntries, before, tid);
      if e.tid == tid && Possible(s, e) {
        RunKeeps(kinds, maxEntries, before);
        assert Remembers(s.data, s.clock, s.tasks[tid]);
        AdvanceDescends(s.data, s.clock, s.tasks[tid], e.choice);
      }
    }
  }
}
