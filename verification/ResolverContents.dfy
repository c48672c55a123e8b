/**
  What `refresh` and `cached_worktrees` return and cache: what Git listed for that very
  project, a young entry while the generation stands still, and nothing only after a
  failure or a change.
*/
module ResolverContents {
  import opened Options
  import opened WorktreeCache
  import opened ResolverRuns
  import opened ResolverInvariants
  import opened ResolverTheorems

  // ---- every listing is one of Git's ----

  /** In this step Git's listing of the project comes back, started when `l` says, with what `l` holds. */
  predicate ListsIn(s: Sys, e: Event, key: Key, l: Listing) {
    && e.tid < |s.tasks| && !Blocked(s, e.tid)
    && s.tasks[e.tid].pc.InListing? && KeyOf(s.tasks[e.tid].kind) == key && Refreshes(s.tasks[e.tid].kind)
    && s.tasks[e.tid].listing.began == l.began
    && e.choice.ok && e.choice.worktrees == l.worktrees
  }

  ghost predicate ListedByGit(kinds: seq<Kind>, maxEntries: nat, events: seq<Event>, key: Key, l: Listing) {
    exists n :: 0 <= n < |events| && ListsIn(Run(kinds, maxEntries, events[..n]), events[n], key, l)
  }

  /** The task holds a listing that has come back. */
  predicate HoldsListing(pc: Pc) {
    || pc.AskStore? || pc.AwaitStore? || pc.HoldStore? || pc.AwaitInsert? || pc.HoldInsert? || pc.Stored?
    || ((pc.LoadGlobal? || Loading(pc)) && pc.purpose.ForFresh?)
  }

  /** The listings a task holds, found or may return. */
  predicate Has(t: Task, l: Listing) {
    || (HoldsListing(t.pc) && t.listing == l)
    || (OnHit(t.pc) && t.found == Some(l))
    || (t.pc.Returned? && t.pc.result == Some(l))
  }

  /** A step hands on what was there, but for a listing that comes back and a cache that is read. */
  lemma AdvanceHands(d: Data, clock: nat, t: Task, c: Choice, l: Listing)
    requires Fits(t) && Has(Advance(d, clock, t, c), l)
    ensures || Has(t, l)
            || (t.pc.HoldCache? && KeyOf(t.kind) in d.cache && d.cache[KeyOf(t.kind)].listing == l && c.young)
            || (t.pc.InListing? && c.ok && t.listing.began == l.began && c.worktrees == l.worktrees)
  {
  }

  lemma ChangeHands(d: Data, clock: nat, t: Task, c: Choice, k: Key)
    requires k in Change(d, clock, t, c).cache
    requires t.pc.HoldInsert? ==>
               c.kept.Keys <= Inserted(d, t, c).Keys && forall k | k in c.kept :: c.kept[k] == Inserted(d, t, c)[k]
    ensures || (k in d.cache && Change(d, clock, t, c).cache[k] == d.cache[k])
            || (t.pc.HoldInsert? && k == KeyOf(t.kind) && Change(d, clock, t, c).cache[k].listing == t.listing)
  {
  }

  ghost predicate EntriesListed(kinds: seq<Kind>, maxEntries: nat, events: seq<Event>) {
    var d := Run(kinds, maxEntries, events).data;
    forall k | k in d.cache :: ListedByGit(kinds, maxEntries, events, k, d.cache[k].listing)
  }

  ghost predicate TasksListed(kinds: seq<Kind>, maxEntries: nat, events: seq<Event>) {
    var ts := Run(kinds, maxEntries, events).tasks;
    forall i, l | 0 <= i < |ts| && Has(ts[i], l) :: ListedByGit(kinds, maxEntries, events, KeyOf(ts[i].kind), l)
  }

  lemma StillListed(kinds: seq<Kind>, maxEntries: nat, events: seq<Event>, key: Key, l: Listing)
    requires events != [] && ListedByGit(kinds, maxEntries, events[..|events| - 1], key, l)
    ensures ListedByGit(kinds, maxEntries, events, key, l)
  {
    var before := events[..|events| - 1];
    var n :| 0 <= n < |before| && ListsIn(Run(kinds, maxEntries, before[..n]), before[n], key, l);
    assert before[..n] == events[..n] && before[n] == events[n];
  }

  lemma NowListed(kinds: seq<Kind>, maxEntries: nat, events: seq<Event>, key: Key, l: Listing)
    requires events != [] && ListsIn(Run(kinds, maxEntries, events[..|events| - 1]), events[|events| - 1], key, l)
    ensures ListedByGit(kinds, maxEntries, events, key, l)
  {
  }

  lemma EntryStepListed(kinds: seq<Kind>, maxEntries: nat, events: seq<Event>, k: Key)
    requires events != [] && k in Run(kinds, maxEntries, events).data.cache
    requires EntriesListed(kinds, maxEntries, events[..|events| - 1]) && TasksListed(kinds, maxEntries, events[..|events| - 1])
    ensures ListedByGit(kinds, maxEntries, events, k, Run(kinds, maxEntries, events).data.cache[k].listing)
  {
    var before, e := events[..|events| - 1], events[|events| - 1];
    var s, l := Run(kinds, maxEntries, before), Run(kinds, maxEntries, events).data.cache[k].listing;
    if Possible(s, e) {
      ChangeHands(s.data, s.clock, s.tasks[e.tid], e.choice, k);
      if !(k in s.data.cache && Change(s.data, s.clock, s.tasks[e.tid], e.choice).cache[k] == s.data.cache[k]) {
        assert Has(s.tasks[e.tid], l);
      }
    }
    StillListed(kinds, maxEntries, events, k, l);
  }

  lemma AdvanceKeepsKind(d: Data, clock: nat, t: Task, c: Choice)
    ensures Advance(d, clock, t, c).kind == t.kind
  {
  }

  lemma MoverListed(kinds: seq<Kind>, maxEntries: nat, events: seq<Event>, s: Sys, e: Event, l: Listing)
    requires events != [] && s == Run(kinds, maxEntries, events[..|events| - 1]) && e == events[|events| - 1]
    requires Possible(s, e) && Fits(s.tasks[e.tid]) && Has(Advance(s.data, s.clock, s.tasks[e.tid], e.choice), l)
    requires EntriesListed(kinds, maxEntries, events[..|events| - 1]) && TasksListed(kinds, maxEntries, events[..|events| - 1])
    ensures ListedByGit(kinds, maxEntries, events, KeyOf(s.tasks[e.tid].kind), l)
  {
    var t := s.tasks[e.tid];
    var key := KeyOf(t.kind);
    AdvanceHands(s.data, s.clock, t, e.choice, l);
    if Has(t, l) {
      StillListed(kinds, maxEntries, events, key, l);
    } else if t.pc.InListing? {
      NowListed(kinds, maxEntries, events, key, l);
    } else {
      StillListed(kinds, maxEntries, events, key, l);
    }
  }

  /** The task a step moves, and the tasks it leaves alone. */
  lemma WhoMoves(s: Sys, e: Event, i: nat)
    requires i < |Step(s, e).tasks|
    ensures i < |s.tasks| && Step(s, e).tasks[i].kind == s.tasks[i].kind
    ensures Possible(s, e) && e.tid == i ==> Step(s, e).tasks[i] == Advance(s.data, s.clock, s.tasks[i], e.choice)
    ensures !(Possible(s, e) && e.tid == i) ==> Step(s, e).tasks[i] == s.tasks[i]
  {
    if Possible(s, e) {
      AdvanceKeepsKind(s.data, s.clock, s.tasks[e.tid], e.choice);
    }
  }

  lemma TaskStepListed(kinds: seq<Kind>, maxEntries: nat, events: seq<Event>, i: nat, l: Listing)
    requires events != [] && i < |Run(kinds, maxEntries, events).tasks| && Has(Run(kinds, maxEntries, events).tasks[i], l)
    requires EntriesListed(kinds, maxEntries, events[..|events| - 1]) && TasksListed(kinds, maxEntries, events[..|events| - 1])
    ensures ListedByGit(kinds, maxEntries, events, KeyOf(Run(kinds, maxEntries, events).tasks[i].kind), l)
  {
    var before, e := events[..|events| - 1], events[|events| - 1];
    var s := Run(kinds, maxEntries, before);
    RunKeeps(kinds, maxEntries, before);
    WhoMoves(s, e, i);
    if Possible(s, e) && e.tid == i {
      assert Remembers(s.data, s.clock, s.tasks[i]);
      MoverListed(kinds, maxEntries, events, s, e, l);
    } else {
      StillListed(kinds, maxEntries, events, KeyOf(s.tasks[i].kind), l);
    }
  }

  lemma NewTasksHaveNone(kinds: seq<Kind>, maxEntries: nat)
    ensures EntriesListed(kinds, maxEntries, []) && TasksListed(kinds, maxEntries, [])
  {
    var s := Initial(kinds, maxEntries);
    assert forall i | 0 <= i < |s.tasks| :: s.tasks[i] == NewTask(kinds[i]);
  }

  lemma {:induction false} RunListed(kinds: seq<Kind>, maxEntries: nat, events: seq<Event>)
    ensures EntriesListed(kinds, maxEntries, events) && TasksListed(kinds, maxEntries, events)
  {
    if events == [] {
      NewTasksHaveNone(kinds, maxEntries);
    } else {
      RunListed(kinds, maxEntries, events[..|events| - 1]);
      forall k | k in Run(kinds, maxEntries, events).data.cache
        ensures ListedByGit(kinds, maxEntries, events, k, Run(kinds, maxEntries, events).data.cache[k].listing)
      {
        EntryStepListed(kinds, maxEntries, events, k);
      }
      forall i, l | 0 <= i < |Run(kinds, maxEntries, events).tasks| && Has(Run(kinds, maxEntries, events).tasks[i], l)
        ensures ListedByGit(kinds, maxEntries, events, KeyOf(Run(kinds, maxEntries, events).tasks[i].kind), l)
      {
        TaskStepListed(kinds, maxEntries, events, i, l);
      }
    }
  }

  /** Every cached entry, and every listing that a call returns, is what Git listed for that project, in a
      listing that began when it says. */
  lemma {:induction false} ContentsComeFromGit(kinds: seq<Kind>, maxEntries: nat, events: seq<Event>)
    ensures var s := Run(kinds, maxEntries, events);
            && (forall k | k in s.data.cache :: ListedByGit(kinds, maxEntries, events, k, s.data.cache[k].listing))
            && (forall i | 0 <= i < |s.tasks| && s.tasks[i].pc.Returned? && s.tasks[i].pc.result.Some? ::
                  ListedByGit(kinds, maxEntries, events, KeyOf(s.tasks[i].kind), s.tasks[i].pc.result.value))
  {
    RunListed(kinds, maxEntries, events);
    var s := Run(kinds, maxEntries, events);
    forall i | 0 <= i < |s.tasks| && s.tasks[i].pc.Returned? && s.tasks[i].pc.result.Some?
      ensures ListedByGit(kinds, maxEntries, events, KeyOf(s.tasks[i].kind), s.tasks[i].pc.result.value)
    {
      assert Has(s.tasks[i], s.tasks[i].pc.result.value);
    }
  }

  // ---- a call returns what it obtained itself ----

  /** In this step the task's own listing comes back with `l`, or it reads a young entry that holds `l`. */
  predicate Obtains(s: Sys, e: Event, tid: nat, l: Listing) {
    && e.tid == tid && tid < |s.tasks|
    && var t := s.tasks[tid];
       || (t.pc.InListing? && e.choice.ok && l == Listing(t.listing.began, e.choice.worktrees))
       || (t.pc.HoldCache? && e.choice.young && KeyOf(t.kind) in s.data.cache && l == s.data.cache[KeyOf(t.kind)].listing)
  }

  ghost predicate Obtained(kinds: seq<Kind>, maxEntries: nat, events: seq<Event>, tid: nat, l: Listing) {
    exists n :: 0 <= n < |events| && Obtains(Run(kinds, maxEntries, events[..n]), events[n], tid, l)
  }

  lemma StillObtained(kinds: seq<Kind>, maxEntries: nat, events: seq<Event>, tid: nat, l: Listing)
    requires events != [] && Obtained(kinds, maxEntries, events[..|events| - 1], tid, l)
    ensures Obtained(kinds, maxEntries, events, tid, l)
  {
    var before := events[..|events| - 1];
    var n :| 0 <= n < |before| && Obtains(Run(kinds, maxEntries, before[..n]), before[n], tid, l);
    assert before[..n] == events[..n] && before[n] == events[n];
  }

  lemma NowObtained(kinds: seq<Kind>, maxEntries: nat, events: seq<Event>, tid: nat, l: Listing)
    requires events != [] && Obtains(Run(kinds, maxEntries, events[..|events| - 1]), events[|events| - 1], tid, l)
    ensures Obtained(kinds, maxEntries, events, tid, l)
  {
  }

  lemma {:induction false} RunObtained(kinds: seq<Kind>, maxEntries: nat, events: seq<Event>, tid: nat, l: Listing)
    requires tid < |Run(kinds, maxEntries, events).tasks| && Has(Run(kinds, maxEntries, events).tasks[tid], l)
    ensures Obtained(kinds, maxEntries, events, tid, l)
  {
    if events == [] {
      NewTasksHaveNone(kinds, maxEntries);
    } else {
      var before, e := events[..|events| - 1], events[|events| - 1];
      var s := Run(kinds, maxEntries, before);
      WhoMoves(s, e, tid);
      if Has(s.tasks[tid], l) {
        RunObtained(kinds, maxEntries, before, tid, l);
        StillObtained(kinds, maxEntries, events, tid, l);
      } else {
        RunKeeps(kinds, maxEntries, before);
        assert Remembers(s.data, s.clock, s.tasks[tid]);
        AdvanceHands(s.data, s.clock, s.tasks[tid], e.choice, l);
        NowObtained(kinds, maxEntries, events, tid, l);
      }
    }
  }

  /** What a call returns it has listed itself, or has itself read from an entry that was young then. */
  lemma {:induction false} ResultsAreObtained(kinds: seq<Kind>, maxEntries: nat, events: seq<Event>, tid: nat, l: Listing)
    requires tid < |Run(kinds, maxEntries, events).tasks| && Run(kinds, maxEntries, events).tasks[tid].pc == Returned(Some(l))
    ensures Obtained(kinds, maxEntries, events, tid, l)
  {
    RunObtained(kinds, maxEntries, events, tid, l);
  }

  // ---- what is returned while the generation stands still ----

  /** The generation pair is the one a task has observed. */
  predicate Unmoved(s: Sys, key: Key, g: Generation) {
    s.data.global == g.global && ProjectGeneration(s.data.projects, key) == g.project
  }

  /** A hit is on its way out, or has been returned. */
  predicate Hitting(t: Task, g: Generation, l: Listing) {
    || (OnHit(t.pc) && t.found == Some(l) && t.outer == g && (Loading(t.pc) ==> t.loaded == g.global))
    || t.pc == Returned(Some(l))
  }

  lemma HittingGoesOn(d: Data, clock: nat, t: Task, c: Choice, g: Generation, l: Listing)
    requires Hitting(t, g, l) && Current(d, KeyOf(t.kind)) == g
    ensures Hitting(Advance(d, clock, t, c), g, l)
  {
  }

  /** Reading a young entry is a hit. */
  lemma YoungEntryHits(d: Data, clock: nat, t: Task, c: Choice)
    requires t.pc.HoldCache? && KeyOf(t.kind) in d.cache && c.young
    ensures Hitting(Advance(d, clock, t, c), t.outer, d.cache[KeyOf(t.kind)].listing)
  {
  }

  /** The call has read a young entry at event `n`; while the generation pair stays the one it had observed,
      whatever else happens, the call is returning that entry's own listing or has returned it. */
  lemma {:induction false} HitIsReturned(kinds: seq<Kind>, maxEntries: nat, events: seq<Event>, n: nat, tid: nat)
    requires n < |events| && events[n].tid == tid && Possible(Run(kinds, maxEntries, events[..n]), events[n])
    requires var s := Run(kinds, maxEntries, events[..n]);
             s.tasks[tid].pc.HoldCache? && KeyOf(s.tasks[tid].kind) in s.data.cache && events[n].choice.young
    requires var t := Run(kinds, maxEntries, events[..n]).tasks[tid];
             forall m | n < m < |events| :: Unmoved(Run(kinds, maxEntries, events[..m]), KeyOf(t.kind), t.outer)
    ensures var s, u := Run(kinds, maxEntries, events[..n]), Run(kinds, maxEntries, events);
            && tid < |u.tasks| && u.tasks[tid].kind == s.tasks[tid].kind
            && Hitting(u.tasks[tid], s.tasks[tid].outer, s.data.cache[KeyOf(s.tasks[tid].kind)].listing)
    decreases |events|
  {
    var before, e := events[..|events| - 1], events[|events| - 1];
    var s := Run(kinds, maxEntries, events[..n]);
    var key, g := KeyOf(s.tasks[tid].kind), s.tasks[tid].outer;
    var l := s.data.cache[key].listing;
    if n == |events| - 1 {
      YoungEntryHits(s.data, s.clock, s.tasks[tid], e.choice);
      AdvanceKeepsKind(s.data, s.clock, s.tasks[tid], e.choice);
    } else {
      assert before[..n] == events[..n] && before[n] == events[n];
      assert forall m | n < m < |before| :: before[..m] == events[..m];
      HitIsReturned(kinds, maxEntries, before, n, tid);
      var u := Run(kinds, maxEntries, before);
      assert events[..|events| - 1] == before && Unmoved(u, key, g);
      if Possible(u, e) && e.tid == tid {
        HittingGoesOn(u.data, u.clock, u.tasks[tid], e.choice, g, l);
        AdvanceKeepsKind(u.data, u.clock, u.tasks[tid], e.choice);
      }
    }
  }

  /** A listing is on its way out, or has been returned. */
  predicate Delivering(t: Task, g: Generation, l: Listing) {
    || (HoldsListing(t.pc) && t.listing == l && t.outer == g && (Loading(t.pc) ==> t.loaded == g.global))
    || t.pc == Returned(Some(l))
  }

  /** Storing a listing and looking at the generation again lose nothing of it. */
  lemma DeliveringGoesOn(d: Data, clock: nat, t: Task, c: Choice, g: Generation, l: Listing)
    requires Delivering(t, g, l) && Current(d, KeyOf(t.kind)) == g
    ensures Delivering(Advance(d, clock, t, c), g, l)
  {
  }

  /** An explicit refresh does not look at it again. */
  predicate Reporting(t: Task, l: Listing) {
    || (HoldsListing(t.pc) && !t.pc.LoadGlobal? && !Loading(t.pc) && t.listing == l)
    || t.pc == Returned(Some(l))
  }

  lemma ReportingGoesOn(d: Data, clock: nat, t: Task, c: Choice, l: Listing)
    requires Reporting(t, l) && t.kind.Refresh?
    ensures Reporting(Advance(d, clock, t, c), l)
  {
  }

  /** What the listing that succeeds in this step holds. */
  function CameBack(t: Task, c: Choice): Listing {
    Listing(t.listing.began, c.worktrees)
  }

  lemma ListingArrives(d: Data, clock: nat, t: Task, c: Choice)
    requires t.pc.InListing? && c.ok
    ensures Delivering(Advance(d, clock, t, c), t.outer, CameBack(t, c)) && Reporting(Advance(d, clock, t, c), CameBack(t, c))
  {
  }

  /** The listing of `cached_worktrees` has succeeded at event `n`; while the generation pair stays the one
      the call had observed, whatever else happens, the call is returning that listing or has returned it. */
  lemma {:induction false} FreshListingIsReturned(kinds: seq<Kind>, maxEntries: nat, events: seq<Event>, n: nat, tid: nat)
    requires n < |events| && events[n].tid == tid && Possible(Run(kinds, maxEntries, events[..n]), events[n])
    requires var t := Run(kinds, maxEntries, events[..n]).tasks[tid];
             && t.pc.InListing? && events[n].choice.ok
             && forall m | n < m < |events| :: Unmoved(Run(kinds, maxEntries, events[..m]), KeyOf(t.kind), t.outer)
    ensures var t, u := Run(kinds, maxEntries, events[..n]).tasks[tid], Run(kinds, maxEntries, events);
            && tid < |u.tasks| && u.tasks[tid].kind == t.kind
            && Delivering(u.tasks[tid], t.outer, CameBack(t, events[n].choice))
    decreases |events|
  {
    var before, e := events[..|events| - 1], events[|events| - 1];
    var s := Run(kinds, maxEntries, events[..n]);
    var t := s.tasks[tid];
    if n == |events| - 1 {
      ListingArrives(s.data, s.clock, t, e.choice);
      WhoMoves(s, e, tid);
    } else {
      assert before[..n] == events[..n] && before[n] == events[n];
      assert forall m | n < m < |before| :: before[..m] == events[..m];
      FreshListingIsReturned(kinds, maxEntries, before, n, tid);
      var u := Run(kinds, maxEntries, before);
      assert events[..|events| - 1] == before && Unmoved(u, KeyOf(t.kind), t.outer);
      StepKeepsTasks(u, e);
      WhoMoves(u, e, tid);
      if Possible(u, e) && e.tid == tid {
        DeliveringGoesOn(u.data, u.clock, u.tasks[tid], e.choice, t.outer, CameBack(t, events[n].choice));
      }
    }
  }

  lemma StepKeepsTasks(s: Sys, e: Event)
    ensures |Step(s, e).tasks| == |s.tasks|
  {
  }

  /** The listing of an explicit refresh has succeeded at event `n`; whatever else happens, and whether or not
      the generation moves, the call is returning that listing or has returned it. */
  lemma {:induction false} RefreshReportsItsListing(kinds: seq<Kind>, maxEntries: nat, events: seq<Event>, n: nat, tid: nat)
    requires n < |events| && events[n].tid == tid && Possible(Run(kinds, maxEntries, events[..n]), events[n])
    requires var t := Run(kinds, maxEntries, events[..n]).tasks[tid];
             t.kind.Refresh? && t.pc.InListing? && events[n].choice.ok
    ensures var t, u := Run(kinds, maxEntries, events[..n]).tasks[tid], Run(kinds, maxEntries, events);
            && tid < |u.tasks| && u.tasks[tid].kind == t.kind
            && Reporting(u.tasks[tid], CameBack(t, events[n].choice))
    decreases |events|
  {
    var before, e := events[..|events| - 1], events[|events| - 1];
    var s := Run(kinds, maxEntries, events[..n]);
    var t := s.tasks[tid];
    if n == |events| - 1 {
      ListingArrives(s.data, s.clock, t, e.choice);
      WhoMoves(s, e, tid);
    } else {
      assert before[..n] == events[..n] && before[n] == events[n];
      RefreshReportsItsListing(kinds, maxEntries, before, n, tid);
      var u := Run(kinds, maxEntries, before);
      StepKeepsTasks(u, e);
      WhoMoves(u, e, tid);
      if Possible(u, e) && e.tid == tid {
        ReportingGoesOn(u.data, u.clock, u.tasks[tid], e.choice, CameBack(t, events[n].choice));
      }
    }
  }

  // ---- when nothing is returned ----

  predicate Observes(pc: Pc, purpose: Purpose) {
    (pc.LoadGlobal? || Loading(pc)) && pc.purpose == purpose
  }

  /** Where only `cached_worktrees` can be. */
  predicate OnlyCached(pc: Pc) {
    || pc.AskCache? || pc.AwaitCache? || pc.HoldCache?
    || Observes(pc, ForAttempt) || Observes(pc, ForHit) || Observes(pc, ForFresh)
  }

  /** The attempt has observed the generation pair. */
  predicate HasObserved(pc: Pc) {
    !pc.Begin? && !pc.Returned? && !Observes(pc, ForAttempt)
  }

  /** A call that has seen no failure, and only the generation pair `g`, since its attempt began. */
  predicate Settled(t: Task, g: Generation) {
    && Refreshes(t.kind) && !Invalidates(t.pc)
    && (OnlyCached(t.pc) ==> t.kind.Cached?)
    && (t.kind.Cached? && HasObserved(t.pc) ==> t.outer == g)
    && (Loading(t.pc) ==> t.loaded == g.global)
    && (OnHit(t.pc) ==> t.found.Some?)
    && (t.pc.Returned? ==> t.pc.result.Some?)
  }

  lemma SettledGoesOn(d: Data, clock: nat, t: Task, c: Choice, g: Generation)
    requires Settled(t, g) && Current(d, KeyOf(t.kind)) == g
    requires t.pc.Begin? || t.pc.InListing? ==> c.ok
    ensures Settled(Advance(d, clock, t, c), g)
  {
  }

  lemma SettledStep(s: Sys, e: Event, tid: nat, g: Generation)
    requires tid < |s.tasks| && Settled(s.tasks[tid], g) && Unmoved(s, KeyOf(s.tasks[tid].kind), g)
    requires Possible(s, e) && e.tid == tid && (s.tasks[tid].pc.Begin? || s.tasks[tid].pc.InListing?) ==> e.choice.ok
    ensures tid < |Step(s, e).tasks| && Step(s, e).tasks[tid].kind == s.tasks[tid].kind && Settled(Step(s, e).tasks[tid], g)
  {
    StepKeepsTasks(s, e);
    WhoMoves(s, e, tid);
    if Possible(s, e) && e.tid == tid {
      SettledGoesOn(s.data, s.clock, s.tasks[tid], e.choice, g);
    }
  }

  /** From event `n` on, every resolution and listing of the call succeeds. */
  ghost predicate NeverFails(kinds: seq<Kind>, maxEntries: nat, events: seq<Event>, n: nat, tid: nat) {
    forall m | n <= m < |events| && events[m].tid == tid && Possible(Run(kinds, maxEntries, events[..m]), events[m]) ::
      var pc := Run(kinds, maxEntries, events[..m]).tasks[tid].pc;
      pc.Begin? || pc.InListing? ==> events[m].choice.ok
  }

  /** The call begins, or begins an attempt, after `n` events. */
  predicate AtOutset(t: Task) {
    Refreshes(t.kind) && (t.pc.Begin? || (t.kind.Cached? && t.pc == LoadGlobal(ForAttempt)))
  }

  /** From event `n` on, the generation pair of the key stands still. */
  ghost predicate StandsStill(kinds: seq<Kind>, maxEntries: nat, events: seq<Event>, n: nat, key: Key, g: Generation) {
    forall m | n <= m < |events| :: Unmoved(Run(kinds, maxEntries, events[..m]), key, g)
  }

  /** What holds of a run holds of the run without its last event, and at that event. */
  lemma BeforeTheLast(
      kinds: seq<Kind>, maxEntries: nat, events: seq<Event>, n: nat, tid: nat, key: Key, g: Generation)
    requires n < |events| && StandsStill(kinds, maxEntries, events, n, key, g)
    requires NeverFails(kinds, maxEntries, events, n, tid)
    ensures var before, e := events[..|events| - 1], events[|events| - 1];
            var s := Run(kinds, maxEntries, before);
            && before[..n] == events[..n]
            && StandsStill(kinds, maxEntries, before, n, key, g) && NeverFails(kinds, maxEntries, before, n, tid)
            && Unmoved(s, key, g)
            && (Possible(s, e) && e.tid == tid && (s.tasks[tid].pc.Begin? || s.tasks[tid].pc.InListing?) ==> e.choice.ok)
  {
    var before := events[..|events| - 1];
    assert before[..n] == events[..n];
    assert forall m | n <= m < |before| :: before[..m] == events[..m] && before[m] == events[m];
    assert events[..|events| - 1] == before;
  }

  /** A call that fails nowhere, in a time in which the generation pair of its project stands still, ends
      with a listing: to return nothing takes a failure or a change. */
  lemma {:induction false} NothingTakesAFailureOrAChange(
      kinds: seq<Kind>, maxEntries: nat, events: seq<Event>, n: nat, tid: nat, g: Generation)
    requires n <= |events| && tid < |Run(kinds, maxEntries, events[..n]).tasks|
    requires var t := Run(kinds, maxEntries, events[..n]).tasks[tid];
             AtOutset(t) && StandsStill(kinds, maxEntries, events, n, KeyOf(t.kind), g)
    requires NeverFails(kinds, maxEntries, events, n, tid)
    ensures var t, u := Run(kinds, maxEntries, events[..n]).tasks[tid], Run(kinds, maxEntries, events);
            && tid < |u.tasks| && u.tasks[tid].kind == t.kind
            && Settled(u.tasks[tid], g) && (u.tasks[tid].pc.Returned? ==> u.tasks[tid].pc.result.Some?)
    decreases |events|
  {
    if n == |events| {
      assert events[..n] == events;
    } else {
      var before, e := events[..|events| - 1], events[|events| - 1];
      var key := KeyOf(Run(kinds, maxEntries, events[..n]).tasks[tid].kind);
      BeforeTheLast(kinds, maxEntries, events, n, tid, key, g);
      NothingTakesAFailureOrAChange(kinds, maxEntries, before, n, tid, g);
      SettledStep(Run(kinds, maxEntries, before), e, tid, g);
    }
  }

  // ---- what is stored ----

  /** A task between the two comparisons of `store_if_current`. */
  predicate Inserting(pc: Pc) {
    pc.AwaitInsert? || pc.HoldInsert?
  }

  ghost predicate InsertersCurrent(s: Sys) {
    forall i | 0 <= i < |s.tasks| && Inserting(s.tasks[i].pc) :: s.tasks[i].inner == Current(s.data, KeyOf(s.tasks[i].kind))
  }

  lemma OnlyBumpsMoveIt(d: Data, clock: nat, t: Task, c: Choice, key: Key)
    requires !t.pc.HoldBump?
    ensures Current(Change(d, clock, t, c), key) == Current(d, key)
  {
  }

  lemma ComparedIsCurrent(d: Data, clock: nat, t: Task, c: Choice)
    requires Inserting(Advance(d, clock, t, c).pc)
    requires Inserting(t.pc) ==> t.inner == Current(d, KeyOf(t.kind))
    ensures Advance(d, clock, t, c).inner == Current(d, KeyOf(t.kind)) && Advance(d, clock, t, c).kind == t.kind
    ensures !t.pc.HoldBump?
  {
  }

  /** While a task holds the generations in common, nobody raises one. */
  lemma InserterExcludesBumper(l: Lock, ts: seq<Task>, i: nat, tid: nat)
    requires LockAgrees(Generations, l, ts) && i < |ts| && tid < |ts| && Inserting(ts[i].pc)
    ensures !ts[tid].pc.HoldBump?
  {
    assert i in l.readers;
    assert Excludes(Generations, ts[tid].pc) ==> l.writer == Some(tid);
  }

  lemma StepKeepsInserters(s: Sys, e: Event)
    requires Inv(s) && InsertersCurrent(s)
    ensures InsertersCurrent(Step(s, e))
  {
    var u := Step(s, e);
    if Possible(s, e) {
      forall i | 0 <= i < |u.tasks| && Inserting(u.tasks[i].pc)
        ensures u.tasks[i].inner == Current(u.data, KeyOf(u.tasks[i].kind))
      {
        WhoMoves(s, e, i);
        if i == e.tid {
          ComparedIsCurrent(s.data, s.clock, s.tasks[i], e.choice);
        } else {
          InserterExcludesBumper(s.generations, s.tasks, i, e.tid);
        }
        OnlyBumpsMoveIt(s.data, s.clock, s.tasks[e.tid], e.choice, KeyOf(s.tasks[i].kind));
      }
    }
  }

  lemma {:induction false} RunKeepsInserters(kinds: seq<Kind>, maxEntries: nat, events: seq<Event>)
    ensures InsertersCurrent(Run(kinds, maxEntries, events))
  {
    if events == [] {
      var s := Initial(kinds, maxEntries);
      assert forall i | 0 <= i < |s.tasks| :: s.tasks[i] == NewTask(kinds[i]);
    } else {
      RunKeeps(kinds, maxEntries, events[..|events| - 1]);
      RunKeepsInserters(kinds, maxEntries, events[..|events| - 1]);
      StepKeepsInserters(Run(kinds, maxEntries, events[..|events| - 1]), events[|events| - 1]);
    }
  }

  /** A listing gives up being stored only at the first comparison, exactly when the pair has moved since
      the listing's own observation. Once that has passed, the pair stays still until the insertion, so
      that the second comparison never fails: the project's entry becomes this listing, and the rest of
      the cache is what trimming to the bound leaves. */
  lemma {:induction false} ListingsAreStored(kinds: seq<Kind>, maxEntries: nat, events: seq<Event>, e: Event)
    requires Possible(Run(kinds, maxEntries, events), e)
    ensures var s := Run(kinds, maxEntries, events);
            var t, u := s.tasks[e.tid], Step(s, e);
            && (t.pc.HoldStore? ==> (u.tasks[e.tid].pc.Stored? <==> t.inner != Current(s.data, KeyOf(t.kind)))
                                    && (u.tasks[e.tid].pc.AwaitInsert? <==> t.inner == Current(s.data, KeyOf(t.kind))))
            && (t.pc.HoldInsert? ==>
                  Trimmed(s.data.cache[KeyOf(t.kind) := Entry(e.choice.now, t.listing)], u.data.cache, maxEntries))
  {
    RunKeepsInserters(kinds, maxEntries, events);
    BoundIsConstant(kinds, maxEntries, events);
  }
}
