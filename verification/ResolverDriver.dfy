/**
  The resolver object driven by the lock-steps of its tasks: its fields are the data of the
  machine, so what is proved of every run holds of the object.
*/
module ResolverDriver {
  import opened Options
  import opened WorktreeCache
  import opened ResolverRuns

  ghost predicate Holds(r: WorkspaceTargetResolver, d: Data)
    reads r
  {
    r.cache == d.cache && r.generation == d.global && r.projectGenerations == d.projects
  }

  method Raise(r: WorkspaceTargetResolver, ghost d: Data, kind: Kind)
    requires Holds(r, d)
    modifies r
    ensures Holds(r, RaiseGeneration(d, kind))
  {
    if kind.InvalidateAll? {
      r.BumpAll();
    } else {
      r.BumpProject(KeyOf(kind));
    }
  }

  method Remove(r: WorkspaceTargetResolver, ghost d: Data, kind: Kind)
    requires Holds(r, d)
    modifies r
    ensures Holds(r, RemoveEntries(d, kind))
  {
    if kind.InvalidateAll? {
      r.ClearEntries();
    } else {
      r.RemoveEntry(KeyOf(kind));
    }
  }

  method Store(r: WorkspaceTargetResolver, ghost d: Data, t: Task, c: Choice)
    requires Holds(r, d)
    modifies r
    ensures Holds(r, Insert(d, t, c.(kept := r.cache)))
    ensures Current(d, KeyOf(t.kind)) == t.inner ==> Trimmed(Inserted(d, t, c), r.cache, r.maxEntries)
  {
    var stored := r.StoreIfCurrent(KeyOf(t.kind), t.listing, t.inner, c.now);
  }

  /** What a task does to the fields in its next step. */
  method Perform(r: WorkspaceTargetResolver, ghost d: Data, ghost clock: nat, t: Task, c: Choice)
    requires Holds(r, d)
    modifies r
    ensures Holds(r, Change(d, clock, t, c.(kept := r.cache)))
    ensures t.pc.HoldInsert? && Current(d, KeyOf(t.kind)) == t.inner ==> Trimmed(Inserted(d, t, c), r.cache, r.maxEntries)
  {
    if t.pc.HoldInsert? {
      Store(r, d, t, c);
    } else if t.pc.HoldBump? {
      Raise(r, d, t.kind);
    } else if t.pc.HoldRemove? {
      Remove(r, d, t.kind);
    }
  }

  /** A schedule may name tasks that cannot step; what eviction keeps is up to the object. */
  predicate Follows(event: Event, scheduled: Event) {
    event.tid == scheduled.tid && event.choice == scheduled.choice.(kept := event.choice.kept)
  }

  /** The event that the object's step amounts to. */
  lemma StepOfObject(s: Sys, scheduled: Event, cache: map<Key, Entry>) returns (e: Event)
    requires scheduled.tid < |s.tasks| && !Blocked(s, scheduled.tid)
    requires var t := s.tasks[scheduled.tid];
             t.pc.HoldInsert? && Current(s.data, KeyOf(t.kind)) == t.inner ==>
               Trimmed(Inserted(s.data, t, scheduled.choice), cache, s.maxEntries)
    ensures Follows(e, scheduled) && Possible(s, e)
    ensures Step(s, e) == Act(s, scheduled.tid, scheduled.choice.(kept := cache))
  {
    var t := s.tasks[scheduled.tid];
    e := scheduled.(choice := scheduled.choice.(kept := cache));
    if t.pc.HoldInsert? && Current(s.data, KeyOf(t.kind)) != t.inner {
      var inserted := Inserted(s.data, t, scheduled.choice);
      var kept := TrimExists(inserted, inserted, s.maxEntries);
      e := scheduled.(choice := scheduled.choice.(kept := kept));
    }
  }

  /** A new resolver used by any calls on any schedule has the data of one of the machine's runs. */
  method Drive(kinds: seq<Kind>, maxEntries: nat, schedule: seq<Event>)
    returns (r: WorkspaceTargetResolver, ghost events: seq<Event>)
    ensures |events| == |schedule| && forall i | 0 <= i < |events| :: Follows(events[i], schedule[i])
    ensures Holds(r, Run(kinds, maxEntries, events).data)
  {
    r := new WorkspaceTargetResolver(maxEntries);
    var s := Initial(kinds, maxEntries);
    events := [];
    for i := 0 to |schedule|
      invariant fresh(r) && r.maxEntries == maxEntries == s.maxEntries
      invariant |events| == i && forall k | 0 <= k < i :: Follows(events[k], schedule[k])
      invariant s == Run(kinds, maxEntries, events) && Holds(r, s.data)
    {
      var scheduled := schedule[i];
      ghost var e := scheduled;
      ghost var before := s;
      if scheduled.tid < |s.tasks| && !Blocked(s, scheduled.tid) {
        var t := s.tasks[scheduled.tid];
        Perform(r, s.data, s.clock, t, scheduled.choice);
        e := StepOfObject(s, scheduled, r.cache);
        s := Act(s, scheduled.tid, scheduled.choice.(kept := r.cache));
      }
      assert (events + [e])[..i] == events;
      events := events + [e];
    }
  }
}
