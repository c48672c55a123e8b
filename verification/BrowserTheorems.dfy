/**
  What the native Browser Debug host promises over all runs: one child at most, none
  left behind, and the latest zoom.
*/
module BrowserTheorems {
  import opened Options
  import opened BrowserSegments
  import opened BrowserRuns
  import opened BrowserInvariants

  /** Nothing runs and nothing is queued. */
  predicate Quiet(h: Host) {
    h.running.None? && h.queue == []
  }

  /** `browser_debug_create` is only ever outstanding while no child exists, whatever is called during
      any await and whichever destructions fail. */
  lemma {:induction false} CreateOnlyWithoutChild(events: seq<Event>)
    ensures var s := Run(events); s.h.running.Some? && s.h.running.value.stage.Creating? ==> s.child.None?
  {
    RunKeeps(events);
  }

  /** A host with a state has a child, created for the very target it shows. */
  lemma {:induction false} StateDescribesTheChild(events: seq<Event>)
    ensures var s := Run(events);
            s.h.state.Some? ==> s.h.target.Some? && s.child.Some? && s.child.value.op == s.h.operation
  {
    RunKeeps(events);
  }

  /** Once the queue has drained, a remaining child belongs to the latest call and its target; only a
      disposed host that gave up leaves another. */
  lemma {:induction false} QuietHostKeepsOnlyTheLatestChild(events: seq<Event>)
    ensures var s := Run(events);
            Quiet(s.h) && s.child.Some? ==>
              (s.h.target.Some? && s.child.value.op == s.h.operation) || (s.h.disposed && s.abandoned)
  {
    RunKeeps(events);
  }

  /** After `destroy`, or `setTarget(null)`, as the last call, a drained queue leaves no child, unless the
      disposed host gave up destroying it. */
  lemma {:induction false} NothingRemainsAfterDestroy(events: seq<Event>)
    ensures var s := Run(events);
            Quiet(s.h) && s.h.target.None? && (!s.h.disposed || !s.abandoned) ==> s.child.None?
  {
    QuietHostKeepsOnlyTheLatestChild(events);
  }

  /** Giving up on the current operation takes disposal and three failed attempts. */
  lemma GivingUpTakesThreeFailures(s: Sys, e: Event)
    requires !s.abandoned && Step(s, e).abandoned
    ensures s.h.disposed && e.Reply? && !e.ok && s.h.running.Some? && s.h.running.value.stage.Destroying?
    ensures s.h.running.value.job.op == s.h.operation && s.h.running.value.stage.attempts >= 2
  {
  }

  lemma RunOn(events: seq<Event>, e: Event)
    ensures Run(events + [e]) == Step(Run(events), e)
  {
    assert (events + [e])[..|events|] == events;
  }

  /** The creation of the current target is outstanding. */
  predicate Creates(s: Sys) {
    && s.h.running.Some? && s.h.running.value.stage == Creating(s.h.zoom) && s.h.queue == []
    && s.h.running.value.job.op == s.h.operation && s.h.target.Some? && !s.h.disposed
  }

  lemma OutstandingCreation() returns (events: seq<Event>)
    ensures Creates(Run(events)) && Run(events).h.state.None? && Run(events).h.zoom == 1.0
  {
    var ok := Reply(true, true, false);
    var t := CallSetTarget(Some(Target("http://localhost:3000/", "http://localhost:3000", false)), Some("default"));
    RunOn([], t);
    RunOn([t], Start);
    var s2 := Run([t] + [Start]);
    assert s2.h.running.Some? && s2.h.running.value.stage == Destroying(false, 0) && s2.h.queue == [];
    events := [t] + [Start] + [ok] + [ok];
    RunOn([t] + [Start], ok);
    RunOn([t] + [Start] + [ok], ok);
  }

  lemma OpenedChild() returns (events: seq<Event>)
    ensures var s := Run(events); Quiet(s.h) && s.child.Some? && !s.h.disposed
  {
    var ok := Reply(true, true, false);
    events := OutstandingCreation();
    OpenedChildRenders(events);
    events := events + [ok] + [ok] + [ok];
  }

  /** From an outstanding creation of the current target, three replies lead to a drained queue. */
  lemma OpenedChildRenders(events: seq<Event>)
    requires Creates(Run(events))
    ensures var ok := Reply(true, true, false);
            var s := Run(events + [ok] + [ok] + [ok]); Quiet(s.h) && s.child.Some? && !s.h.disposed
  {
    var ok := Reply(true, true, false);
    RunOn(events, ok);
    var s := Run(events + [ok]);
    assert s.h.running.Some? && s.h.running.value.stage.SettingBounds? && s.child.Some?;
    RunOn(events + [ok], ok);
    RunOn(events + [ok] + [ok], ok);
  }

  /** The disposed host destroys the child, in vain. */
  lemma DisposalFails(events: seq<Event>, attempts: nat) returns (more: seq<Event>)
    requires attempts <= 2
    requires var s := Run(events);
             && s.h.running == Some(Running(DestroyJob(s.h.operation), Destroying(false, attempts)))
             && s.h.queue == [] && s.h.disposed && s.h.target.None? && s.child.Some?
    ensures var s := Run(more); Quiet(s.h) && s.h.target.None? && s.h.disposed && s.child.Some?
    decreases 3 - attempts
  {
    var fails := Reply(false, true, false);
    RunOn(events, fails);
    more := events + [fails];
    if attempts < 2 {
      RunOn(more, fails);
      more := DisposalFails(more + [fails], attempts + 1);
    }
  }

  /** An open child and a disposal whose three attempts fail: the child outlives the host. */
  lemma ChildCanOutliveDisposal() returns (events: seq<Event>)
    ensures var s := Run(events); Quiet(s.h) && s.h.target.None? && s.h.disposed && s.child.Some?
  {
    events := OpenedChild();
    RunOn(events, CallDispose);
    RunOn(events + [CallDispose], Start);
    events := DisposalFails(events + [CallDispose] + [Start], 0);
  }

  /** While no zoom call has failed since the child was adopted, a drained queue means that the child
      has the latest zoom, changes made during its creation included. */
  lemma {:induction false} ZoomConverges(events: seq<Event>)
    ensures var s := Run(events);
            Quiet(s.h) && s.h.state.Some? && !s.zoomFailed ==>
              s.child.Some? && s.child.value.zoom == s.h.zoom && s.h.lastApplied == Some(s.h.zoom) && s.h.pending.None?
  {
    RunKeeps(events);
  }

  /** Before that, the latest zoom is being applied or queued. */
  lemma {:induction false} ZoomIsNeverForgotten(events: seq<Event>)
    ensures var s := Run(events);
            s.h.state.Some? && !s.zoomFailed && s.child.Some? && s.child.value.zoom != s.h.zoom ==> OnItsWay(s.h)
  {
    RunKeeps(events);
  }
}
