/**
  Why coalescing needs hints to wait for queued promise reactions: a run of the host in
  which a hint is heard while the retry of a hint read is queued, and lost. The retry
  finds the failed read still marked as in flight, becomes the trailing hint in the
  other's place, and is then dropped because its own counters are already published.
*/
module HintLoss {
  import opened Options
  import opened SshWire
  import opened SnapshotTables
  import opened HostSegments
  import opened HostRuns
  import opened HintCoalescing

  /** A host on an active scope that has published a snapshot with these counters. */
  predicate Published(h: Host, c: Counters) {
    && h.context.Some? && h.activationToken.Some? && h.scopeId.Some? && h.scopeGeneration == Some(c.scopeGeneration)
    && h.snapshotState.Some? && h.snapshotState.value.counters == c && h.hintFreshness == Some(c)
    && h.acceptedRequest <= h.requestSequence
    && !h.disposed && !h.reopening && h.mutationInFlight == 0 && h.mutationWaiters == []
    && !h.trailing
  }

  function HintOf(h: Host, c: Counters): Hint
    requires h.context.Some? && h.activationToken.Some?
  {
    Hint(h.context.value, h.activationToken.value, h.scopeId, c, false)
  }

  const NO_ROWS: Tables := Tables([], [], [], [], [], [], [], [])

  lemma NoRowsAreValid(scope: ScopeId)
    ensures ValidTables(NO_ROWS, scope)
  {
    assert ConnectionIds(NO_ROWS) == {} && RuleIds(NO_ROWS) == {} && ProfileIds(NO_ROWS) == {};
    assert (set r | r in NO_ROWS.runtimes :: r.profileId) == {};
    assert (set c | c in NO_ROWS.credentials :: c.connectionProfileId) == {};
    assert (set r | r in NO_ROWS.connectionRuntimes :: r.connectionProfileId) == {};
    assert (set r | r in NO_ROWS.ruleRuntimes :: r.ruleId) == {};
    assert (set c | c in NO_ROWS.challenges :: c.challengeId) == {};
  }

  lemma RunOn(events: seq<Event>, e: Event)
    ensures Run(events + [e]) == Step(Run(events), e)
  {
    assert (events + [e])[..|events|] == events;
  }

  function SnapshotFor(h: Host, c: Counters): Snapshot
    requires h.context.Some? && h.activationToken.Some? && h.scopeId.Some?
  {
    Snapshot(h.context.value, h.scopeId.value, h.activationToken.value, c, NO_ROWS)
  }

  /** A hint arrives, and its read is sent. */
  lemma ReadStarts(s: Sys, c: Counters, a: Counters)
    requires Published(s.host, c) && !s.host.snapshotInFlight
    requires Leq(c, a) && SomeAbove(a, c) && a.scopeGeneration == c.scopeGeneration
    ensures var n, hint := |s.tasks|, HintOf(s.host, a);
            var u := Step(Step(s, HintArrives(hint)), Resume(n));
            && Published(u.host, c) && SessionOf(u.host) == SessionOf(s.host) && u.host.operation == s.host.operation
            && AwaitsRead(u, n, hint) && u.tasks[..n] == s.tasks
  {
    var n, hint := |s.tasks|, HintOf(s.host, a);
    var heard := Step(s, HintArrives(hint));
    assert heard.tasks == s.tasks + [Task(HintReading(hint, 0), Settling, 0, 0)];
  }

  /** The last task is the read for `hint`, its manager call sent. */
  predicate AwaitsRead(s: Sys, n: nat, hint: Hint) {
    && |s.tasks| == n + 1 && s.tasks[n].kind == HintReading(hint, 0) && s.host.snapshotInFlight
    && CaptureFor(s.host, false).Some?
    && s.tasks[n].pc == CommandCall(CaptureFor(s.host, false).value, true, Some(s.host.requestSequence), Top)
  }

  predicate SameSession(h: Host, g: Host) {
    g.context == h.context && g.activationToken == h.activationToken && g.scopeId == h.scopeId
  }

  /** The read publishes the hint's counters. */
  lemma ReadIsPublished(s: Sys, n: nat, c: Counters, hint: Hint)
    requires Published(s.host, c) && AwaitsRead(s, n, hint) && hint.counters.scopeGeneration == c.scopeGeneration
    ensures var u := Step(s, ReplyArrives(n, SnapshotReply(SnapshotFor(s.host, hint.counters))));
            && Published(u.host, hint.counters) && u.host.snapshotInFlight && SameSession(s.host, u.host)
            && u.tasks == s.tasks[n := s.tasks[n].(pc := HintThen)]
  {
    NoRowsAreValid(s.host.scopeId.value);
    var call := s.tasks[n].pc;
    var end := EndCommand(s.host, call.capture, call.request, SnapshotReply(SnapshotFor(s.host, hint.counters)));
    assert end == Returned(AcceptSnapshot(s.host, Some(SnapshotFor(s.host, hint.counters)), call.request));
  }

  /** A listener throws, and a retry is queued. */
  lemma ReadFails(s: Sys, n: nat, hint: Hint)
    requires Published(s.host, hint.counters) && s.host.snapshotInFlight
    requires |s.tasks| == n + 1 && s.tasks[n].kind == HintReading(hint, 0) && s.tasks[n].pc == HintThen
    ensures var u := Step(Step(s, SubscriberThrows(n)), Resume(n));
            && u.host == s.host && |u.tasks| == n + 2 && u.tasks[..n] == s.tasks[..n]
            && u.tasks[n].kind == HintReading(hint, 0) && u.tasks[n].pc == HintFinally
            && u.tasks[n + 1] == Task(HintReading(hint, 1), RetryQueued, 0, 0)
  {
    var thrown := Step(s, SubscriberThrows(n));
    assert thrown.tasks[n].pc == HintCatch && thrown.host == s.host && thrown.tasks[..n] == s.tasks[..n];
  }

  /** The other hint is admitted and becomes the trailing one; the retry takes its place, and the end of
      the failed read drops it. */
  lemma OtherHintIsLost(s: Sys, n: nat, hint: Hint, b: Counters)
    requires Published(s.host, hint.counters) && s.host.snapshotInFlight && |s.tasks| == n + 2
    requires !hint.runtimeChanged
    requires s.tasks[n].kind == HintReading(hint, 0) && s.tasks[n].pc == HintFinally
    requires s.tasks[n + 1] == Task(HintReading(hint, 1), RetryQueued, 0, 0)
    requires Leq(hint.counters, b) && SomeAbove(b, hint.counters)
    ensures Admits(s.host, HintOf(s.host, b))
    ensures var u := Step(Step(Step(s, HintArrives(HintOf(s.host, b))), Resume(n + 1)), Resume(n));
            && Published(u.host, hint.counters) && !u.host.snapshotInFlight
            && |u.tasks| == n + 2 && u.tasks[..n] == s.tasks[..n] && u.tasks[n].pc.Finished? && u.tasks[n + 1].pc.Finished?
  {
    var heard := Step(s, HintArrives(HintOf(s.host, b)));
    assert heard == s.(host := s.host.(trailing := true, trailingHint := Some(HintOf(s.host, b))));
    var retried := Step(heard, Resume(n + 1));
    assert retried.host == s.host.(trailing := true, trailingHint := Some(hint));
    assert retried.tasks[n] == s.tasks[n] && retried.tasks[n + 1].pc.Finished? && retried.tasks[..n] == s.tasks[..n];
  }

  /** The activation of an opened host succeeds and brings a first snapshot. */
  lemma ActivationPublishes(s: Sys, context: Context, c: Counters)
    requires c == Counters(1, 0, 0, 0, 0) && |s.tasks| == 1 && s.tasks[0].pc.Finished?
    requires s.host == FRESH_HOST.(operation := 1, context := Some(context), activationToken := Some(7),
                                   scopeGeneration := Some(0))
    ensures var r := ActivationReply(context, 8, Some("scope"), 1, Some(Snapshot(context, "scope", 8, c, NO_ROWS)));
            var u := Step(Step(s, CallActivate(Some("scope"))), ReplyArrives(1, r));
            Published(u.host, c) && !u.host.snapshotInFlight && Quiet(u.tasks)
  {
    NoRowsAreValid("scope");
    var sent := Step(s, CallActivate(Some("scope")));
    assert sent.host == s.host.(operation := 2, pending := Some(8), scopeGeneration := None);
    assert sent.tasks == s.tasks + [Task(Activating, ActivateCall(context, 8, Some("scope"), 2, Top), 1, 1)];
  }

  /** An opened and activated host with a first snapshot. */
  lemma ActivatedHost() returns (events: seq<Event>, c: Counters)
    ensures var s := Run(events); Published(s.host, c) && !s.host.snapshotInFlight && Quiet(s.tasks)
    ensures c == Counters(1, 0, 0, 0, 0)
  {
    var context := Context("desktop", "session", 1);
    c := Counters(1, 0, 0, 0, 0);
    var open := [CallOpen] + [ListenerSettles(0, true)] + [ReplyArrives(0, OpenReply(context, 7, None, 0))];
    var r := ActivationReply(context, 8, Some("scope"), 1, Some(Snapshot(context, "scope", 8, c, NO_ROWS)));
    OpenedHost(context);
    ActivationPublishes(Run(open), context, c);
    RunOn(open, CallActivate(Some("scope")));
    RunOn(open + [CallActivate(Some("scope"))], ReplyArrives(1, r));
    events := open + [CallActivate(Some("scope"))] + [ReplyArrives(1, r)];
  }

  lemma OpenedHost(context: Context)
    ensures var s := Run([CallOpen] + [ListenerSettles(0, true)] + [ReplyArrives(0, OpenReply(context, 7, None, 0))]);
            && s.host == FRESH_HOST.(operation := 1, context := Some(context), activationToken := Some(7),
                                     scopeGeneration := Some(0))
            && |s.tasks| == 1 && s.tasks[0].pc.Finished?
  {
    RunOn([], CallOpen);
    assert [] + [CallOpen] == [CallOpen];
    RunOn([CallOpen], ListenerSettles(0, true));
    RunOn([CallOpen] + [ListenerSettles(0, true)], ReplyArrives(0, OpenReply(context, 7, None, 0)));
  }

  /** A hint is heard while a retry is queued and admitted; once everything has ended, the published
      counters are below it. */
  lemma HintHeardDuringRetryIsLost() returns (before: seq<Event>, hint: Hint, after: seq<Event>)
    ensures RetryPending(Run(before).tasks) && Admits(Run(before).host, hint)
    ensures var s := Run(before + [HintArrives(hint)] + after);
            && Quiet(s.tasks) && !s.host.snapshotInFlight && !s.host.trailing
            && s.host.snapshotState.Some? && !Leq(hint.counters, s.host.snapshotState.value.counters)
  {
    var start, c := ActivatedHost();
    var s, a, b := Run(start), Counters(1, 1, 0, 0, 0), Counters(1, 2, 0, 0, 0);
    var n, first := |s.tasks|, HintOf(s.host, a);
    ReadStarts(s, c, a);
    RunOn(start, HintArrives(first));
    RunOn(start + [HintArrives(first)], Resume(n));
    var reading := start + [HintArrives(first)] + [Resume(n)];
    before := FailedRead(reading, n, c, first);
    var r := Run(before);
    assert r.tasks[n + 1].pc.RetryQueued?;
    hint := HintOf(r.host, b);
    OtherHintIsLost(r, n, first, b);
    after := [Resume(n + 1)] + [Resume(n)];
    RunOn(before, HintArrives(hint));
    RunOn(before + [HintArrives(hint)], Resume(n + 1));
    RunOn(before + [HintArrives(hint)] + [Resume(n + 1)], Resume(n));
    assert before + [HintArrives(hint)] + after == before + [HintArrives(hint)] + [Resume(n + 1)] + [Resume(n)];
    QuietAtLast(s.tasks, Run(before + [HintArrives(hint)] + after).tasks, n);
  }

  lemma FailedRead(events: seq<Event>, n: nat, c: Counters, hint: Hint) returns (more: seq<Event>)
    requires Published(Run(events).host, c) && AwaitsRead(Run(events), n, hint)
    requires hint.counters.scopeGeneration == c.scopeGeneration
    ensures var s, u := Run(events), Run(more);
            && Published(u.host, hint.counters) && u.host.snapshotInFlight && SameSession(s.host, u.host)
            && |u.tasks| == n + 2 && u.tasks[..n] == s.tasks[..n]
            && u.tasks[n].kind == HintReading(hint, 0) && u.tasks[n].pc == HintFinally
            && u.tasks[n + 1] == Task(HintReading(hint, 1), RetryQueued, 0, 0)
  {
    var s := Run(events);
    var r := ReplyArrives(n, SnapshotReply(SnapshotFor(s.host, hint.counters)));
    ReadIsPublished(s, n, c, hint);
    RunOn(events, r);
    ReadFails(Run(events + [r]), n, hint);
    RunOn(events + [r], SubscriberThrows(n));
    RunOn(events + [r] + [SubscriberThrows(n)], Resume(n));
    more := events + [r] + [SubscriberThrows(n)] + [Resume(n)];
  }

  lemma QuietAtLast(ts: seq<Task>, us: seq<Task>, n: nat)
    requires Quiet(ts) && |ts| == n && |us| == n + 2 && us[..n] == ts
    requires us[n].pc.Finished? && us[n + 1].pc.Finished?
    ensures Quiet(us)
  {
    forall i | 0 <= i < |us| ensures us[i].pc.Finished? {
      if i < n { assert us[..n][i] == us[i]; }
    }
  }
}
