/**
  Why a refused hint is safe only while no older mutation is in flight: a run in which a
  read overtakes the mutation it was sent after, a hint of what the read brought is
  refused, and the mutation's answer then takes the publication back below the hint.
*/
module HintTakenBack {
  import opened Options
  import opened SshWire
  import opened HostSegments
  import opened HostRuns
  import HostInvariants
  import opened HintCoalescing
  import opened HintCoverage
  import opened HintLoss
  import opened HeardHints

  lemma {:induction false} RunThen(w: World, before: seq<WorldEvent>, after: seq<WorldEvent>)
    requires w.manager.history != []
    ensures WorldRun(w, before + after) == WorldRun(WorldRun(w, before), after)
  {
    if after == [] {
      assert before + after == before;
    } else {
      var last := |after| - 1;
      assert (before + after)[..|before| + last] == before + after[..last];
      RunThen(w, before, after[..last]);
    }
  }

  lemma TwoStepRun(w: World, a: WorldEvent, b: WorldEvent)
    requires w.manager.history != []
    ensures WorldRun(w, [a, b]) == WorldStep(WorldStep(w, a), b)
  {
    OneStepRun(w, a);
    assert [a, b][..1] == [a];
  }

  /** The capture of a call that goes out after one more mutation. */
  function NextCapture(h: Host): Capture
    requires CaptureFor(h, true).Some?
  {
    CaptureFor(h, true).value
  }

  function ReadSent(h: Host): Task
    requires CaptureFor(h, true).Some?
  {
    Task(Reading, CommandCall(NextCapture(h), true, Some(h.requestSequence + 1), Top), 1, 1)
  }

  function MutationSent(h: Host): Task
    requires CaptureFor(h, true).Some?
  {
    Task(Mutating, CommandCall(NextCapture(h), false, None, Top), 1, 1)
  }

  lemma CallsOnHost(s: Sys)
    requires s.host.mutationInFlight == 0 && CaptureFor(s.host, true).Some?
    ensures StartMutation(StartSnapshot(s)) ==
              s.(host := BeginMutation(s.host), tasks := s.tasks + [Task(Reading, Settling, 0, 0), MutationSent(s.host)])
  {
    var read := s.(tasks := s.tasks + [Task(Reading, Settling, 0, 0)]);
    assert StartSnapshot(s) == read;
    assert StartMutation(read).tasks == s.tasks + [Task(Reading, Settling, 0, 0), MutationSent(s.host)];
  }

  lemma CallsAreWorldSteps(w: World, read: Sys, mutated: Sys)
    requires w.manager.history != [] && CaptureFor(read.host, true).Some?
    requires read == StartSnapshot(w.sys) && mutated == StartMutation(read)
    ensures WorldStep(WorldStep(w, UserReads), UserMutates) == w.(sys := mutated, manager := NumberSend(w.manager, |read.tasks|))
  {
    assert WorldStep(w, UserReads) == w.(sys := read);
  }

  /** A read is asked for and a mutation right after it: the mutation is sent, for the read waits a turn. */
  lemma BothAreCalled(w: World)
    requires w.manager.history != [] && w.manager.order == map[] && w.manager.sent == 0
    requires w.sys.host.mutationInFlight == 0 && CaptureFor(w.sys.host, true).Some?
    ensures WorldRun(w, [UserReads, UserMutates]) ==
              w.(sys := w.sys.(host := BeginMutation(w.sys.host),
                               tasks := w.sys.tasks + [Task(Reading, Settling, 0, 0), MutationSent(w.sys.host)]),
                 manager := w.manager.(order := map[|w.sys.tasks| + 1 := 0], sent := 1))
  {
    var read := StartSnapshot(w.sys);
    CallsOnHost(w.sys);
    CallsAreWorldSteps(w, read, StartMutation(read));
    TwoStepRun(w, UserReads, UserMutates);
  }

  lemma IssueOnHost(s: Sys, h: Host, n: nat)
    requires CaptureFor(h, true).Some? && s.host == BeginMutation(h)
    requires n < |s.tasks| && s.tasks[n] == Task(Reading, Settling, 0, 0)
    ensures IssueRead(s, n) == s.(host := BeginMutation(h).(requestSequence := h.requestSequence + 1),
                                  tasks := s.tasks[n := ReadSent(h)])
  {
  }

  lemma TurnIsWorldStep(w: World, n: nat, u: Sys)
    requires w.manager.history != [] && n < |w.sys.tasks| && w.sys.tasks[n].pc.Settling?
    requires n !in w.sys.host.mutationWaiters && CaptureFor(w.sys.host, false).Some? && u == IssueRead(w.sys, n)
    ensures WorldStep(w, Turn(n)) == w.(sys := u, manager := NumberSend(w.manager, n))
  {
    assert OnResume(w.sys, n) == u;
  }

  /** The read's turn comes: it is sent as a call of the mutation's operation. */
  lemma ReadGoesSecond(w: World, h: Host, n: nat)
    requires w.manager.history != [] && w.manager.order == map[n + 1 := 0] && w.manager.sent == 1
    requires h.mutationWaiters == [] && CaptureFor(h, true).Some? && w.sys.host == BeginMutation(h)
    requires |w.sys.tasks| == n + 2 && w.sys.tasks[n] == Task(Reading, Settling, 0, 0)
    ensures WorldRun(w, [Turn(n)]) ==
              w.(sys := w.sys.(host := BeginMutation(h).(requestSequence := h.requestSequence + 1),
                               tasks := w.sys.tasks[n := ReadSent(h)]),
                 manager := w.manager.(order := map[n + 1 := 0, n := 1], sent := 2))
  {
    IssueOnHost(w.sys, h, n);
    TurnIsWorldStep(w, n, IssueRead(w.sys, n));
    OneStepRun(w, Turn(n));
    assert map[n + 1 := 0][n := 1] == map[n + 1 := 0, n := 1];
  }

  lemma ServeThenMove(w: World, c: Counters, d: Counters)
    requires w.manager.history == [c] && w.manager.sent == 2 && w.manager.values == []
    requires Leq(c, d) && d.scopeGeneration == c.scopeGeneration
    ensures WorldStep(WorldStep(w, ManagerServes), ManagerMoves(d)) ==
              w.(manager := w.manager.(history := [c, d], values := [c]))
  {
    assert WorldStep(w, ManagerServes) == w.(manager := w.manager.(values := [c]));
  }

  lemma ServeThenHint(w: World, c: Counters, d: Counters)
    requires w.manager.history == [c, d] && w.manager.sent == 2 && w.manager.values == [c] && w.channel == []
    requires w.sys.host.context.Some? && w.sys.host.activationToken.Some?
    ensures WorldStep(WorldStep(w, ManagerServes), ManagerHints(false)) ==
              w.(manager := w.manager.(values := [c, d]), channel := [HintOf(w.sys.host, d)])
  {
    assert WorldStep(w, ManagerServes) == w.(manager := w.manager.(values := [c, d]));
  }

  /** The manager serves the mutation, changes, serves the read, and announces the change. */
  lemma ManagerChangesBetween(w: World, c: Counters, d: Counters)
    requires w.manager.history == [c] && w.manager.sent == 2 && w.manager.values == [] && w.channel == []
    requires Leq(c, d) && d.scopeGeneration == c.scopeGeneration
    requires w.sys.host.context.Some? && w.sys.host.activationToken.Some?
    ensures WorldRun(w, [ManagerServes, ManagerMoves(d)] + [ManagerServes, ManagerHints(false)]) ==
              w.(manager := w.manager.(history := [c, d], values := [c, d]), channel := [HintOf(w.sys.host, d)])
  {
    var served := w.(manager := w.manager.(history := [c, d], values := [c]));
    ServeThenMove(w, c, d);
    TwoStepRun(w, ManagerServes, ManagerMoves(d));
    ServeThenHint(served, c, d);
    TwoStepRun(served, ManagerServes, ManagerHints(false));
    RunThen(w, [ManagerServes, ManagerMoves(d)], [ManagerServes, ManagerHints(false)]);
  }

  /** The read is answered first, and publishes the change. */
  lemma ReadOvertakes(w: World, n: nat, d: Counters)
    requires w.manager.history != [] && Answerable(w, n, NO_ROWS) && w.manager.values[w.manager.order[n]] == d
    requires w.sys.tasks[n].kind == Reading && w.sys.tasks[n].pc.ret.Top?
    requires var h, pc := w.sys.host, w.sys.tasks[n].pc;
             && IsCurrent(h, pc.capture) && h.scopeGeneration == Some(d.scopeGeneration)
             && pc.request == Some(h.requestSequence) && h.acceptedRequest <= h.requestSequence
    ensures var h := w.sys.host;
            WorldRun(w, [Answer(n, NO_ROWS)]) ==
              w.(sys := w.sys.(host := h.(snapshotState := Some(SnapshotFor(h, d)), hintFreshness := Some(d),
                                          acceptedRequest := h.requestSequence),
                               tasks := w.sys.tasks[n := w.sys.tasks[n].(pc := Finished(true))]))
  {
    var t := w.sys.tasks[n];
    OneStepRun(w, Answer(n, NO_ROWS));
    AnswerIsWorldStep(w, n, NO_ROWS);
    var r := ReplyTo(t, d, NO_ROWS);
    assert EndCommand(w.sys.host, t.pc.capture, t.pc.request, r) ==
           Returned(AcceptSnapshot(w.sys.host, Some(SnapshotFor(w.sys.host, d)), t.pc.request));
  }

  /** The hint of the change finds it published. */
  lemma HintIsRefused(w: World, d: Counters)
    requires w.manager.history != [] && w.sys.host.snapshotState.Some? && !RetryPending(w.sys.tasks)
    requires w.sys.host.snapshotState.value.counters == d && w.sys.host.hintFreshness == Some(d)
    requires w.sys.host.context.Some? && w.sys.host.activationToken.Some? && w.channel == [HintOf(w.sys.host, d)]
    ensures WorldRun(w, [HostHears]) == w.(channel := [], heard := w.heard + [d])
  {
    OneStepRun(w, HostHears);
    assert OnHint(w.sys, w.channel[0]) == w.sys;
    HearingIsHostStep(w.sys, w.channel[0]);
  }

  /** The mutation is answered with what it saw, and publishes that. */
  lemma MutationTakesBack(w: World, n: nat, c: Counters)
    requires w.manager.history != [] && Answerable(w, n, NO_ROWS) && w.manager.values[w.manager.order[n]] == c
    requires w.sys.tasks[n].kind == Mutating && w.sys.tasks[n].pc.ret.Top? && w.sys.tasks[n].pc.request.None?
    requires var h, pc := w.sys.host, w.sys.tasks[n].pc;
             IsCurrent(h, pc.capture) && h.scopeGeneration == Some(c.scopeGeneration) && !h.trailing
    ensures var v := WorldRun(w, [Answer(n, NO_ROWS)]);
            && v.sys.tasks == w.sys.tasks[n := w.sys.tasks[n].(pc := Finished(true))]
            && v.sys.host.snapshotState == Some(SnapshotFor(w.sys.host, c))
            && v.heard == w.heard
  {
    var t := w.sys.tasks[n];
    OneStepRun(w, Answer(n, NO_ROWS));
    AnswerIsWorldStep(w, n, NO_ROWS);
    var r := ReplyTo(t, c, NO_ROWS);
    assert EndCommand(w.sys.host, t.pc.capture, t.pc.request, r) ==
           Returned(AcceptSnapshot(w.sys.host, Some(SnapshotFor(w.sys.host, c)), None));
  }

  /** The first half: both calls are out, and the manager has changed between them. */
  lemma BothInFlight(w: World, c: Counters, d: Counters) returns (events: seq<WorldEvent>)
    requires w.manager == Manager([c], map[], 0, []) && w.channel == []
    requires Published(w.sys.host, c) && Leq(c, d) && d.scopeGeneration == c.scopeGeneration
    ensures var h, n := w.sys.host, |w.sys.tasks|;
            && CaptureFor(h, true).Some?
            && WorldRun(w, events) ==
                 w.(sys := w.sys.(host := BeginMutation(h).(requestSequence := h.requestSequence + 1),
                                  tasks := w.sys.tasks + [ReadSent(h), MutationSent(h)]),
                    manager := Manager([c, d], map[n + 1 := 0, n := 1], 2, [c, d]),
                    channel := [HintOf(h, d)])
  {
    var h, n := w.sys.host, |w.sys.tasks|;
    var first, second := [UserReads, UserMutates], [ManagerServes, ManagerMoves(d)] + [ManagerServes, ManagerHints(false)];
    BothAreCalled(w);
    var called := WorldRun(w, first);
    ReadGoesSecond(called, h, n);
    var sent := WorldRun(called, [Turn(n)]);
    assert sent.sys.tasks == w.sys.tasks + [ReadSent(h), MutationSent(h)];
    ManagerChangesBetween(sent, c, d);
    RunThen(w, first, [Turn(n)]);
    RunThen(w, first + [Turn(n)], second);
    events := first + [Turn(n)] + second;
  }

  /** The second half: the answers come in the other order, with the hint between them. */
  lemma AnsweredInTheOtherOrder(w: World, h: Host, ts: seq<Task>, c: Counters, d: Counters) returns (events: seq<WorldEvent>)
    requires Published(h, c) && d.scopeGeneration == c.scopeGeneration && Quiet(ts)
    requires var n := |ts|;
             && CaptureFor(h, true).Some?
             && w.sys.host == BeginMutation(h).(requestSequence := h.requestSequence + 1)
             && w.sys.tasks == ts + [ReadSent(h), MutationSent(h)]
             && w.manager == Manager([c, d], map[n + 1 := 0, n := 1], 2, [c, d])
             && w.channel == [HintOf(h, d)] && w.heard == []
    ensures var v := WorldRun(w, events);
            && Quiet(v.sys.tasks) && v.heard == [d]
            && v.sys.host.snapshotState.Some? && v.sys.host.snapshotState.value.counters == c
  {
    var n := |ts|;
    NoRowsAreValid(h.scopeId.value);
    ReadOvertakes(w, n, d);
    var read := WorldRun(w, [Answer(n, NO_ROWS)]);
    assert read.sys.tasks == ts + [ReadSent(h).(pc := Finished(true)), MutationSent(h)];
    HintIsRefused(read, d);
    var heard := WorldRun(read, [HostHears]);
    MutationTakesBack(heard, n + 1, c);
    RunThen(w, [Answer(n, NO_ROWS)], [HostHears]);
    RunThen(w, [Answer(n, NO_ROWS)] + [HostHears], [Answer(n + 1, NO_ROWS)]);
    events := [Answer(n, NO_ROWS)] + [HostHears] + [Answer(n + 1, NO_ROWS)];
  }

  /** The activated host in front of a manager at the same counters. */
  lemma StartingWorld() returns (start: World, c: Counters)
    ensures Start(start) && Published(start.sys.host, c) && c == Counters(1, 0, 0, 0, 0)
    ensures start == World(start.sys, Manager([c], map[], 0, []), [], [], [])
  {
    var ran;
    ran, c := ActivatedHost();
    HostInvariants.RunKeeps(ran);
    start := World(Run(ran), Manager([c], map[], 0, []), [], [], []);
  }

  /** From the host's construction on: once everything has ended, the published counters are below those of
      a hint that was heard, and refused because its counters were published at that time. */
  lemma {:induction false} RefusedHintIsTakenBack() returns (start: World, events: seq<WorldEvent>, x: Counters)
    ensures Start(start) && !AlwaysHearsSafely(start, events)
    ensures var w := WorldRun(start, events);
            && Quiet(w.sys.tasks) && x in w.heard && w.sys.host.snapshotState.Some?
            && !Leq(x, w.sys.host.snapshotState.value.counters)
  {
    var c;
    start, c := StartingWorld();
    x := Counters(1, 1, 0, 0, 0);
    var first := BothInFlight(start, c, x);
    var second := AnsweredInTheOtherOrder(WorldRun(start, first), start.sys.host, start.sys.tasks, c, x);
    RunThen(start, first, second);
    events := first + second;
    UnsafelyHeard(start, events, x);
  }

  lemma UnsafelyHeard(start: World, events: seq<WorldEvent>, x: Counters)
    requires Start(start) && Quiet(WorldRun(start, events).sys.tasks)
    requires x in WorldRun(start, events).heard && !PublishedCovers(WorldRun(start, events).sys.host, x)
    ensures !AlwaysHearsSafely(start, events)
  {
    if AlwaysHearsSafely(start, events) {
      QuietHostHasEveryHeardHint(start, events);
    }
  }
}
