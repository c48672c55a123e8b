/**
  Every hint heard counts, not only those that are let through. A hint that finds its
  counters published already is refused, and that is safe exactly while no mutation in
  flight was served before it: the snapshot of a mutation is accepted whatever has been
  accepted before, so that it can take the publication back below a refused hint.
*/
module HeardHints {
  import opened Options
  import opened SshWire
  import opened SnapshotTables
  import opened HostSegments
  import opened HostRuns
  import opened HostInvariants
  import opened HostTheorems
  import opened HintCoalescing
  import opened HintCoverage
  import HintLoss

  // ---- what one hint does ----

  /** The hint concerns the host and brings news. */
  predicate BringsNews(h: Host, hint: Hint) {
    && Concerns(h, hint) && Leq(h.snapshotState.value.counters, hint.counters)
    && (hint.runtimeChanged || hint.counters != h.snapshotState.value.counters)
  }

  lemma NewsIsAdmitted(h: Host, hint: Hint)
    requires Coherent(h)
    ensures Admits(h, hint) <==> BringsNews(h, hint)
  {
  }

  lemma AdmittedIsReadOrTrails(s: Sys, hint: Hint)
    requires Admits(s.host, hint)
    ensures OnHint(s, hint) == if s.host.mutationInFlight <= 0 && !s.host.snapshotInFlight
                               then s.(host := s.host.(snapshotInFlight := true), tasks := s.tasks + [HintRead(hint)])
                               else s.(host := s.host.(trailing := true, trailingHint := Some(hint)))
  {
  }

  /** After any run, a hint of this session with no counter below the published ones, and with one above or
      a change of the runtime, is read for at once, or trails while something is in flight; every other
      hint changes nothing. */
  lemma {:induction false} HintIsReadForOrTrails(events: seq<Event>, hint: Hint)
    ensures var s := Run(events);
            Step(s, HintArrives(hint)) ==
              if BringsNews(s.host, hint) then
                if s.host.mutationInFlight == 0 && !s.host.snapshotInFlight
                then s.(host := s.host.(snapshotInFlight := true), tasks := s.tasks + [HintRead(hint)])
                else s.(host := s.host.(trailing := true, trailingHint := Some(hint)))
              else s
  {
    var s := Run(events);
    RunKeeps(events);
    TallyNonNegative(s.tasks);
    HearingIsHostStep(s, hint);
    NewsIsAdmitted(s.host, hint);
    if Admits(s.host, hint) {
      AdmittedIsReadOrTrails(s, hint);
    } else {
      assert OnHint(s, hint) == s;
    }
  }

  // ---- when a publication is safe ----

  /** No mutation in flight for the current operation was, or would be, answered from before `x`. */
  ghost predicate NoOlderMutation(h: Host, m: Manager, ts: seq<Task>, x: Counters)
    requires m.history != []
  {
    forall i | 0 <= i < |ts| :: MutationCovers(h, m, ts[i], i, x)
  }

  /** `x` is published, and nothing in flight takes that back. */
  ghost predicate Safe(h: Host, m: Manager, ts: seq<Task>, x: Counters)
    requires m.history != []
  {
    PublishedCovers(h, x) && NoOlderMutation(h, m, ts, x)
  }

  ghost predicate SafeIn(w: World, x: Counters)
    requires w.manager.history != []
  {
    Safe(w.sys.host, w.manager, w.sys.tasks, x)
  }

  /** All mutations in flight in `us` were already in flight in `ts`. */
  ghost predicate NoNewMutation(ts: seq<Task>, us: seq<Task>) {
    forall i | 0 <= i < |us| && us[i].kind.Mutating? && us[i].pc.CommandCall? :: i < |ts| && us[i] == ts[i]
  }

  lemma SafeFollows(h: Host, g: Host, m: Manager, n: Manager, ts: seq<Task>, us: seq<Task>, x: Counters)
    requires m.history != [] && n.history != [] && Safe(h, m, ts, x) && NoNewMutation(ts, us)
    requires g.operation == h.operation && PublishedCovers(g, x)
    requires forall i | 0 <= i < |ts| && LiveMutation(h, ts[i]) && i in n.order :: i in m.order && n.order[i] == m.order[i]
    requires forall k: nat :: Leq(ValueOf(m, k), ValueOf(n, k))
    ensures Safe(g, n, us, x)
  {
    forall i | 0 <= i < |us| ensures MutationCovers(g, n, us[i], i, x) {
      if LiveMutation(g, us[i]) { assert MutationCovers(h, m, ts[i], i, x); }
    }
  }

  // ---- steps of the host ----

  /** The publication and the operation stand still, and no mutation starts. */
  ghost predicate Steady(s: Sys, u: Sys) {
    && u.host.operation == s.host.operation && u.host.snapshotState == s.host.snapshotState
    && NoNewMutation(s.tasks, u.tasks)
  }

  lemma FlushIsSteady(h: Host, fallback: Option<Hint>)
    ensures var g := Flush(h, fallback).0; g.snapshotState == h.snapshotState && g.operation == h.operation
  {
  }

  lemma FinishingIsSteady(h: Host)
    ensures var g := FinishMutation(h).0; g.snapshotState == h.snapshotState && g.operation == h.operation
  {
    FlushIsSteady(h.(mutationInFlight := h.mutationInFlight - 1, mutationWaiters := []), None);
  }

  lemma CompletingIsSteady(s: Sys, tid: nat, ok: bool)
    requires tid < |s.tasks|
    ensures Steady(s, CompleteOwn(s, tid, ok))
  {
    FinishingIsSteady(s.host);
  }

  lemma HearingIsSteady(s: Sys, hint: Hint)
    ensures Steady(s, OnHint(s, hint))
  {
  }

  lemma ReadingIsSteady(s: Sys)
    ensures Steady(s, StartSnapshot(s)) && Steady(s, StartListKeys(s))
  {
  }

  lemma IssuingIsSteady(s: Sys, tid: nat)
    requires tid < |s.tasks| && Reads(s.tasks[tid].kind)
    ensures Steady(s, IssueRead(s, tid))
  {
    CompletingIsSteady(s.(host := BeginSnapshot(s.host)), tid, false);
  }

  lemma ClosingIsSteady(s: Sys, tid: nat)
    requires tid < |s.tasks| && s.tasks[tid].kind.HintReading?
    ensures var t := s.tasks[tid];
            && Steady(s, CloseHint(s, tid, t.kind.hint))
            && Steady(s, RetryHint(s, tid, t.kind.hint))
            && Steady(s, CatchHint(s, tid, t.kind.hint, t.kind.retry))
  {
    FlushIsSteady(s.host.(snapshotInFlight := false), Some(s.tasks[tid].kind.hint));
  }

  lemma TurnIsSteady(w: World, tid: nat)
    requires WorldInv(w) && tid < |w.sys.tasks|
    ensures Steady(w.sys, OnResume(w.sys, tid))
  {
    var s := w.sys;
    var t := s.tasks[tid];
    assert TaskOnScope(s.host, w.manager, t, tid);
    if t.pc.Settling? { IssuingIsSteady(s, tid); }
    else if t.kind.HintReading? { ClosingIsSteady(s, tid); }
  }

  /** What the host publishes when a call of this scope is answered: a live mutation's answer always, a live
      read's while no later one has been accepted. */
  lemma AnswerPublishes(w: World, tid: nat, tables: Tables)
    requires WorldInv(w) && Answerable(w, tid, tables)
    ensures var s, u, t := w.sys, AnswerCall(w, tid, tables).sys, w.sys.tasks[tid];
            && u.host.operation == s.host.operation && NoNewMutation(s.tasks, u.tasks)
            && (LiveMutation(s.host, t) || LiveRead(s.host, t) ==>
                  u.host.snapshotState.Some?
                  && u.host.snapshotState.value.counters == w.manager.values[w.manager.order[tid]])
            && (!LiveMutation(s.host, t) && !LiveRead(s.host, t) ==> u.host.snapshotState == s.host.snapshotState)
  {
    var s, m := w.sys, w.manager;
    var t := s.tasks[tid];
    assert TaskOnScope(s.host, m, t, tid);
    ValuesRise(m, m.order[tid], m.order[tid]);
    var r := ReplyTo(t, m.values[m.order[tid]], tables);
    EndPublishes(s.host, t, r);
    ReplyIsCompleted(s, tid, r);
  }

  lemma ReplyIsCompleted(s: Sys, tid: nat, r: Reply)
    requires tid < |s.tasks| && s.tasks[tid].pc.CommandCall? && s.tasks[tid].pc.ret.Top?
    requires !EndCommand(s.host, s.tasks[tid].pc.capture, s.tasks[tid].pc.request, r).Restarting?
    ensures var end := EndCommand(s.host, s.tasks[tid].pc.capture, s.tasks[tid].pc.request, r);
            Steady(s.(host := end.host), OnCommandReply(s, tid, s.tasks[tid].pc, r))
  {
    var end := EndCommand(s.host, s.tasks[tid].pc.capture, s.tasks[tid].pc.request, r);
    CompletingIsSteady(s.(host := end.host), tid, end.Returned?);
  }

  lemma EndPublishes(h: Host, t: Task, r: Reply)
    requires t.pc.CommandCall? && SameSession(h, t.pc.capture) && !h.disposed && ValidResult(r, t.pc.capture)
    requires Reads(t.kind) || t.kind.Mutating? || t.kind.ListingKeys?
    requires Reads(t.kind) == t.pc.request.Some? && r.SnapshotReply? == !t.kind.ListingKeys?
    ensures var g := EndCommand(h, t.pc.capture, t.pc.request, r).host;
            && !EndCommand(h, t.pc.capture, t.pc.request, r).Restarting? && g.operation == h.operation
            && (LiveMutation(h, t) || LiveRead(h, t) ==> g.snapshotState == Some(r.value))
            && (!LiveMutation(h, t) && !LiveRead(h, t) ==> g.snapshotState == h.snapshotState)
  {
  }

  // ---- a safe publication stays safe ----

  lemma SteadyStaysSafe(w: World, v: World, x: Counters)
    requires WorldInv(w) && SafeIn(w, x) && v.manager == w.manager && Steady(w.sys, v.sys)
    ensures SafeIn(v, x)
  {
    SafeFollows(w.sys.host, v.sys.host, w.manager, v.manager, w.sys.tasks, v.sys.tasks, x);
  }

  lemma ManagerStaysSafe(w: World, e: WorldEvent, x: Counters)
    requires WorldInv(w) && SafeIn(w, x) && (e.ManagerMoves? || e.ManagerServes? || e.ManagerHints?)
    ensures SafeIn(WorldStep(w, e), x)
  {
    SafeFollows(w.sys.host, w.sys.host, w.manager, WorldStep(w, e).manager, w.sys.tasks, w.sys.tasks, x);
  }

  lemma TurnStaysSafe(w: World, tid: nat, x: Counters)
    requires WorldInv(w) && SafeIn(w, x)
    ensures SafeIn(TakeTurn(w, tid), x)
  {
    if tid < |w.sys.tasks| {
      var v := TakeTurn(w, tid);
      TurnIsSteady(w, tid);
      assert v.sys == OnResume(w.sys, tid);
      if Issues(w.sys, tid) {
        assert TaskOnScope(w.sys.host, w.manager, w.sys.tasks[tid], tid);
        SafeFollows(w.sys.host, v.sys.host, w.manager, v.manager, w.sys.tasks, v.sys.tasks, x);
      } else {
        SteadyStaysSafe(w, v, x);
      }
    }
  }

  /** A mutation that starts is answered from no earlier than now, and fences off the others. */
  lemma MutatingStaysSafe(w: World, x: Counters)
    requires WorldInv(w) && SafeIn(w, x) && x in w.manager.history
    ensures SafeIn(UserSends(w, CallMutation, true), x)
  {
    var h, ts := w.sys.host, w.sys.tasks;
    if CaptureFor(h, true).Some? {
      var v := UserSends(w, CallMutation, true);
      assert v.sys == StartMutation(w.sys);
      NowIsLatest(w.manager, x);
      forall i | 0 <= i < |v.sys.tasks| ensures MutationCovers(v.sys.host, v.manager, v.sys.tasks[i], i, x) {
        if i < |ts| { assert TaskOnScope(h, w.manager, ts[i], i); }
      }
    }
  }

  lemma CallingStaysSafe(w: World, x: Counters)
    requires WorldInv(w) && SafeIn(w, x)
    ensures SafeIn(UserSends(w, CallListKeys, false), x) && SafeIn(w.(sys := Step(w.sys, CallSnapshot)), x)
  {
    var h, ts := w.sys.host, w.sys.tasks;
    ReadingIsSteady(w.sys);
    SteadyStaysSafe(w, w.(sys := StartSnapshot(w.sys)), x);
    if CaptureFor(h, false).Some? {
      var v := UserSends(w, CallListKeys, false);
      assert v.sys == StartListKeys(w.sys);
      SafeFollows(h, v.sys.host, w.manager, v.manager, ts, v.sys.tasks, x);
    }
  }

  /** The answers that are published move forward, or come from a mutation that covers `x`. */
  lemma AnswerCovers(h: Host, g: Host, m: Manager, ts: seq<Task>, tid: nat, x: Counters)
    requires m.history != [] && ReadsMoveForward(h, m, ts) && Safe(h, m, ts, x)
    requires tid < |ts| && tid in m.order && m.order[tid] < |m.values|
    requires LiveMutation(h, ts[tid]) || LiveRead(h, ts[tid]) ==>
               g.snapshotState.Some? && g.snapshotState.value.counters == m.values[m.order[tid]]
    requires !LiveMutation(h, ts[tid]) && !LiveRead(h, ts[tid]) ==> g.snapshotState == h.snapshotState
    ensures PublishedCovers(g, x)
  {
    assert MovesForward(h, m, ts[tid], tid) && MutationCovers(h, m, ts[tid], tid, x);
  }

  lemma AnswerStaysSafe(w: World, tid: nat, tables: Tables, x: Counters)
    requires WorldInv(w) && SafeIn(w, x) && Answerable(w, tid, tables)
    ensures SafeIn(AnswerCall(w, tid, tables), x)
  {
    var s, v := w.sys, AnswerCall(w, tid, tables);
    AnswerPublishes(w, tid, tables);
    AnswerCovers(s.host, v.sys.host, w.manager, s.tasks, tid, x);
    SafeFollows(s.host, v.sys.host, w.manager, w.manager, s.tasks, v.sys.tasks, x);
  }

  lemma StepStaysSafe(w: World, e: WorldEvent, x: Counters)
    requires WorldInv(w) && SafeIn(w, x) && x in w.manager.history
    ensures SafeIn(WorldStep(w, e), x)
  {
    match e {
      case ManagerMoves(_) => ManagerStaysSafe(w, e, x);
      case ManagerServes => ManagerStaysSafe(w, e, x);
      case ManagerHints(_) => ManagerStaysSafe(w, e, x);
      case HostHears => HearStaysSafe(w, x);
      case UserMutates => MutatingStaysSafe(w, x);
      case UserListsKeys => CallingStaysSafe(w, x);
      case UserReads => CallingStaysSafe(w, x);
      case Answer(tid, tables) => if Answerable(w, tid, tables) { AnswerStaysSafe(w, tid, tables, x); }
      case Turn(tid) => TurnStaysSafe(w, tid, x);
      case ListenerFails(tid) => ThrowStaysSafe(w, tid, x);
    }
  }

  lemma HearStaysSafe(w: World, x: Counters)
    requires WorldInv(w) && SafeIn(w, x)
    ensures SafeIn(WorldStep(w, HostHears), x)
  {
    if w.channel != [] && !RetryPending(w.sys.tasks) {
      HearingIsSteady(w.sys, w.channel[0]);
      HearingIsHostStep(w.sys, w.channel[0]);
      SteadyStaysSafe(w, Hear(w), x);
    }
  }

  lemma ThrowStaysSafe(w: World, tid: nat, x: Counters)
    requires WorldInv(w) && SafeIn(w, x)
    ensures SafeIn(w.(sys := Step(w.sys, SubscriberThrows(tid))), x)
  {
    SteadyStaysSafe(w, w.(sys := Step(w.sys, SubscriberThrows(tid))), x);
  }

  lemma HistoryGrows(w: World, e: WorldEvent, x: Counters)
    requires w.manager.history != [] && x in w.manager.history
    ensures x in WorldStep(w, e).manager.history
  {
  }

  lemma {:induction false} RunStaysSafe(w: World, events: seq<WorldEvent>, x: Counters)
    requires WorldInv(w) && SafeIn(w, x) && x in w.manager.history
    ensures var v := WorldRun(w, events); WorldInv(v) && SafeIn(v, x) && x in v.manager.history
  {
    if events != [] {
      var before, e := events[..|events| - 1], events[|events| - 1];
      RunStaysSafe(w, before, x);
      WorldStepKeeps(WorldRun(w, before), e);
      StepStaysSafe(WorldRun(w, before), e, x);
      HistoryGrows(WorldRun(w, before), e, x);
    }
  }

  lemma AnswerIsWorldStep(w: World, tid: nat, tables: Tables)
    requires w.manager.history != [] && Answerable(w, tid, tables)
    ensures WorldStep(w, Answer(tid, tables)) == AnswerCall(w, tid, tables)
  {
  }

  /** An older mutation is served already, and its answer takes the publication back. */
  lemma OlderMutationTakesBack(w: World, i: nat, x: Counters)
    requires WorldInv(w) && x in w.manager.history
    requires i < |w.sys.tasks| && !MutationCovers(w.sys.host, w.manager, w.sys.tasks[i], i, x)
    ensures !PublishedCovers(WorldStep(w, Answer(i, HintLoss.NO_ROWS)).sys.host, x)
  {
    NowIsLatest(w.manager, x);
    HintLoss.NoRowsAreValid(w.sys.tasks[i].pc.capture.scopeId);
    AnswerPublishes(w, i, HintLoss.NO_ROWS);
    AnswerIsWorldStep(w, i, HintLoss.NO_ROWS);
  }

  lemma OneStepRun(w: World, e: WorldEvent)
    requires w.manager.history != []
    ensures WorldRun(w, [e]) == WorldStep(w, e)
  {
    assert [e][..0] == [];
    assert WorldRun(w, []) == w;
  }

  /** In every reachable state: the publication of `x` is there to stay, whatever follows, exactly when no
      mutation in flight for the current operation was served before `x`. */
  lemma {:induction false} PublicationStaysExactlyWhenSafe(start: World, events: seq<WorldEvent>, x: Counters)
    requires Start(start)
    requires var w := WorldRun(start, events); x in w.manager.history && PublishedCovers(w.sys.host, x)
    ensures var w := WorldRun(start, events);
            (forall more :: PublishedCovers(WorldRun(w, more).sys.host, x))
            <==> NoOlderMutation(w.sys.host, w.manager, w.sys.tasks, x)
  {
    var w := WorldRun(start, events);
    WorldRunKeeps(start, events);
    if NoOlderMutation(w.sys.host, w.manager, w.sys.tasks, x) {
      forall more ensures PublishedCovers(WorldRun(w, more).sys.host, x) {
        RunStaysSafe(w, more, x);
      }
    } else {
      var i :| 0 <= i < |w.sys.tasks| && !MutationCovers(w.sys.host, w.manager, w.sys.tasks[i], i, x);
      OlderMutationTakesBack(w, i, x);
      OneStepRun(w, Answer(i, HintLoss.NO_ROWS));
    }
  }

  // ---- every hint that was heard ----

  /** If the next hint is published already, no mutation in flight was served before it. */
  ghost predicate HearsSafely(w: World)
    requires w.manager.history != []
  {
    w.channel != [] && !RetryPending(w.sys.tasks) && PublishedCovers(w.sys.host, w.channel[0].counters) ==>
      NoOlderMutation(w.sys.host, w.manager, w.sys.tasks, w.channel[0].counters)
  }

  ghost predicate AlwaysHearsSafely(start: World, events: seq<WorldEvent>)
    requires start.manager.history != []
  {
    forall n | 0 <= n < |events| && events[n].HostHears? :: HearsSafely(WorldRun(start, events[..n]))
  }

  ghost predicate BelowAdmitted(admitted: seq<Counters>, x: Counters) {
    exists a :: a in admitted && Leq(x, a)
  }

  /** Each hint heard is safely published, or no newer than one that was admitted. */
  ghost predicate HeardCovered(w: World)
    requires w.manager.history != []
  {
    forall x | x in w.heard :: x in w.manager.history && (SafeIn(w, x) || BelowAdmitted(w.admitted, x))
  }

  lemma LogsGrow(w: World, e: WorldEvent, x: Counters)
    requires w.manager.history != []
    ensures BelowAdmitted(w.admitted, x) ==> BelowAdmitted(WorldStep(w, e).admitted, x)
    ensures x in WorldStep(w, e).heard && x !in w.heard ==>
              e.HostHears? && w.channel != [] && !RetryPending(w.sys.tasks)
              && Concerns(w.sys.host, w.channel[0]) && x == w.channel[0].counters
  {
    if BelowAdmitted(w.admitted, x) {
      var a :| a in w.admitted && Leq(x, a);
      assert a in WorldStep(w, e).admitted;
    }
  }

  /** A hint that is not published already brings news, and is admitted. */
  lemma NewHintIsAdmitted(w: World)
    requires WorldInv(w) && w.channel != [] && !RetryPending(w.sys.tasks)
    requires Concerns(w.sys.host, w.channel[0]) && !PublishedCovers(w.sys.host, w.channel[0].counters)
    ensures BelowAdmitted(Hear(w).admitted, w.channel[0].counters)
  {
    var hint := w.channel[0];
    Comparable(w.manager.history, hint.counters, w.sys.host.snapshotState.value.counters);
    NewsIsAdmitted(w.sys.host, hint);
    assert hint.counters in Hear(w).admitted;
  }

  lemma StepCoversHeard(w: World, e: WorldEvent)
    requires WorldInv(w) && HeardCovered(w) && (e.HostHears? ==> HearsSafely(w))
    ensures HeardCovered(WorldStep(w, e))
  {
    var v := WorldStep(w, e);
    forall x | x in v.heard ensures x in v.manager.history && (SafeIn(v, x) || BelowAdmitted(v.admitted, x)) {
      LogsGrow(w, e, x);
      if x in w.heard {
        HistoryGrows(w, e, x);
        if SafeIn(w, x) { StepStaysSafe(w, e, x); }
      } else {
        assert x in w.manager.history;
        HistoryGrows(w, e, x);
        if PublishedCovers(w.sys.host, x) { StepStaysSafe(w, e, x); } else { NewHintIsAdmitted(w); }
      }
    }
  }

  lemma {:induction false} RunCoversHeard(start: World, events: seq<WorldEvent>)
    requires Start(start) && AlwaysHearsSafely(start, events)
    ensures WorldInv(WorldRun(start, events)) && HeardCovered(WorldRun(start, events))
  {
    WorldRunKeeps(start, events);
    if events != [] {
      var before, e := events[..|events| - 1], events[|events| - 1];
      assert forall n | 0 <= n < |before| :: before[..n] == events[..n] && before[n] == events[n];
      RunCoversHeard(start, before);
      assert events[..|events| - 1] == before;
      StepCoversHeard(WorldRun(start, before), e);
    }
  }

  lemma AdmittedIsPublished(start: World, events: seq<WorldEvent>, a: Counters)
    requires Start(start) && Quiet(WorldRun(start, events).sys.tasks) && a in WorldRun(start, events).admitted
    ensures PublishedCovers(WorldRun(start, events).sys.host, a)
  {
    QuietHostHasEveryAdmittedHint(start, events);
  }

  /** No update is lost: once nothing is in flight or queued, the published snapshot's five counters are at
      least those of every hint the host heard for its session while it had a snapshot, admitted or not,
      if no hint was heard already published but with an older mutation in flight. */
  lemma {:induction false} QuietHostHasEveryHeardHint(start: World, events: seq<WorldEvent>)
    requires Start(start) && AlwaysHearsSafely(start, events) && Quiet(WorldRun(start, events).sys.tasks)
    ensures var w := WorldRun(start, events);
            forall x | x in w.heard :: w.sys.host.snapshotState.Some? && Leq(x, w.sys.host.snapshotState.value.counters)
  {
    var w := WorldRun(start, events);
    RunCoversHeard(start, events);
    forall x | x in w.heard ensures PublishedCovers(w.sys.host, x) {
      if !SafeIn(w, x) {
        var a :| a in w.admitted && Leq(x, a);
        AdmittedIsPublished(start, events, a);
      }
    }
  }
}
