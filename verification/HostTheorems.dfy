/**
  The guarantees of the SSH forward host, stated for every run of events.
*/
module HostTheorems {
  import opened Options
  import opened SshWire
  import opened SnapshotTables
  import opened HostSegments
  import opened HostRuns
  import opened HostInvariants

  // ---- fencing ----

  /** The operation number a waiting call captured when it was issued. */
  function CapturedOperation(pc: Pc): Option<nat> {
    match pc
    case OpenCall(operation, _) => Some(operation)
    case ActivateCall(_, _, _, operation, _) => Some(operation)
    case CommandCall(capture, _, _, _) => Some(capture.operation)
    case _ => None
  }

  /** The events that may write the session fields: starting an activation, disposing, and a
      reply to the call that captured the host's current operation number. */
  predicate MayWriteSession(s: Sys, e: Event) {
    match e
    case CallActivate(_) => true
    case DisposeHost => true
    case Resume(tid) => tid < |s.tasks| && s.tasks[tid].pc.Opened?
    case ReplyArrives(tid, _) =>
      tid < |s.tasks| && !s.host.disposed && CapturedOperation(s.tasks[tid].pc) == Some(s.host.operation)
    case _ => false
  }

  lemma CompleteKeepsSession(s: Sys, tid: nat, ret: Return, ok: bool)
    requires tid < |s.tasks|
    ensures SessionOf(CompleteOwn(s, tid, ok).host) == SessionOf(s.host)
    ensures SessionOf(CompleteCommand(s, tid, ret, ok).host) == SessionOf(s.host)
  {
    FlushKeepsSession(s.host.(mutationInFlight := s.host.mutationInFlight - 1, mutationWaiters := []), None);
  }

  lemma StaleReplyKeepsSession(s: Sys, tid: nat, r: Reply)
    requires tid < |s.tasks| && !MayWriteSession(s, ReplyArrives(tid, r))
    ensures SessionOf(OnReply(s, tid, r).host) == SessionOf(s.host)
  {
    var pc := s.tasks[tid].pc;
    if pc.CommandCall? {
      assert EndCommand(s.host, pc.capture, pc.request, r) == Thrown(s.host);
      CompleteKeepsSession(s, tid, pc.ret, false);
    }
  }

  lemma ResumeKeepsSession(s: Sys, tid: nat)
    requires tid < |s.tasks| && !s.tasks[tid].pc.Opened?
    ensures SessionOf(OnResume(s, tid).host) == SessionOf(s.host)
  {
    var t := s.tasks[tid];
    match t.pc {
      case Settling => CompleteKeepsSession(s.(host := BeginSnapshot(s.host)), tid, Top, false);
      case Rehydrated(ret) => if ret.Rehydrating? { CompleteKeepsSession(s, tid, ret.parent, false); }
      case HintFinally =>
        if t.kind.HintReading? { FlushKeepsSession(s.host.(snapshotInFlight := false), Some(t.kind.hint)); }
      case _ =>
    }
  }

  /** Fencing: whatever else happens, the session, the scope and the published snapshot are
      written only by starting an activation, by disposing, or by a reply to the latest operation. */
  lemma {:induction false} OnlyTheLatestOperationWrites(s: Sys, e: Event)
    requires SessionOf(Step(s, e).host) != SessionOf(s.host)
    ensures MayWriteSession(s, e)
  {
    match e {
      case ReplyArrives(tid, r) =>
        if tid < |s.tasks| && !MayWriteSession(s, e) { StaleReplyKeepsSession(s, tid, r); }
      case Resume(tid) =>
        if tid < |s.tasks| && !MayWriteSession(s, e) { ResumeKeepsSession(s, tid); }
      case _ =>
    }
  }

  // ---- coherence ----

  /** The published snapshot's tables passed the checker. */
  ghost predicate PublishedTablesValid(h: Host) {
    h.snapshotState.Some? ==> ValidTables(h.snapshotState.value.tables, h.snapshotState.value.scopeId)
  }

  lemma EndCommandPublishesValidTables(h: Host, c: Capture, request: Option<nat>, r: Reply)
    requires PublishedTablesValid(h)
    ensures PublishedTablesValid(EndCommand(h, c, request, r).host)
  {
  }

  lemma EndActivatePublishesValidTables(
    h: Host, context: Context, token: WireCounter, scope: Option<ScopeId>, operation: nat, r: Reply)
    requires PublishedTablesValid(h)
    ensures PublishedTablesValid(EndActivate(h, context, token, scope, operation, r).0)
  {
  }

  lemma CommandReplyKeepsSession(s: Sys, tid: nat, pc: Pc, r: Reply)
    requires tid < |s.tasks| && pc.CommandCall?
    ensures SessionOf(OnCommandReply(s, tid, pc, r).host) == SessionOf(EndCommand(s.host, pc.capture, pc.request, r).host)
  {
    var end := EndCommand(s.host, pc.capture, pc.request, r);
    CompleteKeepsSession(s.(host := end.host), tid, pc.ret, end.Returned?);
  }

  lemma CommandReplyPublishesValidTables(s: Sys, tid: nat, pc: Pc, r: Reply)
    requires tid < |s.tasks| && PublishedTablesValid(s.host) && pc.CommandCall?
    ensures PublishedTablesValid(OnCommandReply(s, tid, pc, r).host)
  {
    EndCommandPublishesValidTables(s.host, pc.capture, pc.request, r);
    CommandReplyKeepsSession(s, tid, pc, r);
    assert SessionOf(OnCommandReply(s, tid, pc, r).host).snapshotState ==
           SessionOf(EndCommand(s.host, pc.capture, pc.request, r).host).snapshotState;
  }

  lemma ReplyPublishesValidTables(s: Sys, tid: nat, r: Reply)
    requires tid < |s.tasks| && PublishedTablesValid(s.host)
    ensures PublishedTablesValid(OnReply(s, tid, r).host)
  {
    var pc := s.tasks[tid].pc;
    if pc.CommandCall? {
      CommandReplyPublishesValidTables(s, tid, pc, r);
    } else if pc.ActivateCall? {
      EndActivatePublishesValidTables(s.host, pc.context, pc.token, pc.target, pc.operation, r);
    }
  }

  lemma {:induction false} PublishedTablesAlwaysValid(events: seq<Event>)
    ensures PublishedTablesValid(Run(events).host)
  {
    if events != [] {
      var s, e := Run(events[..|events| - 1]), events[|events| - 1];
      PublishedTablesAlwaysValid(events[..|events| - 1]);
      if e.ReplyArrives? && e.tid < |s.tasks| {
        ReplyPublishesValidTables(s, e.tid, e.reply);
      } else if SessionOf(Step(s, e).host) != SessionOf(s.host) {
        OnlyTheLatestOperationWrites(s, e);
      }
    }
  }

  /** In every reachable state a published snapshot is the host's own: same context, token, scope
      and scope generation, no activation pending, freshness equal to the snapshot's counters,
      and its tables without a dangling reference. */
  lemma {:induction false} PublishedSnapshotIsCoherent(events: seq<Event>)
    requires Run(events).host.snapshotState.Some?
    ensures var h := Run(events).host;
            var s := h.snapshotState.value;
            && h.context == Some(s.context)
            && h.activationToken == Some(s.activationToken)
            && h.scopeId == Some(s.scopeId)
            && h.scopeGeneration == Some(s.counters.scopeGeneration)
            && h.pending.None?
            && h.hintFreshness == Some(s.counters)
            && ReferentiallyClosed(s.tables)
  {
    RunKeeps(events);
    PublishedTablesAlwaysValid(events);
    var s := Run(events).host.snapshotState.value;
    AcceptedTablesAreClosed(s.tables, s.scopeId);
  }

  /** A snapshot is only ever accepted under a request number that has been handed out. */
  lemma {:induction false} AcceptedRequestsWereIssued(events: seq<Event>)
    ensures Run(events).host.acceptedRequest <= Run(events).host.requestSequence
  {
    RunKeeps(events);
  }

  // ---- activation tokens ----

  /** Between two successful `openClient` replies every activation token exceeds all earlier
      ones, unless the host was disposed of while an activation was pending. */
  lemma TokensStrictlyIncrease(events: seq<Event>)
    requires !Run(events).floorLost
    ensures StrictlyIncreasing(Run(events).tokens)
  {
    RunKeeps(events);
  }

  /** `dispose` forgets the pending token without raising the established one, and
      `activateScope` does not look at `disposed`: an activation after `dispose` stays above
      all earlier tokens exactly when no activation was pending at that moment. */
  lemma TokensAfterDispose(events: seq<Event>, scope: Option<ScopeId>)
    requires !Run(events).host.disposed
    requires NextToken(Dispose(Run(events).host)).Some?
    ensures var after := Run(events + [DisposeHost, CallActivate(scope)]);
            StrictlyIncreasing(after.tokens) <==> Run(events).host.pending.None?
  {
    var s := Run(events);
    RunKeeps(events);
    var disposed := Step(s, DisposeHost);
    var after := Step(disposed, CallActivate(scope));
    assert (events + [DisposeHost, CallActivate(scope)])[..|events| + 1] == events + [DisposeHost];
    assert (events + [DisposeHost])[..|events|] == events;
    assert Run(events + [DisposeHost, CallActivate(scope)]) == after;
    var token := NextToken(disposed.host).value;
    assert after.tokens == s.tokens + [token];
    if s.host.pending.Some? {
      var i :| 0 <= i < |s.tokens| && s.tokens[i] == s.host.pending.value;
      assert after.tokens[i] == s.tokens[i] && after.tokens[|s.tokens|] == token;
      assert token <= after.tokens[i];
    } else {
      NextTokenExtends(disposed);
    }
  }

  /** Nothing of the session changed, or the next token was sent. */
  predicate SendsAtMostNext(s: Sys, u: Sys) {
    || (u.tokens == s.tokens && SessionOf(u.host) == SessionOf(s.host))
    || (NextToken(s.host).Some? && u.tokens == s.tokens + [NextToken(s.host).value])
  }

  lemma DisposedReply(s: Sys, tid: nat, r: Reply)
    requires tid < |s.tasks| && s.host.disposed
    ensures OnReply(s, tid, r).tokens == s.tokens && OnReply(s, tid, r).host.disposed
    ensures SessionOf(OnReply(s, tid, r).host) == SessionOf(s.host)
  {
    var pc := s.tasks[tid].pc;
    if pc.CommandCall? { assert EndCommand(s.host, pc.capture, pc.request, r) == Thrown(s.host); }
    StaleReplyKeepsSession(s, tid, r);
  }

  lemma OpenedResume(s: Sys, tid: nat)
    requires tid < |s.tasks| && s.tasks[tid].pc.Opened?
    ensures SendsAtMostNext(s, OnResume(s, tid)) && OnResume(s, tid).host.disposed == s.host.disposed
  {
  }

  lemma CompletionKeepsTokens(s: Sys, tid: nat, ret: Return, ok: bool)
    requires tid < |s.tasks|
    ensures CompleteCommand(s, tid, ret, ok).tokens == s.tokens
    ensures CompleteCommand(s, tid, ret, ok).host.disposed == s.host.disposed
  {
  }

  /** The resumptions that go on with a command or a read. */
  lemma CommandResume(s: Sys, tid: nat)
    requires tid < |s.tasks| && (s.tasks[tid].pc.Settling? || s.tasks[tid].pc.Rehydrated?)
    ensures OnResume(s, tid).tokens == s.tokens && OnResume(s, tid).host.disposed == s.host.disposed
  {
    var pc := s.tasks[tid].pc;
    if pc.Settling? {
      CompletionKeepsTokens(s.(host := BeginSnapshot(s.host)), tid, Top, false);
    } else if pc.ret.Rehydrating? {
      CompletionKeepsTokens(s, tid, pc.ret.parent, false);
    }
  }

  lemma OtherResume(s: Sys, tid: nat)
    requires tid < |s.tasks| && !s.tasks[tid].pc.Opened?
    ensures OnResume(s, tid).tokens == s.tokens && OnResume(s, tid).host.disposed == s.host.disposed
  {
    if s.tasks[tid].pc.Settling? || s.tasks[tid].pc.Rehydrated? { CommandResume(s, tid); }
  }

  lemma DisposedResume(s: Sys, tid: nat)
    requires tid < |s.tasks| && s.host.disposed
    ensures SendsAtMostNext(s, OnResume(s, tid)) && OnResume(s, tid).host.disposed
  {
    if s.tasks[tid].pc.Opened? {
      OpenedResume(s, tid);
    } else {
      OtherResume(s, tid);
      ResumeKeepsSession(s, tid);
    }
  }

  lemma FloorFollowsDisposal(s: Sys, e: Event)
    ensures Step(s, e).floorLost == (s.floorLost || (e.DisposeHost? && !s.host.disposed && s.host.pending.Some?))
  {
  }

  lemma DisposedCall(s: Sys, e: Event)
    requires s.host.disposed && !e.ReplyArrives? && !e.Resume?
    ensures SendsAtMostNext(s, Step(s, e)) && Step(s, e).host.disposed
  {
  }

  /** After disposal a step leaves the tokens and the session, or sends the next token. */
  lemma DisposedStep(s: Sys, e: Event)
    requires s.host.disposed
    ensures var u := Step(s, e); u.host.disposed && u.floorLost == s.floorLost && SendsAtMostNext(s, u)
  {
    FloorFollowsDisposal(s, e);
    if e.ReplyArrives? {
      if e.tid < |s.tasks| { DisposedReply(s, e.tid, e.reply); }
    } else if e.Resume? {
      if e.tid < |s.tasks| { DisposedResume(s, e.tid); }
    } else {
      DisposedCall(s, e);
    }
  }

  /** The floor is lost: the next token is one that has been sent, or below one. */
  ghost predicate BelowSentTokens(s: Sys) {
    && s.host.disposed
    && (StrictlyIncreasing(s.tokens) ==>
          && s.host.pending.None?
          && (s.host.activationToken.Some? ==>
                exists i :: 0 <= i < |s.tokens| && s.host.activationToken.value < s.tokens[i]))
  }

  lemma AnotherTokenBreaksOrder(s: Sys, e: Event)
    requires BelowSentTokens(s)
    ensures BelowSentTokens(Step(s, e))
    ensures StrictlyIncreasing(Step(s, e).tokens) ==> Step(s, e).tokens == s.tokens
    ensures Step(s, e).tokens != s.tokens ==> s.tokens < Step(s, e).tokens
  {
    var u := Step(s, e);
    DisposedStep(s, e);
    if u.tokens != s.tokens {
      assert u.tokens[|s.tokens|] == NextToken(s.host).value;
      if StrictlyIncreasing(s.tokens) {
        var i :| 0 <= i < |s.tokens| && s.host.activationToken.value < s.tokens[i];
        assert u.tokens[i] == s.tokens[i];
      } else {
        var i, j :| 0 <= i < j < |s.tokens| && s.tokens[i] >= s.tokens[j];
        assert u.tokens[i] == s.tokens[i] && u.tokens[j] == s.tokens[j];
      }
    }
  }

  lemma {:induction false} LostFloorIsBelow(events: seq<Event>)
    requires Run(events).floorLost
    ensures BelowSentTokens(Run(events))
  {
    if events != [] {
      var before, e := events[..|events| - 1], events[|events| - 1];
      if Run(before).floorLost {
        LostFloorIsBelow(before);
        AnotherTokenBreaksOrder(Run(before), e);
      } else {
        RunKeeps(before);
        FloorFollowsDisposal(Run(before), e);
        LosingTheFloor(Run(before));
      }
    }
  }

  lemma LosingTheFloor(s: Sys)
    requires TokensOrdered(s.tokens, s.host.pending, s.host.activationToken)
    requires !s.host.disposed && s.host.pending.Some?
    ensures BelowSentTokens(Step(s, DisposeHost))
  {
    var i :| 0 <= i < |s.tokens| && s.tokens[i] == s.host.pending.value;
  }

  /** Once the floor is lost, whatever happens afterwards, the tokens stay in order exactly as long as no
      further one is sent, by a call or by a rehydration that goes on. */
  lemma {:induction false} TokensAfterLostFloor(events: seq<Event>, more: seq<Event>)
    requires Run(events).floorLost && StrictlyIncreasing(Run(events).tokens)
    ensures Run(events + more).floorLost
    ensures StrictlyIncreasing(Run(events + more).tokens) <==> Run(events + more).tokens == Run(events).tokens
    ensures Run(events).tokens <= Run(events + more).tokens
    decreases |more|
  {
    if more == [] {
      assert events + more == events;
    } else {
      var before, e := more[..|more| - 1], more[|more| - 1];
      assert (events + more)[..|events + more| - 1] == events + before;
      TokensAfterLostFloor(events, before);
      LostFloorIsBelow(events + before);
      AnotherTokenBreaksOrder(Run(events + before), e);
      DisposedStep(Run(events + before), e);
    }
  }

  /** The reuse is real: open, activate, dispose, activate sends the same token twice. */
  lemma TokenReuseExample(context: Context, scope: ScopeId)
    ensures var run := [CallOpen, ListenerSettles(0, true), ReplyArrives(0, OpenReply(context, 7, None, 0)),
                        CallActivate(Some(scope)), DisposeHost, CallActivate(Some(scope))];
            Run(run).tokens == [8, 8]
  {
    var e0, e1 := CallOpen, ListenerSettles(0, true);
    var e2 := ReplyArrives(0, OpenReply(context, 7, None, 0));
    var e3, e4 := CallActivate(Some(scope)), DisposeHost;
    var r1, r2, r3, r4, r5, r6 := [e0], [e0, e1], [e0, e1, e2], [e0, e1, e2, e3], [e0, e1, e2, e3, e4], [e0, e1, e2, e3, e4, e3];
    assert r1[..0] == [] && r2[..1] == r1 && r3[..2] == r2 && r4[..3] == r3 && r5[..4] == r4 && r6[..5] == r5;
    assert Run(r1) == Step(INITIAL_SYS, e0);
    assert Run(r2) == Step(Run(r1), e1);
    assert Run(r3).host.activationToken == Some(7) && Run(r3).host.context == Some(context) && Run(r3).host.pending.None?;
    assert Run(r4).tokens == [8] && Run(r4).host.pending == Some(8);
    assert Run(r5).host.pending.None? && Run(r5).host.activationToken == Some(7);
  }

  // ---- wake-ups ----

  /** Some event makes the task move on: its reply or the listener arrives, or its turn comes. */
  ghost predicate CanAdvance(s: Sys, i: nat)
    requires i < |s.tasks|
  {
    exists e :: Step(s, e).tasks != s.tasks && Addressee(e) == Some(i)
  }

  function Addressee(e: Event): Option<nat> {
    match e
    case ListenerSettles(tid, _) => Some(tid)
    case ReplyArrives(tid, _) => Some(tid)
    case Resume(tid) => Some(tid)
    case SubscriberThrows(tid) => Some(tid)
    case _ => None
  }

  /** The event that moves an unfinished, unregistered task on. */
  function Nudge(pc: Pc, tid: nat): Event {
    match pc
    case Listening(_, _) => ListenerSettles(tid, true)
    case OpenCall(_, _) => ReplyArrives(tid, Garbage)
    case ActivateCall(_, _, _, _, _) => ReplyArrives(tid, Garbage)
    case PurgeCall => ReplyArrives(tid, Garbage)
    case CommandCall(_, _, _, _) => ReplyArrives(tid, Garbage)
    case _ => Resume(tid)
  }

  lemma CompleteMoves(s: Sys, tid: nat, ret: Return, ok: bool)
    requires tid < |s.tasks| && !s.tasks[tid].pc.Finished?
    requires s.tasks[tid].pc.CommandCall? || s.tasks[tid].pc.Settling? || s.tasks[tid].pc.Rehydrated?
    ensures CompleteOwn(s, tid, ok).tasks != s.tasks
    ensures CompleteCommand(s, tid, ret, ok).tasks != s.tasks
  {
    assert CompleteOwn(s, tid, ok).tasks[tid].pc != s.tasks[tid].pc;
    assert CompleteCommand(s, tid, ret, ok).tasks[tid].pc != s.tasks[tid].pc;
  }

  lemma ReplyMoves(s: Sys, tid: nat)
    requires tid < |s.tasks|
    requires var pc := s.tasks[tid].pc; pc.OpenCall? || pc.ActivateCall? || pc.PurgeCall? || pc.CommandCall?
    ensures OnReply(s, tid, Garbage).tasks != s.tasks
  {
    var pc := s.tasks[tid].pc;
    if pc.CommandCall? {
      CompleteMoves(s, tid, pc.ret, false);
    } else {
      assert OnReply(s, tid, Garbage).tasks[tid].pc != pc;
    }
  }

  lemma ResumeMoves(s: Sys, tid: nat)
    requires tid < |s.tasks| && WellShaped(s.tasks[tid]) && tid !in s.host.mutationWaiters
    requires var pc := s.tasks[tid].pc;
             !pc.Finished? && !pc.Listening? && !pc.OpenCall? && !pc.ActivateCall? && !pc.PurgeCall? && !pc.CommandCall?
    ensures OnResume(s, tid).tasks != s.tasks
  {
    var pc := s.tasks[tid].pc;
    if pc.Settling? {
      CompleteMoves(s.(host := BeginSnapshot(s.host)), tid, Top, false);
    } else if pc.Rehydrated? {
      CompleteMoves(s, tid, pc.ret.parent, false);
    }
    assert OnResume(s, tid).tasks[tid].pc != pc;
  }

  lemma UnregisteredTaskAdvances(s: Sys, i: nat)
    requires Inv(s) && i < |s.tasks| && !s.tasks[i].pc.Finished? && i !in s.host.mutationWaiters
    ensures CanAdvance(s, i)
  {
    var pc := s.tasks[i].pc;
    var e := Nudge(pc, i);
    if pc.Listening? {
      assert Step(s, e).tasks[i].pc != pc;
    } else if pc.OpenCall? || pc.ActivateCall? || pc.PurgeCall? || pc.CommandCall? {
      ReplyMoves(s, i);
    } else {
      ResumeMoves(s, i);
    }
    assert Step(s, e).tasks != s.tasks && Addressee(e) == Some(i);
  }

  /** No lost wake-up: a postponed refresh has an unfinished mutation or hint read that will flush
      it; a task registered as a waiter has an unfinished mutation that can itself move; and every
      other unfinished task can move. In particular no mutation waits for mutations to settle. */
  lemma NoLostWakeUp(events: seq<Event>)
    ensures var s := Run(events);
            && (s.host.trailing ==>
                  exists i :: 0 <= i < |s.tasks| && (HoldsSlot(s.tasks[i]) || ReadsForHint(s.tasks[i])))
            && (forall i | 0 <= i < |s.tasks| && !s.tasks[i].pc.Finished? ::
                  || CanAdvance(s, i)
                  || (&& i in s.host.mutationWaiters && !HoldsSlot(s.tasks[i])
                      && exists j :: 0 <= j < |s.tasks| && HoldsSlot(s.tasks[j]) && CanAdvance(s, j)))
            && (forall i | 0 <= i < |s.tasks| && HoldsSlot(s.tasks[i]) :: CanAdvance(s, i))
  {
    var s := Run(events);
    RunKeeps(events);
    TallyWitness(s.tasks);
    forall i | 0 <= i < |s.tasks| && !s.tasks[i].pc.Finished? && i !in s.host.mutationWaiters
      ensures CanAdvance(s, i)
    {
      UnregisteredTaskAdvances(s, i);
    }
    if s.host.mutationWaiters != [] {
      var j :| 0 <= j < |s.tasks| && HoldsSlot(s.tasks[j]);
      assert CanAdvance(s, j);
    }
  }

  /** The mutation counter is exact in every reachable state, and at most one hint read and one
      rehydration are ever under way. */
  lemma {:induction false} InFlightCountsAreExact(events: seq<Event>)
    ensures var s := Run(events);
            && s.host.mutationInFlight == TallyOf(s.tasks).slots
            && TallyOf(s.tasks).hintReads == (if s.host.snapshotInFlight then 1 else 0)
            && TallyOf(s.tasks).rehydrations == (if s.host.reopening then 1 else 0)
  {
    RunKeeps(events);
  }

  // ---- restart recovery ----

  /** One `snapshot()` makes at most 8 manager calls, any other command at most 4, and a
      mutation's own command is sent exactly once, whatever the manager answers. */
  lemma {:induction false} RestartRecoveryIsBounded(events: seq<Event>, tid: nat)
    requires tid < |Run(events).tasks|
    ensures var t := Run(events).tasks[tid];
            && (Reads(t.kind) ==> t.calls <= 8)
            && (t.kind.Mutating? || t.kind.ListingKeys? ==> t.calls <= 4 && t.own == 1)
  {
    RunKeeps(events);
  }

  function Stage(pc: Pc): nat {
    match pc
    case RetryQueued => 10
    case Settling => 9
    case CommandCall(_, _, _, _) => 9
    case Listening(_, _) => 8
    case OpenCall(_, _) => 7
    case ActivateCall(_, _, _, _, _) => 7
    case PurgeCall => 7
    case Opened(_, _) => 6
    case Activated(_, _) => 6
    case ClosingRehydrate(_) => 5
    case Rehydrated(_) => 4
    case HintThen => 3
    case HintCatch => 2
    case HintFinally => 1
    case Finished(_) => 0
  }

  /** The measure of the command/rehydrate recursion: calls still possible, then position. */
  function Rank(pc: Pc): nat {
    CallsLeft(pc) * 11 + Stage(pc)
  }

  lemma CompleteDescends(s: Sys, tid: nat, ret: Return, ok: bool)
    requires tid < |s.tasks|
    ensures |CompleteCommand(s, tid, ret, ok).tasks| >= |s.tasks|
    ensures ret.Top? ==> Rank(CompleteOwn(s, tid, ok).tasks[tid].pc) <= 3
    ensures Rank(CompleteCommand(s, tid, ret, ok).tasks[tid].pc) <= (if ret.Top? then 3 else CallsAfter(ret) * 11 + 5)
  {
  }

  lemma CommandReplyDescends(s: Sys, tid: nat, r: Reply)
    requires Inv(s) && tid < |s.tasks| && s.tasks[tid].pc.CommandCall?
    ensures var after, pc := OnCommandReply(s, tid, s.tasks[tid].pc, r), s.tasks[tid].pc;
            |after.tasks| >= |s.tasks| && Rank(after.tasks[tid].pc) < Rank(pc)
  {
    var pc := s.tasks[tid].pc;
    assert WellShaped(s.tasks[tid]);
    TallyCovers(s.tasks, tid);
    assert pc.ret.Rehydrating? ==> s.host.reopening;
    match EndCommand(s.host, pc.capture, pc.request, r) {
      case Returned(h) => CompleteDescends(s.(host := h), tid, pc.ret, true);
      case Thrown(h) => CompleteDescends(s.(host := h), tid, pc.ret, false);
      case Restarting(_) =>
    }
  }

  lemma SessionReplyDescends(s: Sys, tid: nat, r: Reply)
    requires tid < |s.tasks| && (s.tasks[tid].pc.OpenCall? || s.tasks[tid].pc.ActivateCall?)
    ensures var pc := s.tasks[tid].pc;
            var after := if pc.OpenCall? then OnOpenReply(s, tid, pc.operation, pc.ret, r) else OnActivateReply(s, tid, pc, r);
            |after.tasks| == |s.tasks| && Rank(after.tasks[tid].pc) < Rank(pc)
  {
  }

  lemma ReplyDescends(s: Sys, tid: nat, r: Reply)
    requires Inv(s) && tid < |s.tasks| && OnReply(s, tid, r) != s
    ensures |OnReply(s, tid, r).tasks| >= |s.tasks|
    ensures Rank(OnReply(s, tid, r).tasks[tid].pc) < Rank(s.tasks[tid].pc)
  {
    match s.tasks[tid].pc {
      case CommandCall(_, _, _, _) => CommandReplyDescends(s, tid, r);
      case OpenCall(_, _) => SessionReplyDescends(s, tid, r);
      case ActivateCall(_, _, _, _, _) => SessionReplyDescends(s, tid, r);
      case PurgeCall =>
      case _ => assert false;
    }
  }

  lemma RehydrateDescends(s: Sys, tid: nat)
    requires tid < |s.tasks| && WellShaped(s.tasks[tid]) && ReturnOf(s.tasks[tid].pc).Rehydrating?
    ensures |OnResume(s, tid).tasks| >= |s.tasks|
    ensures OnResume(s, tid) == s || Rank(OnResume(s, tid).tasks[tid].pc) < Rank(s.tasks[tid].pc)
  {
    var pc := s.tasks[tid].pc;
    if pc.Rehydrated? { CompleteDescends(s, tid, pc.ret.parent, false); }
  }

  lemma ResumeDescends(s: Sys, tid: nat)
    requires tid < |s.tasks| && WellShaped(s.tasks[tid]) && OnResume(s, tid) != s
    ensures |OnResume(s, tid).tasks| >= |s.tasks|
    ensures Rank(OnResume(s, tid).tasks[tid].pc) < Rank(s.tasks[tid].pc)
  {
    var pc := s.tasks[tid].pc;
    if ReturnOf(pc).Rehydrating? {
      RehydrateDescends(s, tid);
    } else if pc.Settling? {
      CompleteDescends(s.(host := BeginSnapshot(s.host)), tid, Top, false);
    } else {
      assert pc.HintThen? || pc.HintCatch? || pc.HintFinally? || pc.RetryQueued?;
    }
  }

  /** Every step a task takes, replies and rehydrations included, lowers its rank, so no task
      runs for ever: a command started at its first manager call takes at most 86 more steps. */
  lemma {:induction false} TaskStepsDescend(events: seq<Event>, e: Event)
    requires Addressee(e).Some? && Addressee(e).value < |Run(events).tasks|
    requires Step(Run(events), e) != Run(events)
    ensures var tid := Addressee(e).value;
            && |Step(Run(events), e).tasks| >= |Run(events).tasks|
            && Rank(Step(Run(events), e).tasks[tid].pc) < Rank(Run(events).tasks[tid].pc)
  {
    var s, tid := Run(events), Addressee(e).value;
    RunKeeps(events);
    assert WellShaped(s.tasks[tid]);
    match e {
      case ReplyArrives(_, r) => ReplyDescends(s, tid, r);
      case Resume(_) => ResumeDescends(s, tid);
      case _ =>
    }
  }
}
