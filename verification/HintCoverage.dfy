/**
  Every step of the host and the manager keeps the newest admitted hint covered; hence,
  whenever nothing is in flight or queued, the published snapshot is at least as new as
  every hint that was ever admitted.
*/
module HintCoverage {
  import opened Options
  import opened SshWire
  import opened SnapshotTables
  import opened HostSegments
  import opened HostRuns
  import opened HostInvariants
  import opened HintCoalescing

  ghost predicate SysTracks(s: Sys, m: Manager, newest: Option<Counters>) {
    Tracks(s.host, m, s.tasks, newest)
  }

  // ---- what the tally says about single tasks ----

  lemma NothingCounted(ts: seq<Task>)
    ensures TallyOf(ts).slots <= 0 ==> NoMutations(ts)
    ensures TallyOf(ts).hintReads <= 0 ==> NoHintReads(ts)
  {
    forall i | 0 <= i < |ts|
      ensures TallyOf(ts).slots <= 0 ==> !HoldsSlot(ts[i])
      ensures TallyOf(ts).hintReads <= 0 ==> !ReadsForHint(ts[i])
    {
      TallyCovers(ts, i);
    }
  }

  /** With one hint read counted, there are no two. */
  lemma OneHintRead(ts: seq<Task>, i: nat, j: nat)
    requires i < |ts| && j < |ts| && i != j && ReadsForHint(ts[i]) && TallyOf(ts).hintReads <= 1
    ensures !ReadsForHint(ts[j])
  {
    var without := ts[i := ts[i].(pc := Finished(true))];
    TallyUpdate(ts, i, without[i]);
    TallyCovers(without, j);
  }

  // ---- the session stays put ----

  lemma HintsKeepOrder(w: World, v: World)
    requires HintsInOrder(w.sys.host, w.manager, w.channel, w.admitted)
    requires v.channel == w.channel && v.admitted == w.admitted && v.manager.history == w.manager.history
    requires v.sys.host.context == w.sys.host.context && v.sys.host.scopeId == w.sys.host.scopeId
             && v.sys.host.activationToken == w.sys.host.activationToken
    ensures HintsInOrder(v.sys.host, v.manager, v.channel, v.admitted)
  {
    forall k | 0 <= k < |v.channel| ensures OwnHint(v.sys.host, v.channel[k]) {
      assert OwnHint(w.sys.host, w.channel[k]);
    }
  }

  ghost predicate SameScope(h: Host, g: Host) {
    g.context == h.context && g.activationToken == h.activationToken && g.scopeId == h.scopeId
  }

  /** The host machine moves on the same scope and the manager's chain stays as it is. */
  lemma SysMoves(w: World, v: World)
    requires WorldInv(w) && Inv(v.sys) && SysTracks(v.sys, v.manager, Newest(v.admitted))
    requires v.channel == w.channel && v.admitted == w.admitted && v.manager.history == w.manager.history
    requires SameScope(w.sys.host, v.sys.host)
    ensures WorldInv(v)
  {
    HintsKeepOrder(w, v);
  }

  // ---- replies ----

  /** A mutation whose part is played gives its slot back; the last one out flushes. */
  lemma MutationFinishes(s: Sys, m: Manager, tid: nat, ok: bool, newest: Option<Counters>)
    requires SysTracks(s, m, newest) && Balanced(s.host, TallyOf(s.tasks))
    requires tid < |s.tasks| && s.tasks[tid].pc.CommandCall? && s.tasks[tid].kind.Mutating?
    requires newest.Some? && !s.host.trailing && LiveMutation(s.host, s.tasks[tid]) ==> PublishedCovers(s.host, newest.value)
    ensures SysTracks(CompleteOwn(s, tid, ok), m, newest)
  {
    var h, us := s.host, s.tasks[tid := s.tasks[tid].(pc := Finished(ok))];
    TaskLeaves(h, m, s.tasks, us, tid, newest);
    TallyUpdate(s.tasks, tid, us[tid]);
    NothingCounted(us);
    var released := h.(mutationInFlight := h.mutationInFlight - 1);
    if released.mutationInFlight > 0 {
      OtherFieldsIgnored(h, released, m, us, newest);
    } else {
      var woken := released.(mutationWaiters := []);
      OtherFieldsIgnored(h, woken, m, us, newest);
      FlushTracks(woken, m, us, None, newest);
    }
  }

  lemma CommandFinishes(s: Sys, m: Manager, tid: nat, ok: bool, newest: Option<Counters>)
    requires SysTracks(s, m, newest) && Balanced(s.host, TallyOf(s.tasks))
    requires tid < |s.tasks| && s.tasks[tid].pc.CommandCall?
    requires newest.Some? && !s.host.trailing
             && (LiveMutation(s.host, s.tasks[tid]) || WillCover(s.host, m, s.tasks[tid], tid, newest.value)) ==>
               PublishedCovers(s.host, newest.value)
    ensures SysTracks(CompleteOwn(s, tid, ok), m, newest)
  {
    if s.tasks[tid].kind.Mutating? {
      MutationFinishes(s, m, tid, ok, newest);
    } else {
      TaskLeaves(s.host, m, s.tasks, CompleteOwn(s, tid, ok).tasks, tid, newest);
    }
  }

  /** Whatever the answer, the host keeps tracking, and the answered call has nothing left to do. */
  lemma AnswerAccepted(s: Sys, m: Manager, tid: nat, r: Reply, newest: Option<Counters>)
    requires SysTracks(s, m, newest) && tid < |s.tasks| && s.tasks[tid].pc.CommandCall? && tid in m.order
    requires ValidResult(r, s.tasks[tid].pc.capture)
    requires r.SnapshotReply? ==> r.value.counters == ValueOf(m, m.order[tid])
    requires r.SnapshotReply? == !s.tasks[tid].kind.ListingKeys?
    ensures var end := EndCommand(s.host, s.tasks[tid].pc.capture, s.tasks[tid].pc.request, r);
            && !end.Restarting?
            && end.host == s.host.(snapshotState := end.host.snapshotState, hintFreshness := end.host.hintFreshness,
                                   acceptedRequest := end.host.acceptedRequest)
            && Tracks(end.host, m, s.tasks, newest)
            && (newest.Some? && !end.host.trailing
                && (LiveMutation(end.host, s.tasks[tid]) || WillCover(end.host, m, s.tasks[tid], tid, newest.value)) ==>
                  PublishedCovers(end.host, newest.value))
  {
    var h, t := s.host, s.tasks[tid];
    assert TaskOnScope(h, m, t, tid);
    if Live(h, t) && r.SnapshotReply? {
      if t.kind.Mutating? {
        MutationAccepted(h, m, s.tasks, tid, r.value, newest);
      } else if LiveRead(h, t) {
        ReadAccepted(h, m, s.tasks, tid, r.value, newest);
      }
    }
  }

  lemma CommandReplyTracks(s: Sys, m: Manager, tid: nat, r: Reply, newest: Option<Counters>)
    requires SysTracks(s, m, newest) && Balanced(s.host, TallyOf(s.tasks))
    requires tid < |s.tasks| && s.tasks[tid].pc.CommandCall? && tid in m.order
    requires ValidResult(r, s.tasks[tid].pc.capture)
    requires r.SnapshotReply? ==> r.value.counters == ValueOf(m, m.order[tid])
    requires r.SnapshotReply? == !s.tasks[tid].kind.ListingKeys?
    ensures SysTracks(OnCommandReply(s, tid, s.tasks[tid].pc, r), m, newest)
    ensures SameScope(s.host, OnCommandReply(s, tid, s.tasks[tid].pc, r).host)
  {
    var pc := s.tasks[tid].pc;
    assert TaskOnScope(s.host, m, s.tasks[tid], tid);
    AnswerAccepted(s, m, tid, r, newest);
    var end := EndCommand(s.host, pc.capture, pc.request, r);
    CommandFinishes(s.(host := end.host), m, tid, end.Returned?, newest);
    FinishSameScope(s.(host := end.host), tid, end.Returned?);
  }

  lemma FinishSameScope(s: Sys, tid: nat, ok: bool)
    requires tid < |s.tasks|
    ensures SameScope(s.host, CompleteOwn(s, tid, ok).host)
  {
    FlushKeepsSession(s.host.(mutationInFlight := s.host.mutationInFlight - 1, mutationWaiters := []), None);
  }

  lemma AnswerKeeps(w: World, tid: nat, tables: Tables)
    requires WorldInv(w) && Answerable(w, tid, tables)
    ensures WorldInv(AnswerCall(w, tid, tables))
  {
    var s, m := w.sys, w.manager;
    var t := s.tasks[tid];
    assert TaskOnScope(s.host, m, t, tid);
    ValuesRise(m, m.order[tid], m.order[tid]);
    var r := ReplyTo(t, m.values[m.order[tid]], tables);
    CommandReplyTracks(s, m, tid, r, Newest(w.admitted));
    StepKeeps(s, ReplyArrives(tid, r));
    AnswerIsHostStep(s, tid, r, AnswerCall(w, tid, tables).sys);
    SysMoves(w, AnswerCall(w, tid, tables));
  }

  // ---- promise reactions ----

  lemma CatchKeeps(s: Sys, m: Manager, tid: nat, newest: Option<Counters>)
    requires SysTracks(s, m, newest) && Balanced(s.host, TallyOf(s.tasks))
    requires tid < |s.tasks| && s.tasks[tid].pc.HintCatch? && s.tasks[tid].kind.HintReading?
    ensures SysTracks(CatchHint(s, tid, s.tasks[tid].kind.hint, s.tasks[tid].kind.retry), m, newest)
  {
    var h, ts, t := s.host, s.tasks, s.tasks[tid];
    var us := ts[tid := t.(pc := HintFinally)];
    TaskLeaves(h, m, ts, us, tid, newest);
    if t.kind.retry < 1 && !h.trailing {
      var queued := Task(HintReading(t.kind.hint, t.kind.retry + 1), RetryQueued, 0, 0);
      var vs := us + [queued];
      assert ForNewest(h, t, newest);
      forall i | 0 <= i < |us| ensures RetryAlone(queued, us[i]) && RetryAlone(us[i], queued) {
        if i != tid {
          assert RetryAlone(ts[i], t);
          OneHintRead(ts, tid, i);
        }
      }
      ScopeFollows(h, h, m, m, us, vs, |us|);
      NoNewCallRelated(h, h, m, us, vs, |us|);
      NewestFollows(h, h, us, vs, |us|, newest);
      ForwardFollows(h, h, m, m, us, vs, |us|);
      CoverFollows(h, h, m, m, us, vs, |us|, newest);
    }
  }

  lemma CloseKeeps(s: Sys, m: Manager, tid: nat, newest: Option<Counters>)
    requires SysTracks(s, m, newest) && Balanced(s.host, TallyOf(s.tasks))
    requires tid < |s.tasks| && s.tasks[tid].pc.HintFinally? && s.tasks[tid].kind.HintReading?
    ensures SysTracks(CloseHint(s, tid, s.tasks[tid].kind.hint), m, newest)
  {
    var h, ts, t := s.host, s.tasks, s.tasks[tid];
    var us := ts[tid := t.(pc := Finished(true))];
    TaskLeaves(h, m, ts, us, tid, newest);
    TallyUpdate(ts, tid, us[tid]);
    NothingCounted(us);
    var closed := h.(snapshotInFlight := false);
    OtherFieldsIgnored(h, closed, m, us, newest);
    FlushTracks(closed, m, us, Some(t.kind.hint), newest);
  }

  /** A queued retry starts over, or hands its hint on as the trailing one. */
  lemma RetryKeeps(s: Sys, m: Manager, tid: nat, newest: Option<Counters>)
    requires SysTracks(s, m, newest) && tid < |s.tasks| && s.tasks[tid].pc.RetryQueued? && s.tasks[tid].kind.HintReading?
    ensures SysTracks(RetryHint(s, tid, s.tasks[tid].kind.hint), m, newest)
  {
    var h, ts, t := s.host, s.tasks, s.tasks[tid];
    var (g, started) := RequestHint(h, t.kind.hint);
    var us := ts[tid := t.(pc := if started then Settling else Finished(true))];
    assert ForNewest(h, t, newest);
    forall i | 0 <= i < |us| ensures !us[i].pc.RetryQueued? {
      if i != tid { assert RetryAlone(t, ts[i]); }
    }
    if started {
      ScopeFollows(h, g, m, m, ts, us, tid);
      NoNewCallRelated(h, g, m, ts, us, tid);
      NewestFollows(h, g, ts, us, tid, newest);
      ForwardFollows(h, g, m, m, ts, us, tid);
      CoverFollows(h, g, m, m, ts, us, tid, newest);
    } else {
      RetryLeaves(h, m, ts, us, tid, newest);
      HintTrails(h, g, m, us, t.kind.hint, newest);
    }
  }

  lemma RetryLeaves(h: Host, m: Manager, ts: seq<Task>, us: seq<Task>, tid: nat, newest: Option<Counters>)
    requires Tracks(h, m, ts, newest) && tid < |ts| && Except(ts, us, tid) && |us| == |ts|
    requires ts[tid].pc.RetryQueued? && us[tid] == ts[tid].(pc := Finished(true))
    ensures Tracks(h, m, us, newest)
  {
    ScopeFollows(h, h, m, m, ts, us, tid);
    NoNewCallRelated(h, h, m, ts, us, tid);
    forall i | 0 <= i < |ts| && i != tid ensures RetryAlone(us[tid], ts[i]) && RetryAlone(ts[i], us[tid]) {
      assert RetryAlone(ts[tid], ts[i]);
    }
    NewestFollows(h, h, ts, us, tid, newest);
    ForwardFollows(h, h, m, m, ts, us, tid);
    CoverFollows(h, h, m, m, ts, us, tid, newest);
  }

  lemma IssueKeeps(s: Sys, m: Manager, tid: nat, newest: Option<Counters>)
    requires SysTracks(s, m, newest) && tid < |s.tasks| && s.tasks[tid].pc.Settling?
    ensures SysTracks(IssueRead(s, tid), NumberSend(m, tid), newest)
  {
    ReadIssues(s.host, m, s.tasks, IssueRead(s, tid).tasks, tid, newest);
  }

  lemma TurnKeeps(w: World, tid: nat)
    requires WorldInv(w)
    ensures var v := TakeTurn(w, tid); SysTracks(v.sys, v.manager, Newest(v.admitted))
  {
    var s, m, newest := w.sys, w.manager, Newest(w.admitted);
    if tid < |s.tasks| {
      var t := s.tasks[tid];
      assert TaskOnScope(s.host, m, t, tid);
      if t.pc.Settling? { if tid !in s.host.mutationWaiters { IssueKeeps(s, m, tid, newest); } }
      else if t.pc.HintThen? { TaskLeaves(s.host, m, s.tasks, SetPc(s, tid, HintFinally).tasks, tid, newest); }
      else if t.pc.HintCatch? { CatchKeeps(s, m, tid, newest); }
      else if t.pc.HintFinally? { CloseKeeps(s, m, tid, newest); }
      else if t.pc.RetryQueued? { RetryKeeps(s, m, tid, newest); }
    }
  }

  lemma ListenerFailsKeeps(w: World, tid: nat)
    requires WorldInv(w)
    ensures SysTracks(Step(w.sys, SubscriberThrows(tid)), w.manager, Newest(w.admitted))
  {
    var s := w.sys;
    if tid < |s.tasks| && s.tasks[tid].pc.HintThen? {
      assert TaskOnScope(s.host, w.manager, s.tasks[tid], tid);
      TaskLeaves(s.host, w.manager, s.tasks, SetPc(s, tid, HintCatch).tasks, tid, Newest(w.admitted));
    }
  }

  // ---- hints and calls ----

  /** An admitted hint becomes the newest one: it is read for at once, or it trails. */
  lemma HearingTracks(s: Sys, m: Manager, hint: Hint, newest: Option<Counters>)
    requires Inv(s) && SysTracks(s, m, newest) && !RetryPending(s.tasks)
    requires hint.counters in m.history && Admits(s.host, hint)
    ensures SysTracks(OnHint(s, hint), m, Some(hint.counters))
  {
    var h := s.host;
    var (g, started) := RequestHint(h, hint);
    NothingCounted(s.tasks);
    if started {
      HintReadStarts(h, g, m, s.tasks, hint, newest);
    } else {
      HintTrails(h, g, m, s.tasks, hint, newest);
    }
  }

  lemma DeliveryKeepsOrder(h: Host, m: Manager, channel: seq<Hint>, admitted: seq<Counters>)
    requires HintsInOrder(h, m, channel, admitted) && channel != []
    ensures HintsInOrder(h, m, channel[1..], admitted)
    ensures HintsInOrder(h, m, channel[1..], admitted + [channel[0].counters])
  {
    var rest, longer := channel[1..], admitted + [channel[0].counters];
    assert forall k | 0 <= k < |rest| :: rest[k] == channel[k + 1];
    forall i, j | 0 <= i <= j < |longer| ensures Leq(longer[i], longer[j]) {
      if i < |admitted| { assert admitted[i] in admitted; }
    }
  }

  lemma HearingIsHostStep(s: Sys, hint: Hint)
    ensures Step(s, HintArrives(hint)) == OnHint(s, hint)
  {
  }

  lemma RefusedHintKeeps(w: World)
    requires WorldInv(w) && w.channel != [] && !Admits(w.sys.host, w.channel[0])
    ensures WorldInv(Hear(w))
  {
    DeliveryKeepsOrder(w.sys.host, w.manager, w.channel, w.admitted);
    assert Hear(w) == w.(channel := w.channel[1..], heard := Hear(w).heard);
  }

  lemma AdmittedHintKeeps(w: World, hint: Hint, u: Sys, heard: seq<Counters>)
    requires WorldInv(w) && w.channel != [] && !RetryPending(w.sys.tasks)
    requires hint == w.channel[0] && Admits(w.sys.host, hint) && u == OnHint(w.sys, hint) && Inv(u)
    ensures WorldInv(w.(sys := u, channel := w.channel[1..], admitted := w.admitted + [hint.counters], heard := heard))
  {
    DeliveryKeepsOrder(w.sys.host, w.manager, w.channel, w.admitted);
    HearingTracks(w.sys, w.manager, hint, Newest(w.admitted));
    AdmittedInOrder(w, hint);
    assert Newest(w.admitted + [hint.counters]) == Some(hint.counters);
  }

  lemma HearingKeeps(w: World)
    requires WorldInv(w) && w.channel != [] && !RetryPending(w.sys.tasks)
    ensures WorldInv(Hear(w))
  {
    var hint := w.channel[0];
    if Admits(w.sys.host, hint) {
      StepKeeps(w.sys, HintArrives(hint));
      HearingIsHostStep(w.sys, hint);
      AdmittedHintKeeps(w, hint, OnHint(w.sys, hint), Hear(w).heard);
    } else {
      RefusedHintKeeps(w);
    }
  }

  lemma AdmittedInOrder(w: World, hint: Hint)
    requires w.channel != [] && HintsInOrder(w.sys.host, w.manager, w.channel[1..], w.admitted + [hint.counters])
    ensures HintsInOrder(OnHint(w.sys, hint).host, w.manager, w.channel[1..], w.admitted + [hint.counters])
  {
    forall k | 0 <= k < |w.channel[1..]| ensures OwnHint(OnHint(w.sys, hint).host, w.channel[1..][k]) {
      assert OwnHint(w.sys.host, w.channel[1..][k]);
    }
  }

  lemma MutationCallKeeps(w: World)
    requires WorldInv(w)
    ensures WorldInv(UserSends(w, CallMutation, true))
  {
    if CaptureFor(w.sys.host, true).Some? {
      StepKeeps(w.sys, CallMutation);
      MutationStarts(w.sys.host, w.manager, w.sys.tasks, Newest(w.admitted));
      SysMoves(w, UserSends(w, CallMutation, true));
    }
  }

  lemma ListKeysCallKeeps(w: World)
    requires WorldInv(w)
    ensures WorldInv(UserSends(w, CallListKeys, false))
  {
    if CaptureFor(w.sys.host, false).Some? {
      StepKeeps(w.sys, CallListKeys);
      ListKeysStarts(w.sys.host, w.manager, w.sys.tasks, Newest(w.admitted));
      SysMoves(w, UserSends(w, CallListKeys, false));
    }
  }

  lemma ReadCallKeeps(w: World)
    requires WorldInv(w)
    ensures WorldInv(w.(sys := Step(w.sys, CallSnapshot)))
  {
    var s, m, newest := w.sys, w.manager, Newest(w.admitted);
    StepKeeps(s, CallSnapshot);
    ReadSettles(s.host, m, s.tasks, newest);
    OtherFieldsIgnored(s.host, StartSnapshot(s).host, m, StartSnapshot(s).tasks, newest);
    SysMoves(w, w.(sys := Step(s, CallSnapshot)));
  }

  // ---- all steps, all runs ----

  lemma TurnSameScope(w: World, tid: nat)
    requires WorldInv(w) && tid < |w.sys.tasks|
    ensures SameScope(w.sys.host, OnResume(w.sys, tid).host)
  {
    var s := w.sys;
    var t := s.tasks[tid];
    assert TaskOnScope(s.host, w.manager, t, tid);
    if t.pc.HintFinally? { FlushKeepsSession(s.host.(snapshotInFlight := false), Some(t.kind.hint)); }
  }

  lemma TurnStepKeeps(w: World, tid: nat)
    requires WorldInv(w)
    ensures WorldInv(TakeTurn(w, tid))
  {
    StepKeeps(w.sys, Resume(tid));
    TurnKeeps(w, tid);
    if tid < |w.sys.tasks| { TurnSameScope(w, tid); }
    SysMoves(w, TakeTurn(w, tid));
  }

  lemma ListenerFailsStepKeeps(w: World, tid: nat)
    requires WorldInv(w)
    ensures WorldInv(w.(sys := Step(w.sys, SubscriberThrows(tid))))
  {
    StepKeeps(w.sys, SubscriberThrows(tid));
    ListenerFailsKeeps(w, tid);
    SysMoves(w, w.(sys := Step(w.sys, SubscriberThrows(tid))));
  }

  lemma ManagerStepKeeps(w: World, e: WorldEvent)
    requires WorldInv(w) && (e.ManagerMoves? || e.ManagerServes? || e.ManagerHints? || e.HostHears?)
    ensures WorldInv(WorldStep(w, e))
  {
    match e {
      case ManagerMoves(next) => ManagerMovesKeeps(w, next);
      case ManagerServes => ManagerServesKeeps(w);
      case ManagerHints(runtimeChanged) => ManagerHintsKeeps(w, runtimeChanged);
      case HostHears => if w.channel != [] && !RetryPending(w.sys.tasks) { HearingKeeps(w); }
    }
  }

  lemma HostStepKeeps(w: World, e: WorldEvent)
    requires WorldInv(w) && !(e.ManagerMoves? || e.ManagerServes? || e.ManagerHints? || e.HostHears?)
    ensures WorldInv(WorldStep(w, e))
  {
    match e {
      case UserMutates => MutationCallKeeps(w);
      case UserListsKeys => ListKeysCallKeeps(w);
      case UserReads => ReadCallKeeps(w);
      case Answer(tid, tables) => if Answerable(w, tid, tables) { AnswerKeeps(w, tid, tables); }
      case Turn(tid) => TurnStepKeeps(w, tid);
      case ListenerFails(tid) => ListenerFailsStepKeeps(w, tid);
    }
  }

  lemma WorldStepKeeps(w: World, e: WorldEvent)
    requires WorldInv(w)
    ensures WorldInv(WorldStep(w, e))
  {
    if e.ManagerMoves? || e.ManagerServes? || e.ManagerHints? || e.HostHears? {
      ManagerStepKeeps(w, e);
    } else {
      HostStepKeeps(w, e);
    }
  }

  lemma StartIsCovered(w: World)
    requires Start(w)
    ensures WorldInv(w)
  {
    QuietCountsNothing(w.sys.tasks);
  }

  lemma {:induction false} WorldRunKeeps(start: World, events: seq<WorldEvent>)
    requires Start(start)
    ensures WorldInv(WorldRun(start, events))
  {
    StartIsCovered(start);
    if events != [] {
      WorldRunKeeps(start, events[..|events| - 1]);
      WorldStepKeeps(WorldRun(start, events[..|events| - 1]), events[|events| - 1]);
    }
  }

  lemma {:induction false} QuietCountsNothing(ts: seq<Task>)
    requires Quiet(ts)
    ensures TallyOf(ts) == Tally(0, 0, 0)
  {
    if ts != [] { QuietCountsNothing(ts[..|ts| - 1]); }
  }

  /** No update is lost: for every interleaving of hints, reads, mutations, retries and replies,
      once nothing is in flight or queued the published snapshot's five counters are at least
      those of every hint that was admitted on the way. */
  lemma QuietHostHasEveryAdmittedHint(start: World, events: seq<WorldEvent>)
    requires Start(start) && Quiet(WorldRun(start, events).sys.tasks)
    ensures var w := WorldRun(start, events);
            forall a | a in w.admitted ::
              w.sys.host.snapshotState.Some? && Leq(a, w.sys.host.snapshotState.value.counters)
  {
    var w := WorldRun(start, events);
    WorldRunKeeps(start, events);
    QuietCountsNothing(w.sys.tasks);
    if w.admitted != [] {
      var newest := Newest(w.admitted).value;
      assert PublishedCovers(w.sys.host, newest);
      forall a | a in w.admitted ensures Leq(a, newest) {
        var i :| 0 <= i < |w.admitted| && w.admitted[i] == a;
      }
    }
  }
}
