/**
  What the SSH forward host makes of failures, said on the machine's steps: which reply
  starts the recovery from a manager restart, that the recovery brings a read to its end
  in the new session, and which failed activations cost the client.
*/
module HostRecovery {
  import opened Options
  import opened SshWire
  import opened SnapshotTables
  import opened HostSegments
  import opened HostRuns
  import opened HostInvariants

  // ---- which reply starts a recovery ----

  /** Nothing has happened that would fence the call off. */
  predicate StillCurrent(h: Host, c: Capture) {
    && !h.disposed && h.operation == c.operation
    && h.context == Some(c.context) && h.activationToken == Some(c.token)
    && h.scopeId == Some(c.scopeId) && h.scopeGeneration == Some(c.generation)
  }

  predicate StartsRecovery(pc: Pc) {
    pc.Listening? && pc.ret.Rehydrating?
  }

  lemma CompletionStartsNone(s: Sys, tid: nat, ret: Return, ok: bool)
    requires tid < |s.tasks|
    ensures tid < |CompleteCommand(s, tid, ret, ok).tasks|
    ensures !CompleteCommand(s, tid, ret, ok).tasks[tid].pc.Listening?
  {
  }

  /** A command goes into recovery exactly when the manager answers that its session is another one, the
      call is still current, and no recovery is under way. */
  lemma {:induction false} OnlyMismatchRecovers(s: Sys, tid: nat, r: Reply)
    requires tid < |s.tasks| && s.tasks[tid].pc.CommandCall?
    ensures tid < |Step(s, ReplyArrives(tid, r)).tasks|
    ensures StartsRecovery(Step(s, ReplyArrives(tid, r)).tasks[tid].pc) <==>
            r == Failure(ManagerSessionMismatch) && !s.host.reopening && StillCurrent(s.host, s.tasks[tid].pc.capture)
  {
    var pc := s.tasks[tid].pc;
    CommandReplied(s, tid, r);
    match EndCommand(s.host, pc.capture, pc.request, r) {
      case Returned(h) => CompletionStartsNone(s.(host := h), tid, pc.ret, true);
      case Thrown(h) => CompletionStartsNone(s.(host := h), tid, pc.ret, false);
      case Restarting(_) =>
    }
  }

  lemma CommandReplied(s: Sys, tid: nat, r: Reply)
    requires tid < |s.tasks| && s.tasks[tid].pc.CommandCall?
    ensures Step(s, ReplyArrives(tid, r)) == OnCommandReply(s, tid, s.tasks[tid].pc, r)
  {
    AnswerIsHostStep(s, tid, r, OnCommandReply(s, tid, s.tasks[tid].pc, r));
  }

  /** The answer carries the session the call was made in. */
  predicate Answers(r: Reply, c: Capture) {
    || (r.SnapshotReply?
        && r.value.context == c.context && r.value.scopeId == c.scopeId && r.value.activationToken == c.token
        && r.value.counters.scopeGeneration == c.generation && ValidTables(r.value.tables, c.scopeId))
    || (r.KeysReply? && r.context == c.context && r.keysScope == c.scopeId && r.generation == c.generation)
  }

  /** A read succeeds exactly with an answer from its own session while it is current; an answer that is
      older than one accepted needs a snapshot that is published. */
  lemma ReadSucceeds(s: Sys, tid: nat, r: Reply)
    requires tid < |s.tasks| && s.tasks[tid].kind.Reading? && s.tasks[tid].pc.CommandCall? && s.tasks[tid].pc.ret.Top?
    ensures tid < |Step(s, ReplyArrives(tid, r)).tasks|
    ensures var pc := s.tasks[tid].pc;
            Step(s, ReplyArrives(tid, r)).tasks[tid].pc == Finished(true) <==>
            && Answers(r, pc.capture) && StillCurrent(s.host, pc.capture)
            && (r.SnapshotReply? && pc.request.Some? && pc.request.value < s.host.acceptedRequest ==> s.host.snapshotState.Some?)
  {
    CommandReplied(s, tid, r);
  }

  // ---- a recovery from its beginning to its end ----

  ghost predicate IsPath(states: seq<Sys>, events: seq<Event>) {
    |states| == |events| + 1 && forall i | 0 <= i < |events| :: states[i + 1] == Step(states[i], events[i])
  }

  /** These events, one after the other and nothing between them, lead from one state to the other. */
  ghost predicate Leads(s: Sys, events: seq<Event>, u: Sys) {
    exists states :: IsPath(states, events) && states[0] == s && states[|events|] == u
  }

  lemma LeadsNowhere(s: Sys)
    ensures Leads(s, [], s)
  {
    assert IsPath([s], []);
  }

  lemma LeadsOn(s: Sys, events: seq<Event>, u: Sys, e: Event)
    requires Leads(s, events, u)
    ensures Leads(s, events + [e], Step(u, e))
  {
    var states :| IsPath(states, events) && states[0] == s && states[|events|] == u;
    PathOn(states, events, e);
  }

  lemma PathOn(states: seq<Sys>, events: seq<Event>, e: Event)
    requires IsPath(states, events)
    ensures Leads(states[0], events + [e], Step(states[|events|], e))
  {
    var longer, more := states + [Step(states[|events|], e)], events + [e];
    forall i | 0 <= i < |more| ensures longer[i + 1] == Step(longer[i], more[i]) {
      if i < |events| { assert states[i + 1] == Step(states[i], events[i]); }
    }
    assert IsPath(longer, more) && longer[0] == states[0] && longer[|more|] == Step(states[|events|], e);
  }

  /** From a state of a run they lead to a state of the run. */
  lemma {:induction false} LeadsRuns(before: seq<Event>, events: seq<Event>, u: Sys)
    requires Leads(Run(before), events, u)
    ensures u == Run(before + events)
    decreases |events|
  {
    var states :| IsPath(states, events) && states[0] == Run(before) && states[|events|] == u;
    if events == [] {
      assert before + events == before;
    } else {
      var n := |events| - 1;
      assert IsPath(states[..|events|], events[..n]);
      LeadsRuns(before, events[..n], states[n]);
      assert states[n + 1] == Step(states[n], events[n]);
      assert (before + events)[..|before + events| - 1] == before + events[..n];
    }
  }

  /** The task is at this point, and its kind and the number of tasks are what they were. */
  predicate At(s: Sys, u: Sys, tid: nat, pc: Pc) {
    && tid < |s.tasks| == |u.tasks| && u.tasks[tid].pc == pc && u.tasks[tid].kind == s.tasks[tid].kind
  }

  lemma MismatchReopens(from: Sys, events: seq<Event>, s: Sys, tid: nat, c: Capture, q: nat) returns (u: Sys)
    requires Leads(from, events, s)
    requires tid < |s.tasks| && s.tasks[tid].pc == CommandCall(c, true, Some(q), Top)
    requires StillCurrent(s.host, c) && !s.host.reopening
    ensures Leads(from, events + [ReplyArrives(tid, Failure(ManagerSessionMismatch))], u)
    ensures u.host == s.host.(reopening := true, operation := c.operation + 1)
    ensures At(s, u, tid, Listening(c.operation + 1, Rehydrating(c.scopeId, true, Some(q), Top)))
  {
    u := Step(s, ReplyArrives(tid, Failure(ManagerSessionMismatch)));
    LeadsOn(from, events, s, ReplyArrives(tid, Failure(ManagerSessionMismatch)));
    CommandReplied(s, tid, Failure(ManagerSessionMismatch));
  }

  lemma ListenerOpens(from: Sys, events: seq<Event>, s: Sys, tid: nat, op: nat, ret: Return) returns (u: Sys)
    requires Leads(from, events, s)
    requires tid < |s.tasks| && s.tasks[tid].pc == Listening(op, ret)
    ensures Leads(from, events + [ListenerSettles(tid, true)], u)
    ensures u.host == s.host && At(s, u, tid, OpenCall(op, ret))
  {
    u := Step(s, ListenerSettles(tid, true));
    LeadsOn(from, events, s, ListenerSettles(tid, true));
  }

  lemma OpenReplaces(from: Sys, events: seq<Event>, s: Sys, tid: nat, ret: Return, open: Reply, op: nat) returns (u: Sys)
    requires Leads(from, events, s)
    requires tid < |s.tasks| && s.tasks[tid].pc == OpenCall(op, ret) && ret.Rehydrating?
    requires open.OpenReply? && !s.host.disposed && s.host.operation == op
    ensures Leads(from, events + [ReplyArrives(tid, open)], u)
    ensures u.host == s.host.(context := Some(open.context), activationToken := Some(open.floor), pending := None,
                              scopeId := open.activeScope, scopeGeneration := Some(open.generation),
                              snapshotState := None, hintFreshness := None)
    ensures At(s, u, tid, Opened(true, ret))
  {
    u := Step(s, ReplyArrives(tid, open));
    LeadsOn(from, events, s, ReplyArrives(tid, open));
  }

  /** The scope is activated with the next token. */
  lemma OpenedActivates(from: Sys, events: seq<Event>, s: Sys, tid: nat, ret: Return, context: Context, floor: WireCounter)
    returns (u: Sys)
    requires Leads(from, events, s)
    requires tid < |s.tasks| && s.tasks[tid].pc == Opened(true, ret) && ret.Rehydrating?
    requires s.host.context == Some(context) && s.host.activationToken == Some(floor) && s.host.pending.None?
    requires floor + 1 <= MAX_COUNTER
    ensures Leads(from, events + [Resume(tid)], u)
    ensures u.host == s.host.(operation := s.host.operation + 1, pending := Some(floor + 1), snapshotState := None,
                              scopeGeneration := None, hintFreshness := None)
    ensures At(s, u, tid, ActivateCall(context, floor + 1, Some(ret.scope), s.host.operation + 1, ret))
  {
    u := Step(s, Resume(tid));
    LeadsOn(from, events, s, Resume(tid));
  }

  /** The host is in a session that a snapshot can be for. */
  predicate InSession(h: Host, context: Context, token: WireCounter, scope: ScopeId, generation: WireCounter) {
    && !h.disposed && h.context == Some(context) && h.activationToken == Some(token) && h.pending.None?
    && h.scopeId == Some(scope) && h.scopeGeneration == Some(generation)
  }

  predicate SnapshotOf(s: Snapshot, context: Context, token: WireCounter, scope: ScopeId, generation: WireCounter) {
    && s.context == context && s.activationToken == token && s.scopeId == scope
    && s.counters.scopeGeneration == generation && ValidTables(s.tables, scope)
  }

  lemma ActivationIsAccepted(from: Sys, events: seq<Event>, s: Sys, tid: nat, ret: Return, a: Reply, op: nat)
    returns (u: Sys)
    requires Leads(from, events, s)
    requires ret.Rehydrating? && a.ActivationReply? && a.scope == Some(ret.scope)
    requires a.snapshot.Some? ==> SnapshotOf(a.snapshot.value, a.context, a.token, ret.scope, a.generation)
    requires tid < |s.tasks| && s.tasks[tid].pc == ActivateCall(a.context, a.token, Some(ret.scope), op, ret)
    requires !s.host.disposed && s.host.operation == op && s.host.context == Some(a.context) && s.host.pending == Some(a.token)
    ensures Leads(from, events + [ReplyArrives(tid, a)], u)
    ensures InSession(u.host, a.context, a.token, ret.scope, a.generation)
    ensures u.host.operation == op && u.host.acceptedRequest == s.host.acceptedRequest
    ensures At(s, u, tid, Activated(true, ret))
  {
    assert ValidActivation(a, a.context, a.token, Some(ret.scope));
    u := Step(s, ReplyArrives(tid, a));
    LeadsOn(from, events, s, ReplyArrives(tid, a));
  }

  lemma ActivatedReads(from: Sys, events: seq<Event>, s: Sys, tid: nat, ret: Return, c: Capture) returns (u: Sys)
    requires Leads(from, events, s)
    requires tid < |s.tasks| && s.tasks[tid].pc == Activated(true, ret) && StillCurrent(s.host, c)
    ensures Leads(from, events + [Resume(tid)], u)
    ensures u.host == s.host && At(s, u, tid, CommandCall(c, false, None, ret))
  {
    u := Step(s, Resume(tid));
    LeadsOn(from, events, s, Resume(tid));
  }

  lemma ReadReturns(from: Sys, events: seq<Event>, s: Sys, tid: nat, c: Capture, ret: Return, v: Snapshot) returns (u: Sys)
    requires Leads(from, events, s)
    requires tid < |s.tasks| && s.tasks[tid].pc == CommandCall(c, false, None, ret) && ret.Rehydrating?
    requires StillCurrent(s.host, c) && SnapshotOf(v, c.context, c.token, c.scopeId, c.generation)
    ensures Leads(from, events + [ReplyArrives(tid, SnapshotReply(v))], u)
    ensures u.host == s.host.(snapshotState := Some(v), hintFreshness := Some(v.counters))
    ensures At(s, u, tid, ClosingRehydrate(ret))
  {
    u := Step(s, ReplyArrives(tid, SnapshotReply(v)));
    LeadsOn(from, events, s, ReplyArrives(tid, SnapshotReply(v)));
    CommandReplied(s, tid, SnapshotReply(v));
    SnapshotIsReturned(s.host, c, None, v);
  }

  lemma SnapshotIsReturned(h: Host, c: Capture, request: Option<nat>, v: Snapshot)
    requires StillCurrent(h, c) && SnapshotOf(v, c.context, c.token, c.scopeId, c.generation)
    requires request.Some? ==> request.value >= h.acceptedRequest
    ensures EndCommand(h, c, request, SnapshotReply(v)) ==
            Returned(h.(snapshotState := Some(v), hintFreshness := Some(v.counters),
                        acceptedRequest := if request.Some? then request.value else h.acceptedRequest))
  {
  }

  lemma RecoveryCloses(from: Sys, events: seq<Event>, s: Sys, tid: nat, ret: Return) returns (u: Sys)
    requires Leads(from, events, s)
    requires tid < |s.tasks| && s.tasks[tid].pc == ClosingRehydrate(ret)
    ensures Leads(from, events + [Resume(tid)], u)
    ensures u.host == s.host.(reopening := false) && At(s, u, tid, Rehydrated(ret))
  {
    u := Step(s, Resume(tid));
    LeadsOn(from, events, s, Resume(tid));
  }

  /** The read is sent once more, under the number it had. */
  lemma ReadIsReplayed(from: Sys, events: seq<Event>, s: Sys, tid: nat, c: Capture, q: nat, scope: ScopeId) returns (u: Sys)
    requires Leads(from, events, s)
    requires tid < |s.tasks| && s.tasks[tid].pc == Rehydrated(Rehydrating(scope, true, Some(q), Top)) && StillCurrent(s.host, c)
    ensures Leads(from, events + [Resume(tid)], u)
    ensures u.host == s.host && At(s, u, tid, CommandCall(c, false, Some(q), Top))
  {
    u := Step(s, Resume(tid));
    LeadsOn(from, events, s, Resume(tid));
  }

  lemma ReplayFinishes(from: Sys, events: seq<Event>, s: Sys, tid: nat, c: Capture, q: nat, v: Snapshot) returns (u: Sys)
    requires Leads(from, events, s)
    requires tid < |s.tasks| && s.tasks[tid].pc == CommandCall(c, false, Some(q), Top) && s.tasks[tid].kind.Reading?
    requires StillCurrent(s.host, c) && SnapshotOf(v, c.context, c.token, c.scopeId, c.generation)
    requires q >= s.host.acceptedRequest
    ensures Leads(from, events + [ReplyArrives(tid, SnapshotReply(v))], u)
    ensures u.host == s.host.(snapshotState := Some(v), hintFreshness := Some(v.counters), acceptedRequest := q)
    ensures At(s, u, tid, Finished(true))
  {
    var h := s.host.(snapshotState := Some(v), hintFreshness := Some(v.counters), acceptedRequest := q);
    u := Step(s, ReplyArrives(tid, SnapshotReply(v)));
    LeadsOn(from, events, s, ReplyArrives(tid, SnapshotReply(v)));
    CommandReplied(s, tid, SnapshotReply(v));
    SnapshotIsReturned(s.host, c, Some(q), v);
    ReturnEndsRead(s, tid, s.tasks[tid].pc, SnapshotReply(v), h);
  }

  lemma ReturnEndsRead(s: Sys, tid: nat, pc: Pc, r: Reply, h: Host)
    requires tid < |s.tasks| && pc.CommandCall? && pc.ret.Top? && s.tasks[tid].kind.Reading?
    requires EndCommand(s.host, pc.capture, pc.request, r) == Returned(h)
    ensures OnCommandReply(s, tid, pc, r) == SetPc(s.(host := h), tid, Finished(true))
  {
  }

  /** The replies of a manager that has been restarted, with nothing else between them. */
  function RecoveryEvents(tid: nat, open: Reply, activation: Reply, first: Snapshot, second: Snapshot): seq<Event> {
    OpeningEvents(tid, open, activation)
    + [ReplyArrives(tid, SnapshotReply(first))] + [Resume(tid)] + [Resume(tid)] + [ReplyArrives(tid, SnapshotReply(second))]
  }

  function OpeningEvents(tid: nat, open: Reply, activation: Reply): seq<Event> {
    [] + [ReplyArrives(tid, Failure(ManagerSessionMismatch))] + [ListenerSettles(tid, true)]
    + [ReplyArrives(tid, open)] + [Resume(tid)] + [ReplyArrives(tid, activation)] + [Resume(tid)]
  }

  /** Up to the activation in the new session. */
  lemma RecoveryActivates(s: Sys, tid: nat, c: Capture, q: nat, open: Reply) returns (u: Sys, events: seq<Event>)
    requires tid < |s.tasks| && s.tasks[tid].pc == CommandCall(c, true, Some(q), Top)
    requires StillCurrent(s.host, c) && !s.host.reopening && open.OpenReply? && open.floor + 1 <= MAX_COUNTER
    ensures events == [] + [ReplyArrives(tid, Failure(ManagerSessionMismatch))] + [ListenerSettles(tid, true)]
                      + [ReplyArrives(tid, open)] + [Resume(tid)]
    ensures Leads(s, events, u)
    ensures !u.host.disposed && u.host.acceptedRequest == s.host.acceptedRequest
    ensures u.host.operation == c.operation + 2 && u.host.context == Some(open.context) && u.host.pending == Some(open.floor + 1)
    ensures At(s, u, tid, ActivateCall(open.context, open.floor + 1, Some(c.scopeId), c.operation + 2,
                                       Rehydrating(c.scopeId, true, Some(q), Top)))
  {
    var ret := Rehydrating(c.scopeId, true, Some(q), Top);
    events := [];
    LeadsNowhere(s);
    var s1 := MismatchReopens(s, events, s, tid, c, q);
    events := events + [ReplyArrives(tid, Failure(ManagerSessionMismatch))];
    var s2 := ListenerOpens(s, events, s1, tid, c.operation + 1, ret);
    events := events + [ListenerSettles(tid, true)];
    var s3 := OpenReplaces(s, events, s2, tid, ret, open, c.operation + 1);
    events := events + [ReplyArrives(tid, open)];
    u := OpenedActivates(s, events, s3, tid, ret, open.context, open.floor);
    events := events + [Resume(tid)];
  }

  /** Up to the read in the new session. */
  lemma RecoveryOpens(s: Sys, tid: nat, c: Capture, q: nat, open: Reply, activation: Reply) returns (u: Sys)
    requires tid < |s.tasks| && s.tasks[tid].pc == CommandCall(c, true, Some(q), Top)
    requires StillCurrent(s.host, c) && !s.host.reopening
    requires open.OpenReply? && open.floor + 1 <= MAX_COUNTER
    requires activation.ActivationReply? && activation.context == open.context && activation.token == open.floor + 1
    requires activation.scope == Some(c.scopeId)
    requires activation.snapshot.Some? ==>
               SnapshotOf(activation.snapshot.value, open.context, open.floor + 1, c.scopeId, activation.generation)
    ensures Leads(s, OpeningEvents(tid, open, activation), u)
    ensures InSession(u.host, open.context, open.floor + 1, c.scopeId, activation.generation)
    ensures u.host.acceptedRequest == s.host.acceptedRequest && u.host.operation == c.operation + 2
    ensures At(s, u, tid, CommandCall(Capture(open.context, open.floor + 1, c.scopeId, activation.generation, c.operation + 2),
                                      false, None, Rehydrating(c.scopeId, true, Some(q), Top)))
  {
    var ret := Rehydrating(c.scopeId, true, Some(q), Top);
    var s4, events := RecoveryActivates(s, tid, c, q, open);
    var s5 := ActivationIsAccepted(s, events, s4, tid, ret, activation, c.operation + 2);
    events := events + [ReplyArrives(tid, activation)];
    u := ActivatedReads(s, events, s5, tid, ret,
                        Capture(open.context, open.floor + 1, c.scopeId, activation.generation, c.operation + 2));
  }

  /** A read that meets a restarted manager ends well: the host is in the new session, one token above the
      new floor, on the same scope, and has published the replayed snapshot. */
  lemma RestartIsRecovered(
    s: Sys, tid: nat, c: Capture, q: nat, open: Reply, activation: Reply, first: Snapshot, second: Snapshot)
    returns (u: Sys)
    requires tid < |s.tasks| && s.tasks[tid].kind.Reading? && s.tasks[tid].pc == CommandCall(c, true, Some(q), Top)
    requires StillCurrent(s.host, c) && !s.host.reopening && q >= s.host.acceptedRequest
    requires open.OpenReply? && open.floor + 1 <= MAX_COUNTER
    requires activation.ActivationReply? && activation.context == open.context && activation.token == open.floor + 1
    requires activation.scope == Some(c.scopeId)
    requires activation.snapshot.Some? ==>
               SnapshotOf(activation.snapshot.value, open.context, open.floor + 1, c.scopeId, activation.generation)
    requires SnapshotOf(first, open.context, open.floor + 1, c.scopeId, activation.generation)
    requires SnapshotOf(second, open.context, open.floor + 1, c.scopeId, activation.generation)
    ensures Leads(s, RecoveryEvents(tid, open, activation, first, second), u)
    ensures tid < |u.tasks| && u.tasks[tid].pc == Finished(true)
    ensures u.host.context == Some(open.context) && u.host.activationToken == Some(open.floor + 1)
    ensures u.host.scopeId == Some(c.scopeId) && u.host.snapshotState == Some(second) && !u.host.reopening
  {
    var d := Capture(open.context, open.floor + 1, c.scopeId, activation.generation, c.operation + 2);
    var ret := Rehydrating(c.scopeId, true, Some(q), Top);
    var events := OpeningEvents(tid, open, activation);
    var s6 := RecoveryOpens(s, tid, c, q, open, activation);
    var s7 := ReadReturns(s, events, s6, tid, d, ret, first);
    events := events + [ReplyArrives(tid, SnapshotReply(first))];
    var s8 := RecoveryCloses(s, events, s7, tid, ret);
    events := events + [Resume(tid)];
    var s9 := ReadIsReplayed(s, events, s8, tid, d, q, c.scopeId);
    events := events + [Resume(tid)];
    u := ReplayFinishes(s, events, s9, tid, d, q, second);
  }

  // ---- failed activations ----

  /** Of an activation that is still the current attempt, exactly two error codes cost the client and its
      token; any other failure keeps the token that was sent as the floor. Either way the scope is gone. */
  lemma WhichFailuresCostTheClient(s: Sys, tid: nat, r: Reply)
    requires tid < |s.tasks| && s.tasks[tid].pc.ActivateCall?
    requires var pc := s.tasks[tid].pc;
             && !s.host.disposed && s.host.operation == pc.operation
             && s.host.context == Some(pc.context) && s.host.pending == Some(pc.token)
    ensures var h := Step(s, ReplyArrives(tid, r)).host;
            var refused := r == Failure(ClientEpochStale) || r == Failure(ActivationSuperseded);
            && h.pending.None?
            && h.context == (if refused then None else s.host.context)
            && h.activationToken == (if refused then None else Some(s.tasks[tid].pc.token))
            && (!r.ActivationReply? ==>
                  h.scopeId.None? && h.scopeGeneration.None? && h.snapshotState.None? && h.hintFreshness.None?)
  {
  }

  /** A reply to an attempt that is no longer current changes nothing. */
  lemma SupersededActivationIsIgnored(s: Sys, tid: nat, r: Reply)
    requires tid < |s.tasks| && s.tasks[tid].pc.ActivateCall?
    requires var pc := s.tasks[tid].pc;
             s.host.disposed || s.host.operation != pc.operation
             || s.host.context != Some(pc.context) || s.host.pending != Some(pc.token)
    ensures Step(s, ReplyArrives(tid, r)).host == s.host
  {
  }
}
