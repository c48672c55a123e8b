/**
  The SSH forward host as a machine over all interleavings. The state is the host's
  fields plus one task per pending async call; an event runs one segment of one task,
  starts a call, delivers a change hint, or delivers any reply to any call in any order.
*/
module HostRuns {
  import opened Options
  import opened SshWire
  import opened HostSegments

  datatype Kind =
    | Opening | Activating | Purging
    | Mutating | ListingKeys | Reading
    | HintReading(hint: Hint, retry: nat)

  /** Where an inner call returns to: nowhere, or into `rehydrateAfterRestart` running inside
      a command that may afterwards be replayed. */
  datatype Return = Top | Rehydrating(scope: ScopeId, mayReplay: bool, request: Option<nat>, parent: Return)

  datatype Pc =
    | Listening(operation: nat, ret: Return)
    | OpenCall(operation: nat, ret: Return)
    | Opened(ok: bool, ret: Return)
    | ActivateCall(context: Context, token: WireCounter, target: Option<ScopeId>, operation: nat, ret: Return)
    | Activated(ok: bool, ret: Return)
    | PurgeCall
    | Settling
    | CommandCall(capture: Capture, mayReplay: bool, request: Option<nat>, ret: Return)
    | ClosingRehydrate(ret: Return)
    | Rehydrated(ret: Return)
    | HintThen | HintCatch | HintFinally
    | RetryQueued
    | Finished(ok: bool)

  /** `calls` counts all manager calls the task has made, `own` those that carry its own command. */
  datatype Task = Task(kind: Kind, pc: Pc, calls: nat, own: nat)

  /** `tokens` is every activation token sent since the last successful `openClient` reply;
      `floorLost` records that `dispose` ran while an activation was pending. */
  datatype Sys = Sys(host: Host, tasks: seq<Task>, tokens: seq<WireCounter>, floorLost: bool)

  datatype Event =
    | CallOpen | CallActivate(scope: Option<ScopeId>) | CallPurge
    | CallMutation | CallListKeys | CallSnapshot
    | DisposeHost
    | HintArrives(hint: Hint)
    | ListenerSettles(tid: nat, ok: bool)
    | ReplyArrives(tid: nat, reply: Reply)
    | Resume(tid: nat)
    | SubscriberThrows(tid: nat)

  const INITIAL_SYS: Sys := Sys(FRESH_HOST, [], [], false)

  // ---- building blocks ----

  function Spawn(s: Sys, t: Task): Sys {
    s.(tasks := s.tasks + [t])
  }

  function SetPc(s: Sys, tid: nat, pc: Pc): Sys
    requires tid < |s.tasks|
  {
    s.(tasks := s.tasks[tid := s.tasks[tid].(pc := pc)])
  }

  /** The task makes one more manager call and waits for its reply. */
  function Send(s: Sys, tid: nat, pc: Pc, own: bool): Sys
    requires tid < |s.tasks|
  {
    var t := s.tasks[tid];
    s.(tasks := s.tasks[tid := t.(pc := pc, calls := t.calls + 1, own := if own then t.own + 1 else t.own)])
  }

  function SpawnHintRead(s: Sys, hint: Option<Hint>): Sys {
    if hint.Some? then Spawn(s, Task(HintReading(hint.value, 0), Settling, 0, 0)) else s
  }

  /** The task's own command has settled, or could not be issued. */
  function CompleteOwn(s: Sys, tid: nat, ok: bool): Sys
    requires tid < |s.tasks|
  {
    match s.tasks[tid].kind
    case Mutating =>
      var (h, start) := FinishMutation(s.host);
      SpawnHintRead(SetPc(s, tid, Finished(ok)).(host := h), start)
    case HintReading(_, _) => SetPc(s, tid, if ok then HintThen else HintCatch)
    case _ => SetPc(s, tid, Finished(ok))
  }

  /** A command call settles: back to the caller, or on with the rehydration it was part of. */
  function CompleteCommand(s: Sys, tid: nat, ret: Return, ok: bool): Sys
    requires tid < |s.tasks|
  {
    if ret.Top? then CompleteOwn(s, tid, ok) else SetPc(s, tid, ClosingRehydrate(ret))
  }

  // ---- segments started by a reply ----

  function OnOpenReply(s: Sys, tid: nat, operation: nat, ret: Return, r: Reply): Sys
    requires tid < |s.tasks|
  {
    var (h, ok) := EndOpen(s.host, operation, r);
    SetPc(s, tid, if ret.Top? then Finished(ok) else Opened(ok, ret))
    .(host := h, tokens := if ok then [] else s.tokens)
  }

  function OnActivateReply(s: Sys, tid: nat, pc: Pc, r: Reply): Sys
    requires tid < |s.tasks| && pc.ActivateCall?
  {
    var (h, ok) := EndActivate(s.host, pc.context, pc.token, pc.target, pc.operation, r);
    SetPc(s, tid, if pc.ret.Top? then Finished(ok) else Activated(ok, pc.ret)).(host := h)
  }

  function OnCommandReply(s: Sys, tid: nat, pc: Pc, r: Reply): Sys
    requires tid < |s.tasks| && pc.CommandCall?
  {
    match EndCommand(s.host, pc.capture, pc.request, r)
    case Returned(h) => CompleteCommand(s.(host := h), tid, pc.ret, true)
    case Thrown(h) => CompleteCommand(s.(host := h), tid, pc.ret, false)
    case Restarting(h) =>
      var opening := BeginOpen(h);
      SetPc(s, tid, Listening(opening.operation, Rehydrating(pc.capture.scopeId, pc.mayReplay, pc.request, pc.ret)))
      .(host := opening)
  }

  function OnReply(s: Sys, tid: nat, r: Reply): Sys
    requires tid < |s.tasks|
  {
    match s.tasks[tid].pc
    case OpenCall(operation, ret) => OnOpenReply(s, tid, operation, ret, r)
    case ActivateCall(_, _, _, _, _) => OnActivateReply(s, tid, s.tasks[tid].pc, r)
    case PurgeCall => SetPc(s, tid, Finished(r.PurgeReply?))
    case CommandCall(_, _, _, _) => OnCommandReply(s, tid, s.tasks[tid].pc, r)
    case _ => s
  }

  // ---- segments started by a settled inner promise ----

  /** `snapshot()` after `waitForMutationsToSettle`: number the request and issue the read. */
  function IssueRead(s: Sys, tid: nat): Sys
    requires tid < |s.tasks|
  {
    var numbered := s.(host := BeginSnapshot(s.host));
    var capture := CaptureFor(numbered.host, false);
    if capture.None? then CompleteOwn(numbered, tid, false)
    else Send(numbered, tid, CommandCall(capture.value, true, Some(numbered.host.requestSequence), Top), true)
  }

  function ActivateAfterOpen(s: Sys, tid: nat, ret: Return): Sys
    requires tid < |s.tasks| && ret.Rehydrating?
  {
    var token := NextToken(s.host);
    if token.None? then SetPc(s, tid, ClosingRehydrate(ret))
    else
      var h := BeginActivate(s.host, token.value);
      Send(s, tid, ActivateCall(h.context.value, token.value, Some(ret.scope), h.operation, ret), false)
      .(host := h, tokens := s.tokens + [token.value])
  }

  function ReadAfterActivate(s: Sys, tid: nat, ret: Return): Sys
    requires tid < |s.tasks|
  {
    var capture := CaptureFor(s.host, false);
    if s.host.scopeId.None? || s.host.scopeGeneration.None? || capture.None? then SetPc(s, tid, ClosingRehydrate(ret))
    else Send(s, tid, CommandCall(capture.value, false, None, ret), false)
  }

  function ReplayOrThrow(s: Sys, tid: nat, ret: Return): Sys
    requires tid < |s.tasks| && ret.Rehydrating?
  {
    var capture := CaptureFor(s.host, false);
    if ret.mayReplay && capture.Some?
    then Send(s, tid, CommandCall(capture.value, false, ret.request, ret.parent), true)
    else CompleteCommand(s, tid, ret.parent, false)
  }

  function RetryHint(s: Sys, tid: nat, hint: Hint): Sys
    requires tid < |s.tasks|
  {
    var (h, started) := RequestHint(s.host, hint);
    SetPc(s, tid, if started then Settling else Finished(true)).(host := h)
  }

  function CatchHint(s: Sys, tid: nat, hint: Hint, retry: nat): Sys
    requires tid < |s.tasks|
  {
    var closing := SetPc(s, tid, HintFinally);
    if !s.host.disposed && retry < 1 && !s.host.trailing
    then Spawn(closing, Task(HintReading(hint, retry + 1), RetryQueued, 0, 0))
    else closing
  }

  function CloseHint(s: Sys, tid: nat, hint: Hint): Sys
    requires tid < |s.tasks|
  {
    var (h, start) := FinishHintRead(s.host, hint);
    SpawnHintRead(SetPc(s, tid, Finished(true)).(host := h), start)
  }

  function OnResume(s: Sys, tid: nat): Sys
    requires tid < |s.tasks|
  {
    var t := s.tasks[tid];
    match t.pc
    case Settling => if tid in s.host.mutationWaiters then s else IssueRead(s, tid)
    case Opened(ok, ret) =>
      if ok && ret.Rehydrating? then ActivateAfterOpen(s, tid, ret) else SetPc(s, tid, ClosingRehydrate(ret))
    case Activated(ok, ret) =>
      if ok then ReadAfterActivate(s, tid, ret) else SetPc(s, tid, ClosingRehydrate(ret))
    case ClosingRehydrate(ret) => SetPc(s, tid, Rehydrated(ret)).(host := s.host.(reopening := false))
    case Rehydrated(ret) =>
      if ret.Rehydrating? then ReplayOrThrow(s, tid, ret) else s
    case HintThen => SetPc(s, tid, HintFinally)
    case HintCatch => if t.kind.HintReading? then CatchHint(s, tid, t.kind.hint, t.kind.retry) else s
    case HintFinally => if t.kind.HintReading? then CloseHint(s, tid, t.kind.hint) else s
    case RetryQueued => if t.kind.HintReading? then RetryHint(s, tid, t.kind.hint) else s
    case _ => s
  }

  // ---- segments started by a call or an event ----

  function StartOpen(s: Sys): Sys {
    var h := BeginOpen(s.host);
    Spawn(s, Task(Opening, Listening(h.operation, Top), 0, 0)).(host := h)
  }

  /** A call that throws before its first await changes nothing and leaves no task. */
  function StartActivate(s: Sys, scope: Option<ScopeId>): Sys {
    var token := NextToken(s.host);
    if token.None? then s
    else
      var h := BeginActivate(s.host, token.value);
      Spawn(s, Task(Activating, ActivateCall(h.context.value, token.value, scope, h.operation, Top), 1, 1))
      .(host := h, tokens := s.tokens + [token.value])
  }

  function StartPurge(s: Sys): Sys {
    if s.host.context.None? || s.host.activationToken.None? then s
    else Spawn(s, Task(Purging, PurgeCall, 1, 1)).(host := s.host.(operation := s.host.operation + 1))
  }

  function StartMutation(s: Sys): Sys {
    var capture := CaptureFor(s.host, true);
    if capture.None? then s
    else
      Spawn(s, Task(Mutating, CommandCall(capture.value, false, None, Top), 1, 1))
      .(host := BeginMutation(s.host))
  }

  function StartListKeys(s: Sys): Sys {
    var capture := CaptureFor(s.host, false);
    if capture.None? then s
    else Spawn(s, Task(ListingKeys, CommandCall(capture.value, false, None, Top), 1, 1))
  }

  function StartSnapshot(s: Sys): Sys {
    var waiting := s.host.mutationInFlight != 0;
    Spawn(s, Task(Reading, Settling, 0, 0))
    .(host := if waiting then s.host.(mutationWaiters := s.host.mutationWaiters + [|s.tasks|]) else s.host)
  }

  function OnHint(s: Sys, hint: Hint): Sys {
    if Admits(s.host, hint) then
      var (h, started) := RequestHint(s.host, hint);
      SpawnHintRead(s.(host := h), if started then Some(hint) else None)
    else s
  }

  /** One segment. An event that does not apply in `s` leaves `s` as it is. */
  function Step(s: Sys, e: Event): Sys {
    match e
    case CallOpen => StartOpen(s)
    case CallActivate(scope) => StartActivate(s, scope)
    case CallPurge => StartPurge(s)
    case CallMutation => StartMutation(s)
    case CallListKeys => StartListKeys(s)
    case CallSnapshot => StartSnapshot(s)
    case DisposeHost =>
      s.(host := Dispose(s.host), floorLost := s.floorLost || (!s.host.disposed && s.host.pending.Some?))
    case HintArrives(hint) => OnHint(s, hint)
    case ListenerSettles(tid, ok) =>
      if tid < |s.tasks| && s.tasks[tid].pc.Listening? then
        var pc := s.tasks[tid].pc;
        if ok then Send(s, tid, OpenCall(pc.operation, pc.ret), pc.ret.Top?)
        else SetPc(s, tid, if pc.ret.Top? then Finished(false) else Opened(false, pc.ret))
      else s
    case ReplyArrives(tid, r) => if tid < |s.tasks| then OnReply(s, tid, r) else s
    case Resume(tid) => if tid < |s.tasks| then OnResume(s, tid) else s
    case SubscriberThrows(tid) =>
      if tid < |s.tasks| && s.tasks[tid].pc.HintThen? then SetPc(s, tid, HintCatch) else s
  }

  /** The state after a run of events, from the host's construction on. */
  function Run(events: seq<Event>): Sys {
    if events == [] then INITIAL_SYS
    else Step(Run(events[..|events| - 1]), events[|events| - 1])
  }
}
