/**
  The SSH forward host object driven by events: whatever is called, replied or hinted, in
  whatever order, its fields are those of the machine, so what is proved of every run
  holds of the object. The tasks, which are the suspended calls, are the driver's.
*/
module HostDriver {
  import opened Options
  import opened SshWire
  import opened HostSegments
  import opened HostRuns
  import opened ForwardHost

  /** A command has settled: back to its caller, or on with the rehydration it was part of. */
  method Complete(host: NativeSshForwardHost, s: Sys, tid: nat, ret: Return, ok: bool)
    requires tid < |s.tasks| && host.View() == s.host
    modifies host
    ensures host.View() == CompleteCommand(s, tid, ret, ok).host
  {
    if ret.Top? && s.tasks[tid].kind.Mutating? {
      var woken, start := host.MutationFinished();
    }
  }

  method CommandAnswered(host: NativeSshForwardHost, s: Sys, tid: nat, pc: Pc, r: Reply)
    requires tid < |s.tasks| && pc.CommandCall? && host.View() == s.host
    modifies host
    ensures host.View() == OnCommandReply(s, tid, pc, r).host
  {
    var outcome := host.CommandReplied(pc.capture, pc.request, r);
    if outcome.MustRehydrate? {
      var operation := host.OpenCalled();
    } else {
      Complete(host, s.(host := host.View()), tid, pc.ret, outcome.ResultReturned?);
    }
  }

  method Answered(host: NativeSshForwardHost, s: Sys, tid: nat, r: Reply)
    requires tid < |s.tasks| && host.View() == s.host
    modifies host
    ensures host.View() == OnReply(s, tid, r).host
  {
    match s.tasks[tid].pc {
      case OpenCall(operation, _) => var ok := host.OpenReplied(operation, r);
      case ActivateCall(context, token, target, operation, _) =>
        var ok := host.ActivateReplied(context, token, target, operation, r);
      case CommandCall(_, _, _, _) => CommandAnswered(host, s, tid, s.tasks[tid].pc, r);
      case _ =>
    }
  }

  /** `snapshot()` goes on after mutations have settled. */
  method ReadIssued(host: NativeSshForwardHost, s: Sys, tid: nat)
    requires tid < |s.tasks| && host.View() == s.host
    modifies host
    ensures host.View() == IssueRead(s, tid).host
  {
    var request := host.SnapshotNumbered();
    var capture := host.CommandCalled(false);
    if capture.None? {
      Complete(host, s.(host := host.View()), tid, Top, false);
    }
  }

  /** A rehydration is over: the command is replayed, or throws. */
  method Replayed(host: NativeSshForwardHost, s: Sys, tid: nat, ret: Return)
    requires tid < |s.tasks| && ret.Rehydrating? && host.View() == s.host
    modifies host
    ensures host.View() == ReplayOrThrow(s, tid, ret).host
  {
    var capture := host.CommandCalled(false);
    if !(ret.mayReplay && capture.Some?) {
      Complete(host, s, tid, ret.parent, false);
    }
  }

  method Resumed(host: NativeSshForwardHost, s: Sys, tid: nat)
    requires tid < |s.tasks| && host.View() == s.host
    modifies host
    ensures host.View() == OnResume(s, tid).host
  {
    var t := s.tasks[tid];
    match t.pc {
      case Settling => if tid !in host.mutationWaiters { ReadIssued(host, s, tid); }
      case Opened(ok, ret) => if ok && ret.Rehydrating? { var token := host.ActivateCalled(); }
      case ClosingRehydrate(_) => host.RehydrateClosed();
      case Rehydrated(ret) => if ret.Rehydrating? { Replayed(host, s, tid, ret); }
      case HintFinally => if t.kind.HintReading? { var start := host.HintReadFinished(t.kind.hint); }
      case RetryQueued => if t.kind.HintReading? { var started := host.RequestHintSnapshot(t.kind.hint); }
      case _ =>
    }
  }

  /** A call of one of the host's methods. */
  method Called(host: NativeSshForwardHost, s: Sys, e: Event)
    requires e.CallOpen? || e.CallActivate? || e.CallPurge? || e.CallMutation? || e.CallListKeys? || e.CallSnapshot?
    requires host.View() == s.host
    modifies host
    ensures host.View() == Step(s, e).host
  {
    match e {
      case CallOpen => var operation := host.OpenCalled();
      case CallActivate(_) => var token := host.ActivateCalled();
      case CallPurge => var sent := host.PurgeCalled();
      case CallMutation => var capture := host.CommandCalled(true);
      case CallListKeys => var capture := host.CommandCalled(false);
      case CallSnapshot => var settled := host.WaitForMutationsToSettle(|s.tasks|);
    }
  }

  method Deliver(host: NativeSshForwardHost, s: Sys, e: Event)
    requires host.View() == s.host
    modifies host
    ensures host.View() == Step(s, e).host
  {
    match e {
      case DisposeHost => host.DisposeNow();
      case HintArrives(hint) => var started := host.HandleHint(hint);
      case ListenerSettles(_, _) =>
      case SubscriberThrows(_) =>
      case ReplyArrives(tid, r) => if tid < |s.tasks| { Answered(host, s, tid, r); }
      case Resume(tid) => if tid < |s.tasks| { Resumed(host, s, tid); }
      case _ => Called(host, s, e);
    }
  }

  /** A new host after any events has the fields of the machine's run. */
  method Drive(events: seq<Event>) returns (host: NativeSshForwardHost)
    ensures host.View() == Run(events).host
  {
    host := new NativeSshForwardHost();
    var s := INITIAL_SYS;
    for i := 0 to |events|
      invariant fresh(host) && s == Run(events[..i]) && host.View() == s.host
    {
      Deliver(host, s, events[i]);
      assert events[..i + 1][..i] == events[..i];
      s := Step(s, events[i]);
    }
    assert events[..|events|] == events;
  }
}
