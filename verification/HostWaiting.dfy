/**
  A read sees the mutations before it: asked for while mutations are in flight, it is not
  sent before every one of them has ended, unless the host is disposed of.
*/
module HostWaiting {
  import opened Options
  import opened SshWire
  import opened HostSegments
  import opened HostRuns
  import opened HostInvariants
  import opened HostTheorems

  /** Waiters are let go only when no mutation is in flight. */
  predicate WaitersKept(h: Host, g: Host) {
    g.disposed == h.disposed && (g.mutationWaiters == h.mutationWaiters || g.mutationInFlight <= 0)
  }

  /** Only the task at `tid` moves, and no task changes its kind. */
  ghost predicate MovesOnly(s: Sys, u: Sys, tid: nat) {
    && |s.tasks| <= |u.tasks|
    && (forall j | 0 <= j < |s.tasks| && j != tid :: u.tasks[j] == s.tasks[j])
    && (tid < |s.tasks| ==> u.tasks[tid].kind == s.tasks[tid].kind)
  }

  ghost predicate Apart(s: Sys, u: Sys, tid: nat) {
    MovesOnly(s, u, tid) && WaitersKept(s.host, u.host)
  }

  lemma FlushKeepsWaiters(h: Host, fallback: Option<Hint>)
    ensures var g := Flush(h, fallback).0;
            && g.mutationWaiters == h.mutationWaiters && g.mutationInFlight == h.mutationInFlight && g.disposed == h.disposed
  {
  }

  lemma FinishKeepsWaiters(h: Host)
    ensures WaitersKept(h, FinishMutation(h).0)
  {
    FlushKeepsWaiters(h.(mutationInFlight := h.mutationInFlight - 1, mutationWaiters := []), None);
  }

  lemma CompleteOwnApart(s: Sys, tid: nat, ok: bool)
    requires tid < |s.tasks|
    ensures Apart(s, CompleteOwn(s, tid, ok), tid)
  {
    FinishKeepsWaiters(s.host);
  }

  lemma CompleteApart(s: Sys, tid: nat, ret: Return, ok: bool)
    requires tid < |s.tasks|
    ensures Apart(s, CompleteCommand(s, tid, ret, ok), tid)
  {
    CompleteOwnApart(s, tid, ok);
  }

  // ---- replies ----

  lemma EndKeepsWaiters(h: Host, c: Capture, request: Option<nat>, r: Reply)
    ensures var g := EndCommand(h, c, request, r).host;
            g.mutationWaiters == h.mutationWaiters && g.mutationInFlight == h.mutationInFlight && g.disposed == h.disposed
  {
  }

  lemma CommandReplyApart(s: Sys, tid: nat, r: Reply)
    requires tid < |s.tasks| && s.tasks[tid].pc.CommandCall?
    ensures Apart(s, OnCommandReply(s, tid, s.tasks[tid].pc, r), tid)
  {
    var pc := s.tasks[tid].pc;
    EndKeepsWaiters(s.host, pc.capture, pc.request, r);
    match EndCommand(s.host, pc.capture, pc.request, r) {
      case Returned(h) => CompleteApart(s.(host := h), tid, pc.ret, true);
      case Thrown(h) => CompleteApart(s.(host := h), tid, pc.ret, false);
      case Restarting(_) =>
    }
  }

  lemma SessionReplyApart(s: Sys, tid: nat, r: Reply)
    requires tid < |s.tasks|
    ensures var pc := s.tasks[tid].pc;
            && (pc.OpenCall? ==> Apart(s, OnOpenReply(s, tid, pc.operation, pc.ret, r), tid))
            && (pc.ActivateCall? ==> Apart(s, OnActivateReply(s, tid, pc, r), tid))
  {
  }

  lemma ReplyApart(s: Sys, tid: nat, r: Reply)
    requires tid < |s.tasks|
    ensures Apart(s, OnReply(s, tid, r), tid)
  {
    var pc := s.tasks[tid].pc;
    if pc.CommandCall? { CommandReplyApart(s, tid, r); } else { SessionReplyApart(s, tid, r); }
  }

  // ---- promise reactions ----

  lemma IssueApart(s: Sys, tid: nat)
    requires tid < |s.tasks|
    ensures Apart(s, IssueRead(s, tid), tid)
  {
    CompleteOwnApart(s.(host := BeginSnapshot(s.host)), tid, false);
  }

  lemma RehydrateApart(s: Sys, tid: nat, ret: Return)
    requires tid < |s.tasks| && ret.Rehydrating?
    ensures Apart(s, ActivateAfterOpen(s, tid, ret), tid) && Apart(s, ReadAfterActivate(s, tid, ret), tid)
    ensures Apart(s, ReplayOrThrow(s, tid, ret), tid)
  {
    CompleteApart(s, tid, ret.parent, false);
  }

  lemma HintApart(s: Sys, tid: nat, hint: Hint, retry: nat)
    requires tid < |s.tasks|
    ensures Apart(s, CatchHint(s, tid, hint, retry), tid) && Apart(s, CloseHint(s, tid, hint), tid)
    ensures Apart(s, RetryHint(s, tid, hint), tid)
  {
    FlushKeepsWaiters(s.host.(snapshotInFlight := false), Some(hint));
  }

  lemma HintResumeApart(s: Sys, tid: nat)
    requires tid < |s.tasks|
    requires var pc := s.tasks[tid].pc; pc.HintThen? || pc.HintCatch? || pc.HintFinally? || pc.RetryQueued?
    ensures Apart(s, OnResume(s, tid), tid)
  {
    var t := s.tasks[tid];
    if t.kind.HintReading? { HintApart(s, tid, t.kind.hint, t.kind.retry); }
  }

  lemma RehydrateResumeApart(s: Sys, tid: nat)
    requires tid < |s.tasks|
    requires var pc := s.tasks[tid].pc; pc.Opened? || pc.Activated? || pc.ClosingRehydrate? || pc.Rehydrated?
    ensures Apart(s, OnResume(s, tid), tid)
  {
    var pc := s.tasks[tid].pc;
    if pc.ret.Rehydrating? { RehydrateApart(s, tid, pc.ret); } else if pc.Activated? { ActivatedApart(s, tid, pc.ret); }
  }

  lemma ResumeApart(s: Sys, tid: nat)
    requires tid < |s.tasks|
    ensures Apart(s, OnResume(s, tid), tid)
  {
    var pc := s.tasks[tid].pc;
    if pc.HintThen? || pc.HintCatch? || pc.HintFinally? || pc.RetryQueued? { HintResumeApart(s, tid); }
    else if pc.Opened? || pc.Activated? || pc.ClosingRehydrate? || pc.Rehydrated? { RehydrateResumeApart(s, tid); }
    else if pc.Settling? { IssueApart(s, tid); }
  }

  lemma ActivatedApart(s: Sys, tid: nat, ret: Return)
    requires tid < |s.tasks|
    ensures Apart(s, ReadAfterActivate(s, tid, ret), tid)
  {
  }

  // ---- steps ----

  lemma ReplyStepApart(s: Sys, tid: nat, r: Reply)
    requires tid < |s.tasks|
    ensures Apart(s, Step(s, ReplyArrives(tid, r)), tid)
  {
    ReplyApart(s, tid, r);
    ReplyIsHostStep(s, tid, r, OnReply(s, tid, r));
  }

  lemma OtherStepApart(s: Sys, e: Event, tid: nat)
    requires tid < |s.tasks| && Addressee(e) == Some(tid) && !e.ReplyArrives?
    ensures Apart(s, Step(s, e), tid)
  {
    if e.Resume? { ResumeApart(s, tid); }
  }

  lemma AddressedApart(s: Sys, e: Event, tid: nat)
    requires Addressee(e) == Some(tid) && tid < |s.tasks|
    ensures Apart(s, Step(s, e), tid)
  {
    if e.ReplyArrives? { ReplyStepApart(s, tid, e.reply); } else { OtherStepApart(s, e, tid); }
  }

  /** Calls, disposal and hints leave all tasks alone, and but for disposal all waiters. */
  lemma UnaddressedKeeps(s: Sys, e: Event)
    requires Addressee(e).None?
    ensures var u := Step(s, e);
            && |s.tasks| <= |u.tasks| && (forall j | 0 <= j < |s.tasks| :: u.tasks[j] == s.tasks[j])
            && (s.host.disposed ==> u.host.disposed)
            && (u.host.disposed || s.host.mutationWaiters <= u.host.mutationWaiters)
  {
  }

  /** Nothing moves a task that has ended, or one that waits. */
  lemma IdleStays(s: Sys, e: Event, tid: nat)
    requires Addressee(e) == Some(tid)
    requires tid < |s.tasks| ==> s.tasks[tid].pc.Finished? || (s.tasks[tid].pc.Settling? && tid in s.host.mutationWaiters)
    ensures Step(s, e) == s
  {
  }

  /** The mutation has ended or the read still waits. */
  predicate Held(s: Sys, mutation: nat, read: nat) {
    && mutation < |s.tasks| && read < |s.tasks| && s.tasks[mutation].kind.Mutating?
    && (s.host.disposed || s.tasks[mutation].pc.Finished?
        || (s.tasks[read].pc.Settling? && read in s.host.mutationWaiters))
  }

  lemma AddressedKeepsHeld(s: Sys, e: Event, tid: nat, mutation: nat, read: nat)
    requires Inv(Step(s, e)) && Held(s, mutation, read) && Addressee(e) == Some(tid) && mutation != read
    ensures Held(Step(s, e), mutation, read)
  {
    var u := Step(s, e);
    if tid < |s.tasks| {
      AddressedApart(s, e, tid);
      if s.tasks[mutation].pc.Finished? {
        if tid == mutation { IdleStays(s, e, tid); }
      } else if !s.host.disposed {
        if tid == read { IdleStays(s, e, tid); }
        if u.host.mutationInFlight <= 0 {
          TallyCovers(u.tasks, mutation);
        }
      }
    } else {
      IdleStays(s, e, tid);
    }
  }

  lemma StepKeepsHeld(s: Sys, e: Event, mutation: nat, read: nat)
    requires Inv(s) && Held(s, mutation, read) && mutation != read
    ensures Held(Step(s, e), mutation, read)
  {
    StepKeeps(s, e);
    if Addressee(e).Some? {
      AddressedKeepsHeld(s, e, Addressee(e).value, mutation, read);
    } else {
      UnaddressedKeeps(s, e);
    }
  }

  /** A read that is asked for while a mutation holds its slot registers as a waiter. */
  lemma ReadIsHeld(s: Sys, mutation: nat)
    requires Inv(s) && mutation < |s.tasks| && HoldsSlot(s.tasks[mutation])
    ensures Held(Step(s, CallSnapshot), mutation, |s.tasks|)
  {
    TallyCovers(s.tasks, mutation);
  }

  /** The read asked for at event `n` is not sent, whatever happens, before a mutation that was in flight at that
      moment has ended, unless the host is disposed of. */
  lemma {:induction false} ReadsFollowMutations(events: seq<Event>, n: nat, mutation: nat)
    requires n < |events| && events[n] == CallSnapshot
    requires mutation < |Run(events[..n]).tasks| && HoldsSlot(Run(events[..n]).tasks[mutation])
    ensures var s, read := Run(events), |Run(events[..n]).tasks|;
            && mutation < |s.tasks| && read < |s.tasks|
            && (s.tasks[read].pc.Settling? || s.tasks[mutation].pc.Finished? || s.host.disposed)
            && Held(s, mutation, read)
    decreases |events|
  {
    var before := events[..|events| - 1];
    RunKeeps(before);
    if n == |events| - 1 {
      ReadIsHeld(Run(before), mutation);
    } else {
      assert before[..n] == events[..n] && before[n] == events[n];
      ReadsFollowMutations(before, n, mutation);
      StepKeepsHeld(Run(before), events[|events| - 1], mutation, |Run(events[..n]).tasks|);
    }
  }
}
