/**
  The host shows what was asked for last. The request and the page the child was created
  with are read off the events alone, so that the host's own bookkeeping is measured
  against them.
*/
module BrowserRequests {
  import opened Options
  import opened BrowserSegments
  import opened BrowserRuns
  import opened BrowserInvariants
  import opened BrowserTheorems

  /** A target with the profile it is to be opened in. */
  datatype Page = Page(target: Option<Target>, profile: Option<string>)

  const NOTHING: Page := Page(None, None)

  /** What was asked for last; a disposed host takes no targets. */
  function Requested(events: seq<Event>): Page {
    if events == [] then NOTHING
    else
      var before, e := events[..|events| - 1], events[|events| - 1];
      match e
      case CallSetTarget(target, active) =>
        if CallDispose in before then Requested(before)
        else if target.Some? then Page(target, active) else NOTHING
      case CallDestroy => NOTHING
      case CallDispose => NOTHING
      case _ => Requested(before)
  }

  /** The page of the child after one more native call has replied. */
  function PageAfter(was: Option<Page>, r: Running, ok: bool, left: bool): Option<Page> {
    if r.stage.Destroying? && (ok || !left) then None
    else if r.stage.Creating? && r.job.TargetJob? && (ok || left) then Some(Page(r.job.target, r.job.profile))
    else was
  }

  /** What the child, if there is one, was created for. */
  function ChildPage(events: seq<Event>): Option<Page> {
    if events == [] then None
    else
      var before, e := events[..|events| - 1], events[|events| - 1];
      var h := Run(before).h;
      if e.Reply? && h.running.Some? then PageAfter(ChildPage(before), h.running.value, e.ok, e.left) else ChildPage(before)
  }

  /** A listening or creating call of the current operation fails in this step. */
  predicate Fails(s: Sys, e: Event) {
    && e.Reply? && !e.ok && s.h.running.Some? && s.h.running.value.job.op == s.h.operation
    && (s.h.running.value.stage.Listening? || s.h.running.value.stage.Creating?)
  }

  /** Registering the listeners or creating the child has failed for the current operation. */
  predicate OpenFailed(events: seq<Event>) {
    events != [] &&
    var before, e := events[..|events| - 1], events[|events| - 1];
    var h := Run(before).h;
    && Run(events).h.operation == h.operation
    && (OpenFailed(before) || Fails(Run(before), e))
  }

  // ---- what steps leave alone ----

  predicate SameRequest(h: Host, g: Host) {
    && g.target == h.target && g.profile == h.profile && g.operation == h.operation && g.disposed == h.disposed
    && (g.targetPending ==> h.targetPending)
  }

  /** No target task is new. */
  ghost predicate NoNewTarget(h: Host, g: Host) {
    && (forall job | job in g.queue && job.TargetJob? :: job in h.queue)
    && (g.running.Some? && g.running.value.job.TargetJob? ==>
          (h.running.Some? && g.running.value.job == h.running.value.job) || g.running.value.job in h.queue)
  }

  ghost predicate Onward(h: Host, g: Host) {
    SameRequest(h, g) && NoNewTarget(h, g)
  }

  /** Nothing is queued either; the running task goes on or ends. */
  predicate Undisturbed(h: Host, g: Host) {
    && SameRequest(h, g) && g.queue == h.queue
    && (g.running.Some? ==> h.running.Some? && g.running.value.job == h.running.value.job)
  }

  lemma UndisturbedGoesOn(h: Host, g: Host)
    requires Undisturbed(h, g)
    ensures Onward(h, g)
  {
  }

  lemma GoesOnThen(h: Host, g: Host, f: Host)
    requires Onward(h, g) && Onward(g, f)
    ensures Onward(h, f)
  {
  }

  // ---- calls and timers ----

  lemma EnqueueGoesOn(h: Host, job: Job)
    requires !job.TargetJob?
    ensures Onward(h, Enqueue(h, job))
  {
  }

  lemma ZoomGoesOn(h: Host, scale: Zoom)
    ensures Onward(h, SetZoom(h, scale)) && SetZoom(h, scale).running == h.running
    ensures SetZoom(h, scale).state == h.state
  {
  }

  lemma ViewportGoesOn(h: Host, viewport: Option<Rect>)
    ensures Onward(h, SetViewport(h, viewport))
    ensures SetViewport(h, viewport).running == h.running && SetViewport(h, viewport).state == h.state
  {
    var v := h.(viewport := viewport);
    ZoomGoesOn(v, h.zoom);
    UndisturbedGoesOn(h, v);
    GoesOnThen(h, v, SetZoom(v, h.zoom));
    EnqueueGoesOn(SetZoom(v, h.zoom), ViewportJob(h.operation));
    GoesOnThen(h, SetZoom(v, h.zoom), Enqueue(SetZoom(v, h.zoom), ViewportJob(h.operation)));
  }

  lemma CommandGoesOn(h: Host)
    ensures Onward(h, SendCommand(h))
  {
    EnqueueGoesOn(h, CommandJob(h.operation));
    UndisturbedGoesOn(h, h);
  }

  lemma TimersGoOn(h: Host)
    ensures Onward(h, TimerFires(h)) && Onward(h, BridgeReady(h))
  {
    UndisturbedGoesOn(h, TimerFires(h));
    UndisturbedGoesOn(h, BridgeReady(h));
  }

  // ---- tasks ----

  /** A task that starts keeps all but the queue, or ends. */
  lemma StartJobSplits(h: Host, job: Job)
    requires h.running.None?
    ensures var g := StartJob(h, job);
            SameRequest(h, g) && g.queue == h.queue && g.state == h.state && (g.running.Some? ==> g.running.value.job == job)
  {
  }

  lemma StartGoesOn(h: Host)
    ensures Onward(h, NextJob(h)) && NextJob(h).state == h.state
  {
    if h.running.None? && h.queue != [] {
      StartJobSplits(Dequeued(h), h.queue[0]);
      assert forall job | job in Dequeued(h).queue :: job in h.queue;
    } else {
      UndisturbedGoesOn(h, h);
    }
  }

  lemma DestroyReplyGoesOn(h: Host, r: Running, ok: bool)
    requires h.running == Some(r) && r.stage.Destroying?
    ensures Undisturbed(h, DestroyReplied(h, r.job, r.stage.late, r.stage.attempts, ok))
  {
  }

  lemma AfterCreationZoomGoesOn(h: Host, r: Running, relay: bool)
    requires h.running == Some(r)
    ensures Undisturbed(h, AfterCreationZoom(h, r.job, relay)) && AfterCreationZoom(h, r.job, relay).state == h.state
  {
  }

  lemma CreateReplyGoesOn(h: Host, r: Running, ok: bool, relay: bool)
    requires h.running == Some(r) && r.stage.Creating?
    ensures var g := CreateReplied(h, r.job, r.stage.zoom, ok, relay);
            Undisturbed(h, g) && g.state == if ok && IsCurrent(h, r.job.op) then Some(NativeState(relay)) else h.state
  {
    var g := h.(state := Some(NativeState(relay)), targetPending := false);
    AfterCreationZoomGoesOn(
      g.(lastApplied := Some(r.stage.zoom), pending := if g.pending == Some(r.stage.zoom) then None else g.pending), r, relay);
  }

  lemma ZoomReplyGoesOn(h: Host, r: Running, ok: bool)
    requires h.running == Some(r) && r.stage.Zooming?
    ensures var g := AfterZoom(ZoomReplied(h, r.job.op, r.stage.scale, r.stage.request, ok), r.job, ok, r.stage.relay);
            Onward(h, g) && g.state == h.state
  {
    var z := ZoomReplied(h, r.job.op, r.stage.scale, r.stage.request, ok);
    assert Undisturbed(h, z) && z.running == h.running && z.state == h.state;
    UndisturbedGoesOn(h, z);
    if r.stage.relay.None? {
      UndisturbedGoesOn(h, Finish(z));
    } else {
      ZoomGoesOn(z, z.zoom);
      var y := if !ok && IsCurrent(z, r.job.op) then SetZoom(z, z.zoom) else z;
      GoesOnThen(h, z, y);
      AfterCreationZoomGoesOn(y, r, r.stage.relay.value);
      UndisturbedGoesOn(y, AfterCreationZoom(y, r.job, r.stage.relay.value));
      GoesOnThen(h, y, AfterCreationZoom(y, r.job, r.stage.relay.value));
    }
  }

  lemma ListenReplyGoesOn(h: Host, r: Running, ok: bool)
    requires h.running == Some(r) && r.stage.Listening?
    ensures Undisturbed(h, ListenReplied(h, r.job, ok)) && ListenReplied(h, r.job, ok).state == h.state
  {
  }

  lemma OtherReplyGoesOn(h: Host, r: Running, ok: bool, relay: bool)
    requires h.running == Some(r)
    requires r.stage.Retrying? || r.stage.SettingBounds? || r.stage.SettingVisible? || r.stage.Commanding?
    ensures Undisturbed(h, Replied(h, r, ok, relay)) && Replied(h, r, ok, relay).state == h.state
  {
  }

  lemma ReplyGoesOn(h: Host, r: Running, ok: bool, relay: bool)
    requires h.running == Some(r)
    ensures Onward(h, Replied(h, r, ok, relay))
    ensures Replied(h, r, ok, relay).state ==
              if r.stage.Creating? && ok && IsCurrent(h, r.job.op) then Some(NativeState(relay)) else h.state
  {
    if r.stage.Zooming? {
      ZoomReplyGoesOn(h, r, ok);
    } else {
      if r.stage.Destroying? { DestroyReplyGoesOn(h, r, ok); DestroyReplyKeepsState(h, r, ok); }
      else if r.stage.Creating? { CreateReplyGoesOn(h, r, ok, relay); }
      else if r.stage.Listening? { ListenReplyGoesOn(h, r, ok); }
      else { OtherReplyGoesOn(h, r, ok, relay); }
      UndisturbedGoesOn(h, Replied(h, r, ok, relay));
    }
  }

  lemma DestroyReplyKeepsState(h: Host, r: Running, ok: bool)
    requires r.stage.Destroying?
    ensures DestroyReplied(h, r.job, r.stage.late, r.stage.attempts, ok).state == h.state
  {
  }

  predicate Asks(e: Event) {
    e.CallSetTarget? || e.CallDestroy? || e.CallDispose?
  }

  lemma StepGoesOn(s: Sys, e: Event)
    requires !Asks(e)
    ensures Onward(s.h, Step(s, e).h)
  {
    match e {
      case CallSetViewport(viewport) => ViewportGoesOn(s.h, viewport);
      case CallSetZoom(scale) => ZoomGoesOn(s.h, scale);
      case CallCommand => CommandGoesOn(s.h);
      case Timer => TimersGoOn(s.h);
      case Ready => TimersGoOn(s.h);
      case Start => StartGoesOn(s.h);
      case Reply(ok, left, relay) =>
        if s.h.running.Some? { ReplyGoesOn(s.h, s.h.running.value, ok, relay); } else { UndisturbedGoesOn(s.h, s.h); }
    }
  }

  // ---- the request ----

  /** The host's target and profile are those asked for, up to what the browser cannot tell apart. */
  predicate Agrees(h: Host, asked: Page) {
    && h.target.Some? == asked.target.Some?
    && (h.target.Some? ==> h.target.value.url == asked.target.value.url && h.target.value.origin == asked.target.value.origin)
    && h.profile == asked.profile
  }

  /** Tasks of the current operation have captured the current profile. */
  ghost predicate Profiled(h: Host) {
    && (forall job | job in h.queue && job.TargetJob? && job.op == h.operation :: job.profile == h.profile)
    && (h.running.Some? && h.running.value.job.TargetJob? && h.running.value.job.op == h.operation ==>
          h.running.value.job.profile == h.profile)
  }

  ghost predicate Asked(h: Host, asked: Page, disposed: bool) {
    Agrees(h, asked) && Profiled(h) && h.disposed == disposed && (h.disposed ==> h.target.None? && h.profile.None?)
  }

  lemma OnwardKeepsProfiles(h: Host, g: Host)
    requires Profiled(h) && Onward(h, g)
    ensures Profiled(g)
  {
  }

  lemma SupersedeIsProfiled(h: Host, target: Option<Target>, profile: Option<string>, job: Job)
    requires Jobs(h) && job.op == h.operation + 1 && (job.TargetJob? ==> job.profile == profile)
    ensures Profiled(Enqueue(Supersede(h, target, profile), job))
  {
    assert forall was | was in h.queue :: was.op <= h.operation;
  }

  lemma AskingIsAsked(s: Sys, e: Event, asked: Page)
    requires Inv(s) && Asked(s.h, asked, s.h.disposed) && Asks(e)
    ensures e.CallSetTarget? ==>
              Asked(Step(s, e).h, if s.h.disposed then asked else if e.target.Some? then Page(e.target, e.active) else NOTHING,
                    s.h.disposed)
    ensures e.CallDestroy? ==> Asked(Step(s, e).h, NOTHING, s.h.disposed)
    ensures e.CallDispose? ==> Asked(Step(s, e).h, NOTHING, true)
  {
    match e {
      case CallSetTarget(target, active) =>
        var profile := if target.Some? then active else None;
        SupersedeIsProfiled(s.h, target, profile, TargetJob(s.h.operation + 1, target, profile));
      case CallDestroy => SupersedeIsProfiled(s.h, None, None, DestroyJob(s.h.operation + 1));
      case CallDispose => SupersedeIsProfiled(s.h.(disposed := true), None, None, DestroyJob(s.h.operation + 1));
    }
  }

  lemma {:induction false} RunIsAsked(events: seq<Event>)
    ensures Asked(Run(events).h, Requested(events), CallDispose in events)
  {
    if events != [] {
      var before, e := events[..|events| - 1], events[|events| - 1];
      RunIsAsked(before);
      RunKeeps(before);
      assert events == before + [e];
      if Asks(e) {
        AskingIsAsked(Run(before), e, Requested(before));
      } else {
        StepGoesOn(Run(before), e);
        OnwardKeepsProfiles(Run(before).h, Run(events).h);
      }
    }
  }

  // ---- the page ----

  /** The child was created for some page, and if by the current operation, then for the current one. */
  predicate Pages(s: Sys, page: Option<Page>) {
    && s.child.Some? == page.Some?
    && (s.child.Some? ==> s.child.value.op <= s.h.operation)
    && (s.child.Some? && s.child.value.op == s.h.operation ==> page == Some(Page(s.h.target, s.h.profile)))
  }

  lemma ReplyKeepsPages(s: Sys, r: Running, ok: bool, left: bool, relay: bool, page: Option<Page>)
    requires Inv(s) && Profiled(s.h) && Pages(s, page) && s.h.running == Some(r)
    ensures Pages(OnReply(s, r, ok, left, relay), PageAfter(page, r, ok, left))
  {
    ReplyGoesOn(s.h, r, ok, relay);
    assert Issued(s.h, r.job) && Fits(s.h, r);
  }

  lemma AskingKeepsPages(s: Sys, e: Event, page: Option<Page>)
    requires Pages(s, page) && Asks(e)
    ensures Pages(Step(s, e), page)
  {
  }

  lemma OnwardKeepsPages(s: Sys, u: Sys, page: Option<Page>)
    requires Pages(s, page) && u.child == s.child && SameRequest(s.h, u.h)
    ensures Pages(u, page)
  {
  }

  lemma {:induction false} RunKeepsPages(events: seq<Event>)
    ensures Pages(Run(events), ChildPage(events))
  {
    if events != [] {
      var before, e := events[..|events| - 1], events[|events| - 1];
      var s := Run(before);
      RunKeepsPages(before);
      RunKeeps(before);
      RunIsAsked(before);
      if Asks(e) {
        AskingKeepsPages(s, e, ChildPage(before));
      } else if e.Reply? && s.h.running.Some? {
        ReplyKeepsPages(s, s.h.running.value, e.ok, e.left, e.relay, ChildPage(before));
      } else {
        StepGoesOn(s, e);
        OnwardKeepsPages(s, Step(s, e), ChildPage(before));
      }
    }
  }

  // ---- progress ----

  /** The current operation's task is at one of its stages before adoption. */
  predicate OpensNow(h: Host) {
    && h.running.Some? && h.running.value.job.TargetJob? && h.running.value.job.op == h.operation
    && (DestroysFirst(h) || h.running.value.stage.Listening? || h.running.value.stage.Creating?)
  }

  /** A target is shown, or on its way, unless there is no profile or something has failed. */
  ghost predicate Progresses(h: Host, failed: bool) {
    h.target.Some? && h.profile.Some? && !failed ==> h.state.Some? || CurrentQueued(h) || OpensNow(h)
  }

  lemma SupersedeIsQueued(h: Host, target: Option<Target>, profile: Option<string>, job: Job)
    requires Jobs(h) && Lifecycle(job) && job.op == h.operation + 1
    ensures CurrentQueued(Enqueue(Supersede(h, target, profile), job))
  {
    var g := Enqueue(Supersede(h, target, profile), job);
    assert IsLastLifecycle(g.queue, |g.queue| - 1, g.operation);
  }

  /** A new request is queued last. */
  lemma AskingProgresses(s: Sys, e: Event, failed: bool)
    requires Inv(s) && Asks(e) && Progresses(s.h, failed)
    ensures var u := Step(s, e); Progresses(u.h, u.h.operation == s.h.operation && failed)
  {
    if e.CallSetTarget? {
      var profile := if e.target.Some? then e.active else None;
      SupersedeIsQueued(s.h, e.target, profile, TargetJob(s.h.operation + 1, e.target, profile));
    }
  }

  lemma QueuedStays(h: Host, g: Host)
    requires CurrentQueued(h) && g.queue == h.queue && g.operation == h.operation
    ensures CurrentQueued(g)
  {
  }

  lemma StartProgresses(s: Sys)
    requires Inv(s) && Progresses(s.h, false) && s.h.target.Some? && s.h.profile.Some?
    ensures Progresses(NextJob(s.h), false)
  {
    var h := s.h;
    if h.running.None? && h.queue != [] {
      StartJobSplits(Dequeued(h), h.queue[0]);
      Dequeue(h);
      if CurrentQueued(h) && !(Lifecycle(h.queue[0]) && h.queue[0].op == h.operation) {
        QueuedStays(Dequeued(h), NextJob(h));
      }
    }
  }

  /** The stages before adoption follow each other, unless listening or creating fails. */
  lemma OpeningGoesOn(s: Sys, r: Running, ok: bool, relay: bool)
    requires Inv(s) && Profiled(s.h) && !s.h.disposed && s.h.target.Some? && s.h.profile.Some?
    requires s.h.running == Some(r) && OpensNow(s.h)
    requires r.stage.Listening? || r.stage.Creating? ==> ok
    ensures var g := Replied(s.h, r, ok, relay); g.state.Some? || OpensNow(g)
  {
    assert Issued(s.h, r.job) && Fits(s.h, r);
    ReplyGoesOn(s.h, r, ok, relay);
  }

  /** While the current task is queued there is no state, and replies queue nothing. */
  lemma RepliesQueueNothing(s: Sys, r: Running, ok: bool, relay: bool)
    requires Inv(s) && s.h.running == Some(r) && s.h.state.None?
    ensures Replied(s.h, r, ok, relay).queue == s.h.queue || Replied(s.h, r, ok, relay).state.Some?
  {
    if r.stage.Zooming? {
    } else if r.stage.Destroying? { DestroyReplyGoesOn(s.h, r, ok); }
    else if r.stage.Creating? { CreateReplyGoesOn(s.h, r, ok, relay); }
    else if r.stage.Listening? { ListenReplyGoesOn(s.h, r, ok); }
    else { OtherReplyGoesOn(s.h, r, ok, relay); }
  }

  lemma ReplyProgresses(s: Sys, r: Running, ok: bool, relay: bool)
    requires Inv(s) && Profiled(s.h) && (s.h.disposed ==> s.h.target.None?) && s.h.running == Some(r)
    requires Progresses(s.h, false) && s.h.target.Some? && s.h.profile.Some?
    requires (r.stage.Listening? || r.stage.Creating?) && r.job.op == s.h.operation ==> ok
    ensures Progresses(Replied(s.h, r, ok, relay), false)
  {
    var g := Replied(s.h, r, ok, relay);
    ReplyGoesOn(s.h, r, ok, relay);
    if s.h.state.None? {
      if CurrentQueued(s.h) {
        RepliesQueueNothing(s, r, ok, relay);
        if g.state.None? { QueuedStays(s.h, g); }
      } else {
        OpeningGoesOn(s, r, ok, relay);
      }
    }
  }

  /** Calls that ask for nothing new queue no lifecycle task. */
  lemma CallsProgress(s: Sys, e: Event)
    requires Inv(s) && Progresses(s.h, false)
    requires e.CallSetViewport? || e.CallSetZoom? || e.CallCommand? || e.Timer? || e.Ready?
    ensures Progresses(Step(s, e).h, false)
  {
    var g := Step(s, e).h;
    StepGoesOn(s, e);
    if s.h.state.None? {
      if e.CallCommand? {
        EnqueueOther(s.h, CommandJob(s.h.operation));
      } else {
        CallsQueueNothing(s.h, e);
        if CurrentQueued(s.h) { QueuedStays(s.h, g); }
      }
    }
    CallsKeepTask(s, e);
  }

  lemma CallsQueueNothing(h: Host, e: Event)
    requires h.state.None?
    ensures e.CallSetViewport? ==> SetViewport(h, e.viewport).queue == h.queue
    ensures e.CallSetZoom? ==> SetZoom(h, e.scale).queue == h.queue
    ensures TimerFires(h).queue == h.queue && BridgeReady(h).queue == h.queue
  {
  }

  lemma CallsKeepTask(s: Sys, e: Event)
    requires e.CallSetViewport? || e.CallSetZoom? || e.CallCommand? || e.Timer? || e.Ready?
    ensures Step(s, e).h.running == s.h.running && Step(s, e).h.state == s.h.state
  {
    if e.CallSetViewport? { ViewportGoesOn(s.h, e.viewport); }
    if e.CallSetZoom? { ZoomGoesOn(s.h, e.scale); }
  }

  lemma StepProgresses(s: Sys, e: Event, failed: bool)
    requires Inv(s) && Profiled(s.h) && (s.h.disposed ==> s.h.target.None?) && Progresses(s.h, failed)
    ensures var u := Step(s, e); Progresses(u.h, u.h.operation == s.h.operation && (failed || Fails(s, e)))
  {
    if Asks(e) {
      AskingProgresses(s, e, failed);
    } else {
      StepGoesOn(s, e);
      if !failed && !Fails(s, e) && s.h.target.Some? && s.h.profile.Some? {
        if e.Start? { StartProgresses(s); }
        else if e.Reply? { if s.h.running.Some? { ReplyProgresses(s, s.h.running.value, e.ok, e.relay); } }
        else { CallsProgress(s, e); }
      }
    }
  }

  lemma {:induction false} RunProgresses(events: seq<Event>)
    ensures Progresses(Run(events).h, OpenFailed(events))
  {
    if events != [] {
      var before, e := events[..|events| - 1], events[|events| - 1];
      RunProgresses(before);
      RunKeeps(before);
      RunIsAsked(before);
      StepProgresses(Run(before), e, OpenFailed(before));
    }
  }

  // ---- what is shown is what was asked for ----

  /** After any run, disposed of or not, the host's target has the address and origin of the last request, and
      its profile; and a host with a state has a child that was created for just that. */
  lemma {:induction false} StateShowsTheRequest(events: seq<Event>)
    ensures var h, page := Run(events).h, ChildPage(events);
            && Agrees(h, Requested(events))
            && (Run(events).child.Some? <==> page.Some?)
            && (h.state.Some? ==> page == Some(Page(h.target, h.profile)) && h.target.Some?)
  {
    RunKeeps(events);
    RunIsAsked(events);
    RunKeepsPages(events);
  }

  /** Once the queue has drained, and unless registering the listeners or creating the child has failed for
      the last request, the target asked for is shown: the host has a state, and its child was created with
      that address, origin and profile. */
  lemma {:induction false} QuietHostShowsTheRequest(events: seq<Event>)
    requires Quiet(Run(events).h) && !OpenFailed(events)
    requires Requested(events).target.Some? && Requested(events).profile.Some?
    ensures var s, asked, page := Run(events), Requested(events), ChildPage(events);
            && s.h.state.Some? && s.child.Some? && page.Some? && page.value.target.Some?
            && page.value.target.value.url == asked.target.value.url
            && page.value.target.value.origin == asked.target.value.origin
            && page.value.profile == asked.profile
  {
    RunProgresses(events);
    StateShowsTheRequest(events);
  }

  // ---- a request that failed can be repeated ----

  /** A target that is pending is on its way. */
  ghost predicate PendingIsOpening(h: Host) {
    h.targetPending ==> h.target.Some? && (CurrentQueued(h) || OpensNow(h))
  }

  lemma AskingKeepsPending(s: Sys, e: Event)
    requires Inv(s) && Asks(e) && PendingIsOpening(s.h)
    ensures PendingIsOpening(Step(s, e).h)
  {
    if e.CallSetTarget? {
      var profile := if e.target.Some? then e.active else None;
      SupersedeIsQueued(s.h, e.target, profile, TargetJob(s.h.operation + 1, e.target, profile));
    }
  }

  lemma OpeningKeepsPending(s: Sys, r: Running, ok: bool, relay: bool)
    requires Inv(s) && !s.h.disposed && s.h.target.Some?
    requires s.h.running == Some(r) && OpensNow(s.h)
    ensures var g := Replied(s.h, r, ok, relay); g.targetPending ==> OpensNow(g)
  {
    assert Issued(s.h, r.job) && Fits(s.h, r);
    ReplyGoesOn(s.h, r, ok, relay);
    if r.stage.Creating? && ok { AdoptionIsNotPending(s.h, r, relay); }
  }

  lemma AdoptionIsNotPending(h: Host, r: Running, relay: bool)
    requires r.stage.Creating? && IsCurrent(h, r.job.op)
    ensures !CreateReplied(h, r.job, r.stage.zoom, true, relay).targetPending
  {
  }

  lemma ReplyKeepsPending(s: Sys, r: Running, ok: bool, relay: bool)
    requires Inv(s) && PendingIsOpening(s.h) && (s.h.disposed ==> s.h.target.None?) && s.h.running == Some(r)
    ensures PendingIsOpening(Replied(s.h, r, ok, relay))
  {
    var g := Replied(s.h, r, ok, relay);
    ReplyGoesOn(s.h, r, ok, relay);
    if g.targetPending {
      if CurrentQueued(s.h) {
        RepliesQueueNothing(s, r, ok, relay);
        if r.stage.Creating? && ok && IsCurrent(s.h, r.job.op) { AdoptionIsNotPending(s.h, r, relay); }
        QueuedStays(s.h, g);
      } else {
        OpeningKeepsPending(s, r, ok, relay);
      }
    }
  }

  lemma StartKeepsPending(s: Sys)
    requires Inv(s) && PendingIsOpening(s.h)
    ensures PendingIsOpening(NextJob(s.h))
  {
    var h := s.h;
    StartGoesOn(h);
    if h.running.None? && h.queue != [] {
      StartJobSplits(Dequeued(h), h.queue[0]);
      Dequeue(h);
      if CurrentQueued(h) && !(Lifecycle(h.queue[0]) && h.queue[0].op == h.operation) {
        QueuedStays(Dequeued(h), NextJob(h));
      }
    }
  }

  lemma CallsKeepPending(s: Sys, e: Event)
    requires Inv(s) && PendingIsOpening(s.h) && !Asks(e) && !e.Reply? && !e.Start?
    ensures PendingIsOpening(Step(s, e).h)
  {
    var g := Step(s, e).h;
    StepGoesOn(s, e);
    CallsKeepTask(s, e);
    if g.targetPending && CurrentQueued(s.h) {
      if e.CallCommand? {
        EnqueueOther(s.h, CommandJob(s.h.operation));
      } else {
        CallsQueueNothing(s.h, e);
        QueuedStays(s.h, g);
      }
    }
  }

  lemma {:induction false} RunKeepsPending(events: seq<Event>)
    ensures PendingIsOpening(Run(events).h)
  {
    if events != [] {
      var before, e := events[..|events| - 1], events[|events| - 1];
      var s := Run(before);
      RunKeepsPending(before);
      RunKeeps(before);
      RunIsAsked(before);
      if Asks(e) { AskingKeepsPending(s, e); }
      else if e.Reply? { if s.h.running.Some? { ReplyKeepsPending(s, s.h.running.value, e.ok, e.relay); } }
      else if e.Start? { StartKeepsPending(s); }
      else { CallsKeepPending(s, e); }
    }
  }

  /** After any run, a request for a target is ignored exactly when the host is disposed of, or when that
      address, origin and profile are what was asked for last, are shown or pending, and the bridge has not
      timed out. On a drained queue nothing is pending, so that a request that failed can be repeated. */
  lemma {:induction false} RequestIsIgnoredExactlyWhenShown(events: seq<Event>, t: Target, active: Option<string>)
    ensures var s, asked := Run(events), Requested(events);
            Step(s, CallSetTarget(Some(t), active)) == s
            <==> CallDispose in events
                 || (&& asked.target.Some? && asked.target.value.url == t.url && asked.target.value.origin == t.origin
                     && asked.profile == active && (s.h.state.Some? || s.h.targetPending) && !s.h.timedOut)
    ensures Quiet(Run(events).h) ==> !Run(events).h.targetPending
  {
    RunIsAsked(events);
    RunKeepsPending(events);
    var h := Run(events).h;
    assert Step(Run(events), CallSetTarget(Some(t), active)) == Run(events) <==> SetTarget(h, Some(t), active) == h;
  }
}
