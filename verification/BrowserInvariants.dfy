/**
  What every reachable state of the native Browser Debug host satisfies: the last
  lifecycle task in line is the current operation's, every task runs at a stage of its
  own, no child is left unclaimed, and a zoom that is not applied is on its way.
*/
module BrowserInvariants {
  import opened Options
  import opened BrowserSegments
  import opened BrowserRuns

  /** Tasks that destroy, and perhaps create, the child. */
  predicate Lifecycle(job: Job) {
    job.TargetJob? || job.DestroyJob?
  }

  predicate IsLastLifecycle(q: seq<Job>, k: int, op: nat) {
    && 0 <= k < |q| && Lifecycle(q[k]) && q[k].op == op
    && forall j | 0 <= j < |q| && Lifecycle(q[j]) :: j <= k && (j < k ==> q[j].op < op)
  }

  /** The current operation's task is the last lifecycle task in the queue. */
  ghost predicate CurrentQueued(h: Host) {
    exists k :: IsLastLifecycle(h.queue, k, h.operation)
  }

  ghost predicate NoLifecycle(q: seq<Job>) {
    forall k | 0 <= k < |q| :: !Lifecycle(q[k])
  }

  /** A lifecycle task of the current operation works for the current target. */
  predicate Issued(h: Host, job: Job) {
    && job.op <= h.operation
    && (job.op == h.operation && job.TargetJob? ==> job.target == h.target)
    && (job.op == h.operation && job.DestroyJob? ==> h.target.None?)
  }

  predicate RunsLifecycle(h: Host) {
    h.running.Some? && Lifecycle(h.running.value.job)
  }

  ghost predicate Jobs(h: Host) {
    && (forall k | 0 <= k < |h.queue| :: Issued(h, h.queue[k]))
    && (h.running.Some? ==> Issued(h, h.running.value.job))
    && ((CurrentQueued(h) && h.state.None? && (RunsLifecycle(h) ==> h.running.value.job.op < h.operation))
        || (NoLifecycle(h.queue) && (RunsLifecycle(h) ==> h.running.value.job.op == h.operation)))
  }

  // ---- stages ----

  predicate Opens(job: Job) {
    job.TargetJob? && job.target.Some?
  }

  predicate AfterCreation(stage: Stage) {
    stage.Zooming? || stage.SettingBounds? || stage.SettingVisible?
  }

  predicate Destroys(stage: Stage) {
    stage.Destroying? || stage.Retrying?
  }

  /** Which stages a task goes through. */
  predicate Fits(h: Host, r: Running) {
    && (Destroys(r.stage) ==> Lifecycle(r.job) && (r.stage.late ==> Opens(r.job) && r.job.op < h.operation))
    && (r.stage.Listening? || r.stage.Creating? ==> Opens(r.job))
    && (r.stage.Zooming? ==> if r.stage.relay.Some? then Opens(r.job) else r.job.ZoomJob?)
    && (r.stage.SettingBounds? || r.stage.SettingVisible? ==> Opens(r.job) || r.job.ViewportJob?)
    && (r.stage.Commanding? ==> r.job.CommandJob?)
  }

  // ---- the child ----

  predicate DestroysFirst(h: Host) {
    && h.running.Some? && Destroys(h.running.value.stage) && !h.running.value.stage.late
    && h.running.value.job.op == h.operation
  }

  /** The child is the current target's, or the current operation is still to destroy it, or has given
      up. */
  ghost predicate Claimed(s: Sys) {
    || s.child.None?
    || (s.child.value.op == s.h.operation && s.h.target.Some?)
    || CurrentQueued(s.h) || DestroysFirst(s.h)
    || s.abandoned
  }

  /** A host that has a state has the child it describes. */
  ghost predicate Adopted(s: Sys) {
    s.h.state.Some? ==>
      && s.h.target.Some? && s.child.Some? && s.child.value.op == s.h.operation
      && NoLifecycle(s.h.queue)
      && (RunsLifecycle(s.h) ==> AfterCreation(s.h.running.value.stage))
  }

  ghost predicate Children(s: Sys) {
    && (s.h.running.Some? ==> Fits(s.h, s.h.running.value))
    && (s.h.running.Some? && (s.h.running.value.stage.Listening? || s.h.running.value.stage.Creating?) ==> s.child.None?)
    && Claimed(s) && Adopted(s)
    && (s.abandoned ==> s.h.disposed)
  }

  // ---- zoom ----

  predicate Zoomer(h: Host) {
    h.running.Some? && h.running.value.stage.Zooming?
  }

  /** The latest zoom is being applied, or queued to be. */
  ghost predicate OnItsWay(h: Host) {
    || (Zoomer(h) && h.running.value.stage.scale == h.zoom && h.running.value.stage.request == h.zoomRequest)
    || exists k :: 0 <= k < |h.queue| && h.queue[k] == ZoomJob(h.operation, h.zoomRequest, h.zoom)
  }

  predicate ZoomFields(h: Host) {
    && (h.pending.Some? ==> h.pending.value == h.zoom)
    && (h.state.None? ==> h.lastApplied.None?)
    && (Zoomer(h) ==> (h.state.Some? <==> h.running.value.job.op == h.operation))
    && (Zoomer(h) ==> h.running.value.stage.request <= h.zoomRequest)
  }

  ghost predicate ZoomJobsHaveState(h: Host) {
    forall k | 0 <= k < |h.queue| && h.queue[k].ZoomJob? ::
      h.queue[k].request <= h.zoomRequest && (h.queue[k].op == h.operation ==> h.state.Some?)
  }

  /** While no zoom call has failed: either the child has the latest zoom, or it is on its way. */
  ghost predicate ZoomTracked(s: Sys) {
    var h := s.h;
    h.state.Some? && s.child.Some? && !s.zoomFailed ==>
      && (Zoomer(h) && h.running.value.stage.request == h.zoomRequest ==> h.running.value.stage.scale == h.zoom)
      && (if h.pending.Some? then OnItsWay(h)
          else h.lastApplied == Some(h.zoom) && s.child.value.zoom == h.zoom
               && (Zoomer(h) ==> h.running.value.stage.request == h.zoomRequest))
  }

  ghost predicate Zooms(s: Sys) {
    ZoomFields(s.h) && ZoomJobsHaveState(s.h) && ZoomTracked(s)
  }

  ghost predicate Inv(s: Sys) {
    Jobs(s.h) && Children(s) && Zooms(s)
  }

  // ---- the queue ----

  lemma EnqueueOther(h: Host, job: Job)
    requires Jobs(h) && !Lifecycle(job) && Issued(h, job)
    ensures Jobs(Enqueue(h, job)) && (CurrentQueued(h) <==> CurrentQueued(Enqueue(h, job)))
    ensures NoLifecycle(Enqueue(h, job).queue) == NoLifecycle(h.queue)
  {
    var g := Enqueue(h, job);
    if k :| IsLastLifecycle(h.queue, k, h.operation) { assert IsLastLifecycle(g.queue, k, h.operation); }
    if k :| IsLastLifecycle(g.queue, k, h.operation) {
      assert g.queue[k] != job;
      assert forall j | 0 <= j < |h.queue| :: h.queue[j] == g.queue[j];
      assert IsLastLifecycle(h.queue, k, h.operation);
    }
    if NoLifecycle(g.queue) { assert forall j | 0 <= j < |h.queue| :: h.queue[j] == g.queue[j]; }
  }

  lemma OnItsWayWithMore(h: Host, job: Job)
    requires OnItsWay(h)
    ensures OnItsWay(Enqueue(h, job))
  {
    if k :| 0 <= k < |h.queue| && h.queue[k] == ZoomJob(h.operation, h.zoomRequest, h.zoom) {
      assert Enqueue(h, job).queue[k] == h.queue[k];
    }
  }

  /** A new operation's lifecycle task goes to the end of the queue. */
  lemma SupersedeKeeps(s: Sys, target: Option<Target>, profile: Option<string>, job: Job)
    requires Inv(s) && job.op == s.h.operation + 1
    requires (job.DestroyJob? && target.None?) || (job.TargetJob? && job.target == target)
    ensures Inv(s.(h := Enqueue(Supersede(s.h, target, profile), job), abandoned := false))
  {
    var g := Enqueue(Supersede(s.h, target, profile), job);
    assert IsLastLifecycle(g.queue, |g.queue| - 1, g.operation);
    assert Jobs(g);
  }

  lemma OtherJobKeeps(s: Sys, job: Job)
    requires Inv(s) && !Lifecycle(job) && Issued(s.h, job)
    requires job.ZoomJob? ==> s.h.state.Some? && job.request <= s.h.zoomRequest
    ensures Inv(s.(h := Enqueue(s.h, job)))
  {
    EnqueueOther(s.h, job);
    if OnItsWay(s.h) { OnItsWayWithMore(s.h, job); }
  }

  // ---- calls ----

  lemma SetTargetKeeps(s: Sys, target: Option<Target>, active: Option<string>)
    requires Inv(s)
    ensures Inv(Superseding(s, SetTarget(s.h, target, active)))
  {
    var profile := if target.Some? then active else None;
    SupersedeKeeps(s, target, profile, TargetJob(s.h.operation + 1, target, profile));
  }

  lemma DestroyKeeps(s: Sys)
    requires Inv(s)
    ensures Inv(Superseding(s, Destroy(s.h)))
  {
    SupersedeKeeps(s, None, None, DestroyJob(s.h.operation + 1));
  }

  lemma DisposeKeeps(s: Sys)
    requires Inv(s)
    ensures Inv(Superseding(s, Dispose(s.h)))
  {
    var d := s.(h := s.h.(disposed := true));
    assert CurrentQueued(d.h) == CurrentQueued(s.h);
    assert OnItsWay(d.h) == OnItsWay(s.h);
    assert Inv(d);
    DestroyKeeps(d);
  }

  function Remembering(h: Host, scale: Zoom): Host {
    h.(zoom := scale, pending := Some(scale), zoomRequest := h.zoomRequest + 1)
  }

  /** A changed zoom is remembered as pending. */
  lemma RememberZoom(s: Sys, scale: Zoom)
    requires Inv(s)
    ensures var h := Remembering(s.h, scale);
            Jobs(h) && Children(s.(h := h)) && ZoomFields(h) && ZoomJobsHaveState(h)
  {
    assert CurrentQueued(Remembering(s.h, scale)) == CurrentQueued(s.h);
  }

  /** It is queued if there is a child to apply it to. */
  lemma QueueZoom(s: Sys, scale: Zoom)
    requires Inv(s) && s.h.state.Some?
    ensures var h := Remembering(s.h, scale); Inv(s.(h := Enqueue(h, ZoomJob(h.operation, h.zoomRequest, scale))))
  {
    var h := Remembering(s.h, scale);
    var job := ZoomJob(h.operation, h.zoomRequest, scale);
    RememberZoom(s, scale);
    EnqueueOther(h, job);
    assert Enqueue(h, job).queue[|h.queue|] == job;
  }

  /** What is already applied or pending is the latest zoom. */
  lemma SameZoomKeeps(s: Sys, scale: Zoom)
    requires Inv(s) && ((s.h.lastApplied == Some(scale) && s.h.pending.None?) || s.h.pending == Some(scale))
    ensures Inv(s.(h := s.h.(zoom := scale)))
  {
    var h := s.h.(zoom := scale);
    assert CurrentQueued(h) == CurrentQueued(s.h);
    assert s.h.state.Some? && !s.zoomFailed ==> h == s.h;
  }

  lemma SetZoomKeeps(s: Sys, scale: Zoom)
    requires Inv(s)
    ensures Inv(s.(h := SetZoom(s.h, scale)))
  {
    if s.h.disposed || scale <= 0.0 {
    } else if (s.h.lastApplied == Some(scale) && s.h.pending.None?) || s.h.pending == Some(scale) {
      SameZoomKeeps(s, scale);
    } else {
      RememberZoom(s, scale);
      if s.h.state.Some? { QueueZoom(s, scale); }
    }
  }

  lemma SetViewportKeeps(s: Sys, viewport: Option<Rect>)
    requires Inv(s)
    ensures Inv(s.(h := SetViewport(s.h, viewport)))
  {
    var v := s.(h := s.h.(viewport := viewport));
    assert CurrentQueued(v.h) == CurrentQueued(s.h);
    assert OnItsWay(v.h) == OnItsWay(s.h);
    assert Inv(v);
    SetZoomKeeps(v, v.h.zoom);
    SetZoomKeepsOperation(v.h, v.h.zoom);
    OtherJobKeeps(v.(h := SetZoom(v.h, v.h.zoom)), ViewportJob(v.h.operation));
  }

  lemma SetZoomKeepsOperation(h: Host, scale: Zoom)
    ensures SetZoom(h, scale).operation == h.operation
  {
  }

  lemma TimersKeep(s: Sys, timer: Option<(nat, nat)>, timedOut: bool)
    requires Inv(s)
    ensures Inv(s.(h := s.h.(timer := timer, timedOut := timedOut)))
  {
    var h := s.h.(timer := timer, timedOut := timedOut);
    assert CurrentQueued(h) == CurrentQueued(s.h);
    assert OnItsWay(h) == OnItsWay(s.h);
  }

  // ---- starting a task ----

  function Dequeued(h: Host): Host
    requires h.queue != []
  {
    h.(queue := h.queue[1..])
  }

  /** The current operation's task is the last lifecycle task to be started. */
  lemma Dequeue(h: Host)
    requires Jobs(h) && h.running.None? && h.queue != []
    ensures var d, job := Dequeued(h), h.queue[0];
            && Issued(d, job) && (forall k | 0 <= k < |d.queue| :: Issued(d, d.queue[k]))
            && (if CurrentQueued(h) && !(Lifecycle(job) && job.op == h.operation)
                then CurrentQueued(d) && h.state.None? && (Lifecycle(job) ==> job.op < h.operation)
                else NoLifecycle(d.queue))
            && (!CurrentQueued(h) ==> !Lifecycle(job))
  {
    var d, job := Dequeued(h), h.queue[0];
    assert forall k | 0 <= k < |d.queue| :: d.queue[k] == h.queue[k + 1];
    if k :| IsLastLifecycle(h.queue, k, h.operation) {
      if k > 0 {
        assert IsLastLifecycle(d.queue, k - 1, d.operation);
      }
    }
  }

  lemma OnItsWayWithLess(h: Host)
    requires h.queue != [] && h.running.None? && OnItsWay(h)
    ensures h.queue[0] == ZoomJob(h.operation, h.zoomRequest, h.zoom) || OnItsWay(Dequeued(h))
  {
    var k :| 0 <= k < |h.queue| && h.queue[k] == ZoomJob(h.operation, h.zoomRequest, h.zoom);
    if k > 0 { assert Dequeued(h).queue[k - 1] == h.queue[k]; }
  }

  /** A task that finds itself superseded ends at once. */
  lemma StartsAndEnds(s: Sys)
    requires Inv(s) && s.h.running.None? && s.h.queue != []
    requires Lifecycle(s.h.queue[0]) ==> s.h.queue[0].op != s.h.operation
    requires s.h.queue[0] != ZoomJob(s.h.operation, s.h.zoomRequest, s.h.zoom)
    ensures Inv(s.(h := Finish(Dequeued(s.h))))
  {
    Dequeue(s.h);
    if OnItsWay(s.h) { OnItsWayWithLess(s.h); }
    assert forall k | 0 <= k < |Dequeued(s.h).queue| :: Dequeued(s.h).queue[k] == s.h.queue[k + 1];
    assert Finish(Dequeued(s.h)) == Dequeued(s.h);
  }

  lemma StartsDestroying(s: Sys)
    requires Inv(s) && s.h.running.None? && s.h.queue != [] && Lifecycle(s.h.queue[0])
    ensures Inv(s.(h := Await(Dequeued(s.h), s.h.queue[0], Destroying(false, 0))))
  {
    var g := Await(Dequeued(s.h), s.h.queue[0], Destroying(false, 0));
    Dequeue(s.h);
    assert CurrentQueued(g) == CurrentQueued(Dequeued(s.h));
    assert s.h.state.None?;
    assert forall k | 0 <= k < |g.queue| :: g.queue[k] == s.h.queue[k + 1];
  }

  /** A task that leaves the child as it is, or applies the latest zoom. */
  lemma StartsOther(s: Sys, stage: Stage)
    requires Inv(s) && s.h.running.None? && s.h.queue != [] && !Lifecycle(s.h.queue[0])
    requires Fits(s.h, Running(s.h.queue[0], stage)) && !stage.Listening? && !stage.Creating?
    requires s.h.queue[0] != ZoomJob(s.h.operation, s.h.zoomRequest, s.h.zoom) || stage.Zooming?
    requires stage.Zooming? ==> s.h.state.Some? && s.h.queue[0].op == s.h.operation
                                && stage.scale == s.h.zoom && stage.request == s.h.zoomRequest
    ensures Inv(s.(h := Await(Dequeued(s.h), s.h.queue[0], stage)))
  {
    var g := Await(Dequeued(s.h), s.h.queue[0], stage);
    Dequeue(s.h);
    if OnItsWay(s.h) { OnItsWayWithLess(s.h); }
    assert CurrentQueued(g) == CurrentQueued(Dequeued(s.h));
    assert OnItsWay(Dequeued(s.h)) ==> OnItsWay(g);
    assert forall k | 0 <= k < |g.queue| :: g.queue[k] == s.h.queue[k + 1];
  }

  lemma StartLifecycleKeeps(s: Sys)
    requires Inv(s) && s.h.running.None? && s.h.queue != [] && Lifecycle(s.h.queue[0])
    ensures Inv(s.(h := StartJob(Dequeued(s.h), s.h.queue[0])))
  {
    if s.h.queue[0].DestroyJob? && !IsCurrent(s.h, s.h.queue[0].op) { StartsAndEnds(s); } else { StartsDestroying(s); }
  }

  lemma StartViewportKeeps(s: Sys)
    requires Inv(s) && s.h.running.None? && s.h.queue != [] && s.h.queue[0].ViewportJob?
    ensures Inv(s.(h := StartJob(Dequeued(s.h), s.h.queue[0])))
  {
    if s.h.state.None? || s.h.target.None? || !IsCurrent(s.h, s.h.queue[0].op) { StartsAndEnds(s); }
    else { StartsOther(s, SettingBounds(s.h.viewport)); }
  }

  /** Only the task for the latest zoom applies anything. */
  lemma StartZoomSplits(h: Host)
    requires h.queue != [] && h.queue[0].ZoomJob?
    ensures var d, job := Dequeued(h), h.queue[0];
            StartJob(d, job) ==
            if job == ZoomJob(h.operation, h.zoomRequest, h.zoom) && h.state.Some? && h.target.Some?
            then Await(d, job, Zooming(job.scale, job.request, None)) else Finish(d)
  {
  }

  lemma StartZoomKeeps(s: Sys)
    requires Inv(s) && s.h.running.None? && s.h.queue != [] && s.h.queue[0].ZoomJob?
    ensures Inv(s.(h := StartJob(Dequeued(s.h), s.h.queue[0])))
  {
    var job := s.h.queue[0];
    StartZoomSplits(s.h);
    if job == ZoomJob(s.h.operation, s.h.zoomRequest, s.h.zoom) {
      StartsOther(s, Zooming(job.scale, job.request, None));
    } else {
      StartsAndEnds(s);
    }
  }

  lemma StartCommandKeeps(s: Sys)
    requires Inv(s) && s.h.running.None? && s.h.queue != [] && s.h.queue[0].CommandJob?
    ensures Inv(s.(h := StartJob(Dequeued(s.h), s.h.queue[0])))
  {
    if !IsCurrent(s.h, s.h.queue[0].op) || s.h.state.None? { StartsAndEnds(s); } else { StartsOther(s, Commanding); }
  }

  lemma StartKeeps(s: Sys)
    requires Inv(s)
    ensures Inv(s.(h := NextJob(s.h)))
  {
    if s.h.running.None? && s.h.queue != [] {
      if Lifecycle(s.h.queue[0]) { StartLifecycleKeeps(s); }
      else if s.h.queue[0].ViewportJob? { StartViewportKeeps(s); }
      else if s.h.queue[0].ZoomJob? { StartZoomKeeps(s); }
      else { StartCommandKeeps(s); }
    }
  }

  // ---- resuming a task ----

  lemma TargetPendingKeeps(s: Sys, pending: bool)
    requires Inv(s)
    ensures Inv(s.(h := s.h.(targetPending := pending)))
  {
    var h := s.h.(targetPending := pending);
    assert CurrentQueued(h) == CurrentQueued(s.h);
    assert OnItsWay(h) == OnItsWay(s.h);
  }

  /** The running task ends, with the child destroyed if that was its part. */
  lemma FinishKeeps(s: Sys)
    requires Inv(s) && s.h.running.Some? && !Zoomer(s.h)
    requires DestroysFirst(s.h) ==> s.child.None? || s.abandoned
    ensures Inv(s.(h := Finish(s.h)))
  {
    var h := Finish(s.h);
    assert CurrentQueued(h) == CurrentQueued(s.h);
    assert OnItsWay(s.h) ==> OnItsWay(h);
  }

  lemma GiveUpKeeps(s: Sys)
    requires Inv(s) && s.h.running.Some? && !Zoomer(s.h)
    requires DestroysFirst(s.h) ==> s.child.None? || s.abandoned
    ensures Inv(s.(h := GiveUpTarget(s.h, s.h.running.value.job)))
  {
    TargetPendingKeeps(s, false);
    FinishKeeps(s);
    FinishKeeps(s.(h := s.h.(targetPending := false)));
  }

  /** The running task goes on to another await. */
  lemma AwaitKeeps(s: Sys, stage: Stage)
    requires Inv(s) && s.h.running.Some? && !Zoomer(s.h) && !stage.Zooming?
    requires var r := Running(s.h.running.value.job, stage);
             Fits(s.h, r) && (s.h.state.Some? && Lifecycle(r.job) ==> AfterCreation(stage))
    requires stage.Listening? || stage.Creating? ==> s.child.None?
    requires DestroysFirst(s.h) ==> s.child.None? || s.abandoned || (Destroys(stage) && !stage.late)
    ensures Inv(s.(h := Await(s.h, s.h.running.value.job, stage)))
  {
    var h := Await(s.h, s.h.running.value.job, stage);
    assert CurrentQueued(h) == CurrentQueued(s.h);
    assert OnItsWay(s.h) ==> OnItsWay(h);
  }

  /** While a child is being destroyed, there is no state that describes it. */
  lemma DestroyingHasNoState(s: Sys)
    requires Inv(s) && s.h.running.Some? && Destroys(s.h.running.value.stage)
    ensures s.h.state.None?
  {
  }

  lemma DestroyOutcomeKeeps(s: Sys, child: Option<Child>, abandoned: bool)
    requires Inv(s) && s.h.running.Some? && Destroys(s.h.running.value.stage)
    requires child == s.child || child.None?
    requires abandoned == s.abandoned || (abandoned && s.h.disposed)
    ensures Inv(s.(child := child, abandoned := abandoned))
  {
    DestroyingHasNoState(s);
  }

  lemma AfterDestroyKeeps(s: Sys, late: bool, destroyed: bool)
    requires Inv(s) && s.h.running.Some? && s.h.running.value.stage.Destroying? && s.h.running.value.stage.late == late
    requires if destroyed then s.child.None? else DestroysFirst(s.h) ==> s.abandoned
    ensures Inv(s.(h := AfterDestroy(s.h, s.h.running.value.job, late, destroyed)))
  {
    var job := s.h.running.value.job;
    DestroyingHasNoState(s);
    FinishKeeps(s);
    GiveUpKeeps(s);
    if job.TargetJob? && !late && destroyed && IsCurrent(s.h, job.op) && job.target.Some? && !s.h.disposed {
      AwaitKeeps(s, Listening);
    }
  }

  lemma RetryKeeps(s: Sys, late: bool, attempts: nat)
    requires Inv(s) && s.h.running.Some? && Destroys(s.h.running.value.stage) && s.h.running.value.stage.late == late
    ensures Inv(s.(h := Await(s.h, s.h.running.value.job, Retrying(late, attempts))))
    ensures Inv(s.(h := Await(s.h, s.h.running.value.job, Destroying(late, attempts))))
  {
    DestroyingHasNoState(s);
    AwaitKeeps(s, Retrying(late, attempts));
    AwaitKeeps(s, Destroying(late, attempts));
  }

  function DestroyOutcome(s: Sys, r: Running, ok: bool, left: bool): Sys {
    s.(child := if ok || !left then None else s.child, abandoned := s.abandoned || Abandons(s.h, r, ok))
  }

  lemma DestroyReplySplits(s: Sys, r: Running, ok: bool, left: bool, relay: bool)
    requires r.stage.Destroying?
    ensures OnReply(s, r, ok, left, relay) ==
            DestroyOutcome(s, r, ok, left).(
              h := if !ok && !GivesUp(s.h, r.job.op, r.stage.attempts + 1)
                   then Await(s.h, r.job, Retrying(r.stage.late, r.stage.attempts + 1))
                   else AfterDestroy(s.h, r.job, r.stage.late, ok))
  {
  }

  lemma DestroyReplyKeeps(s: Sys, r: Running, ok: bool, left: bool, relay: bool)
    requires Inv(s) && s.h.running == Some(r) && r.stage.Destroying?
    ensures Inv(OnReply(s, r, ok, left, relay))
  {
    var o := DestroyOutcome(s, r, ok, left);
    DestroyOutcomeKeeps(s, o.child, o.abandoned);
    DestroyReplySplits(s, r, ok, left, relay);
    if !ok && !GivesUp(s.h, r.job.op, r.stage.attempts + 1) {
      RetryKeeps(o, r.stage.late, r.stage.attempts + 1);
    } else {
      assert !ok && r.job.op == s.h.operation ==> o.abandoned;
      AfterDestroyKeeps(o, r.stage.late, ok);
    }
  }

  lemma ListenReplyKeeps(s: Sys, ok: bool)
    requires Inv(s) && s.h.running.Some? && s.h.running.value.stage.Listening?
    ensures Inv(s.(h := ListenReplied(s.h, s.h.running.value.job, ok)))
  {
    GiveUpKeeps(s);
    FinishKeeps(s);
    AwaitKeeps(s, Creating(s.h.zoom));
  }

  // ---- the reply to browser_debug_create ----

  lemma CreateFails(s: Sys, child: Option<Child>)
    requires Inv(s) && s.h.running.Some? && s.h.running.value.stage.Creating?
    requires child.None? || child.value.op == s.h.running.value.job.op
    ensures Inv(s.(h := Finish(s.h), child := child, zoomFailed := false))
  {
    assert CurrentQueued(Finish(s.h)) == CurrentQueued(s.h);
    assert s.h.state.None?;
  }

  lemma CreatedTooLate(s: Sys, child: Child)
    requires Inv(s) && s.h.running.Some? && s.h.running.value.stage.Creating?
    requires child.op == s.h.running.value.job.op < s.h.operation
    ensures Inv(s.(h := Await(s.h, s.h.running.value.job, Destroying(true, 0)), child := Some(child), zoomFailed := false))
  {
    var g := Await(s.h, s.h.running.value.job, Destroying(true, 0));
    assert CurrentQueued(g) == CurrentQueued(s.h);
  }

  /** The child is adopted; a zoom that changed meanwhile is applied next. */
  lemma Adopts(s: Sys, child: Child, g: Host)
    requires Inv(s) && s.h.running.Some? && s.h.running.value.stage.Creating?
    requires child == Child(s.h.running.value.job.op, s.h.running.value.stage.zoom) && child.op == s.h.operation
    requires var job := s.h.running.value.job;
             g == s.h.(state := g.state, targetPending := false, timer := g.timer, pending := g.pending,
                       lastApplied := g.lastApplied, running := g.running)
             && g.state.Some?
             && (if s.h.zoom != child.zoom
                 then g.pending == Some(s.h.zoom) && g.lastApplied == s.h.lastApplied && g.running.Some? && g.running.value.job == job
                      && g.running.value.stage.Zooming? && g.running.value.stage.relay.Some?
                      && g.running.value.stage.scale == s.h.zoom && g.running.value.stage.request == s.h.zoomRequest
                 else g.pending.None? && g.lastApplied == Some(s.h.zoom)
                      && g.running == Some(Running(job, SettingBounds(s.h.viewport))))
    ensures Inv(Sys(g, Some(child), s.abandoned, false))
  {
    assert CurrentQueued(g) == CurrentQueued(s.h);
    assert s.h.state.None?;
    if s.h.zoom != child.zoom { assert OnItsWay(g); }
  }

  lemma CreateFailsKeeps(s: Sys, left: bool)
    requires Inv(s) && s.h.running.Some? && s.h.running.value.stage.Creating?
    ensures Inv(OnReply(s, s.h.running.value, false, left, false))
  {
    var r := s.h.running.value;
    var child := if left then Some(Child(r.job.op, r.stage.zoom)) else s.child;
    CreateFails(s, child);
    TargetPendingKeeps(s.(h := Finish(s.h), child := child, zoomFailed := false), false);
  }

  lemma CreateSucceedsSplits(s: Sys, r: Running, left: bool, relay: bool)
    requires r.stage.Creating?
    ensures OnReply(s, r, true, left, relay) ==
            Sys(CreateReplied(s.h, r.job, r.stage.zoom, true, relay), Some(Child(r.job.op, r.stage.zoom)), s.abandoned, false)
  {
  }

  lemma CreateReplyKeeps(s: Sys, r: Running, ok: bool, left: bool, relay: bool)
    requires Inv(s) && s.h.running == Some(r) && r.stage.Creating?
    ensures Inv(OnReply(s, r, ok, left, relay))
  {
    if !ok {
      CreateFailsKeeps(s, left);
    } else {
      CreateSucceedsSplits(s, r, left, relay);
      if IsCurrent(s.h, r.job.op) {
        Adopts(s, Child(r.job.op, r.stage.zoom), CreateReplied(s.h, r.job, r.stage.zoom, true, relay));
      } else {
        CreatedTooLate(s, Child(r.job.op, r.stage.zoom));
      }
    }
  }

  // ---- the reply to browser_debug_set_zoom ----

  /** Where a task goes from a zoom call: to its end, or to the viewport. */
  ghost predicate LeavesZoom(h: Host, z: Host, g: Host) {
    && Zoomer(h)
    && g == z.(timer := g.timer, running := g.running)
    && (g.running.None? || (g.running == Some(Running(h.running.value.job, SettingBounds(z.viewport))) && Opens(h.running.value.job)))
  }

  /** A zoom superseded by a later one changes the child only; the later one is still to come. */
  lemma StaleZoomKeeps(s: Sys, child: Option<Child>, g: Host)
    requires Inv(s) && LeavesZoom(s.h, s.h, g)
    requires !IsCurrent(s.h, s.h.running.value.job.op) || s.h.running.value.stage.request != s.h.zoomRequest
    requires child == ChildAfter(s.child, s.h.running.value, true, false)
    ensures Inv(Sys(g, child, s.abandoned, s.zoomFailed))
  {
    assert CurrentQueued(g) == CurrentQueued(s.h);
    if OnItsWay(s.h) && s.h.state.Some? { assert OnItsWay(g); }
  }

  /** The latest zoom is applied. */
  lemma LatestZoomKeeps(s: Sys, child: Option<Child>, g: Host)
    requires Inv(s) && Zoomer(s.h)
    requires IsCurrent(s.h, s.h.running.value.job.op) && s.h.running.value.stage.request == s.h.zoomRequest
    requires LeavesZoom(s.h, ZoomReplied(s.h, s.h.operation, s.h.running.value.stage.scale, s.h.zoomRequest, true), g)
    requires child == ChildAfter(s.child, s.h.running.value, true, false)
    ensures Inv(Sys(g, child, s.abandoned, s.zoomFailed))
  {
    assert CurrentQueued(g) == CurrentQueued(s.h);
    if OnItsWay(s.h) && g.pending.Some? { assert OnItsWay(g); }
  }

  /** After a failed zoom nothing more is promised until the next child. */
  lemma FailedZoomKeeps(s: Sys, child: Option<Child>, pending: Option<Zoom>)
    requires Inv(s) && (pending == s.h.pending || pending.None?)
    requires child == s.child || (child.Some? && s.child.Some? && child.value.op == s.child.value.op)
    ensures Inv(s.(h := s.h.(pending := pending), child := child, zoomFailed := true))
  {
    assert CurrentQueued(s.h.(pending := pending)) == CurrentQueued(s.h);
  }

  lemma LeaveFailedZoom(s: Sys, g: Host)
    requires Inv(s) && s.zoomFailed && LeavesZoom(s.h, s.h, g)
    ensures Inv(s.(h := g))
  {
    assert CurrentQueued(g) == CurrentQueued(s.h);
  }

  lemma AfterCreationZoomLeaves(h: Host, z: Host, job: Job, relay: bool)
    requires Zoomer(h) && h.running.value.job == job && Opens(job)
    ensures LeavesZoom(h, z, AfterCreationZoom(z, job, relay))
  {
  }

  lemma ZoomSucceedsSplits(s: Sys, r: Running, left: bool, relay: bool)
    requires r.stage.Zooming?
    ensures OnReply(s, r, true, left, relay) ==
            Sys(AfterZoom(ZoomReplied(s.h, r.job.op, r.stage.scale, r.stage.request, true), r.job, true, r.stage.relay),
                ChildAfter(s.child, r, true, false), s.abandoned, s.zoomFailed)
  {
  }

  lemma ZoomSucceedsKeeps(s: Sys, r: Running, left: bool, relay: bool)
    requires Inv(s) && s.h.running == Some(r) && r.stage.Zooming?
    ensures Inv(OnReply(s, r, true, left, relay))
  {
    var z := ZoomReplied(s.h, r.job.op, r.stage.scale, r.stage.request, true);
    var g := AfterZoom(z, r.job, true, r.stage.relay);
    ZoomSucceedsSplits(s, r, left, relay);
    if r.stage.relay.Some? { AfterCreationZoomLeaves(s.h, z, r.job, r.stage.relay.value); }
    assert LeavesZoom(s.h, z, g);
    if !IsCurrent(s.h, r.job.op) || r.stage.request != s.h.zoomRequest {
      StaleZoomKeeps(s, ChildAfter(s.child, r, true, false), g);
    } else {
      LatestZoomKeeps(s, ChildAfter(s.child, r, true, false), g);
    }
  }

  lemma ZoomFailsSplits(s: Sys, r: Running, left: bool, relay: bool)
    requires r.stage.Zooming?
    ensures OnReply(s, r, false, left, relay) ==
            Sys(AfterZoom(ZoomReplied(s.h, r.job.op, r.stage.scale, r.stage.request, false), r.job, false, r.stage.relay),
                ChildAfter(s.child, r, false, left), s.abandoned, true)
  {
  }

  lemma ZoomFailsKeeps(s: Sys, r: Running, left: bool, relay: bool)
    requires Inv(s) && s.h.running == Some(r) && r.stage.Zooming?
    ensures Inv(OnReply(s, r, false, left, relay))
  {
    var z := ZoomReplied(s.h, r.job.op, r.stage.scale, r.stage.request, false);
    var f := s.(h := z, child := ChildAfter(s.child, r, false, left), zoomFailed := true);
    ZoomFailsSplits(s, r, left, relay);
    FailedZoomKeeps(s, f.child, z.pending);
    assert z == s.h.(pending := z.pending);
    FailedZoomEnds(f, r);
  }

  lemma FailedZoomEnds(f: Sys, r: Running)
    requires Inv(f) && f.zoomFailed && f.h.running == Some(r) && r.stage.Zooming?
    ensures Inv(f.(h := AfterZoom(f.h, r.job, false, r.stage.relay)))
  {
    if r.stage.relay.None? {
      LeaveFailedZoom(f, Finish(f.h));
    } else {
      SetZoomKeeps(f, f.h.zoom);
      SetZoomKeepsTask(f.h, f.h.zoom);
      var t := if IsCurrent(f.h, r.job.op) then f.(h := SetZoom(f.h, f.h.zoom)) else f;
      AfterCreationZoomLeaves(t.h, t.h, r.job, r.stage.relay.value);
      LeaveFailedZoom(t, AfterCreationZoom(t.h, r.job, r.stage.relay.value));
    }
  }

  lemma SetZoomKeepsTask(h: Host, scale: Zoom)
    ensures SetZoom(h, scale).running == h.running
  {
  }

  // ---- the viewport and commands ----

  lemma BoundsReplyKeeps(s: Sys, r: Running, ok: bool)
    requires Inv(s) && s.h.running == Some(r) && r.stage.SettingBounds?
    ensures Inv(s.(h := if !ok then ViewportFails(s.h, r.job)
                        else if !IsCurrent(s.h, r.job.op) then Finish(s.h)
                        else Await(s.h, r.job, SettingVisible(r.stage.viewport))))
  {
    GiveUpKeeps(s);
    FinishKeeps(s);
    AwaitKeeps(s, SettingVisible(r.stage.viewport));
  }

  lemma VisibleReplyKeeps(s: Sys, r: Running, ok: bool)
    requires Inv(s) && s.h.running == Some(r) && r.stage.SettingVisible?
    ensures Inv(s.(h := if ok then Finish(s.h) else ViewportFails(s.h, r.job)))
  {
    GiveUpKeeps(s);
    FinishKeeps(s);
  }

  // ---- all steps, all runs ----

  /** The stages whose reply touches neither the child nor its zoom. */
  lemma QuietReplySplits(s: Sys, r: Running, ok: bool, left: bool, relay: bool)
    requires !r.stage.Destroying? && !r.stage.Creating? && !r.stage.Zooming?
    ensures OnReply(s, r, ok, left, relay) == s.(h := Replied(s.h, r, ok, relay))
  {
  }

  lemma QuietReplyKeeps(s: Sys, r: Running, ok: bool, relay: bool)
    requires Inv(s) && s.h.running == Some(r)
    requires !r.stage.Destroying? && !r.stage.Creating? && !r.stage.Zooming?
    ensures Inv(s.(h := Replied(s.h, r, ok, relay)))
  {
    if r.stage.Retrying? { RetryKeeps(s, r.stage.late, r.stage.attempts); }
    else if r.stage.Listening? { ListenReplyKeeps(s, ok); }
    else if r.stage.SettingBounds? { BoundsReplyKeeps(s, r, ok); }
    else if r.stage.SettingVisible? { VisibleReplyKeeps(s, r, ok); }
    else { FinishKeeps(s); }
  }

  lemma ReplyKeeps(s: Sys, r: Running, ok: bool, left: bool, relay: bool)
    requires Inv(s) && s.h.running == Some(r)
    ensures Inv(OnReply(s, r, ok, left, relay))
  {
    if r.stage.Destroying? { DestroyReplyKeeps(s, r, ok, left, relay); }
    else if r.stage.Creating? { CreateReplyKeeps(s, r, ok, left, relay); }
    else if r.stage.Zooming? {
      if ok { ZoomSucceedsKeeps(s, r, left, relay); } else { ZoomFailsKeeps(s, r, left, relay); }
    } else {
      QuietReplySplits(s, r, ok, left, relay);
      QuietReplyKeeps(s, r, ok, relay);
    }
  }

  lemma TimerEventKeeps(s: Sys)
    requires Inv(s)
    ensures Inv(s.(h := TimerFires(s.h))) && Inv(s.(h := BridgeReady(s.h)))
  {
    TimersKeep(s, None, s.h.timedOut);
    TimersKeep(s, None, true);
    TimersKeep(s, None, false);
  }

  lemma CommandCallKeeps(s: Sys)
    requires Inv(s)
    ensures Inv(s.(h := SendCommand(s.h)))
  {
    OtherJobKeeps(s, CommandJob(s.h.operation));
  }

  lemma StepKeeps(s: Sys, e: Event)
    requires Inv(s)
    ensures Inv(Step(s, e))
  {
    match e {
      case CallSetTarget(target, active) => SetTargetKeeps(s, target, active);
      case CallSetViewport(viewport) => SetViewportKeeps(s, viewport);
      case CallSetZoom(scale) => SetZoomKeeps(s, scale);
      case CallCommand => CommandCallKeeps(s);
      case CallDestroy => DestroyKeeps(s);
      case CallDispose => DisposeKeeps(s);
      case Timer => TimerEventKeeps(s);
      case Ready => TimerEventKeeps(s);
      case Start => StartKeeps(s);
      case Reply(ok, left, relay) => if s.h.running.Some? { ReplyKeeps(s, s.h.running.value, ok, left, relay); }
    }
  }

  lemma {:induction false} RunKeeps(events: seq<Event>)
    ensures Inv(Run(events))
  {
    if events != [] {
      RunKeeps(events[..|events| - 1]);
      StepKeeps(Run(events[..|events| - 1]), events[|events| - 1]);
    }
  }
}
