/**
  The native Browser Debug host as the object it is: its fields and the methods that
  update them in place, each proved to take the fields where the segment functions of
  BrowserSegments say, which is what the machine over all runs is built from.
*/
module BrowserDebugHost {
  import opened Options
  import opened BrowserSegments

  class NativeBrowserDebugHost {
    var target: Option<Target>
    var profileId: Option<string>
    var viewport: Option<Rect>
    var zoom: Zoom
    var lastAppliedZoom: Option<Zoom>
    var pendingZoom: Option<Zoom>
    var zoomRequest: nat
    var targetPending: bool
    var bridgeTimedOut: bool
    var bridgeTimeout: Option<(nat, nat)>
    var state: Option<NativeState>
    var generation: nat
    var operation: nat
    var disposed: bool
    var queue: seq<Job>
    var running: Option<Running>

    /** The fields as one value. */
    function View(): Host
      reads this
    {
      Host(target, profileId, viewport, zoom, lastAppliedZoom, pendingZoom, zoomRequest, targetPending, bridgeTimedOut,
           bridgeTimeout, state, generation, operation, disposed, queue, running)
    }

    constructor ()
      ensures View() == FRESH_HOST
    {
      target, profileId, viewport, zoom := None, None, None, 1.0;
      lastAppliedZoom, pendingZoom, zoomRequest := None, None, 0;
      targetPending, bridgeTimedOut, bridgeTimeout := false, false, None;
      state, generation, operation, disposed := None, 0, 0, false;
      queue, running := [], None;
    }

    // ---- calls ----

    method SetTarget(newTarget: Option<Target>, activeProfile: Option<string>)
      modifies this
      ensures View() == BrowserSegments.SetTarget(old(View()), newTarget, activeProfile)
    {
      if disposed {
        return;
      }
      if newTarget.Some? && target.Some? && target.value.url == newTarget.value.url
         && target.value.origin == newTarget.value.origin && profileId == activeProfile
         && (state.Some? || targetPending) && !bridgeTimedOut
      {
        return;
      }
      var profile := if newTarget.Some? then activeProfile else None;
      SupersedeFor(newTarget, profile);
      queue := queue + [TargetJob(operation, newTarget, profile)];
    }

    method Destroy()
      modifies this
      ensures View() == BrowserSegments.Destroy(old(View()))
    {
      SupersedeFor(None, None);
      queue := queue + [DestroyJob(operation)];
    }

    method SupersedeFor(newTarget: Option<Target>, profile: Option<string>)
      modifies this
      ensures View() == Supersede(old(View()), newTarget, profile)
    {
      ForgetChild();
      bridgeTimeout, bridgeTimedOut := None, false;
      operation, generation := operation + 1, generation + 1;
      target, profileId, targetPending := newTarget, profile, newTarget.Some?;
    }

    method ForgetChild()
      modifies this`state, this`lastAppliedZoom, this`pendingZoom, this`zoomRequest
      ensures View() == old(View()).(state := None, lastApplied := None, pending := None,
                                     zoomRequest := old(zoomRequest) + 1)
    {
      state, lastAppliedZoom, pendingZoom := None, None, None;
      zoomRequest := zoomRequest + 1;
    }

    method Dispose()
      modifies this
      ensures View() == BrowserSegments.Dispose(old(View()))
    {
      if disposed {
        return;
      }
      disposed := true;
      Destroy();
    }

    method SetZoom(scaleFactor: Zoom)
      modifies this
      ensures View() == BrowserSegments.SetZoom(old(View()), scaleFactor)
    {
      if disposed || scaleFactor <= 0.0 {
        return;
      }
      zoom := scaleFactor;
      if (lastAppliedZoom == Some(scaleFactor) && pendingZoom.None?) || pendingZoom == Some(scaleFactor) {
        return;
      }
      pendingZoom := Some(scaleFactor);
      zoomRequest := zoomRequest + 1;
      if state.None? || target.None? {
        return;
      }
      queue := queue + [ZoomJob(operation, zoomRequest, scaleFactor)];
    }

    method SetViewport(newViewport: Option<Rect>)
      modifies this
      ensures View() == BrowserSegments.SetViewport(old(View()), newViewport)
    {
      if disposed {
        return;
      }
      viewport := newViewport;
      var captured := operation;
      if state.None? || target.None? {
        return;
      }
      SetZoom(zoom);
      queue := queue + [ViewportJob(captured)];
    }

    method Command()
      modifies this
      ensures View() == SendCommand(old(View()))
    {
      if !disposed {
        queue := queue + [CommandJob(operation)];
      }
    }

    // ---- tasks ----

    method EndTask()
      modifies this`running
      ensures View() == Finish(old(View()))
    {
      running := None;
    }

    method SuspendAt(job: Job, stage: Stage)
      modifies this`running
      ensures View() == Await(old(View()), job, stage)
    {
      running := Some(Running(job, stage));
    }

    method EndTargetTask(job: Job)
      modifies this
      ensures View() == GiveUpTarget(old(View()), job)
    {
      if job.op == operation {
        targetPending := false;
      }
      EndTask();
    }

    method SendBounds(job: Job)
      modifies this
      ensures View() == ApplyViewport(old(View()), job)
    {
      if state.None? || target.None? || job.op != operation {
        EndTask();
      } else {
        SuspendAt(job, SettingBounds(viewport));
      }
    }

    /** The next queued task runs up to its first await. */
    method StartNext()
      modifies this
      ensures View() == NextJob(old(View()))
    {
      if running.Some? || queue == [] {
        return;
      }
      var job := queue[0];
      queue := queue[1..];
      match job {
        case TargetJob(_, _, _) => SuspendAt(job, Destroying(false, 0));
        case DestroyJob(op) =>
          if op == operation { SuspendAt(job, Destroying(false, 0)); } else { EndTask(); }
        case ViewportJob(_) => SendBounds(job);
        case ZoomJob(op, request, scale) =>
          if op != operation || request != zoomRequest || zoom != scale || state.None? || target.None? {
            EndTask();
          } else {
            SuspendAt(job, Zooming(scale, request, None));
          }
        case CommandJob(op) =>
          if op == operation && state.Some? { SuspendAt(job, Commanding); } else { EndTask(); }
      }
    }

    /** One turn of the retry loop in `destroyNativeChild`, and what follows it. */
    method DestroyReturned(job: Job, late: bool, failures: nat, ok: bool)
      modifies this
      ensures View() == DestroyReplied(old(View()), job, late, failures, ok)
    {
      var attempts := if ok then failures else failures + 1;
      if !ok && job.op == operation && !(disposed && attempts >= DISPOSE_DESTROY_ATTEMPTS) {
        SuspendAt(job, Retrying(late, attempts));
      } else if !job.TargetJob? || late {
        EndTask();
      } else if !ok {
        EndTargetTask(job);
      } else if job.op != operation || job.target.None? {
        EndTask();
      } else if disposed {
        EndTargetTask(job);
      } else {
        SuspendAt(job, Listening);
      }
    }

    method ListenReturned(job: Job, ok: bool)
      modifies this
      ensures View() == ListenReplied(old(View()), job, ok)
    {
      if !ok || disposed {
        EndTargetTask(job);
      } else if job.op != operation {
        EndTask();
      } else if job.TargetJob? && job.profile.None? {
        EndTargetTask(job);
      } else {
        SuspendAt(job, Creating(zoom));
      }
    }

    method CreateReturned(job: Job, createZoom: Zoom, ok: bool, relayInstalled: bool)
      modifies this
      ensures View() == CreateReplied(old(View()), job, createZoom, ok, relayInstalled)
    {
      if !ok {
        EndTargetTask(job);
      } else if job.op != operation {
        SuspendAt(job, Destroying(true, 0));
      } else {
        AdoptChild(job, createZoom, relayInstalled);
      }
    }

    method AdoptChild(job: Job, createZoom: Zoom, relayInstalled: bool)
      requires job.op == operation
      modifies this
      ensures View() == CreateReplied(old(View()), job, createZoom, true, relayInstalled)
    {
      TakeState(relayInstalled);
      if zoom != createZoom {
        AwaitChangedZoom(job, relayInstalled);
      } else {
        RecordZoom(createZoom);
        FinishCreation(job, relayInstalled);
      }
    }

    /** The zoom changed while the child was created: it is applied next. */
    method AwaitChangedZoom(job: Job, relayInstalled: bool)
      modifies this`pendingZoom, this`running
      ensures View() == Await(old(View()).(pending := Some(zoom)), job, Zooming(zoom, zoomRequest, Some(relayInstalled)))
    {
      pendingZoom := Some(zoom);
      SuspendAt(job, Zooming(zoom, zoomRequest, Some(relayInstalled)));
    }

    method TakeState(relayInstalled: bool)
      modifies this`state, this`targetPending
      ensures View() == old(View()).(state := Some(NativeState(relayInstalled)), targetPending := false)
    {
      state := Some(NativeState(relayInstalled));
      targetPending := false;
    }

    /** The child has this zoom now. */
    method RecordZoom(scale: Zoom)
      modifies this`lastAppliedZoom, this`pendingZoom
      ensures View() == old(View()).(lastApplied := Some(scale),
                                     pending := if old(pendingZoom) == Some(scale) then None else old(pendingZoom))
    {
      lastAppliedZoom := Some(scale);
      if pendingZoom == Some(scale) {
        pendingZoom := None;
      }
    }

    method FinishCreation(job: Job, relayInstalled: bool)
      modifies this
      ensures View() == AfterCreationZoom(old(View()), job, relayInstalled)
    {
      if relayInstalled {
        bridgeTimeout := Some((job.op, generation));
      }
      SendBounds(job);
    }

    method SettleZoom(op: nat, scale: Zoom, request: nat, ok: bool)
      modifies this`lastAppliedZoom, this`pendingZoom
      ensures View() == ZoomReplied(old(View()), op, scale, request, ok)
    {
      if ok {
        if op == operation && request == zoomRequest {
          RecordZoom(scale);
        }
      } else if request == zoomRequest && pendingZoom == Some(scale) {
        pendingZoom := None;
      }
    }

    method ZoomReturned(job: Job, scale: Zoom, request: nat, ok: bool, relay: Option<bool>)
      modifies this
      ensures View() == AfterZoom(ZoomReplied(old(View()), job.op, scale, request, ok), job, ok, relay)
    {
      SettleZoom(job.op, scale, request, ok);
      if relay.None? {
        EndTask();
      } else {
        if !ok && job.op == operation {
          SetZoom(zoom);
        }
        FinishCreation(job, relay.value);
      }
    }

    /** The viewport captured before the bounds were sent decides on visibility too. */
    method BoundsReturned(job: Job, captured: Option<Rect>, ok: bool)
      modifies this
      ensures View() == Replied(old(View()), Running(job, SettingBounds(captured)), ok, false)
    {
      if !ok {
        EndViewportTask(job);
      } else if job.op != operation {
        EndTask();
      } else {
        SuspendAt(job, SettingVisible(captured));
      }
    }

    method VisibleReturned(job: Job, captured: Option<Rect>, ok: bool)
      modifies this
      ensures View() == Replied(old(View()), Running(job, SettingVisible(captured)), ok, false)
    {
      if ok {
        EndTask();
      } else {
        EndViewportTask(job);
      }
    }

    method EndViewportTask(job: Job)
      modifies this
      ensures View() == ViewportFails(old(View()), job)
    {
      if job.TargetJob? {
        EndTargetTask(job);
      } else {
        EndTask();
      }
    }

    // ---- timers and relayed events ----

    /** The child's handshake: the bridge has answered. */
    method BridgeAnswers()
      modifies this
      ensures View() == BridgeReady(old(View()))
    {
      if target.Some? && state.Some? {
        bridgeTimeout, bridgeTimedOut := None, false;
      }
    }

    method BridgeTimeoutFires()
      modifies this
      ensures View() == TimerFires(old(View()))
    {
      if bridgeTimeout.Some? {
        var captured := bridgeTimeout.value;
        bridgeTimeout := None;
        if captured.0 == operation && captured.1 == generation && state.Some? && target.Some? {
          bridgeTimedOut := true;
        }
      }
    }
  }
}
