/**
  The native Browser Debug host as a value: its fields, its promise queue, and one
  function per stretch of code between two awaits. What a task awaits is its stage.
*/
module BrowserSegments {
  import opened Options

  /** A finite number; other numbers are rejected before any state is read. */
  type Zoom = real

  /** Where the child is to be shown; no viewport hides it. */
  datatype Rect = Rect(top: real, left: real, width: real, height: real)

  datatype Target = Target(url: string, origin: string, tunnel: bool)

  /** What an open child reports about itself, as far as the host's branches depend on it. */
  datatype NativeState = NativeState(relayInstalled: bool)

  /** A queued task with what it captured. */
  datatype Job =
    | TargetJob(op: nat, target: Option<Target>, profile: Option<string>)
    | DestroyJob(op: nat)
    | ViewportJob(op: nat)
    | ZoomJob(op: nat, request: nat, scale: Zoom)
    | CommandJob(op: nat)

  /** The await the running task is suspended at. `late` marks the destruction of a child whose creation
      was superseded. A zoom set right after creation remembers whether the relay was installed. */
  datatype Stage =
    | Destroying(late: bool, attempts: nat)
    | Retrying(late: bool, attempts: nat)
    | Listening
    | Creating(zoom: Zoom)
    | Zooming(scale: Zoom, request: nat, relay: Option<bool>)
    | SettingBounds(viewport: Option<Rect>)
    | SettingVisible(viewport: Option<Rect>)
    | Commanding

  datatype Running = Running(job: Job, stage: Stage)

  datatype Host = Host(
    target: Option<Target>, profile: Option<string>, viewport: Option<Rect>,
    zoom: Zoom, lastApplied: Option<Zoom>, pending: Option<Zoom>, zoomRequest: nat,
    targetPending: bool, timedOut: bool, timer: Option<(nat, nat)>,
    state: Option<NativeState>, generation: nat, operation: nat, disposed: bool,
    queue: seq<Job>, running: Option<Running>)

  const FRESH_HOST: Host := Host(None, None, None, 1.0, None, None, 0, false, false, None, None, 0, 0, false, [], None)

  function Enqueue(h: Host, job: Job): Host {
    h.(queue := h.queue + [job])
  }

  // ---- calls ----

  predicate SameTarget(h: Host, target: Target, profile: Option<string>) {
    && h.target.Some? && h.target.value.url == target.url && h.target.value.origin == target.origin
    && h.profile == profile
    && (h.state.Some? || h.targetPending)
    && !h.timedOut
  }

  /** What both `setTarget` and `destroy` do before they queue a task. */
  function Supersede(h: Host, target: Option<Target>, profile: Option<string>): Host {
    h.(operation := h.operation + 1, generation := h.generation + 1, timer := None, timedOut := false,
       target := target, profile := profile, targetPending := target.Some?,
       state := None, lastApplied := None, pending := None, zoomRequest := h.zoomRequest + 1)
  }

  function SetTarget(h: Host, target: Option<Target>, active: Option<string>): Host {
    if h.disposed then h
    else if target.Some? && SameTarget(h, target.value, active) then h
    else
      var profile := if target.Some? then active else None;
      Enqueue(Supersede(h, target, profile), TargetJob(h.operation + 1, target, profile))
  }

  function Destroy(h: Host): Host {
    Enqueue(Supersede(h, None, None), DestroyJob(h.operation + 1))
  }

  function Dispose(h: Host): Host {
    if h.disposed then h else Destroy(h.(disposed := true))
  }

  function SetZoom(h: Host, scale: Zoom): Host {
    if h.disposed || scale <= 0.0 then h
    else if (h.lastApplied == Some(scale) && h.pending.None?) || h.pending == Some(scale) then h.(zoom := scale)
    else
      var g := h.(zoom := scale, pending := Some(scale), zoomRequest := h.zoomRequest + 1);
      if g.state.None? || g.target.None? then g
      else Enqueue(g, ZoomJob(g.operation, g.zoomRequest, scale))
  }

  function SetViewport(h: Host, viewport: Option<Rect>): Host {
    if h.disposed then h
    else
      var g := h.(viewport := viewport);
      if g.state.None? || g.target.None? then g
      else Enqueue(SetZoom(g, g.zoom), ViewportJob(h.operation))
  }

  function SendCommand(h: Host): Host {
    if h.disposed then h else Enqueue(h, CommandJob(h.operation))
  }

  // ---- timers and relayed events ----

  function TimerFires(h: Host): Host {
    if h.timer.None? then h
    else if h.timer.value.0 != h.operation || h.timer.value.1 != h.generation || h.state.None? || h.target.None? then
      h.(timer := None)
    else h.(timer := None, timedOut := true)
  }

  function BridgeReady(h: Host): Host {
    if h.target.None? || h.state.None? then h else h.(timer := None, timedOut := false)
  }

  // ---- tasks ----

  predicate IsCurrent(h: Host, op: nat) {
    op == h.operation
  }

  function Finish(h: Host): Host {
    h.(running := None)
  }

  function Await(h: Host, job: Job, stage: Stage): Host {
    h.(running := Some(Running(job, stage)))
  }

  /** A task that fails clears `targetPending` while it is still the current one. */
  function GiveUpTarget(h: Host, job: Job): Host {
    Finish(if IsCurrent(h, job.op) then h.(targetPending := false) else h)
  }

  function ApplyViewport(h: Host, job: Job): Host {
    if h.state.None? || h.target.None? || !IsCurrent(h, job.op) then Finish(h)
    else Await(h, job, SettingBounds(h.viewport))
  }

  function ApplyZoom(h: Host, job: Job, scale: Zoom, request: nat): Host {
    if h.state.None? || h.target.None? || !IsCurrent(h, job.op) then Finish(h)
    else Await(h, job, Zooming(scale, request, None))
  }

  function StartJob(h: Host, job: Job): Host {
    match job
    case TargetJob(_, _, _) => Await(h, job, Destroying(false, 0))
    case DestroyJob(op) => if !IsCurrent(h, op) then Finish(h) else Await(h, job, Destroying(false, 0))
    case ViewportJob(op) => if !IsCurrent(h, op) then Finish(h) else ApplyViewport(h, job)
    case ZoomJob(op, request, scale) =>
      if !IsCurrent(h, op) || request != h.zoomRequest || h.zoom != scale then Finish(h)
      else ApplyZoom(h, job, scale, request)
    case CommandJob(op) => if !IsCurrent(h, op) || h.state.None? then Finish(h) else Await(h, job, Commanding)
  }

  function NextJob(h: Host): Host {
    if h.running.Some? || h.queue == [] then h else StartJob(h.(queue := h.queue[1..]), h.queue[0])
  }

  const DISPOSE_DESTROY_ATTEMPTS: nat := 3

  /** After a failed `browser_debug_destroy`: give up, or wait and try again. */
  predicate GivesUp(h: Host, op: nat, attempts: nat) {
    !IsCurrent(h, op) || (h.disposed && attempts >= DISPOSE_DESTROY_ATTEMPTS)
  }

  /** What follows `destroyNativeChild`. */
  function AfterDestroy(h: Host, job: Job, late: bool, destroyed: bool): Host {
    if !job.TargetJob? || late then Finish(h)
    else if !destroyed then GiveUpTarget(h, job)
    else if !IsCurrent(h, job.op) || job.target.None? then Finish(h)
    else if h.disposed then GiveUpTarget(h, job)
    else Await(h, job, Listening)
  }

  function DestroyReplied(h: Host, job: Job, late: bool, attempts: nat, ok: bool): Host {
    if ok then AfterDestroy(h, job, late, true)
    else if GivesUp(h, job.op, attempts + 1) then AfterDestroy(h, job, late, false)
    else Await(h, job, Retrying(late, attempts + 1))
  }

  function ListenReplied(h: Host, job: Job, ok: bool): Host {
    if !ok || h.disposed then GiveUpTarget(h, job)
    else if !IsCurrent(h, job.op) then Finish(h)
    else if job.TargetJob? && job.profile.None? then GiveUpTarget(h, job)
    else Await(h, job, Creating(h.zoom))
  }

  /** After creation and its zoom: the bridge timer is armed, and the viewport applied. */
  function AfterCreationZoom(h: Host, job: Job, relay: bool): Host {
    ApplyViewport(if relay then h.(timer := Some((job.op, h.generation))) else h, job)
  }

  function CreateReplied(h: Host, job: Job, created: Zoom, ok: bool, relay: bool): Host {
    if !ok then GiveUpTarget(h, job)
    else if !IsCurrent(h, job.op) then Await(h, job, Destroying(true, 0))
    else
      var g := h.(state := Some(NativeState(relay)), targetPending := false);
      if g.zoom != created then Await(g.(pending := Some(g.zoom)), job, Zooming(g.zoom, g.zoomRequest, Some(relay)))
      else
        AfterCreationZoom(
          g.(lastApplied := Some(created), pending := if g.pending == Some(created) then None else g.pending), job, relay)
  }

  /** `applyZoom` after its native call. */
  function ZoomReplied(h: Host, op: nat, scale: Zoom, request: nat, ok: bool): Host {
    if !ok then if request == h.zoomRequest && h.pending == Some(scale) then h.(pending := None) else h
    else if !IsCurrent(h, op) || request != h.zoomRequest then h
    else h.(lastApplied := Some(scale), pending := if h.pending == Some(scale) then None else h.pending)
  }

  /** A zoom set after creation that fails queues another try. */
  function AfterZoom(h: Host, job: Job, ok: bool, relay: Option<bool>): Host {
    if relay.None? then Finish(h)
    else AfterCreationZoom(if !ok && IsCurrent(h, job.op) then SetZoom(h, h.zoom) else h, job, relay.value)
  }

  function ViewportFails(h: Host, job: Job): Host {
    if job.TargetJob? then GiveUpTarget(h, job) else Finish(h)
  }

  /** The running task resumes with the outcome of what it awaited. */
  function Replied(h: Host, r: Running, ok: bool, relay: bool): Host {
    match r.stage
    case Destroying(late, attempts) => DestroyReplied(h, r.job, late, attempts, ok)
    case Retrying(late, attempts) => Await(h, r.job, Destroying(late, attempts))
    case Listening => ListenReplied(h, r.job, ok)
    case Creating(zoom) => CreateReplied(h, r.job, zoom, ok, relay)
    case Zooming(scale, request, installed) =>
      AfterZoom(ZoomReplied(h, r.job.op, scale, request, ok), r.job, ok, installed)
    case SettingBounds(viewport) =>
      if !ok then ViewportFails(h, r.job)
      else if !IsCurrent(h, r.job.op) then Finish(h)
      else Await(h, r.job, SettingVisible(viewport))
    case SettingVisible(_) => if ok then Finish(h) else ViewportFails(h, r.job)
    case Commanding => Finish(h)
  }
}
