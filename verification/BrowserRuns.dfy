/**
  The host next to its one native child webview, with everything that may happen while a
  task awaits: further calls, timers, and native calls that succeed, fail, or fail halfway.
*/
module BrowserRuns {
  import opened Options
  import opened BrowserSegments

  /** The child remembers which operation created it; the host's code does not know. */
  datatype Child = Child(op: nat, zoom: Zoom)

  /** `abandoned`: the current operation gave up destroying. `zoomFailed`: a zoom call failed since the
      current child was adopted. */
  datatype Sys = Sys(h: Host, child: Option<Child>, abandoned: bool, zoomFailed: bool)

  datatype Event =
    | CallSetTarget(target: Option<Target>, active: Option<string>)
    | CallSetViewport(viewport: Option<Rect>)
    | CallSetZoom(scale: Zoom)
    | CallCommand
    | CallDestroy
    | CallDispose
    | Timer
    | Ready
    | Start
    // `left`: what a failed native call leaves behind is not known to the host
    | Reply(ok: bool, left: bool, relay: bool)

  /** What a native call does to the child when it replies. */
  function ChildAfter(child: Option<Child>, r: Running, ok: bool, left: bool): Option<Child> {
    match r.stage
    case Destroying(_, _) => if ok || !left then None else child
    case Creating(zoom) => if ok || left then Some(Child(r.job.op, zoom)) else child
    case Zooming(scale, _, _) => if child.Some? && (ok || left) then Some(child.value.(zoom := scale)) else child
    case _ => child
  }

  predicate Abandons(h: Host, r: Running, ok: bool) {
    r.stage.Destroying? && !ok && IsCurrent(h, r.job.op) && GivesUp(h, r.job.op, r.stage.attempts + 1)
  }

  function OnReply(s: Sys, r: Running, ok: bool, left: bool, relay: bool): Sys {
    Sys(Replied(s.h, r, ok, relay), ChildAfter(s.child, r, ok, left),
        s.abandoned || Abandons(s.h, r, ok),
        if r.stage.Creating? then false else s.zoomFailed || (r.stage.Zooming? && !ok))
  }

  function Step(s: Sys, e: Event): Sys {
    match e
    case CallSetTarget(target, active) => Superseding(s, SetTarget(s.h, target, active))
    case CallSetViewport(viewport) => s.(h := SetViewport(s.h, viewport))
    case CallSetZoom(scale) => s.(h := SetZoom(s.h, scale))
    case CallCommand => s.(h := SendCommand(s.h))
    case CallDestroy => Superseding(s, Destroy(s.h))
    case CallDispose => Superseding(s, Dispose(s.h))
    case Timer => s.(h := TimerFires(s.h))
    case Ready => s.(h := BridgeReady(s.h))
    case Start => s.(h := NextJob(s.h))
    case Reply(ok, left, relay) => if s.h.running.None? then s else OnReply(s, s.h.running.value, ok, left, relay)
  }

  /** A new operation has not given up yet. */
  function Superseding(s: Sys, h: Host): Sys {
    s.(h := h, abandoned := s.abandoned && h.operation == s.h.operation)
  }

  const FIRST_SYS: Sys := Sys(FRESH_HOST, None, false, false)

  function Run(events: seq<Event>): Sys {
    if events == [] then FIRST_SYS else Step(Run(events[..|events| - 1]), events[|events| - 1])
  }
}
