/**
  The child ends up where the latest viewport wants it: its bounds and visibility are
  applied again for every change, and a task that captured an older viewport is always
  followed by one that has not started yet.
*/
module BrowserViewports {
  import opened Options
  import opened BrowserSegments
  import opened BrowserRuns
  import opened BrowserInvariants
  import opened BrowserTheorems
  import opened BrowserRequests

  /** What the child was last told since its creation, if anything. */
  datatype Placement = Placement(bounds: Option<Rect>, shown: Option<bool>)

  const UNTOLD: Placement := Placement(None, None)

  function Clamp(x: real): real {
    if x < -1000000.0 then -1000000.0 else if x > 1000000.0 then 1000000.0 else x
  }

  function AtLeastZero(x: real): real {
    if x < 0.0 then 0.0 else x
  }

  /** The bounds sent for a viewport. */
  function BoundsOrZero(viewport: Option<Rect>): Rect {
    match viewport
    case None => Rect(0.0, 0.0, 0.0, 0.0)
    case Some(v) => Rect(Clamp(v.top), Clamp(v.left), AtLeastZero(v.width), AtLeastZero(v.height))
  }

  /** What the child has been told after one more native call has replied. */
  function PlacedAfter(was: Placement, stage: Stage, ok: bool, left: bool): Placement {
    if !ok && !left then was
    else
      match stage
      case Creating(_) => UNTOLD
      case SettingBounds(v) => was.(bounds := Some(BoundsOrZero(v)))
      case SettingVisible(v) => was.(shown := Some(v.Some?))
      case _ => was
  }

  function Placed(events: seq<Event>): Placement {
    if events == [] then UNTOLD
    else
      var before, e := events[..|events| - 1], events[|events| - 1];
      var h := Run(before).h;
      if e.Reply? && h.running.Some? then PlacedAfter(Placed(before), h.running.value.stage, e.ok, e.left) else Placed(before)
  }

  /** A bounds or visibility call has failed since the child was adopted. */
  predicate FailedAfter(failed: bool, stage: Stage, ok: bool) {
    !stage.Creating? && (failed || (!ok && (stage.SettingBounds? || stage.SettingVisible?)))
  }

  predicate PlacingFailed(events: seq<Event>) {
    events != [] &&
    var before, e := events[..|events| - 1], events[|events| - 1];
    var h := Run(before).h;
    if e.Reply? && h.running.Some? then FailedAfter(PlacingFailed(before), h.running.value.stage, e.ok)
    else PlacingFailed(before)
  }

  /** The viewport set last; a disposed host takes none. */
  function LatestViewport(events: seq<Event>): Option<Rect> {
    if events == [] then None
    else
      var before, e := events[..|events| - 1], events[|events| - 1];
      if e.CallSetViewport? && CallDispose !in before then e.viewport else LatestViewport(before)
  }

  // ---- on its way ----

  predicate Placing(stage: Stage) {
    stage.SettingBounds? || stage.SettingVisible?
  }

  /** A task that captured another viewport is at work. */
  predicate Stray(h: Host) {
    h.running.Some? && Placing(h.running.value.stage) && h.running.value.stage.viewport != h.viewport
  }

  predicate PlacementQueued(h: Host) {
    ViewportJob(h.operation) in h.queue
  }

  /** The running task is about to send the bounds, or has sent them. */
  predicate PlacesNow(h: Host, placed: Placement) {
    && h.running.Some? && h.running.value.job.op == h.operation
    && var stage := h.running.value.stage;
       || (stage.Zooming? && stage.relay.Some?)
       || stage == SettingBounds(h.viewport)
       || (stage == SettingVisible(h.viewport) && placed.bounds == Some(BoundsOrZero(h.viewport)))
  }

  predicate InPlace(h: Host, placed: Placement) {
    placed == Placement(Some(BoundsOrZero(h.viewport)), Some(h.viewport.Some?))
  }

  predicate ViewportTracked(h: Host, placed: Placement, failed: bool) {
    h.state.Some? ==>
      && (h.running.Some? && Placing(h.running.value.stage) ==> h.running.value.job.op == h.operation)
      && (failed || PlacementQueued(h) || (!Stray(h) && (PlacesNow(h, placed) || InPlace(h, placed))))
  }

  // ---- calls ----

  lemma ZoomKeepsViewport(h: Host, scale: Zoom)
    ensures var g := SetZoom(h, scale);
            && g.viewport == h.viewport && g.operation == h.operation && g.running == h.running && g.state == h.state
            && (PlacementQueued(h) ==> PlacementQueued(g))
  {
  }

  /** With nothing but the queue grown, what was on its way still is. */
  lemma GrowingKeepsTracked(h: Host, g: Host, placed: Placement, failed: bool)
    requires ViewportTracked(h, placed, failed)
    requires g.viewport == h.viewport && g.operation == h.operation && g.running == h.running && g.state == h.state
    requires PlacementQueued(h) ==> PlacementQueued(g)
    ensures ViewportTracked(g, placed, failed)
  {
  }

  lemma SetViewportTracks(h: Host, viewport: Option<Rect>, placed: Placement, failed: bool)
    requires ViewportTracked(h, placed, failed) && (h.state.Some? ==> h.target.Some?)
    ensures ViewportTracked(SetViewport(h, viewport), placed, failed)
  {
    ZoomKeepsViewport(h.(viewport := viewport), h.zoom);
  }

  lemma OtherCallsTrack(s: Sys, e: Event, placed: Placement, failed: bool)
    requires ViewportTracked(s.h, placed, failed) && (e.CallSetZoom? || e.CallCommand? || e.Timer? || e.Ready?)
    ensures ViewportTracked(Step(s, e).h, placed, failed)
  {
    if e.CallSetZoom? { ZoomKeepsViewport(s.h, e.scale); }
    GrowingKeepsTracked(s.h, Step(s, e).h, placed, failed);
  }

  lemma AskingTracks(s: Sys, e: Event, placed: Placement, failed: bool)
    requires ViewportTracked(s.h, placed, failed) && Asks(e)
    ensures ViewportTracked(Step(s, e).h, placed, failed)
  {
  }

  // ---- tasks ----

  lemma StartTracks(s: Sys, placed: Placement, failed: bool)
    requires Inv(s) && ViewportTracked(s.h, placed, failed)
    ensures ViewportTracked(NextJob(s.h), placed, failed)
  {
    var h := s.h;
    if h.running.None? && h.queue != [] {
      var job := h.queue[0];
      assert h.queue == [job] + h.queue[1..];
      StartJobSplits(Dequeued(h), job);
      if h.state.Some? { StartedStage(Dequeued(h), job); }
    }
  }

  /** Which stage a task that is no lifecycle task starts at. */
  lemma StartedStage(h: Host, job: Job)
    requires h.running.None? && h.state.Some? && h.target.Some? && !Lifecycle(job)
    ensures var g := StartJob(h, job);
            && g.viewport == h.viewport
            && (job == ViewportJob(h.operation) ==> g.running == Some(Running(job, SettingBounds(h.viewport))))
            && (job != ViewportJob(h.operation) ==> g.running.None? || !Placing(g.running.value.stage))
  {
  }

  lemma AfterCreationZoomStage(h: Host, job: Job, relay: bool)
    requires h.state.Some? && h.target.Some? && IsCurrent(h, job.op)
    ensures var g := AfterCreationZoom(h, job, relay);
            && g.running == Some(Running(job, SettingBounds(h.viewport)))
            && g.viewport == h.viewport && g.operation == h.operation && g.queue == h.queue && g.state == h.state
  {
  }

  /** An adopted child is told the viewport next, perhaps after a changed zoom. */
  lemma AdoptionPlaces(h: Host, r: Running, relay: bool, placed: Placement)
    requires h.running == Some(r) && r.stage.Creating? && IsCurrent(h, r.job.op) && h.target.Some?
    ensures ViewportTracked(CreateReplied(h, r.job, r.stage.zoom, true, relay), placed, false)
  {
    var g := h.(state := Some(NativeState(relay)), targetPending := false);
    if g.zoom == r.stage.zoom {
      AfterCreationZoomStage(
        g.(lastApplied := Some(r.stage.zoom), pending := if g.pending == Some(r.stage.zoom) then None else g.pending),
        r.job, relay);
    }
  }

  lemma CreateReplyTracks(s: Sys, r: Running, ok: bool, relay: bool, placed: Placement)
    requires Inv(s) && s.h.running == Some(r) && r.stage.Creating?
    ensures ViewportTracked(CreateReplied(s.h, r.job, r.stage.zoom, ok, relay), placed, false)
  {
    assert s.h.state.None? && Issued(s.h, r.job) && Fits(s.h, r);
    CreateReplyGoesOn(s.h, r, ok, relay);
    if ok && IsCurrent(s.h, r.job.op) { AdoptionPlaces(s.h, r, relay, placed); }
  }

  lemma ZoomReplyTracks(s: Sys, r: Running, ok: bool, placed: Placement, failed: bool)
    requires Inv(s) && s.h.running == Some(r) && r.stage.Zooming? && ViewportTracked(s.h, placed, failed)
    ensures ViewportTracked(
              AfterZoom(ZoomReplied(s.h, r.job.op, r.stage.scale, r.stage.request, ok), r.job, ok, r.stage.relay), placed, failed)
  {
    var h := s.h;
    var z := ZoomReplied(h, r.job.op, r.stage.scale, r.stage.request, ok);
    assert z == h.(lastApplied := z.lastApplied, pending := z.pending);
    if h.state.Some? && r.stage.relay.Some? {
      ZoomKeepsViewport(z, z.zoom);
      var y := if !ok && IsCurrent(z, r.job.op) then SetZoom(z, z.zoom) else z;
      assert y.target == h.target;
      AfterCreationZoomStage(y, r.job, r.stage.relay.value);
    } else if h.state.None? {
      ZoomReplyGoesOn(h, r, ok);
    }
  }

  /** The bounds have been sent: visibility of the same viewport is next. */
  lemma BoundsReplyTracks(h: Host, r: Running, ok: bool, left: bool, placed: Placement, failed: bool)
    requires h.running == Some(r) && r.stage.SettingBounds? && ViewportTracked(h, placed, failed)
    ensures ViewportTracked(Replied(h, r, ok, false), PlacedAfter(placed, r.stage, ok, left), FailedAfter(failed, r.stage, ok))
  {
  }

  lemma VisibleReplyTracks(h: Host, r: Running, ok: bool, left: bool, placed: Placement, failed: bool)
    requires h.running == Some(r) && r.stage.SettingVisible? && ViewportTracked(h, placed, failed)
    ensures ViewportTracked(Replied(h, r, ok, false), PlacedAfter(placed, r.stage, ok, left), FailedAfter(failed, r.stage, ok))
  {
  }

  lemma CommandReplyTracks(h: Host, r: Running, placed: Placement, failed: bool)
    requires h.running == Some(r) && r.stage.Commanding? && ViewportTracked(h, placed, failed)
    ensures ViewportTracked(Finish(h), placed, failed)
  {
  }

  lemma ReplyTracks(s: Sys, r: Running, ok: bool, left: bool, relay: bool, placed: Placement, failed: bool)
    requires Inv(s) && s.h.running == Some(r) && ViewportTracked(s.h, placed, failed)
    ensures ViewportTracked(Replied(s.h, r, ok, relay), PlacedAfter(placed, r.stage, ok, left), FailedAfter(failed, r.stage, ok))
  {
    assert Fits(s.h, r);
    if r.stage.Creating? { CreateReplyTracks(s, r, ok, relay, PlacedAfter(placed, r.stage, ok, left)); }
    else if r.stage.Zooming? { ZoomReplyTracks(s, r, ok, placed, failed); }
    else if r.stage.SettingBounds? { BoundsReplyTracks(s.h, r, ok, left, placed, failed); }
    else if r.stage.SettingVisible? { VisibleReplyTracks(s.h, r, ok, left, placed, failed); }
    else if r.stage.Commanding? { CommandReplyTracks(s.h, r, placed, failed); }
    else { ReplyGoesOn(s.h, r, ok, relay); }
  }

  // ---- all runs ----

  lemma {:induction false} RunTracksViewport(events: seq<Event>)
    ensures ViewportTracked(Run(events).h, Placed(events), PlacingFailed(events))
  {
    if events != [] {
      var before, e := events[..|events| - 1], events[|events| - 1];
      var s := Run(before);
      RunTracksViewport(before);
      RunKeeps(before);
      if Asks(e) { AskingTracks(s, e, Placed(before), PlacingFailed(before)); }
      else if e.CallSetViewport? { SetViewportTracks(s.h, e.viewport, Placed(before), PlacingFailed(before)); }
      else if e.Start? { StartTracks(s, Placed(before), PlacingFailed(before)); }
      else if e.Reply? {
        if s.h.running.Some? {
          ReplyTracks(s, s.h.running.value, e.ok, e.left, e.relay, Placed(before), PlacingFailed(before));
        }
      } else { OtherCallsTrack(s, e, Placed(before), PlacingFailed(before)); }
    }
  }

  lemma CreatingKeepsViewport(h: Host, r: Running, ok: bool, relay: bool)
    requires r.stage.Creating?
    ensures CreateReplied(h, r.job, r.stage.zoom, ok, relay).viewport == h.viewport
  {
  }

  lemma ZoomingKeepsViewport(h: Host, r: Running, ok: bool)
    requires r.stage.Zooming?
    ensures var z := ZoomReplied(h, r.job.op, r.stage.scale, r.stage.request, ok);
            AfterZoom(z, r.job, ok, r.stage.relay).viewport == h.viewport
  {
    var z := ZoomReplied(h, r.job.op, r.stage.scale, r.stage.request, ok);
    assert z == h.(lastApplied := z.lastApplied, pending := z.pending);
    ZoomKeepsViewport(z, z.zoom);
  }

  lemma ReplyKeepsViewport(h: Host, r: Running, ok: bool, relay: bool)
    ensures Replied(h, r, ok, relay).viewport == h.viewport
  {
    if r.stage.Creating? { CreatingKeepsViewport(h, r, ok, relay); }
    if r.stage.Zooming? { ZoomingKeepsViewport(h, r, ok); }
  }

  lemma StepKeepsViewport(s: Sys, e: Event)
    requires !e.CallSetViewport?
    ensures Step(s, e).h.viewport == s.h.viewport
  {
    if e.CallSetZoom? { ZoomKeepsViewport(s.h, e.scale); }
    if e.Start? { StartKeepsViewport(s.h); }
    if e.Reply? && s.h.running.Some? { ReplyKeepsViewport(s.h, s.h.running.value, e.ok, e.relay); }
  }

  lemma StartKeepsViewport(h: Host)
    ensures NextJob(h).viewport == h.viewport
  {
  }

  lemma {:induction false} RunKeepsLatestViewport(events: seq<Event>)
    ensures Run(events).h.viewport == LatestViewport(events)
  {
    if events != [] {
      var before, e := events[..|events| - 1], events[|events| - 1];
      RunKeepsLatestViewport(before);
      RunIsAsked(before);
      if e.CallSetViewport? {
        ZoomKeepsViewport(Run(before).h.(viewport := e.viewport), Run(before).h.zoom);
      } else {
        StepKeepsViewport(Run(before), e);
      }
    }
  }

  /** Once the queue has drained, and unless a bounds or visibility call has failed since the child was adopted,
      the child was last told the bounds and the visibility of the viewport that was set last, changes made
      during its creation and between the two calls included. */
  lemma {:induction false} QuietChildIsInPlace(events: seq<Event>)
    requires Quiet(Run(events).h) && Run(events).h.state.Some? && !PlacingFailed(events)
    ensures Placed(events).bounds == Some(BoundsOrZero(LatestViewport(events)))
    ensures Placed(events).shown == Some(LatestViewport(events).Some?)
  {
    RunTracksViewport(events);
    RunKeepsLatestViewport(events);
  }
}
