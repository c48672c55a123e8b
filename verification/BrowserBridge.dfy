/**
  When the host tells its user that the page's bridge does not answer. A bridge that is
  silent always times out; one that has answered does not, unless it answered while the
  zoom was being applied after creation, for the timer is armed only after that.
*/
module BrowserBridge {
  import opened Options
  import opened BrowserSegments
  import opened BrowserRuns
  import opened BrowserInvariants
  import opened BrowserTheorems
  import opened BrowserRequests

  /** The zoom is being applied that changed during creation. */
  predicate ChangingZoom(h: Host) {
    h.running.Some? && h.running.value.stage.Zooming? && h.running.value.stage.relay.Some?
  }

  /** The current child's bridge has answered, other than during that zoom. */
  predicate AnsweredInTime(events: seq<Event>) {
    events != [] &&
    var before, e := events[..|events| - 1], events[|events| - 1];
    var h := Run(before).h;
    && Run(events).h.operation == h.operation
    && (AnsweredInTime(before) || (e.Ready? && h.state.Some? && !ChangingZoom(h)))
  }

  predicate TimerArmed(h: Host) {
    h.timer == Some((h.operation, h.generation))
  }

  const RELAYED: NativeState := NativeState(true)

  predicate BridgeTracked(h: Host, answered: bool) {
    && (h.timedOut ==> h.state == Some(RELAYED))
    && (h.state.None? ==> !answered)
    && (h.state == Some(RELAYED) ==>
          if ChangingZoom(h) then h.running.value.stage.relay == Some(true) && !h.timedOut && !answered && !TimerArmed(h)
          else (TimerArmed(h) || h.timedOut) == !answered)
    && (h.state.Some? && ChangingZoom(h) ==> h.running.value.stage.relay == Some(h.state.value.relayInstalled))
    && (h.state != Some(RELAYED) ==> !TimerArmed(h))
    && (h.timer.Some? ==> h.timer.value.0 <= h.operation)
  }

  /** The fields that matter here. */
  predicate SameBridge(h: Host, g: Host) {
    && g.timer == h.timer && g.timedOut == h.timedOut && g.state == h.state
    && g.operation == h.operation && g.generation == h.generation
  }

  lemma SameBridgeTracks(h: Host, g: Host, answered: bool)
    requires BridgeTracked(h, answered) && SameBridge(h, g)
    requires ChangingZoom(h) || ChangingZoom(g) ==> g.running == h.running
    ensures BridgeTracked(g, answered)
  {
  }

  // ---- calls and timers ----

  lemma ZoomKeepsBridge(h: Host, scale: Zoom)
    ensures SameBridge(h, SetZoom(h, scale)) && SetZoom(h, scale).running == h.running
  {
  }

  lemma CallsTrackBridge(s: Sys, e: Event, answered: bool)
    requires BridgeTracked(s.h, answered) && (e.CallSetViewport? || e.CallSetZoom? || e.CallCommand?)
    ensures BridgeTracked(Step(s, e).h, answered)
  {
    if e.CallSetViewport? { ZoomKeepsBridge(s.h.(viewport := e.viewport), s.h.zoom); }
    if e.CallSetZoom? { ZoomKeepsBridge(s.h, e.scale); }
    SameBridgeTracks(s.h, Step(s, e).h, answered);
  }

  lemma AskingTracksBridge(s: Sys, e: Event, answered: bool)
    requires Inv(s) && BridgeTracked(s.h, answered) && Asks(e)
    ensures var g := Step(s, e).h; BridgeTracked(g, g.operation == s.h.operation && answered)
  {
  }

  lemma TimersTrackBridge(h: Host, answered: bool)
    requires BridgeTracked(h, answered) && (h.state.Some? ==> h.target.Some?)
    ensures BridgeTracked(TimerFires(h), answered)
    ensures BridgeTracked(BridgeReady(h), answered || (h.state.Some? && !ChangingZoom(h)))
  {
  }

  // ---- tasks ----

  lemma StartedTracksBridge(h: Host, job: Job)
    requires h.running.None?
    ensures SameBridge(h, StartJob(h, job)) && !ChangingZoom(StartJob(h, job))
  {
  }

  lemma StartTracksBridge(h: Host, answered: bool)
    requires BridgeTracked(h, answered)
    ensures BridgeTracked(NextJob(h), answered)
  {
    if h.running.None? && h.queue != [] {
      StartedTracksBridge(Dequeued(h), h.queue[0]);
      SameBridgeTracks(h, NextJob(h), answered);
    }
  }

  /** The timer is armed after creation and its zoom, for the operation that created. */
  lemma AfterCreationZoomArms(h: Host, job: Job, relay: bool)
    ensures var g := AfterCreationZoom(h, job, relay);
            && g.timer == (if relay then Some((job.op, h.generation)) else h.timer) && !ChangingZoom(g)
            && g.timedOut == h.timedOut && g.state == h.state && g.operation == h.operation && g.generation == h.generation
  {
  }

  lemma AdoptionTracksBridge(s: Sys, r: Running, relay: bool, answered: bool)
    requires Inv(s) && s.h.running == Some(r) && r.stage.Creating? && IsCurrent(s.h, r.job.op) && BridgeTracked(s.h, answered)
    ensures BridgeTracked(CreateReplied(s.h, r.job, r.stage.zoom, true, relay), answered)
  {
    var g := s.h.(state := Some(NativeState(relay)), targetPending := false);
    assert s.h.state.None?;
    if g.zoom == r.stage.zoom {
      AfterCreationZoomArms(
        g.(lastApplied := Some(r.stage.zoom), pending := if g.pending == Some(r.stage.zoom) then None else g.pending),
        r.job, relay);
    }
  }

  lemma CreateReplyTracksBridge(s: Sys, r: Running, ok: bool, relay: bool, answered: bool)
    requires Inv(s) && s.h.running == Some(r) && r.stage.Creating? && BridgeTracked(s.h, answered)
    ensures BridgeTracked(CreateReplied(s.h, r.job, r.stage.zoom, ok, relay), answered)
  {
    if ok && IsCurrent(s.h, r.job.op) { AdoptionTracksBridge(s, r, relay, answered); }
  }

  lemma ZoomReplyTracksBridge(s: Sys, r: Running, ok: bool, answered: bool)
    requires Inv(s) && s.h.running == Some(r) && r.stage.Zooming? && BridgeTracked(s.h, answered)
    ensures BridgeTracked(
              AfterZoom(ZoomReplied(s.h, r.job.op, r.stage.scale, r.stage.request, ok), r.job, ok, r.stage.relay), answered)
  {
    var h := s.h;
    var z := ZoomReplied(h, r.job.op, r.stage.scale, r.stage.request, ok);
    assert z == h.(lastApplied := z.lastApplied, pending := z.pending);
    assert Issued(h, r.job);
    if r.stage.relay.None? {
      SameBridgeTracks(h, Finish(z), answered);
    } else {
      ZoomKeepsBridge(z, z.zoom);
      var y := if !ok && IsCurrent(z, r.job.op) then SetZoom(z, z.zoom) else z;
      AfterCreationZoomArms(y, r.job, r.stage.relay.value);
    }
  }

  lemma OtherReplyTracksBridge(h: Host, r: Running, ok: bool, relay: bool, answered: bool)
    requires h.running == Some(r) && !r.stage.Creating? && !r.stage.Zooming? && BridgeTracked(h, answered)
    ensures BridgeTracked(Replied(h, r, ok, relay), answered)
  {
    OtherReplyKeepsBridge(h, r, ok, relay);
    SameBridgeTracks(h, Replied(h, r, ok, relay), answered);
  }

  lemma OtherReplyKeepsBridge(h: Host, r: Running, ok: bool, relay: bool)
    requires !r.stage.Creating? && !r.stage.Zooming?
    ensures SameBridge(h, Replied(h, r, ok, relay)) && !ChangingZoom(Replied(h, r, ok, relay))
  {
  }

  // ---- all runs ----

  lemma ReplyTracksBridge(s: Sys, r: Running, ok: bool, relay: bool, answered: bool)
    requires Inv(s) && s.h.running == Some(r) && BridgeTracked(s.h, answered)
    ensures BridgeTracked(Replied(s.h, r, ok, relay), answered)
  {
    if r.stage.Creating? { CreateReplyTracksBridge(s, r, ok, relay, answered); }
    else if r.stage.Zooming? { ZoomReplyTracksBridge(s, r, ok, answered); }
    else { OtherReplyTracksBridge(s.h, r, ok, relay, answered); }
  }

  lemma StepTracksBridge(s: Sys, e: Event, answered: bool)
    requires Inv(s) && BridgeTracked(s.h, answered)
    ensures var g := Step(s, e).h;
            BridgeTracked(g, g.operation == s.h.operation && (answered || (e.Ready? && s.h.state.Some? && !ChangingZoom(s.h))))
  {
    if Asks(e) {
      AskingTracksBridge(s, e, answered);
    } else {
      StepGoesOn(s, e);
      if e.Start? { StartTracksBridge(s.h, answered); }
      else if e.Timer? || e.Ready? { TimersTrackBridge(s.h, answered); }
      else if e.Reply? { if s.h.running.Some? { ReplyTracksBridge(s, s.h.running.value, e.ok, e.relay, answered); } }
      else { CallsTrackBridge(s, e, answered); }
    }
  }

  lemma {:induction false} RunTracksBridge(events: seq<Event>)
    ensures BridgeTracked(Run(events).h, AnsweredInTime(events))
  {
    if events != [] {
      var before := events[..|events| - 1];
      RunTracksBridge(before);
      RunKeeps(before);
      StepTracksBridge(Run(before), events[|events| - 1], AnsweredInTime(before));
    }
  }

  /** After any run, only a child with a relay whose bridge has not answered in time has timed out; and once
      the zoom that changed during creation is applied, the timer's next firing means a time-out if and only
      if the bridge has not answered in time. */
  lemma {:induction false} TimesOutExactlyUnanswered(events: seq<Event>)
    ensures var s := Run(events);
            && (s.h.timedOut ==> s.h.state == Some(RELAYED) && !AnsweredInTime(events))
            && (s.h.state == Some(RELAYED) && !ChangingZoom(s.h) ==>
                  (Step(s, Timer).h.timedOut <==> !AnsweredInTime(events)))
  {
    RunTracksBridge(events);
    RunKeeps(events);
    var h := Run(events).h;
    assert h.state.Some? ==> h.target.Some?;
  }

  // ---- an answer that is forgotten ----

  const DONE: Event := Reply(true, true, true)

  /** The zoom changes while the child is created, and is applied next. */
  lemma ChangedZoomIsNext(s: Sys)
    requires Creates(s) && s.h.zoom == 1.0 && s.h.state.None?
    ensures var u := Step(Step(s, CallSetZoom(2.0)), DONE);
            && u.h.state == Some(RELAYED) && ChangingZoom(u.h) && u.h.running.value.job.op == u.h.operation
            && u.h.running.value.stage.relay == Some(true) && u.h.target.Some?
  {
    var changed := Step(s, CallSetZoom(2.0));
    assert changed.h.zoom == 2.0 && changed.h.running == s.h.running && changed.h.state.None? && changed.h.target == s.h.target;
  }

  /** An answer is forgotten when the timer is armed after the zoom. */
  lemma AnswerIsForgotten(s: Sys)
    requires s.h.state == Some(RELAYED) && ChangingZoom(s.h) && s.h.target.Some?
    requires s.h.running.value.job.op == s.h.operation && s.h.running.value.stage.relay == Some(true)
    ensures var u := Step(Step(Step(s, Ready), DONE), Timer); u.h.timedOut && u.h.operation == s.h.operation
  {
    var heard := Step(s, Ready);
    assert heard.h == s.h.(timer := None, timedOut := false);
    var r := s.h.running.value;
    var z := ZoomReplied(heard.h, r.job.op, r.stage.scale, r.stage.request, true);
    AfterCreationZoomArms(z, r.job, true);
    assert Step(heard, DONE).h == AfterCreationZoom(z, r.job, true);
  }

  /** A run in which the bridge answers, the host hears it, and the host yet reports a time-out. */
  lemma {:induction false} AnsweringBridgeTimesOut() returns (before: seq<Event>, after: seq<Event>)
    ensures var s, u := Run(before), Run(before + [Ready] + after);
            && s.h.state == Some(RELAYED) && s.h.target.Some?
            && u.h.timedOut && u.h.operation == s.h.operation
  {
    var events := OutstandingCreation();
    ChangedZoomIsNext(Run(events));
    RunOn(events, CallSetZoom(2.0));
    RunOn(events + [CallSetZoom(2.0)], DONE);
    before, after := events + [CallSetZoom(2.0)] + [DONE], [DONE] + [Timer];
    AnswerIsForgotten(Run(before));
    RunOn(before, Ready);
    RunOn(before + [Ready], DONE);
    RunOn(before + [Ready] + [DONE], Timer);
    assert before + [Ready] + after == before + [Ready] + [DONE] + [Timer];
  }
}
