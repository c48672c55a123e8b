/**
  The Browser Debug host object driven by events: whatever arrives, in whatever order, its
  fields are those of the machine, so what is proved of every run holds of the object.
*/
module BrowserDriver {
  import opened Options
  import opened BrowserSegments
  import opened BrowserRuns
  import opened BrowserDebugHost

  /** The running task resumes with the outcome of what it awaited. */
  method Resume(host: NativeBrowserDebugHost, r: Running, ok: bool, relay: bool)
    modifies host
    ensures host.View() == Replied(old(host.View()), r, ok, relay)
  {
    match r.stage {
      case Destroying(late, attempts) => host.DestroyReturned(r.job, late, attempts, ok);
      case Retrying(late, attempts) => host.SuspendAt(r.job, Destroying(late, attempts));
      case Listening => host.ListenReturned(r.job, ok);
      case Creating(zoom) => host.CreateReturned(r.job, zoom, ok, relay);
      case Zooming(scale, request, installed) => host.ZoomReturned(r.job, scale, request, ok, installed);
      case SettingBounds(captured) => host.BoundsReturned(r.job, captured, ok);
      case SettingVisible(captured) => host.VisibleReturned(r.job, captured, ok);
      case Commanding => host.EndTask();
    }
  }

  method Deliver(host: NativeBrowserDebugHost, ghost s: Sys, e: Event)
    requires host.View() == s.h
    modifies host
    ensures host.View() == Step(s, e).h
  {
    match e {
      case CallSetTarget(target, active) => host.SetTarget(target, active);
      case CallSetViewport(viewport) => host.SetViewport(viewport);
      case CallSetZoom(scale) => host.SetZoom(scale);
      case CallCommand => host.Command();
      case CallDestroy => host.Destroy();
      case CallDispose => host.Dispose();
      case Timer => host.BridgeTimeoutFires();
      case Ready => host.BridgeAnswers();
      case Start => host.StartNext();
      case Reply(ok, _, relay) =>
        if host.running.Some? {
          Resume(host, host.running.value, ok, relay);
        }
    }
  }

  /** A new host after any events has the fields of the machine's run. */
  method Drive(events: seq<Event>) returns (host: NativeBrowserDebugHost)
    ensures host.View() == Run(events).h
  {
    host := new NativeBrowserDebugHost();
    for i := 0 to |events|
      invariant fresh(host) && host.View() == Run(events[..i]).h
    {
      Deliver(host, Run(events[..i]), events[i]);
      assert events[..i + 1][..i] == events[..i];
    }
    assert events[..|events|] == events;
  }
}
