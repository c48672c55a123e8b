/**
  The SSH forward host as the object it is: its fields, and one method per segment that
  updates them in place. Each method is proved to take the fields exactly where the
  segment function of HostSegments says, which is what the machine over all
  interleavings is built from.
*/
module ForwardHost {
  import opened Options
  import opened SshWire
  import opened HostSegments

  datatype Outcome = ResultReturned | ErrorThrown | MustRehydrate

  class NativeSshForwardHost {
    var context: Option<Context>
    var activationToken: Option<WireCounter>
    var pendingActivationToken: Option<WireCounter>
    var scopeId: Option<ScopeId>
    var scopeGeneration: Option<WireCounter>
    var snapshotState: Option<Snapshot>
    var hintFreshness: Option<Counters>
    var operation: nat
    var mutationInFlight: int
    var mutationWaiters: seq<nat>
    var snapshotRequestSequence: nat
    var acceptedSnapshotRequest: nat
    var reopening: bool
    var snapshotInFlight: bool
    var snapshotTrailing: bool
    var snapshotTrailingHint: Option<Hint>
    var disposed: bool

    /** The fields as one value. */
    function View(): Host
      reads this
    {
      Host(context, activationToken, pendingActivationToken, scopeId, scopeGeneration, snapshotState, hintFreshness,
           operation, mutationInFlight, mutationWaiters, snapshotRequestSequence, acceptedSnapshotRequest, reopening,
           snapshotInFlight, snapshotTrailing, snapshotTrailingHint, disposed)
    }

    constructor ()
      ensures View() == FRESH_HOST
    {
      context, activationToken, pendingActivationToken := None, None, None;
      scopeId, scopeGeneration, snapshotState, hintFreshness := None, None, None, None;
      operation, mutationInFlight, mutationWaiters := 0, 0, [];
      snapshotRequestSequence, acceptedSnapshotRequest := 0, 0;
      reopening, snapshotInFlight, snapshotTrailing, snapshotTrailingHint, disposed := false, false, false, None, false;
    }

    // ---- openClient ----

    method OpenCalled() returns (captured: nat)
      modifies this
      ensures View() == BeginOpen(old(View())) && captured == operation
    {
      operation := operation + 1;
      captured := operation;
    }

    method OpenReplied(captured: nat, r: Reply) returns (ok: bool)
      modifies this
      ensures (View(), ok) == EndOpen(old(View()), captured, r)
    {
      if !r.OpenReply? || disposed || captured != operation {
        return false;
      }
      ForgetScope();
      context, activationToken := Some(r.context), Some(r.floor);
      scopeId, scopeGeneration := r.activeScope, Some(r.generation);
      return true;
    }

    // ---- activateScope ----

    /** The token that was sent; None when the call threw before sending anything. */
    method ActivateCalled() returns (token: Option<WireCounter>)
      modifies this
      ensures token == NextToken(old(View()))
      ensures View() == if token.Some? then BeginActivate(old(View()), token.value) else old(View())
    {
      if context.None? || (activationToken.None? && pendingActivationToken.None?) {
        return None;
      }
      token := IncrementWireCounter(
        if pendingActivationToken.Some? then pendingActivationToken.value else activationToken.value);
      if token.None? {
        return;
      }
      operation := operation + 1;
      pendingActivationToken := token;
      snapshotState := None;
      scopeGeneration := None;
      hintFreshness := None;
    }

    method ActivateReplied(sentIn: Context, token: WireCounter, scope: Option<ScopeId>, captured: nat, r: Reply)
      returns (ok: bool)
      modifies this
      ensures (View(), ok) == EndActivate(old(View()), sentIn, token, scope, captured, r)
    {
      var valid := ValidActivation(r, sentIn, token, scope);
      var current := IsCurrentActivation(View(), sentIn, token, captured);
      ok := valid && current;
      if ok {
        AdoptScope(token, scope, r.generation);
        AcceptSnapshotReply(r.snapshot, None);
      } else if current {
        QuarantineScope(token, ActivationError(r));
      }
    }

    method AdoptScope(token: WireCounter, scope: Option<ScopeId>, generation: WireCounter)
      modifies this
      ensures View() == old(View()).(activationToken := Some(token), pending := None, scopeId := scope,
                                     scopeGeneration := Some(generation))
    {
      activationToken := Some(token);
      pendingActivationToken := None;
      scopeId := scope;
      scopeGeneration := Some(generation);
    }

    /** After a failed activation no scope is left; a refused epoch also costs the client itself. */
    method QuarantineScope(token: WireCounter, error: ErrorCode)
      modifies this
      ensures var refused := error.ClientEpochStale? || error.ActivationSuperseded?;
              View() == old(View()).(context := if refused then None else old(context),
                                     activationToken := if refused then None else Some(token),
                                     pending := None, scopeId := None, scopeGeneration := None,
                                     snapshotState := None, hintFreshness := None)
    {
      if error.ClientEpochStale? || error.ActivationSuperseded? {
        context := None;
        activationToken := None;
      } else {
        activationToken := Some(token);
      }
      ForgetScope();
    }

    /** No activation is pending, and no scope or snapshot is held. */
    method ForgetScope()
      modifies this`pendingActivationToken, this`scopeId, this`scopeGeneration, this`snapshotState, this`hintFreshness
      ensures View() == old(View()).(pending := None, scopeId := None, scopeGeneration := None,
                                     snapshotState := None, hintFreshness := None)
    {
      pendingActivationToken, scopeId, scopeGeneration := None, None, None;
      snapshotState, hintFreshness := None, None;
    }

    // ---- command ----

    /** The captured session; None when the call threw before sending anything. */
    method CommandCalled(mutating: bool) returns (capture: Option<Capture>)
      modifies this
      ensures capture == CaptureFor(old(View()), mutating)
      ensures View() == if capture.Some? && mutating then BeginMutation(old(View())) else old(View())
    {
      if context.None? || activationToken.None? || scopeId.None? || scopeGeneration.None? {
        return None;
      }
      if mutating {
        operation := operation + 1;
        mutationInFlight := mutationInFlight + 1;
      }
      capture := Some(Capture(context.value, activationToken.value, scopeId.value, scopeGeneration.value, operation));
    }

    method CommandReplied(c: Capture, request: Option<nat>, r: Reply) returns (outcome: Outcome)
      modifies this
      ensures var end := EndCommand(old(View()), c, request, r);
              && View() == end.host
              && (outcome.ResultReturned? <==> end.Returned?)
              && (outcome.ErrorThrown? <==> end.Thrown?)
              && (outcome.MustRehydrate? <==> end.Restarting?)
    {
      if ValidResult(r, c) && IsCurrent(View(), c) {
        if !r.SnapshotReply? {
          return ResultReturned;
        }
        AcceptSnapshotReply(Some(r.value), request);
        return if snapshotState.None? then ErrorThrown else ResultReturned;
      }
      if !(r.Failure? && r.code.ManagerSessionMismatch?) || reopening || !IsCurrent(View(), c) {
        return ErrorThrown;
      }
      reopening := true;
      return MustRehydrate;
    }

    method AcceptSnapshotReply(snapshot: Option<Snapshot>, request: Option<nat>)
      modifies this
      ensures View() == AcceptSnapshot(old(View()), snapshot, request)
    {
      if snapshot.Some? && request.Some? && request.value < acceptedSnapshotRequest {
        return;
      }
      if request.Some? {
        acceptedSnapshotRequest := request.value;
      }
      snapshotState := snapshot;
      if snapshot.Some? {
        hintFreshness := Some(snapshot.value.counters);
      }
    }

    method PurgeCalled() returns (sent: bool)
      modifies this
      ensures sent <==> old(context).Some? && old(activationToken).Some?
      ensures View() == if sent then BeginOpen(old(View())) else old(View())
    {
      sent := context.Some? && activationToken.Some?;
      if sent {
        operation := operation + 1;
      }
    }

    /** The `finally` of `rehydrateAfterRestart`. */
    method RehydrateClosed()
      modifies this`reopening
      ensures View() == old(View()).(reopening := false)
    {
      reopening := false;
    }

    /** `snapshot()` once mutations have settled: the request gets its number. */
    method SnapshotNumbered() returns (request: nat)
      modifies this`snapshotRequestSequence
      ensures View() == BeginSnapshot(old(View())) && request == View().requestSequence
    {
      snapshotRequestSequence := snapshotRequestSequence + 1;
      request := snapshotRequestSequence;
    }

    // ---- mutations and those who wait for them ----

    /** Whether the caller may go on at once; otherwise it is registered as `waiter`. */
    method WaitForMutationsToSettle(waiter: nat) returns (settled: bool)
      modifies this
      ensures settled <==> old(mutationInFlight) == 0
      ensures View() == if settled then old(View())
                        else old(View()).(mutationWaiters := old(mutationWaiters) + [waiter])
    {
      if mutationInFlight == 0 {
        return true;
      }
      mutationWaiters := mutationWaiters + [waiter];
      return false;
    }

    /** The waiters that are woken, in the order they came, and the hint read that starts. */
    method MutationFinished() returns (woken: seq<nat>, start: Option<Hint>)
      modifies this
      ensures (View(), start) == FinishMutation(old(View()))
      ensures woken == if old(mutationInFlight) > 1 then [] else old(mutationWaiters)
    {
      mutationInFlight := mutationInFlight - 1;
      if mutationInFlight > 0 {
        return [], None;
      }
      woken, mutationWaiters := mutationWaiters, [];
      start := FlushTrailingSnapshot(None);
    }

    // ---- hints ----

    /** Whether a snapshot read starts now for this hint. */
    method HandleHint(hint: Hint) returns (started: bool)
      modifies this
      ensures if Admits(old(View()), hint)
              then (View(), started) == RequestHint(old(View()), hint)
              else View() == old(View()) && !started
    {
      if !Admits(View(), hint) {
        return false;
      }
      started := RequestHintSnapshot(hint);
    }

    method RequestHintSnapshot(hint: Hint) returns (started: bool)
      modifies this
      ensures (View(), started) == RequestHint(old(View()), hint)
    {
      if mutationInFlight > 0 {
        snapshotTrailing := true;
        snapshotTrailingHint := Some(hint);
        return false;
      }
      if snapshotInFlight {
        snapshotTrailing := true;
        snapshotTrailingHint := Some(hint);
        return false;
      }
      snapshotInFlight := true;
      return true;
    }

    method FlushTrailingSnapshot(fallback: Option<Hint>) returns (start: Option<Hint>)
      modifies this
      ensures (View(), start) == Flush(old(View()), fallback)
    {
      start := None;
      if !snapshotTrailing || snapshotInFlight || mutationInFlight > 0 {
        return;
      }
      var nextHint := if snapshotTrailingHint.Some? then snapshotTrailingHint else fallback;
      snapshotTrailing := false;
      snapshotTrailingHint := None;
      if nextHint.Some? && ShouldRefresh(View(), nextHint.value) {
        var started := RequestHintSnapshot(nextHint.value);
        if started {
          start := nextHint;
        }
      }
    }

    method HintReadFinished(hint: Hint) returns (start: Option<Hint>)
      modifies this
      ensures (View(), start) == FinishHintRead(old(View()), hint)
    {
      snapshotInFlight := false;
      start := FlushTrailingSnapshot(Some(hint));
    }

    method DisposeNow()
      modifies this
      ensures View() == Dispose(old(View()))
    {
      if !disposed {
        disposed := true;
        operation := operation + 1;
        pendingActivationToken := None;
        mutationWaiters := [];
      }
    }
  }
}
