/**
  The fields of the SSH forward host and what each run-to-completion segment of its
  methods does to them. A segment is the code between two awaits; nothing else runs
  while one does. Segments are functions from the fields before to the fields after,
  and the class in ForwardHost.dfy is proved to compute exactly these functions.
*/
module HostSegments {
  import opened Options
  import opened SshWire
  import opened SnapshotTables

  datatype Snapshot = Snapshot(
    context: Context, scopeId: ScopeId, activationToken: WireCounter,
    counters: Counters, tables: Tables)

  datatype Hint = Hint(
    context: Context, activationToken: WireCounter, scopeId: Option<ScopeId>,
    counters: Counters, runtimeChanged: bool)

  datatype ErrorCode = ManagerSessionMismatch | ClientEpochStale | ActivationSuperseded | OtherCode

  /** What the manager may answer, to any call: nothing ties a reply to the call it answers. */
  datatype Reply =
    | OpenReply(context: Context, floor: WireCounter, activeScope: Option<ScopeId>, generation: WireCounter)
    | ActivationReply(context: Context, token: WireCounter, scope: Option<ScopeId>,
                      generation: WireCounter, snapshot: Option<Snapshot>)
    | SnapshotReply(value: Snapshot)
    | KeysReply(context: Context, keysScope: ScopeId, generation: WireCounter)
    | PurgeReply(purgedScope: ScopeId)
    | Garbage
    | Failure(code: ErrorCode)

  datatype Host = Host(
    context: Option<Context>,
    activationToken: Option<WireCounter>,
    pending: Option<WireCounter>,
    scopeId: Option<ScopeId>,
    scopeGeneration: Option<WireCounter>,
    snapshotState: Option<Snapshot>,
    hintFreshness: Option<Counters>,
    operation: nat,
    mutationInFlight: int,
    mutationWaiters: seq<nat>,
    requestSequence: nat,
    acceptedRequest: nat,
    reopening: bool,
    snapshotInFlight: bool,
    trailing: bool,
    trailingHint: Option<Hint>,
    disposed: bool)

  /** The fields that say which session and scope the host is on and what it last published. */
  datatype Session = Session(
    context: Option<Context>, activationToken: Option<WireCounter>, pending: Option<WireCounter>,
    scopeId: Option<ScopeId>, scopeGeneration: Option<WireCounter>,
    snapshotState: Option<Snapshot>, hintFreshness: Option<Counters>)

  function SessionOf(h: Host): Session {
    Session(h.context, h.activationToken, h.pending, h.scopeId, h.scopeGeneration, h.snapshotState, h.hintFreshness)
  }

  const FRESH_HOST: Host :=
    Host(None, None, None, None, None, None, None, 0, 0, [], 0, 0, false, false, false, None, false)

  /** What a command remembers of the host across its await. */
  datatype Capture = Capture(
    context: Context, token: WireCounter, scopeId: ScopeId, generation: WireCounter, operation: nat)

  // ---- currency and shape checks ----

  predicate IsCurrent(h: Host, c: Capture) {
    && !h.disposed
    && c.operation == h.operation
    && h.context == Some(c.context)
    && h.activationToken == Some(c.token)
    && h.scopeId == Some(c.scopeId)
    && h.scopeGeneration == Some(c.generation)
  }

  predicate IsCurrentActivation(h: Host, context: Context, token: WireCounter, operation: nat) {
    && !h.disposed
    && operation == h.operation
    && h.context == Some(context)
    && h.pending == Some(token)
  }

  predicate ValidSnapshot(s: Snapshot, context: Context, token: WireCounter, scope: ScopeId, generation: WireCounter) {
    && s.context == context
    && s.scopeId == scope
    && s.activationToken == token
    && s.counters.scopeGeneration == generation
    && ValidTables(s.tables, scope)
  }

  predicate ValidActivation(r: Reply, context: Context, token: WireCounter, scope: Option<ScopeId>) {
    && r.ActivationReply?
    && r.context == context
    && r.token == token
    && r.scope == scope
    && (r.snapshot.Some? ==>
          scope.Some? && ValidSnapshot(r.snapshot.value, context, token, scope.value, r.generation))
  }

  predicate ValidResult(r: Reply, c: Capture) {
    match r
    case SnapshotReply(s) => ValidSnapshot(s, c.context, c.token, c.scopeId, c.generation)
    case KeysReply(context, scope, generation) =>
      context == c.context && scope == c.scopeId && generation == c.generation
    case _ => false
  }

  // ---- accepting a snapshot ----

  function AcceptSnapshot(h: Host, snapshot: Option<Snapshot>, request: Option<nat>): Host {
    if snapshot.Some? && request.Some? && request.value < h.acceptedRequest then h
    else
      h.(acceptedRequest := if request.Some? then request.value else h.acceptedRequest,
         snapshotState := snapshot,
         hintFreshness := if snapshot.Some? then Some(snapshot.value.counters) else h.hintFreshness)
  }

  // ---- openClient ----

  function BeginOpen(h: Host): Host {
    h.(operation := h.operation + 1)
  }

  function EndOpen(h: Host, operation: nat, r: Reply): (Host, bool) {
    if r.OpenReply? && !h.disposed && operation == h.operation then
      (h.(context := Some(r.context),
          activationToken := Some(r.floor),
          pending := None,
          scopeId := r.activeScope,
          scopeGeneration := Some(r.generation),
          snapshotState := None,
          hintFreshness := None),
       true)
    else (h, false)
  }

  // ---- activateScope ----

  /** The token the next activation counts up from. */
  function TokenFloor(h: Host): Option<WireCounter> {
    if h.pending.Some? then h.pending else h.activationToken
  }

  /** The token the next activation would send; None when it would throw instead. */
  function NextToken(h: Host): Option<WireCounter> {
    if h.context.None? || TokenFloor(h).None? then None
    else IncrementWireCounter(TokenFloor(h).value)
  }

  function BeginActivate(h: Host, token: WireCounter): Host {
    h.(operation := h.operation + 1,
       pending := Some(token),
       snapshotState := None,
       scopeGeneration := None,
       hintFreshness := None)
  }

  /** The error code `activateScope` sees for a reply that is not a valid activation. */
  function ActivationError(r: Reply): ErrorCode {
    if r.Failure? then r.code else OtherCode
  }

  function EndActivate(h: Host, context: Context, token: WireCounter, scope: Option<ScopeId>, operation: nat, r: Reply)
    : (Host, bool)
  {
    var valid := ValidActivation(r, context, token, scope);
    var current := IsCurrentActivation(h, context, token, operation);
    if valid && current then
      (AcceptSnapshot(
         h.(activationToken := Some(token), pending := None, scopeId := scope,
            scopeGeneration := Some(r.generation)),
         r.snapshot, None),
       true)
    else if current then
      var error := ActivationError(r);
      var floored :=
        if error.ClientEpochStale? || error.ActivationSuperseded?
        then h.(context := None, activationToken := None, pending := None)
        else h.(activationToken := Some(token), pending := None);
      (floored.(scopeId := None, scopeGeneration := None, snapshotState := None, hintFreshness := None), false)
    else (h, false)
  }

  // ---- command ----

  /** What a command would capture; None when it throws before doing anything. */
  function CaptureFor(h: Host, mutating: bool): Option<Capture> {
    if h.context.None? || h.activationToken.None? || h.scopeId.None? || h.scopeGeneration.None? then None
    else
      Some(Capture(h.context.value, h.activationToken.value, h.scopeId.value, h.scopeGeneration.value,
                   if mutating then h.operation + 1 else h.operation))
  }

  function BeginMutation(h: Host): Host {
    h.(operation := h.operation + 1, mutationInFlight := h.mutationInFlight + 1)
  }

  datatype CommandEnd = Returned(host: Host) | Thrown(host: Host) | Restarting(host: Host)

  function EndCommand(h: Host, c: Capture, request: Option<nat>, r: Reply): CommandEnd {
    if ValidResult(r, c) && IsCurrent(h, c) then
      if r.SnapshotReply? then
        var accepted := AcceptSnapshot(h, Some(r.value), request);
        if accepted.snapshotState.None? then Thrown(accepted) else Returned(accepted)
      else Returned(h)
    else
      // a result that is well formed but stale throws the same error as a malformed one
      var mismatch := r.Failure? && r.code.ManagerSessionMismatch?;
      if mismatch && !h.reopening && IsCurrent(h, c) then Restarting(h.(reopening := true))
      else Thrown(h)
  }

  // ---- snapshot requests and their sequence numbers ----

  function BeginSnapshot(h: Host): Host {
    h.(requestSequence := h.requestSequence + 1)
  }

  // ---- hints ----

  predicate ShouldRefresh(h: Host, hint: Hint) {
    if h.snapshotState.None? then true
    else
      var current := Freshness(h);
      !SomeBelow(hint.counters, current)
      && (hint.runtimeChanged || SomeAbove(hint.counters, current))
  }

  function Freshness(h: Host): Counters
    requires h.snapshotState.Some?
  {
    if h.hintFreshness.Some? then h.hintFreshness.value else h.snapshotState.value.counters
  }

  /** The hints `handleHint` passes on: for this session, and not already covered. */
  predicate Admits(h: Host, hint: Hint) {
    && h.context == Some(hint.context)
    && h.snapshotState.Some?
    && h.activationToken == Some(hint.activationToken)
    && h.scopeId == hint.scopeId
    && ShouldRefresh(h, hint)
  }

  /** `requestHintSnapshot`: either a read starts now (true), or the hint becomes the trailing one. */
  function RequestHint(h: Host, hint: Hint): (Host, bool) {
    if h.mutationInFlight > 0 || h.snapshotInFlight
    then (h.(trailing := true, trailingHint := Some(hint)), false)
    else (h.(snapshotInFlight := true), true)
  }

  /** `flushTrailingSnapshot`: the hint for which a read starts now, if any. */
  function Flush(h: Host, fallback: Option<Hint>): (Host, Option<Hint>) {
    if !h.trailing || h.snapshotInFlight || h.mutationInFlight > 0 then (h, None)
    else
      var next := if h.trailingHint.Some? then h.trailingHint else fallback;
      var cleared := h.(trailing := false, trailingHint := None);
      if next.Some? && ShouldRefresh(cleared, next.value) then
        var (requested, started) := RequestHint(cleared, next.value);
        (requested, if started then next else None)
      else (cleared, None)
  }

  /** `finishMutation`: gives the slot back; the last one out wakes the waiters and flushes. */
  function FinishMutation(h: Host): (Host, Option<Hint>) {
    var released := h.(mutationInFlight := h.mutationInFlight - 1);
    if released.mutationInFlight > 0 then (released, None)
    else Flush(released.(mutationWaiters := []), None)
  }

  /** The `finally` of a hint read. */
  function FinishHintRead(h: Host, hint: Hint): (Host, Option<Hint>) {
    Flush(h.(snapshotInFlight := false), Some(hint))
  }

  function Dispose(h: Host): Host {
    if h.disposed then h
    else h.(disposed := true, operation := h.operation + 1, pending := None, mutationWaiters := [])
  }
}
