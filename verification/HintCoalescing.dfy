/**
  Change-hint coalescing loses no update. The host machine of HostRuns runs against a
  manager that serves calls in the order they were sent, whose counters only grow, and
  that announces its current counters in hints which arrive in order. Every manager call
  succeeds and the host stays on one activated scope; replies, calls, mutations and
  promise reactions interleave freely.
*/
module HintCoalescing {
  import opened Options
  import opened SshWire
  import opened SnapshotTables
  import opened HostSegments
  import opened HostRuns
  import opened HostInvariants

  /** `history` is the chain of counters the manager has been through; `order` and `sent` number
      the calls as they were sent; `values` are the counters each served call was answered with. */
  datatype Manager = Manager(history: seq<Counters>, order: map<nat, nat>, sent: nat, values: seq<Counters>)

  /** `channel` holds the hints on their way, `admitted` what `handleHint` has let through, and `heard`
      all that the host heard for its own session while it had a published snapshot. */
  datatype World = World(sys: Sys, manager: Manager, channel: seq<Hint>, admitted: seq<Counters>, heard: seq<Counters>)

  datatype WorldEvent =
    | ManagerMoves(next: Counters)
    | ManagerServes
    | ManagerHints(runtimeChanged: bool)
    | HostHears
    | UserMutates | UserListsKeys | UserReads
    | Answer(tid: nat, tables: Tables)
    | Turn(tid: nat)
    | ListenerFails(tid: nat)

  function Now(m: Manager): Counters
    requires m.history != []
  {
    m.history[|m.history| - 1]
  }

  /** What the manager answered, or would answer next, to the `k`-th call. */
  function ValueOf(m: Manager, k: nat): Counters
    requires m.history != []
  {
    if k < |m.values| then m.values[k] else Now(m)
  }

  /** The host has an active scope and is neither disposed of nor rehydrating. */
  predicate OnScope(h: Host, generation: WireCounter) {
    && h.context.Some? && h.activationToken.Some? && h.scopeId.Some?
    && h.scopeGeneration == Some(generation)
    && !h.disposed && !h.reopening
  }

  function NumberSend(m: Manager, tid: nat): Manager {
    m.(order := m.order[tid := m.sent], sent := m.sent + 1)
  }

  /** Event callbacks run only when no promise reaction is pending, so not while a retry is queued. */
  predicate RetryPending(ts: seq<Task>) {
    exists i :: 0 <= i < |ts| && ts[i].pc.RetryQueued?
  }

  function ReplyTo(t: Task, counters: Counters, tables: Tables): Reply
    requires t.pc.CommandCall?
  {
    var c := t.pc.capture;
    if t.kind.ListingKeys? then KeysReply(c.context, c.scopeId, c.generation)
    else SnapshotReply(Snapshot(c.context, c.scopeId, c.token, counters, tables))
  }

  predicate Answerable(w: World, tid: nat, tables: Tables) {
    && tid < |w.sys.tasks| && w.sys.tasks[tid].pc.CommandCall?
    && tid in w.manager.order && w.manager.order[tid] < |w.manager.values|
    && ValidTables(tables, w.sys.tasks[tid].pc.capture.scopeId)
  }

  predicate Issues(s: Sys, tid: nat) {
    tid < |s.tasks| && s.tasks[tid].pc.Settling? && tid !in s.host.mutationWaiters && CaptureFor(s.host, false).Some?
  }

  /** The manager's answer to a command reaches the host. */
  function AnswerCall(w: World, tid: nat, tables: Tables): World
    requires Answerable(w, tid, tables)
  {
    var t, m := w.sys.tasks[tid], w.manager;
    w.(sys := OnCommandReply(w.sys, tid, t.pc, ReplyTo(t, m.values[m.order[tid]], tables)))
  }

  function TakeTurn(w: World, tid: nat): World {
    w.(sys := Step(w.sys, Resume(tid)),
       manager := if Issues(w.sys, tid) then NumberSend(w.manager, tid) else w.manager)
  }

  /** The user starts a command; the manager will serve it after every call sent before it. */
  function UserSends(w: World, e: Event, mutating: bool): World {
    if CaptureFor(w.sys.host, mutating).Some?
    then w.(sys := Step(w.sys, e), manager := NumberSend(w.manager, |w.sys.tasks|)) else w
  }

  /** The host has a published snapshot and the hint is for its session. */
  predicate Concerns(h: Host, hint: Hint) {
    && h.snapshotState.Some? && h.context == Some(hint.context)
    && h.activationToken == Some(hint.activationToken) && h.scopeId == hint.scopeId
  }

  function Hear(w: World): World
    requires w.channel != []
  {
    var hint := w.channel[0];
    w.(sys := Step(w.sys, HintArrives(hint)), channel := w.channel[1..],
       admitted := if Admits(w.sys.host, hint) then w.admitted + [hint.counters] else w.admitted,
       heard := if Concerns(w.sys.host, hint) then w.heard + [hint.counters] else w.heard)
  }

  function WorldStep(w: World, e: WorldEvent): World
    requires w.manager.history != []
  {
    var s, h, m := w.sys, w.sys.host, w.manager;
    match e
    case ManagerMoves(next) =>
      if Leq(Now(m), next) && next.scopeGeneration == Now(m).scopeGeneration
      then w.(manager := m.(history := m.history + [next])) else w
    case ManagerServes =>
      if |m.values| < m.sent then w.(manager := m.(values := m.values + [Now(m)])) else w
    case ManagerHints(runtimeChanged) =>
      if h.context.Some? && h.activationToken.Some?
      then w.(channel := w.channel + [Hint(h.context.value, h.activationToken.value, h.scopeId, Now(m), runtimeChanged)])
      else w
    case HostHears =>
      if w.channel != [] && !RetryPending(s.tasks) then Hear(w) else w
    case UserMutates => UserSends(w, CallMutation, true)
    case UserListsKeys => UserSends(w, CallListKeys, false)
    case UserReads => w.(sys := Step(s, CallSnapshot))
    case Answer(tid, tables) => if Answerable(w, tid, tables) then AnswerCall(w, tid, tables) else w
    case Turn(tid) => TakeTurn(w, tid)
    case ListenerFails(tid) => w.(sys := Step(s, SubscriberThrows(tid)))
  }

  function WorldRun(start: World, events: seq<WorldEvent>): (w: World)
    requires start.manager.history != []
    ensures w.manager.history != []
  {
    if events == [] then start
    else WorldStep(WorldRun(start, events[..|events| - 1]), events[|events| - 1])
  }

  /** Nothing is in flight or queued: every task has run to its end. */
  ghost predicate Quiet(ts: seq<Task>) {
    forall i | 0 <= i < |ts| :: ts[i].pc.Finished?
  }

  ghost predicate Rising(cs: seq<Counters>) {
    forall i, j | 0 <= i <= j < |cs| :: Leq(cs[i], cs[j])
  }

  /** A quiet host on an active scope, in front of a manager that is not behind it. */
  ghost predicate Start(w: World) {
    && Inv(w.sys) && Quiet(w.sys.tasks)
    && w.manager.history != [] && Rising(w.manager.history)
    && (forall c | c in w.manager.history :: c.scopeGeneration == Now(w.manager).scopeGeneration)
    && OnScope(w.sys.host, Now(w.manager).scopeGeneration)
    && (w.sys.host.snapshotState.Some? ==> w.sys.host.snapshotState.value.counters in w.manager.history)
    && w.manager.order == map[] && w.manager.sent == 0 && w.manager.values == []
    && w.channel == [] && w.admitted == [] && w.heard == []
  }

  // ---- the invariant ----

  /** In flight and not yet fenced off by a later mutation. */
  predicate Live(h: Host, t: Task) {
    t.pc.CommandCall? && t.pc.capture.operation == h.operation
  }

  predicate LiveMutation(h: Host, t: Task) {
    t.kind.Mutating? && Live(h, t)
  }

  /** A live read whose reply will still be accepted. */
  predicate LiveRead(h: Host, t: Task) {
    Reads(t.kind) && Live(h, t) && t.pc.request.Some? && t.pc.request.value >= h.acceptedRequest
  }

  predicate SameSession(h: Host, c: Capture) {
    && h.context == Some(c.context) && h.activationToken == Some(c.token)
    && h.scopeId == Some(c.scopeId) && h.scopeGeneration == Some(c.generation)
  }

  predicate TaskOnScope(h: Host, m: Manager, t: Task, i: nat) {
    match t.pc
    case CommandCall(c, _, request, ret) =>
      && ret.Top? && i in m.order && m.order[i] < m.sent
      && SameSession(h, c) && c.operation <= h.operation
      && (if Reads(t.kind) then request.Some? && request.value <= h.requestSequence
          else request.None? && (t.kind.Mutating? || t.kind.ListingKeys?))
    case Settling => Reads(t.kind)
    case HintThen => t.kind.HintReading?
    case HintCatch => t.kind.HintReading?
    case HintFinally => t.kind.HintReading?
    case RetryQueued => t.kind.HintReading?
    case Finished(_) => true
    case _ => false
  }

  ghost predicate TasksOnScope(h: Host, m: Manager, ts: seq<Task>) {
    forall i | 0 <= i < |ts| :: TaskOnScope(h, m, ts[i], i)
  }

  /** How two calls in flight relate: numbered apart, reads numbered in sending order, at most one
      mutation per operation number, and a live mutation sent before every live read. */
  predicate Related(h: Host, m: Manager, a: Task, i: nat, b: Task, j: nat) {
    a.pc.CommandCall? && b.pc.CommandCall? && i in m.order && j in m.order ==>
      && m.order[i] != m.order[j]
      && (Reads(a.kind) && Reads(b.kind) && a.pc.request.Some? && b.pc.request.Some? && m.order[i] < m.order[j] ==>
            a.pc.request.value < b.pc.request.value)
      && (a.kind.Mutating? && b.kind.Mutating? ==> a.pc.capture.operation != b.pc.capture.operation)
      && (LiveMutation(h, a) && Reads(b.kind) && Live(h, b) ==> m.order[i] < m.order[j])
  }

  ghost predicate CallsRelated(h: Host, m: Manager, ts: seq<Task>) {
    forall i, j | 0 <= i < |ts| && 0 <= j < |ts| && i != j :: Related(h, m, ts[i], i, ts[j], j)
  }

  /** Everything the manager has said is a point of its chain. */
  ghost predicate OnChain(m: Manager) {
    && m.history != [] && Rising(m.history)
    && (forall c | c in m.history :: c.scopeGeneration == Now(m).scopeGeneration)
    && |m.values| <= m.sent && Rising(m.values)
    && (forall v | v in m.values :: v in m.history)
  }

  /** What the host has published, if anything, is a point of the chain. */
  ghost predicate PublishedOnChain(h: Host, m: Manager) {
    h.snapshotState.Some? ==>
      h.snapshotState.value.counters in m.history && h.hintFreshness == Some(h.snapshotState.value.counters)
  }

  predicate OwnHint(h: Host, hint: Hint) {
    h.context == Some(hint.context) && h.activationToken == Some(hint.activationToken) && h.scopeId == hint.scopeId
  }

  ghost predicate HintsInOrder(h: Host, m: Manager, channel: seq<Hint>, admitted: seq<Counters>) {
    && (forall k | 0 <= k < |channel| :: channel[k].counters in m.history && OwnHint(h, channel[k]))
    && (forall k, l | 0 <= k <= l < |channel| :: Leq(channel[k].counters, channel[l].counters))
    && (forall a | a in admitted :: a in m.history)
    && Rising(admitted)
    && (forall a, k | a in admitted && 0 <= k < |channel| :: Leq(a, channel[k].counters))
  }

  function Newest(admitted: seq<Counters>): Option<Counters> {
    if admitted == [] then None else Some(admitted[|admitted| - 1])
  }

  /** A hint read or a queued retry is for the newest hint admitted, unless that one is trailing. */
  predicate ForNewest(h: Host, t: Task, newest: Option<Counters>) {
    && (ReadsForHint(t) ==> h.trailing || newest == Some(t.kind.hint.counters))
    && (t.pc.RetryQueued? ==> t.kind.HintReading? && !h.trailing && newest == Some(t.kind.hint.counters))
  }

  /** While a retry is queued the read it retries is about to close, and there is no other retry. */
  predicate RetryAlone(a: Task, b: Task) {
    a.pc.RetryQueued? ==> !b.pc.RetryQueued? && (ReadsForHint(b) ==> b.pc.HintFinally?)
  }

  ghost predicate NewestHint(h: Host, ts: seq<Task>, newest: Option<Counters>) {
    && (h.trailing ==> h.trailingHint.Some? && newest == Some(h.trailingHint.value.counters))
    && (forall i | 0 <= i < |ts| :: ForNewest(h, ts[i], newest))
    && (forall i, j | 0 <= i < |ts| && 0 <= j < |ts| && i != j :: RetryAlone(ts[i], ts[j]))
  }

  /** A read that will still be accepted does not take the host back. */
  predicate MovesForward(h: Host, m: Manager, t: Task, i: nat)
    requires m.history != []
  {
    h.snapshotState.Some? && LiveRead(h, t) && i in m.order ==>
      Leq(h.snapshotState.value.counters, ValueOf(m, m.order[i]))
  }

  ghost predicate ReadsMoveForward(h: Host, m: Manager, ts: seq<Task>)
    requires m.history != []
  {
    forall i | 0 <= i < |ts| :: MovesForward(h, m, ts[i], i)
  }

  /** A read for the newest hint that will be accepted once it is answered. */
  predicate WillCover(h: Host, m: Manager, t: Task, i: nat, newest: Counters)
    requires m.history != []
  {
    && ReadsForHint(t) && t.kind.hint.counters == newest
    && (t.pc.Settling? || (LiveRead(h, t) && i in m.order && Leq(newest, ValueOf(m, m.order[i]))))
  }

  predicate PublishedCovers(h: Host, newest: Counters) {
    h.snapshotState.Some? && Leq(newest, h.snapshotState.value.counters)
  }

  /** The live mutation, if there is one, will be answered from no earlier than the newest hint. */
  predicate MutationCovers(h: Host, m: Manager, t: Task, i: nat, newest: Counters)
    requires m.history != []
  {
    LiveMutation(h, t) && i in m.order ==> Leq(newest, ValueOf(m, m.order[i]))
  }

  /** Somebody has published, or will publish, the newest hint. */
  ghost predicate SomebodyCovers(h: Host, m: Manager, ts: seq<Task>, newest: Counters)
    requires m.history != []
  {
    || PublishedCovers(h, newest)
    || (exists i :: 0 <= i < |ts| && LiveMutation(h, ts[i]))
    || (exists i :: 0 <= i < |ts| && WillCover(h, m, ts[i], i, newest))
  }

  /** The newest admitted hint is trailing, or in the published snapshot, or on its way there. */
  ghost predicate Covered(h: Host, m: Manager, ts: seq<Task>, newest: Option<Counters>)
    requires m.history != []
  {
    newest.Some? && !h.trailing ==>
      && (forall i | 0 <= i < |ts| :: MutationCovers(h, m, ts[i], i, newest.value))
      && SomebodyCovers(h, m, ts, newest.value)
  }

  /** All that the calls, tasks and fields have to do with the manager's chain. */
  ghost predicate Tracks(h: Host, m: Manager, ts: seq<Task>, newest: Option<Counters>) {
    && OnChain(m)
    && PublishedOnChain(h, m)
    && OnScope(h, Now(m).scopeGeneration)
    && h.acceptedRequest <= h.requestSequence
    && (newest.Some? ==> newest.value in m.history)
    && TasksOnScope(h, m, ts)
    && CallsRelated(h, m, ts)
    && NewestHint(h, ts, newest)
    && ReadsMoveForward(h, m, ts)
    && Covered(h, m, ts, newest)
  }

  ghost predicate WorldInv(w: World) {
    && Inv(w.sys)
    && Tracks(w.sys.host, w.manager, w.sys.tasks, Newest(w.admitted))
    && HintsInOrder(w.sys.host, w.manager, w.channel, w.admitted)
  }

  // ---- the chain ----

  lemma Comparable(history: seq<Counters>, a: Counters, b: Counters)
    requires Rising(history) && a in history && b in history
    ensures Leq(a, b) || Leq(b, a)
  {
    var i :| 0 <= i < |history| && history[i] == a;
    var j :| 0 <= j < |history| && history[j] == b;
    assert i <= j || j <= i;
  }

  lemma NowIsLatest(m: Manager, c: Counters)
    requires OnChain(m) && c in m.history
    ensures Leq(c, Now(m))
  {
    var i :| 0 <= i < |m.history| && m.history[i] == c;
  }

  /** Later calls are answered from later points of the chain. */
  lemma ValuesRise(m: Manager, j: nat, k: nat)
    requires OnChain(m) && j <= k
    ensures Leq(ValueOf(m, j), ValueOf(m, k)) && ValueOf(m, k) in m.history
  {
    if k < |m.values| {
      assert m.values[k] in m.values;
    } else if j < |m.values| {
      assert m.values[j] in m.values;
      NowIsLatest(m, m.values[j]);
    }
  }

  // ---- the manager's own steps ----

  /** Nothing the host will be told is taken back by what the manager does next. */
  lemma ManagerAdvances(h: Host, m: Manager, n: Manager, ts: seq<Task>, newest: Option<Counters>)
    requires Tracks(h, m, ts, newest) && OnChain(n)
    requires n.order == m.order && n.sent == m.sent && Now(n).scopeGeneration == Now(m).scopeGeneration
    requires forall c | c in m.history :: c in n.history
    requires forall k: nat :: Leq(ValueOf(m, k), ValueOf(n, k))
    ensures Tracks(h, n, ts, newest)
  {
    forall i | 0 <= i < |ts| ensures TaskOnScope(h, n, ts[i], i) && MovesForward(h, n, ts[i], i) {
      assert TaskOnScope(h, m, ts[i], i) && MovesForward(h, m, ts[i], i);
    }
    forall i, j | 0 <= i < |ts| && 0 <= j < |ts| && i != j ensures Related(h, n, ts[i], i, ts[j], j) {
      assert Related(h, m, ts[i], i, ts[j], j);
    }
    if newest.Some? && !h.trailing {
      forall i | 0 <= i < |ts| ensures MutationCovers(h, n, ts[i], i, newest.value) {
        assert MutationCovers(h, m, ts[i], i, newest.value);
      }
      if i :| 0 <= i < |ts| && WillCover(h, m, ts[i], i, newest.value) {
        assert WillCover(h, n, ts[i], i, newest.value);
      }
    }
  }

  lemma ManagerMovesKeeps(w: World, next: Counters)
    requires WorldInv(w)
    ensures WorldInv(WorldStep(w, ManagerMoves(next)))
  {
    var m := w.manager;
    if Leq(Now(m), next) && next.scopeGeneration == Now(m).scopeGeneration {
      var n := m.(history := m.history + [next]);
      forall i, j | 0 <= i <= j < |n.history| ensures Leq(n.history[i], n.history[j]) {
        if j == |m.history| && i < j { NowIsLatest(m, m.history[i]); }
      }
      ManagerAdvances(w.sys.host, m, n, w.sys.tasks, Newest(w.admitted));
    }
  }

  lemma ManagerServesKeeps(w: World)
    requires WorldInv(w)
    ensures WorldInv(WorldStep(w, ManagerServes))
  {
    var m := w.manager;
    if |m.values| < m.sent {
      var n := m.(values := m.values + [Now(m)]);
      forall i, j | 0 <= i <= j < |n.values| ensures Leq(n.values[i], n.values[j]) {
        if j == |m.values| && i < j {
          assert m.values[i] in m.values;
          NowIsLatest(m, m.values[i]);
        }
      }
      ManagerAdvances(w.sys.host, m, n, w.sys.tasks, Newest(w.admitted));
    }
  }

  lemma ManagerHintsKeeps(w: World, runtimeChanged: bool)
    requires WorldInv(w)
    ensures WorldInv(WorldStep(w, ManagerHints(runtimeChanged)))
  {
    var v := WorldStep(w, ManagerHints(runtimeChanged));
    forall k, l | 0 <= k <= l < |v.channel| ensures Leq(v.channel[k].counters, v.channel[l].counters) {
      if l == |w.channel| && k < l { NowIsLatest(w.manager, w.channel[k].counters); }
    }
    forall a, k | a in v.admitted && 0 <= k < |v.channel| ensures Leq(a, v.channel[k].counters) {
      if k == |w.channel| { NowIsLatest(w.manager, a); }
    }
  }

  // ---- one task changes ----

  /** `us` is `ts` with position `tid` changed, or with one task added at the end. */
  ghost predicate Except(ts: seq<Task>, us: seq<Task>, tid: nat) {
    && |ts| <= |us| && tid < |us| && (|us| > |ts| ==> |us| == |ts| + 1 && tid == |ts|)
    && forall i | 0 <= i < |ts| && i != tid :: us[i] == ts[i]
  }

  /** The fields that name the session and the counters that only grow. */
  predicate Onwards(h: Host, g: Host) {
    && g.context == h.context && g.activationToken == h.activationToken
    && g.scopeId == h.scopeId && g.scopeGeneration == h.scopeGeneration
    && g.disposed == h.disposed && g.reopening == h.reopening
    && h.operation <= g.operation && h.requestSequence <= g.requestSequence
  }

  predicate OrderExtends(m: Manager, n: Manager, tid: nat) {
    && n.history == m.history && n.values == m.values && m.sent <= n.sent
    && (forall i | i in m.order && i != tid :: i in n.order && n.order[i] == m.order[i])
  }

  lemma ScopeFollows(h: Host, g: Host, m: Manager, n: Manager, ts: seq<Task>, us: seq<Task>, tid: nat)
    requires TasksOnScope(h, m, ts) && Except(ts, us, tid) && Onwards(h, g) && OrderExtends(m, n, tid)
    requires TaskOnScope(g, n, us[tid], tid)
    ensures TasksOnScope(g, n, us)
  {
    forall i | 0 <= i < |us| ensures TaskOnScope(g, n, us[i], i) {
      if i != tid { assert TaskOnScope(h, m, ts[i], i); }
    }
  }

  /** A new call is numbered last and captures the current operation. */
  lemma NewCallRelated(h: Host, g: Host, m: Manager, ts: seq<Task>, us: seq<Task>, tid: nat)
    requires TasksOnScope(h, m, ts) && CallsRelated(h, m, ts) && Except(ts, us, tid) && Onwards(h, g)
    requires us[tid].pc.CommandCall? && us[tid].pc.capture.operation == g.operation
    requires if us[tid].kind.Mutating? then g.operation == h.operation + 1 else g.operation == h.operation
    requires us[tid].pc.request.Some? ==> us[tid].pc.request.value == h.requestSequence + 1
    ensures CallsRelated(g, NumberSend(m, tid), us)
  {
    forall i, j | 0 <= i < |us| && 0 <= j < |us| && i != j
      ensures Related(g, NumberSend(m, tid), us[i], i, us[j], j)
    {
      if i != tid { assert TaskOnScope(h, m, ts[i], i); }
      if j != tid { assert TaskOnScope(h, m, ts[j], j); }
      if i != tid && j != tid { assert Related(h, m, ts[i], i, ts[j], j); }
    }
  }

  lemma NoNewCallRelated(h: Host, g: Host, m: Manager, ts: seq<Task>, us: seq<Task>, tid: nat)
    requires CallsRelated(h, m, ts) && Except(ts, us, tid) && g.operation == h.operation
    requires !us[tid].pc.CommandCall?
    ensures CallsRelated(g, m, us)
  {
    forall i, j | 0 <= i < |us| && 0 <= j < |us| && i != j ensures Related(g, m, us[i], i, us[j], j) {
      if i != tid && j != tid { assert Related(h, m, ts[i], i, ts[j], j); }
    }
  }

  lemma NewestFollows(h: Host, g: Host, ts: seq<Task>, us: seq<Task>, tid: nat, newest: Option<Counters>)
    requires NewestHint(h, ts, newest) && Except(ts, us, tid)
    requires g.trailing == h.trailing && g.trailingHint == h.trailingHint
    requires ForNewest(g, us[tid], newest)
    requires forall i | 0 <= i < |ts| && i != tid :: RetryAlone(us[tid], ts[i]) && RetryAlone(ts[i], us[tid])
    ensures NewestHint(g, us, newest)
  {
    forall i | 0 <= i < |us| ensures ForNewest(g, us[i], newest) {
      if i != tid { assert ForNewest(h, ts[i], newest); }
    }
    forall i, j | 0 <= i < |us| && 0 <= j < |us| && i != j ensures RetryAlone(us[i], us[j]) {
      if i != tid && j != tid { assert RetryAlone(ts[i], ts[j]); }
    }
  }

  lemma ForwardFollows(h: Host, g: Host, m: Manager, n: Manager, ts: seq<Task>, us: seq<Task>, tid: nat)
    requires m.history != [] && TasksOnScope(h, m, ts) && ReadsMoveForward(h, m, ts)
    requires Except(ts, us, tid) && OrderExtends(m, n, tid)
    requires h.operation <= g.operation && g.snapshotState == h.snapshotState && g.acceptedRequest == h.acceptedRequest
    requires MovesForward(g, n, us[tid], tid)
    ensures ReadsMoveForward(g, n, us)
  {
    forall i | 0 <= i < |us| ensures MovesForward(g, n, us[i], i) {
      if i != tid { assert MovesForward(h, m, ts[i], i) && TaskOnScope(h, m, ts[i], i); }
    }
  }

  /** What the task at `tid` did for the newest hint is still done, by it or by the publication. */
  lemma CoverFollows(
    h: Host, g: Host, m: Manager, n: Manager, ts: seq<Task>, us: seq<Task>, tid: nat, newest: Option<Counters>)
    requires m.history != [] && TasksOnScope(h, m, ts) && Covered(h, m, ts, newest)
    requires Except(ts, us, tid) && OrderExtends(m, n, tid)
    requires g.operation == h.operation && g.snapshotState == h.snapshotState
    requires g.acceptedRequest == h.acceptedRequest && g.trailing == h.trailing
    requires newest.Some? ==> MutationCovers(g, n, us[tid], tid, newest.value)
    requires newest.Some? && !h.trailing && tid < |ts| && LiveMutation(h, ts[tid]) ==>
               LiveMutation(g, us[tid]) || PublishedCovers(h, newest.value)
    requires newest.Some? && !h.trailing && tid < |ts| && WillCover(h, m, ts[tid], tid, newest.value) ==>
               WillCover(g, n, us[tid], tid, newest.value) || PublishedCovers(h, newest.value)
    ensures Covered(g, n, us, newest)
  {
    if newest.Some? && !h.trailing {
      var c := newest.value;
      forall i | 0 <= i < |us| ensures MutationCovers(g, n, us[i], i, c) {
        if i != tid { assert MutationCovers(h, m, ts[i], i, c) && TaskOnScope(h, m, ts[i], i); }
      }
      if i :| 0 <= i < |ts| && LiveMutation(h, ts[i]) {
        assert LiveMutation(g, us[i]) || PublishedCovers(g, c);
      } else if i :| 0 <= i < |ts| && WillCover(h, m, ts[i], i, c) {
        assert WillCover(g, n, us[i], i, c) || PublishedCovers(g, c);
      }
      assert SomebodyCovers(g, n, us, c);
    }
  }

  /** Slots, waiters and the in-flight flag play no part in tracking. */
  lemma OtherFieldsIgnored(h: Host, g: Host, m: Manager, ts: seq<Task>, newest: Option<Counters>)
    requires Tracks(h, m, ts, newest)
    requires g == h.(mutationInFlight := g.mutationInFlight, mutationWaiters := g.mutationWaiters,
                     snapshotInFlight := g.snapshotInFlight)
    ensures Tracks(g, m, ts, newest)
  {
    forall i | 0 <= i < |ts|
      ensures TaskOnScope(g, m, ts[i], i) && MovesForward(g, m, ts[i], i) && ForNewest(g, ts[i], newest)
      ensures newest.Some? && !g.trailing ==> MutationCovers(g, m, ts[i], i, newest.value)
    {
      assert TaskOnScope(h, m, ts[i], i) && MovesForward(h, m, ts[i], i) && ForNewest(h, ts[i], newest);
      assert newest.Some? && !h.trailing ==> MutationCovers(h, m, ts[i], i, newest.value);
    }
    forall i, j | 0 <= i < |ts| && 0 <= j < |ts| && i != j ensures Related(g, m, ts[i], i, ts[j], j) {
      assert Related(h, m, ts[i], i, ts[j], j);
    }
    if newest.Some? && !h.trailing {
      if i :| 0 <= i < |ts| && LiveMutation(h, ts[i]) {
        assert LiveMutation(g, ts[i]);
      } else if i :| 0 <= i < |ts| && WillCover(h, m, ts[i], i, newest.value) {
        assert WillCover(g, m, ts[i], i, newest.value);
      }
    }
  }

  // ---- calls going out ----

  /** A mutation fences off every call before it and is itself answered from no earlier than now. */
  lemma MutationStarts(h: Host, m: Manager, ts: seq<Task>, newest: Option<Counters>)
    requires Tracks(h, m, ts, newest) && CaptureFor(h, true).Some?
    ensures Tracks(BeginMutation(h), NumberSend(m, |ts|),
                   ts + [Task(Mutating, CommandCall(CaptureFor(h, true).value, false, None, Top), 1, 1)], newest)
  {
    var t := Task(Mutating, CommandCall(CaptureFor(h, true).value, false, None, Top), 1, 1);
    var g, n, us := BeginMutation(h), NumberSend(m, |ts|), ts + [t];
    ScopeFollows(h, g, m, n, ts, us, |ts|);
    NewCallRelated(h, g, m, ts, us, |ts|);
    NewestFollows(h, g, ts, us, |ts|, newest);
    ForwardFollows(h, g, m, n, ts, us, |ts|);
    if newest.Some? {
      NowIsLatest(m, newest.value);
      forall i | 0 <= i < |us| ensures MutationCovers(g, n, us[i], i, newest.value) {
        if i < |ts| { assert TaskOnScope(h, m, ts[i], i); }
      }
      assert LiveMutation(g, us[|ts|]);
    }
  }

  lemma ListKeysStarts(h: Host, m: Manager, ts: seq<Task>, newest: Option<Counters>)
    requires Tracks(h, m, ts, newest) && CaptureFor(h, false).Some?
    ensures Tracks(h, NumberSend(m, |ts|),
                   ts + [Task(ListingKeys, CommandCall(CaptureFor(h, false).value, false, None, Top), 1, 1)], newest)
  {
    var t := Task(ListingKeys, CommandCall(CaptureFor(h, false).value, false, None, Top), 1, 1);
    var n, us := NumberSend(m, |ts|), ts + [t];
    ScopeFollows(h, h, m, n, ts, us, |ts|);
    NewCallRelated(h, h, m, ts, us, |ts|);
    NewestFollows(h, h, ts, us, |ts|, newest);
    ForwardFollows(h, h, m, n, ts, us, |ts|);
    CoverFollows(h, h, m, n, ts, us, |ts|, newest);
  }

  lemma ReadSettles(h: Host, m: Manager, ts: seq<Task>, newest: Option<Counters>)
    requires Tracks(h, m, ts, newest)
    ensures Tracks(h, m, ts + [Task(Reading, Settling, 0, 0)], newest)
  {
    var us := ts + [Task(Reading, Settling, 0, 0)];
    ScopeFollows(h, h, m, m, ts, us, |ts|);
    NoNewCallRelated(h, h, m, ts, us, |ts|);
    NewestFollows(h, h, ts, us, |ts|, newest);
    ForwardFollows(h, h, m, m, ts, us, |ts|);
    CoverFollows(h, h, m, m, ts, us, |ts|, newest);
  }

  /** A read goes out: numbered last by sending and by request, answered from no earlier than now. */
  lemma ReadIssues(h: Host, m: Manager, ts: seq<Task>, us: seq<Task>, tid: nat, newest: Option<Counters>)
    requires Tracks(h, m, ts, newest) && CaptureFor(h, false).Some?
    requires tid < |ts| && ts[tid].pc.Settling? && Except(ts, us, tid) && |us| == |ts|
    requires us[tid].kind == ts[tid].kind
    requires us[tid].pc == CommandCall(CaptureFor(h, false).value, true, Some(h.requestSequence + 1), Top)
    ensures Tracks(BeginSnapshot(h), NumberSend(m, tid), us, newest)
  {
    var g, n := BeginSnapshot(h), NumberSend(m, tid);
    assert TaskOnScope(h, m, ts[tid], tid);
    ScopeFollows(h, g, m, n, ts, us, tid);
    NewCallRelated(h, g, m, ts, us, tid);
    assert ForNewest(h, ts[tid], newest);
    forall i | 0 <= i < |ts| && i != tid ensures RetryAlone(us[tid], ts[i]) && RetryAlone(ts[i], us[tid]) {
      assert RetryAlone(ts[i], ts[tid]);
    }
    NewestFollows(h, g, ts, us, tid, newest);
    if h.snapshotState.Some? { NowIsLatest(m, h.snapshotState.value.counters); }
    ForwardFollows(h, g, m, n, ts, us, tid);
    if newest.Some? { NowIsLatest(m, newest.value); }
    CoverFollows(h, g, m, n, ts, us, tid, newest);
  }

  // ---- replies coming in ----

  /** A live mutation's snapshot is accepted whatever has been accepted before it. */
  lemma MutationAccepted(h: Host, m: Manager, ts: seq<Task>, tid: nat, s: Snapshot, newest: Option<Counters>)
    requires Tracks(h, m, ts, newest) && tid < |ts| && LiveMutation(h, ts[tid])
    requires tid in m.order && s.counters == ValueOf(m, m.order[tid])
    ensures var g := AcceptSnapshot(h, Some(s), None);
            Tracks(g, m, ts, newest)
            && (newest.Some? && !g.trailing ==> PublishedCovers(g, newest.value))
  {
    var g := AcceptSnapshot(h, Some(s), None);
    ValuesRise(m, m.order[tid], m.order[tid]);
    forall i | 0 <= i < |ts| ensures TaskOnScope(g, m, ts[i], i) && MovesForward(g, m, ts[i], i) {
      assert TaskOnScope(h, m, ts[i], i);
      if LiveRead(g, ts[i]) {
        assert Related(h, m, ts[tid], tid, ts[i], i);
        ValuesRise(m, m.order[tid], m.order[i]);
      }
    }
    forall i, j | 0 <= i < |ts| && 0 <= j < |ts| && i != j ensures Related(g, m, ts[i], i, ts[j], j) {
      assert Related(h, m, ts[i], i, ts[j], j);
    }
    NewestKept(h, g, ts, newest);
    if newest.Some? && !h.trailing {
      forall i | 0 <= i < |ts| ensures MutationCovers(g, m, ts[i], i, newest.value) {
        assert MutationCovers(h, m, ts[i], i, newest.value);
      }
    }
  }

  lemma NewestKept(h: Host, g: Host, ts: seq<Task>, newest: Option<Counters>)
    requires NewestHint(h, ts, newest) && g.trailing == h.trailing && g.trailingHint == h.trailingHint
    ensures NewestHint(g, ts, newest)
  {
    forall i | 0 <= i < |ts| ensures ForNewest(g, ts[i], newest) {
      assert ForNewest(h, ts[i], newest);
    }
  }

  /** A live read's snapshot is accepted; reads numbered before it never will be again. */
  lemma ReadAccepted(h: Host, m: Manager, ts: seq<Task>, tid: nat, s: Snapshot, newest: Option<Counters>)
    requires Tracks(h, m, ts, newest) && tid < |ts| && LiveRead(h, ts[tid])
    requires tid in m.order && s.counters == ValueOf(m, m.order[tid])
    ensures var g := AcceptSnapshot(h, Some(s), ts[tid].pc.request);
            Tracks(g, m, ts, newest)
            && (newest.Some? && WillCover(g, m, ts[tid], tid, newest.value) ==> PublishedCovers(g, newest.value))
  {
    var g := AcceptSnapshot(h, Some(s), ts[tid].pc.request);
    ValuesRise(m, m.order[tid], m.order[tid]);
    assert TaskOnScope(h, m, ts[tid], tid) && MovesForward(h, m, ts[tid], tid);
    forall i | 0 <= i < |ts| ensures TaskOnScope(g, m, ts[i], i) && MovesForward(g, m, ts[i], i) {
      assert TaskOnScope(h, m, ts[i], i);
      if LiveRead(g, ts[i]) && i != tid {
        assert Related(h, m, ts[tid], tid, ts[i], i) && Related(h, m, ts[i], i, ts[tid], tid);
        ValuesRise(m, m.order[tid], m.order[i]);
      }
    }
    forall i, j | 0 <= i < |ts| && 0 <= j < |ts| && i != j ensures Related(g, m, ts[i], i, ts[j], j) {
      assert Related(h, m, ts[i], i, ts[j], j);
    }
    NewestKept(h, g, ts, newest);
    if newest.Some? && !h.trailing { ReadAcceptedCovers(h, m, ts, tid, s, newest.value); }
  }

  lemma ReadAcceptedCovers(h: Host, m: Manager, ts: seq<Task>, tid: nat, s: Snapshot, newest: Counters)
    requires Tracks(h, m, ts, Some(newest)) && !h.trailing && tid < |ts| && LiveRead(h, ts[tid])
    requires tid in m.order && s.counters == ValueOf(m, m.order[tid])
    ensures Covered(AcceptSnapshot(h, Some(s), ts[tid].pc.request), m, ts, Some(newest))
  {
    var g := AcceptSnapshot(h, Some(s), ts[tid].pc.request);
    forall i | 0 <= i < |ts| ensures MutationCovers(g, m, ts[i], i, newest) {
      assert MutationCovers(h, m, ts[i], i, newest);
    }
    if PublishedCovers(h, newest) {
      assert MovesForward(h, m, ts[tid], tid);
    } else if i :| 0 <= i < |ts| && LiveMutation(h, ts[i]) {
      assert LiveMutation(g, ts[i]);
    } else {
      var i :| 0 <= i < |ts| && WillCover(h, m, ts[i], i, newest);
      if !WillCover(g, m, ts[i], i, newest) {
        assert Related(h, m, ts[tid], tid, ts[i], i) && Related(h, m, ts[i], i, ts[tid], tid);
        assert TaskOnScope(h, m, ts[tid], tid) && TaskOnScope(h, m, ts[i], i);
        ValuesRise(m, m.order[i], m.order[tid]);
        assert PublishedCovers(g, newest);
      } else {
        assert WillCover(g, m, ts[i], i, newest);
      }
    }
  }

  /** A task whose part is played leaves flight, or moves among the closing stages of a hint read. */
  lemma TaskLeaves(h: Host, m: Manager, ts: seq<Task>, us: seq<Task>, tid: nat, newest: Option<Counters>)
    requires Tracks(h, m, ts, newest) && tid < |ts| && Except(ts, us, tid) && |us| == |ts|
    requires !ts[tid].pc.RetryQueued? && us[tid].kind == ts[tid].kind
    requires us[tid].pc.Finished? || (us[tid].kind.HintReading? && ReadsForHint(ts[tid])
                                      && (us[tid].pc.HintFinally?
                                          || (!ts[tid].pc.HintFinally? && (us[tid].pc.HintThen? || us[tid].pc.HintCatch?))))
    requires newest.Some? && !h.trailing && (LiveMutation(h, ts[tid]) || WillCover(h, m, ts[tid], tid, newest.value)) ==>
               PublishedCovers(h, newest.value)
    ensures Tracks(h, m, us, newest)
  {
    ScopeFollows(h, h, m, m, ts, us, tid);
    NoNewCallRelated(h, h, m, ts, us, tid);
    assert ForNewest(h, ts[tid], newest);
    forall i | 0 <= i < |ts| && i != tid ensures RetryAlone(us[tid], ts[i]) && RetryAlone(ts[i], us[tid]) {
      assert RetryAlone(ts[i], ts[tid]);
    }
    NewestFollows(h, h, ts, us, tid, newest);
    ForwardFollows(h, h, m, m, ts, us, tid);
    CoverFollows(h, h, m, m, ts, us, tid, newest);
  }

  // ---- hints ----

  ghost predicate NoMutations(ts: seq<Task>) {
    forall i | 0 <= i < |ts| :: !HoldsSlot(ts[i])
  }

  ghost predicate NoHintReads(ts: seq<Task>) {
    forall i | 0 <= i < |ts| :: !ReadsForHint(ts[i])
  }

  function HintRead(hint: Hint): Task {
    Task(HintReading(hint, 0), Settling, 0, 0)
  }

  /** A read for the newest hint starts while nothing is in flight for hints or mutations. */
  lemma HintReadStarts(h: Host, g: Host, m: Manager, ts: seq<Task>, hint: Hint, was: Option<Counters>)
    requires Tracks(h, m, ts, was) && NoMutations(ts) && NoHintReads(ts) && !RetryPending(ts)
    requires hint.counters in m.history
    requires g == h.(trailing := false, trailingHint := None, snapshotInFlight := true)
             || (g == h.(snapshotInFlight := true) && !h.trailing)
    ensures Tracks(g, m, ts + [HintRead(hint)], Some(hint.counters))
  {
    var us, newest := ts + [HintRead(hint)], Some(hint.counters);
    ScopeFollows(h, g, m, m, ts, us, |ts|);
    NoNewCallRelated(h, g, m, ts, us, |ts|);
    ForwardFollows(h, g, m, m, ts, us, |ts|);
    forall i | 0 <= i < |us|
      ensures ForNewest(g, us[i], newest) && MutationCovers(g, m, us[i], i, hint.counters) && !us[i].pc.RetryQueued?
    {
      if i < |ts| {
        assert !HoldsSlot(ts[i]) && !ReadsForHint(ts[i]);
      }
    }
    assert WillCover(g, m, us[|ts|], |ts|, hint.counters);
  }

  /** With a hint trailing and nothing in flight, either the publication covers it or a read starts. */
  lemma FlushTracks(h: Host, m: Manager, ts: seq<Task>, fallback: Option<Hint>, newest: Option<Counters>)
    requires Tracks(h, m, ts, newest)
    requires h.mutationInFlight <= 0 ==> NoMutations(ts)
    requires !h.snapshotInFlight ==> NoHintReads(ts)
    ensures var (g, start) := Flush(h, fallback);
            Tracks(g, m, if start.Some? then ts + [HintRead(start.value)] else ts, newest)
  {
    var (g, start) := Flush(h, fallback);
    if h.trailing && !h.snapshotInFlight && h.mutationInFlight <= 0 {
      var hint := h.trailingHint.value;
      forall i | 0 <= i < |ts| ensures !ts[i].pc.RetryQueued? {
        assert ForNewest(h, ts[i], newest);
      }
      if start.Some? {
        HintReadStarts(h, g, m, ts, hint, newest);
      } else {
        Comparable(m.history, hint.counters, h.snapshotState.value.counters);
        assert PublishedCovers(g, hint.counters);
        FlushDrops(h, g, m, ts, newest);
      }
    }
  }

  lemma FlushDrops(h: Host, g: Host, m: Manager, ts: seq<Task>, newest: Option<Counters>)
    requires Tracks(h, m, ts, newest) && NoMutations(ts) && NoHintReads(ts) && !RetryPending(ts)
    requires g == h.(trailing := false, trailingHint := None)
    requires newest.Some? && PublishedCovers(g, newest.value)
    ensures Tracks(g, m, ts, newest)
  {
    forall i | 0 <= i < |ts|
      ensures TaskOnScope(g, m, ts[i], i) && MovesForward(g, m, ts[i], i) && ForNewest(g, ts[i], newest)
      ensures MutationCovers(g, m, ts[i], i, newest.value)
    {
      assert TaskOnScope(h, m, ts[i], i) && MovesForward(h, m, ts[i], i) && !HoldsSlot(ts[i]) && !ReadsForHint(ts[i]);
    }
    forall i, j | 0 <= i < |ts| && 0 <= j < |ts| && i != j ensures Related(g, m, ts[i], i, ts[j], j) {
      assert Related(h, m, ts[i], i, ts[j], j);
    }
  }

  /** The newest hint has to wait behind something in flight. */
  lemma HintTrails(h: Host, g: Host, m: Manager, ts: seq<Task>, hint: Hint, was: Option<Counters>)
    requires Tracks(h, m, ts, was) && !RetryPending(ts) && hint.counters in m.history
    requires g == h.(trailing := true, trailingHint := Some(hint))
    ensures Tracks(g, m, ts, Some(hint.counters))
  {
    forall i | 0 <= i < |ts|
      ensures TaskOnScope(g, m, ts[i], i) && MovesForward(g, m, ts[i], i) && ForNewest(g, ts[i], Some(hint.counters))
    {
      assert TaskOnScope(h, m, ts[i], i) && MovesForward(h, m, ts[i], i);
    }
    forall i, j | 0 <= i < |ts| && 0 <= j < |ts| && i != j ensures Related(g, m, ts[i], i, ts[j], j) {
      assert Related(h, m, ts[i], i, ts[j], j);
    }
  }
}
