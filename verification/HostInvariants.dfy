/**
  What every reachable state of the SSH forward host satisfies, whatever the manager
  answers and in whatever order calls, replies, hints and promise reactions interleave:
  fencing of stale replies, coherence of the published snapshot, no lost wake-ups, a
  bound on restart recovery, and strictly increasing activation tokens.
*/
module HostInvariants {
  import opened Options
  import opened SshWire
  import opened HostSegments
  import opened HostRuns

  // ---- counting the tasks behind the host's counters and flags ----

  datatype Tally = Tally(slots: int, hintReads: int, rehydrations: int)

  predicate HoldsSlot(t: Task) {
    t.kind.Mutating? && !t.pc.Finished?
  }

  predicate ReadsForHint(t: Task) {
    t.kind.HintReading? && !t.pc.RetryQueued? && !t.pc.Finished?
  }

  function ReturnOf(pc: Pc): Return {
    match pc
    case Listening(_, ret) => ret
    case OpenCall(_, ret) => ret
    case Opened(_, ret) => ret
    case ActivateCall(_, _, _, _, ret) => ret
    case Activated(_, ret) => ret
    case CommandCall(_, _, _, ret) => ret
    case ClosingRehydrate(ret) => ret
    case Rehydrated(ret) => ret
    case _ => Top
  }

  /** The task is inside the `try` of `rehydrateAfterRestart`. */
  predicate InRehydrate(pc: Pc) {
    ReturnOf(pc).Rehydrating? && !pc.Rehydrated?
  }

  function Weigh(t: Task): Tally {
    Tally(if HoldsSlot(t) then 1 else 0, if ReadsForHint(t) then 1 else 0, if InRehydrate(t.pc) then 1 else 0)
  }

  function TallyOf(ts: seq<Task>): Tally {
    if ts == [] then Tally(0, 0, 0)
    else
      var before := TallyOf(ts[..|ts| - 1]);
      var last := Weigh(ts[|ts| - 1]);
      Tally(before.slots + last.slots, before.hintReads + last.hintReads, before.rehydrations + last.rehydrations)
  }

  lemma TallySpawn(ts: seq<Task>, t: Task)
    ensures TallyOf(ts + [t]) ==
            Tally(TallyOf(ts).slots + Weigh(t).slots, TallyOf(ts).hintReads + Weigh(t).hintReads,
                  TallyOf(ts).rehydrations + Weigh(t).rehydrations)
  {
    assert (ts + [t])[..|ts|] == ts;
  }

  lemma {:induction false} TallyUpdate(ts: seq<Task>, i: nat, t: Task)
    requires i < |ts|
    ensures var was, w, n := TallyOf(ts), Weigh(ts[i]), Weigh(t);
            TallyOf(ts[i := t]) == Tally(was.slots - w.slots + n.slots, was.hintReads - w.hintReads + n.hintReads,
                                         was.rehydrations - w.rehydrations + n.rehydrations)
  {
    var last := |ts| - 1;
    if i < last {
      TallyUpdate(ts[..last], i, t);
      assert ts[i := t][..last] == ts[..last][i := t];
    } else {
      assert ts[i := t][..last] == ts[..last];
    }
  }

  lemma {:induction false} TallyCovers(ts: seq<Task>, i: nat)
    requires i < |ts|
    ensures TallyOf(ts).slots >= Weigh(ts[i]).slots
    ensures TallyOf(ts).hintReads >= Weigh(ts[i]).hintReads
    ensures TallyOf(ts).rehydrations >= Weigh(ts[i]).rehydrations
  {
    var last := |ts| - 1;
    TallyNonNegative(ts[..last]);
    if i < last {
      TallyCovers(ts[..last], i);
    }
  }

  lemma {:induction false} TallyNonNegative(ts: seq<Task>)
    ensures TallyOf(ts).slots >= 0 && TallyOf(ts).hintReads >= 0 && TallyOf(ts).rehydrations >= 0
  {
    if ts != [] { TallyNonNegative(ts[..|ts| - 1]); }
  }

  /** A positive count has a task behind it. */
  lemma {:induction false} TallyWitness(ts: seq<Task>)
    ensures TallyOf(ts).slots > 0 ==> exists i :: 0 <= i < |ts| && HoldsSlot(ts[i])
    ensures TallyOf(ts).hintReads > 0 ==> exists i :: 0 <= i < |ts| && ReadsForHint(ts[i])
  {
    if ts != [] {
      var last := |ts| - 1;
      TallyWitness(ts[..last]);
      if i :| 0 <= i < last && HoldsSlot(ts[..last][i]) { assert HoldsSlot(ts[i]); }
      if i :| 0 <= i < last && ReadsForHint(ts[..last][i]) { assert ReadsForHint(ts[i]); }
    }
  }

  // ---- the invariants ----

  /** The published snapshot belongs to the session the host is on. */
  ghost predicate Coherent(h: Host) {
    && (h.pending.Some? ==> h.scopeGeneration.None? && h.snapshotState.None? && h.context.Some? && h.activationToken.Some?)
    && (h.snapshotState.Some? ==>
          var s := h.snapshotState.value;
          && h.context == Some(s.context)
          && h.activationToken == Some(s.activationToken)
          && h.scopeId == Some(s.scopeId)
          && h.scopeGeneration == Some(s.counters.scopeGeneration)
          && h.pending.None?
          && h.hintFreshness == Some(s.counters))
  }

  /** Nobody waits, and no refresh is postponed, without something in flight that will end the wait. */
  ghost predicate NothingStranded(h: Host) {
    && (h.trailing ==> h.trailingHint.Some? && (h.snapshotInFlight || h.mutationInFlight > 0))
    && (h.mutationWaiters != [] ==> h.mutationInFlight > 0)
  }

  /** The host's counter and flags count the tasks they stand for. */
  ghost predicate Balanced(h: Host, n: Tally) {
    && n.slots == h.mutationInFlight
    && n.hintReads == Bit(h.snapshotInFlight)
    && n.rehydrations == Bit(h.reopening)
  }

  function Bit(b: bool): int {
    if b then 1 else 0
  }

  predicate Reads(k: Kind) {
    k.Reading? || k.HintReading?
  }

  /** How many manager calls one task may make in all. */
  function CallLimit(k: Kind): nat {
    match k
    case Reading => 8
    case HintReading(_, _) => 8
    case Mutating => 4
    case ListingKeys => 4
    case _ => 1
  }

  /** Manager calls the enclosing command may still make once the rehydration `ret` is over. */
  function CallsAfter(ret: Return): nat {
    if ret.Rehydrating? && ret.mayReplay then 4 else 0
  }

  /** An upper bound on the manager calls a task may still make. */
  function CallsLeft(pc: Pc): nat {
    match pc
    case Listening(_, ret) => if ret.Top? then 1 else 3 + CallsAfter(ret)
    case OpenCall(_, ret) => if ret.Top? then 0 else 2 + CallsAfter(ret)
    case Opened(_, ret) => 2 + CallsAfter(ret)
    case ActivateCall(_, _, _, _, ret) => if ret.Top? then 0 else 1 + CallsAfter(ret)
    case Activated(_, ret) => 1 + CallsAfter(ret)
    case CommandCall(_, mayReplay, _, ret) => if ret.Top? then (if mayReplay then 7 else 3) else CallsAfter(ret)
    case ClosingRehydrate(ret) => CallsAfter(ret)
    case Rehydrated(ret) => CallsAfter(ret)
    case Settling => 8
    case RetryQueued => 8
    case _ => 0
  }

  predicate IssuesCommands(k: Kind) {
    Reads(k) || k.Mutating? || k.ListingKeys?
  }

  /** Rehydrations do not nest, and only a read is replayed after one. */
  predicate RehydratesOnce(k: Kind, ret: Return) {
    ret.Rehydrating? && ret.parent.Top? && IssuesCommands(k) && (ret.mayReplay ==> Reads(k))
  }

  /** Which program points a task of each kind can be at. */
  predicate Reachable(k: Kind, pc: Pc) {
    match pc
    case Listening(_, ret) => if ret.Top? then k.Opening? else RehydratesOnce(k, ret)
    case OpenCall(_, ret) => if ret.Top? then k.Opening? else RehydratesOnce(k, ret)
    case Opened(_, ret) => RehydratesOnce(k, ret)
    case ActivateCall(_, _, _, _, ret) => if ret.Top? then k.Activating? else RehydratesOnce(k, ret)
    case Activated(_, ret) => RehydratesOnce(k, ret)
    case PurgeCall => k.Purging?
    case Settling => Reads(k)
    case CommandCall(_, mayReplay, _, ret) =>
      && IssuesCommands(k)
      && (mayReplay ==> Reads(k) && ret.Top?)
      && (ret.Rehydrating? ==> RehydratesOnce(k, ret))
    case ClosingRehydrate(ret) => RehydratesOnce(k, ret)
    case Rehydrated(ret) => RehydratesOnce(k, ret)
    case Finished(_) => true
    case _ => k.HintReading?
  }

  /** A command that is not a read is sent once, when its task starts. */
  predicate OwnSends(t: Task) {
    if t.kind.Mutating? || t.kind.ListingKeys? then t.own == 1
    else if t.pc.Listening? && t.kind.Opening? then t.own == 0
    else Reads(t.kind) || t.own <= 1
  }

  ghost predicate WellShaped(t: Task) {
    && Reachable(t.kind, t.pc)
    && t.calls + CallsLeft(t.pc) <= CallLimit(t.kind)
    && OwnSends(t)
  }

  ghost predicate Shaped(ts: seq<Task>) {
    forall i | 0 <= i < |ts| :: WellShaped(ts[i])
  }

  /** The number of the read a task reports under now or after rehydrating, if any; 0 otherwise. */
  function RequestOf(pc: Pc): nat {
    var ret := ReturnOf(pc);
    var own := if pc.CommandCall? && pc.request.Some? then pc.request.value else 0;
    var outer := if ret.Rehydrating? && ret.request.Some? then ret.request.value else 0;
    if own > outer then own else outer
  }

  /** Reads report, and are accepted, only under numbers that have been handed out. */
  ghost predicate RequestsIssued(h: Host, ts: seq<Task>) {
    && h.acceptedRequest <= h.requestSequence
    && forall i | 0 <= i < |ts| :: RequestOf(ts[i].pc) <= h.requestSequence
  }

  /** Only reads that are still waiting for mutations to settle are registered as waiters. */
  ghost predicate WaitersWait(waiters: seq<nat>, ts: seq<Task>) {
    forall w | w in waiters :: w < |ts| && ts[w].pc.Settling? && ts[w].kind.Reading?
  }

  ghost predicate StrictlyIncreasing(tokens: seq<WireCounter>) {
    forall i, j | 0 <= i < j < |tokens| :: tokens[i] < tokens[j]
  }

  /** Tokens went out in increasing order, the next one counts up from at least the last, and
      a pending one has been sent and is ahead of the established one. */
  ghost predicate TokensOrdered(tokens: seq<WireCounter>, pending: Option<WireCounter>, established: Option<WireCounter>) {
    && StrictlyIncreasing(tokens)
    && (pending.Some? ==> pending.value in tokens && established.Some? && established.value < pending.value)
    && (pending.Some? ==> forall t | t in tokens :: t <= pending.value)
    && (pending.None? && established.Some? ==> forall t | t in tokens :: t <= established.value)
  }

  ghost predicate Inv(s: Sys) {
    && Coherent(s.host)
    && NothingStranded(s.host)
    && Balanced(s.host, TallyOf(s.tasks))
    && Shaped(s.tasks)
    && RequestsIssued(s.host, s.tasks)
    && WaitersWait(s.host.mutationWaiters, s.tasks)
    && (!s.floorLost ==> TokensOrdered(s.tokens, s.host.pending, s.host.activationToken))
    && (s.floorLost ==> s.host.disposed)
  }

  // ---- replies to commands ----

  lemma ReplyIsHostStep(s: Sys, tid: nat, r: Reply, u: Sys)
    requires tid < |s.tasks| && u == OnReply(s, tid, r)
    ensures Step(s, ReplyArrives(tid, r)) == u
  {
  }

  lemma AnswerIsReply(s: Sys, tid: nat, r: Reply, u: Sys)
    requires tid < |s.tasks| && s.tasks[tid].pc.CommandCall? && u == OnCommandReply(s, tid, s.tasks[tid].pc, r)
    ensures OnReply(s, tid, r) == u
  {
  }

  /** Answering a command is a step of the host machine. */
  lemma AnswerIsHostStep(s: Sys, tid: nat, r: Reply, u: Sys)
    requires tid < |s.tasks| && s.tasks[tid].pc.CommandCall? && u == OnCommandReply(s, tid, s.tasks[tid].pc, r)
    ensures Step(s, ReplyArrives(tid, r)) == u
  {
    AnswerIsReply(s, tid, r, u);
    ReplyIsHostStep(s, tid, r, u);
  }

  // ---- each segment keeps them ----

  lemma FlushKeepsSession(h: Host, fallback: Option<Hint>)
    ensures SessionOf(Flush(h, fallback).0) == SessionOf(h)
  {
  }

  lemma FlushKeeps(h: Host, fallback: Option<Hint>)
    requires Coherent(h)
    requires h.trailing ==> h.trailingHint.Some?
    requires h.mutationWaiters != [] ==> h.mutationInFlight > 0
    ensures var (f, start) := Flush(h, fallback);
            && Coherent(f) && NothingStranded(f)
            && SessionOf(f) == SessionOf(h)
            && f == h.(trailing := f.trailing, trailingHint := f.trailingHint, snapshotInFlight := f.snapshotInFlight)
            && f.snapshotInFlight == (h.snapshotInFlight || start.Some?)
            && (start.Some? ==> !h.snapshotInFlight)
  {
  }

  lemma ShapesUpdate(ts: seq<Task>, tid: nat, t: Task, waiters: seq<nat>)
    requires tid < |ts| && Shaped(ts) && WellShaped(t)
    requires WaitersWait(waiters, ts) && tid !in waiters
    ensures Shaped(ts[tid := t]) && WaitersWait(waiters, ts[tid := t])
  {
  }

  lemma ShapesSpawn(ts: seq<Task>, t: Task, waiters: seq<nat>)
    requires Shaped(ts) && WellShaped(t) && WaitersWait(waiters, ts)
    ensures Shaped(ts + [t]) && WaitersWait(waiters, ts + [t])
    ensures t.pc.Settling? && t.kind.Reading? ==> WaitersWait(waiters + [|ts|], ts + [t])
  {
  }

  function WithHintRead(ts: seq<Task>, start: Option<Hint>): seq<Task> {
    if start.Some? then ts + [Task(HintReading(start.value, 0), Settling, 0, 0)] else ts
  }

  lemma MoveBalances(g: Host, ts: seq<Task>, tid: nat, t: Task, h: Host, start: Option<Hint>)
    requires Balanced(g, TallyOf(ts)) && tid < |ts|
    requires h.mutationInFlight == g.mutationInFlight - Weigh(ts[tid]).slots + Weigh(t).slots
    requires Bit(h.snapshotInFlight) ==
             Bit(g.snapshotInFlight) - Weigh(ts[tid]).hintReads + Weigh(t).hintReads + Bit(start.Some?)
    requires Bit(h.reopening) == Bit(g.reopening) - Weigh(ts[tid]).rehydrations + Weigh(t).rehydrations
    ensures Balanced(h, TallyOf(WithHintRead(ts[tid := t], start)))
  {
    TallyUpdate(ts, tid, t);
    if start.Some? { TallySpawn(ts[tid := t], Task(HintReading(start.value, 0), Settling, 0, 0)); }
  }

  lemma MoveShapes(s: Sys, tid: nat, t: Task, h: Host, start: Option<Hint>)
    requires Shaped(s.tasks) && RequestsIssued(s.host, s.tasks) && WaitersWait(s.host.mutationWaiters, s.tasks)
    requires tid < |s.tasks| && WellShaped(t)
    requires h.acceptedRequest <= h.requestSequence && s.host.requestSequence <= h.requestSequence
    requires RequestOf(t.pc) <= h.requestSequence
    requires h.mutationWaiters == s.host.mutationWaiters || h.mutationWaiters == []
    requires tid !in h.mutationWaiters
    ensures var ts := WithHintRead(s.tasks[tid := t], start);
            Shaped(ts) && RequestsIssued(h, ts) && WaitersWait(h.mutationWaiters, ts)
  {
    ShapesUpdate(s.tasks, tid, t, h.mutationWaiters);
    if start.Some? {
      ShapesSpawn(s.tasks[tid := t], Task(HintReading(start.value, 0), Settling, 0, 0), h.mutationWaiters);
    }
  }

  /** One task moves, the host's fields follow, and possibly one hint read starts: the general
      shape of a segment. Everything below instantiates this. */
  lemma MoveTask(s: Sys, tid: nat, t: Task, h: Host, tokens: seq<WireCounter>, start: Option<Hint>)
    requires Inv(s) && tid < |s.tasks| && WellShaped(t)
    requires Coherent(h) && NothingStranded(h)
    requires h.acceptedRequest <= h.requestSequence && s.host.requestSequence <= h.requestSequence
    requires RequestOf(t.pc) <= h.requestSequence
    requires h.mutationWaiters == s.host.mutationWaiters || h.mutationWaiters == []
    requires tid !in h.mutationWaiters
    requires h.mutationInFlight == s.host.mutationInFlight - Weigh(s.tasks[tid]).slots + Weigh(t).slots
    requires Bit(h.snapshotInFlight) ==
             Bit(s.host.snapshotInFlight) - Weigh(s.tasks[tid]).hintReads + Weigh(t).hintReads + Bit(start.Some?)
    requires Bit(h.reopening) ==
             Bit(s.host.reopening) - Weigh(s.tasks[tid]).rehydrations + Weigh(t).rehydrations
    requires h.disposed == s.host.disposed
    requires !s.floorLost ==> TokensOrdered(tokens, h.pending, h.activationToken)
    ensures Inv(SpawnHintRead(Sys(h, s.tasks[tid := t], tokens, s.floorLost), start))
  {
    MoveBalances(s.host, s.tasks, tid, t, h, start);
    MoveShapes(s, tid, t, h, start);
  }

  /** Only the task moves; the tally does not notice. */
  lemma MoveQuietly(s: Sys, tid: nat, t: Task)
    requires Inv(s) && tid < |s.tasks| && WellShaped(t) && tid !in s.host.mutationWaiters
    requires RequestOf(t.pc) <= s.host.requestSequence
    requires Weigh(t) == Weigh(s.tasks[tid])
    ensures Inv(s.(tasks := s.tasks[tid := t]))
  {
    MoveTask(s, tid, t, s.host, s.tokens, None);
  }

  /** A new task starts and the host's fields follow. */
  lemma SpawnTask(s: Sys, t: Task, h: Host, tokens: seq<WireCounter>)
    requires Inv(s) && WellShaped(t)
    requires Coherent(h) && NothingStranded(h)
    requires h.acceptedRequest <= h.requestSequence && s.host.requestSequence <= h.requestSequence
    requires RequestOf(t.pc) <= h.requestSequence
    requires h.mutationWaiters == s.host.mutationWaiters
             || (h.mutationWaiters == s.host.mutationWaiters + [|s.tasks|] && t.pc.Settling? && t.kind.Reading?)
    requires h.mutationInFlight == s.host.mutationInFlight + Weigh(t).slots
    requires Bit(h.snapshotInFlight) == Bit(s.host.snapshotInFlight) + Weigh(t).hintReads
    requires Bit(h.reopening) == Bit(s.host.reopening) + Weigh(t).rehydrations
    requires h.disposed == s.host.disposed
    requires !s.floorLost ==> TokensOrdered(tokens, h.pending, h.activationToken)
    ensures Inv(Sys(h, s.tasks + [t], tokens, s.floorLost))
  {
    TallySpawn(s.tasks, t);
    ShapesSpawn(s.tasks, t, s.host.mutationWaiters);
  }

  lemma NotWaiting(s: Sys, tid: nat)
    requires WaitersWait(s.host.mutationWaiters, s.tasks) && tid < |s.tasks| && !s.tasks[tid].pc.Settling?
    ensures tid !in s.host.mutationWaiters
  {
  }

  lemma FinishMutationKeeps(s: Sys, tid: nat, ok: bool)
    requires Inv(s) && tid < |s.tasks| && s.tasks[tid].kind.Mutating? && tid !in s.host.mutationWaiters
    requires !s.tasks[tid].pc.Finished? && !InRehydrate(s.tasks[tid].pc)
    ensures Inv(CompleteOwn(s, tid, ok))
  {
    var released := s.host.(mutationInFlight := s.host.mutationInFlight - 1);
    TallyCovers(s.tasks, tid);
    FlushKeeps(released.(mutationWaiters := []), None);
    var (h, start) := FinishMutation(s.host);
    MoveTask(s, tid, s.tasks[tid].(pc := Finished(ok)), h, s.tokens, start);
  }

  lemma CompleteOwnKeeps(s: Sys, tid: nat, ok: bool)
    requires Inv(s) && tid < |s.tasks| && tid !in s.host.mutationWaiters
    requires s.tasks[tid].pc.CommandCall? || s.tasks[tid].pc.Settling? || s.tasks[tid].pc.Rehydrated?
    requires !InRehydrate(s.tasks[tid].pc)
    ensures Inv(CompleteOwn(s, tid, ok))
  {
    var t := s.tasks[tid];
    match t.kind {
      case Mutating => FinishMutationKeeps(s, tid, ok);
      case HintReading(_, _) => MoveQuietly(s, tid, t.(pc := if ok then HintThen else HintCatch));
      case _ => MoveQuietly(s, tid, t.(pc := Finished(ok)));
    }
  }

  lemma CompleteCommandKeeps(s: Sys, tid: nat, ret: Return, ok: bool)
    requires Inv(s) && tid < |s.tasks| && tid !in s.host.mutationWaiters
    requires s.tasks[tid].pc.CommandCall? || s.tasks[tid].pc.Rehydrated?
    requires s.tasks[tid].pc.CommandCall? ==> ret == ReturnOf(s.tasks[tid].pc)
    requires s.tasks[tid].pc.Rehydrated? ==> ret.Top?
    ensures Inv(CompleteCommand(s, tid, ret, ok))
  {
    if ret.Top? { CompleteOwnKeeps(s, tid, ok); }
    else { MoveQuietly(s, tid, s.tasks[tid].(pc := ClosingRehydrate(ret))); }
  }

  lemma EndOpenKeeps(h: Host, operation: nat, r: Reply)
    requires Coherent(h) && NothingStranded(h)
    ensures Coherent(EndOpen(h, operation, r).0) && NothingStranded(EndOpen(h, operation, r).0)
  {
  }

  lemma EndActivateKeeps(h: Host, context: Context, token: WireCounter, scope: Option<ScopeId>, operation: nat, r: Reply)
    requires Coherent(h) && NothingStranded(h)
    ensures var g := EndActivate(h, context, token, scope, operation, r).0;
            Coherent(g) && NothingStranded(g) && SessionOnly(h, g)
  {
  }

  /** Accepting a command's result keeps the published snapshot on the host's session. */
  lemma EndCommandKeeps(h: Host, c: Capture, request: Option<nat>, r: Reply)
    requires Coherent(h) && NothingStranded(h)
    ensures var g := EndCommand(h, c, request, r).host;
            && Coherent(g) && NothingStranded(g) && g.pending == h.pending && g.activationToken == h.activationToken
            && (g.acceptedRequest == h.acceptedRequest || (request.Some? && g.acceptedRequest == request.value))
            && g == h.(snapshotState := g.snapshotState, hintFreshness := g.hintFreshness,
                       acceptedRequest := g.acceptedRequest, reopening := g.reopening)
            && (g.reopening != h.reopening ==>
                  EndCommand(h, c, request, r).Restarting? && g == h.(reopening := true))
  {
  }

  lemma OpenReplyKeeps(s: Sys, tid: nat, r: Reply)
    requires Inv(s) && tid < |s.tasks| && s.tasks[tid].pc.OpenCall?
    ensures Inv(OnOpenReply(s, tid, s.tasks[tid].pc.operation, s.tasks[tid].pc.ret, r))
  {
    var pc := s.tasks[tid].pc;
    var (h, ok) := EndOpen(s.host, pc.operation, r);
    EndOpenKeeps(s.host, pc.operation, r);
    NotWaiting(s, tid);
    var t := s.tasks[tid].(pc := if pc.ret.Top? then Finished(ok) else Opened(ok, pc.ret));
    var tokens := if ok then [] else s.tokens;
    MoveTask(s, tid, t, h, tokens, None);
  }

  lemma FloorKept(tokens: seq<WireCounter>, h: Host, g: Host)
    requires TokensOrdered(tokens, h.pending, h.activationToken) && SessionOnly(h, g)
    ensures TokensOrdered(tokens, g.pending, g.activationToken)
  {
  }

  /** Only session fields change, and the token floor does not move. */
  ghost predicate SessionOnly(h: Host, g: Host) {
    && (|| (g.pending == h.pending && g.activationToken == h.activationToken)
        || (g.pending.None? && g.activationToken.None?)
        || (g.pending.None? && g.activationToken == h.pending))
    && g == h.(context := g.context, activationToken := g.activationToken, pending := g.pending,
               scopeId := g.scopeId, scopeGeneration := g.scopeGeneration,
               snapshotState := g.snapshotState, hintFreshness := g.hintFreshness)
  }

  lemma ActivateEndsKeep(s: Sys, tid: nat, h: Host, ok: bool)
    requires Inv(s) && tid < |s.tasks| && s.tasks[tid].pc.ActivateCall?
    requires Coherent(h) && NothingStranded(h) && SessionOnly(s.host, h)
    ensures var ret := s.tasks[tid].pc.ret;
            Inv(SetPc(s, tid, if ret.Top? then Finished(ok) else Activated(ok, ret)).(host := h))
  {
    var ret := s.tasks[tid].pc.ret;
    NotWaiting(s, tid);
    if !s.floorLost { FloorKept(s.tokens, s.host, h); }
    MoveTask(s, tid, s.tasks[tid].(pc := if ret.Top? then Finished(ok) else Activated(ok, ret)), h, s.tokens, None);
  }

  lemma ActivateReplyKeeps(s: Sys, tid: nat, r: Reply)
    requires Inv(s) && tid < |s.tasks| && s.tasks[tid].pc.ActivateCall?
    ensures Inv(OnActivateReply(s, tid, s.tasks[tid].pc, r))
  {
    var pc := s.tasks[tid].pc;
    var (h, ok) := EndActivate(s.host, pc.context, pc.token, pc.target, pc.operation, r);
    EndActivateKeeps(s.host, pc.context, pc.token, pc.target, pc.operation, r);
    ActivateEndsKeep(s, tid, h, ok);
  }

  /** A restart is only taken up when no other rehydration is under way. */
  lemma RestartKeeps(s: Sys, tid: nat, h: Host)
    requires Inv(s) && tid < |s.tasks| && s.tasks[tid].pc.CommandCall?
    requires !s.host.reopening && h == s.host.(reopening := true)
    ensures var pc := s.tasks[tid].pc;
            var opening := BeginOpen(h);
            Inv(SetPc(s, tid, Listening(opening.operation,
                                        Rehydrating(pc.capture.scopeId, pc.mayReplay, pc.request, pc.ret)))
                .(host := opening))
  {
    var pc := s.tasks[tid].pc;
    var opening := BeginOpen(h);
    TallyCovers(s.tasks, tid);
    NotWaiting(s, tid);
    MoveTask(s, tid, s.tasks[tid].(pc := Listening(opening.operation,
                                                   Rehydrating(pc.capture.scopeId, pc.mayReplay, pc.request, pc.ret))),
             opening, s.tokens, None);
  }

  lemma CommandReplyKeeps(s: Sys, tid: nat, r: Reply)
    requires Inv(s) && tid < |s.tasks| && s.tasks[tid].pc.CommandCall?
    ensures Inv(OnCommandReply(s, tid, s.tasks[tid].pc, r))
  {
    var pc := s.tasks[tid].pc;
    EndCommandKeeps(s.host, pc.capture, pc.request, r);
    NotWaiting(s, tid);
    match EndCommand(s.host, pc.capture, pc.request, r) {
      case Returned(h) =>
        assert Inv(s.(host := h));
        CompleteCommandKeeps(s.(host := h), tid, pc.ret, true);
      case Thrown(h) =>
        assert Inv(s.(host := h));
        CompleteCommandKeeps(s.(host := h), tid, pc.ret, false);
      case Restarting(h) =>
        RestartKeeps(s, tid, h);
    }
  }

  lemma ReplyKeeps(s: Sys, tid: nat, r: Reply)
    requires Inv(s) && tid < |s.tasks|
    ensures Inv(OnReply(s, tid, r))
  {
    match s.tasks[tid].pc {
      case OpenCall(_, _) => OpenReplyKeeps(s, tid, r);
      case ActivateCall(_, _, _, _, _) => ActivateReplyKeeps(s, tid, r);
      case PurgeCall => MoveQuietly(s, tid, s.tasks[tid].(pc := Finished(r.PurgeReply?)));
      case CommandCall(_, _, _, _) => CommandReplyKeeps(s, tid, r);
      case _ =>
    }
  }

  lemma SendKeeps(s: Sys, tid: nat, pc: Pc, own: bool)
    requires Inv(s) && tid < |s.tasks| && tid !in s.host.mutationWaiters
    requires var t := s.tasks[tid];
             && WellShaped(Task(t.kind, pc, t.calls + 1, if own then t.own + 1 else t.own))
             && Weigh(t) == Weigh(t.(pc := pc))
    requires RequestOf(pc) <= s.host.requestSequence
    ensures Inv(Send(s, tid, pc, own))
  {
    var t := s.tasks[tid];
    var sent := Task(t.kind, pc, t.calls + 1, if own then t.own + 1 else t.own);
    SendIsMove(s, tid, pc, own, sent);
    MoveQuietly(s, tid, sent);
  }

  lemma SendIsMove(s: Sys, tid: nat, pc: Pc, own: bool, sent: Task)
    requires tid < |s.tasks|
    requires var t := s.tasks[tid]; sent == Task(t.kind, pc, t.calls + 1, if own then t.own + 1 else t.own)
    ensures Send(s, tid, pc, own) == s.(tasks := s.tasks[tid := sent])
    ensures Weigh(sent) == Weigh(s.tasks[tid].(pc := pc))
  {
  }

  lemma IssueReadKeeps(s: Sys, tid: nat)
    requires Inv(s) && tid < |s.tasks| && s.tasks[tid].pc.Settling? && tid !in s.host.mutationWaiters
    ensures Inv(IssueRead(s, tid))
  {
    var numbered := s.(host := BeginSnapshot(s.host));
    assert Inv(numbered);
    var capture := CaptureFor(numbered.host, false);
    if capture.None? { CompleteOwnKeeps(numbered, tid, false); }
    else { SendKeeps(numbered, tid, CommandCall(capture.value, true, Some(numbered.host.requestSequence), Top), true); }
  }

  /** Sending the next token keeps the log of tokens increasing. */
  lemma NextTokenExtends(s: Sys)
    requires TokensOrdered(s.tokens, s.host.pending, s.host.activationToken) && NextToken(s.host).Some?
    ensures var token := NextToken(s.host).value;
            TokensOrdered(s.tokens + [token], Some(token), s.host.activationToken)
  {
    var token := NextToken(s.host).value;
    var longer := s.tokens + [token];
    forall i, j | 0 <= i < j < |longer| ensures longer[i] < longer[j] {
      if j == |s.tokens| { assert s.tokens[i] in s.tokens; }
    }
  }

  lemma ActivateAfterOpenKeeps(s: Sys, tid: nat)
    requires Inv(s) && tid < |s.tasks| && s.tasks[tid].pc.Opened?
    ensures Inv(ActivateAfterOpen(s, tid, s.tasks[tid].pc.ret))
  {
    var t := s.tasks[tid];
    var ret := t.pc.ret;
    var token := NextToken(s.host);
    NotWaiting(s, tid);
    if token.None? {
      MoveQuietly(s, tid, t.(pc := ClosingRehydrate(ret)));
    } else {
      var h := BeginActivate(s.host, token.value);
      if !s.floorLost { NextTokenExtends(s); }
      MoveTask(s, tid,
               Task(t.kind, ActivateCall(h.context.value, token.value, Some(ret.scope), h.operation, ret), t.calls + 1, t.own),
               h, s.tokens + [token.value], None);
    }
  }

  lemma ReadAfterActivateKeeps(s: Sys, tid: nat)
    requires Inv(s) && tid < |s.tasks| && s.tasks[tid].pc.Activated?
    ensures Inv(ReadAfterActivate(s, tid, s.tasks[tid].pc.ret))
  {
    var ret := s.tasks[tid].pc.ret;
    var capture := CaptureFor(s.host, false);
    NotWaiting(s, tid);
    if s.host.scopeId.None? || s.host.scopeGeneration.None? || capture.None? {
      MoveQuietly(s, tid, s.tasks[tid].(pc := ClosingRehydrate(ret)));
    } else {
      SendKeeps(s, tid, CommandCall(capture.value, false, None, ret), false);
    }
  }

  lemma ReplayOrThrowKeeps(s: Sys, tid: nat)
    requires Inv(s) && tid < |s.tasks| && s.tasks[tid].pc.Rehydrated?
    ensures Inv(ReplayOrThrow(s, tid, s.tasks[tid].pc.ret))
  {
    var ret := s.tasks[tid].pc.ret;
    var capture := CaptureFor(s.host, false);
    NotWaiting(s, tid);
    if ret.mayReplay && capture.Some? {
      SendKeeps(s, tid, CommandCall(capture.value, false, ret.request, ret.parent), true);
    } else {
      CompleteCommandKeeps(s, tid, ret.parent, false);
    }
  }

  lemma CloseRehydrateKeeps(s: Sys, tid: nat)
    requires Inv(s) && tid < |s.tasks| && s.tasks[tid].pc.ClosingRehydrate?
    ensures Inv(SetPc(s, tid, Rehydrated(s.tasks[tid].pc.ret)).(host := s.host.(reopening := false)))
  {
    TallyCovers(s.tasks, tid);
    NotWaiting(s, tid);
    MoveTask(s, tid, s.tasks[tid].(pc := Rehydrated(s.tasks[tid].pc.ret)), s.host.(reopening := false), s.tokens, None);
  }

  lemma CatchHintKeeps(s: Sys, tid: nat)
    requires Inv(s) && tid < |s.tasks| && s.tasks[tid].pc.HintCatch?
    ensures Inv(CatchHint(s, tid, s.tasks[tid].kind.hint, s.tasks[tid].kind.retry))
  {
    var t := s.tasks[tid];
    NotWaiting(s, tid);
    MoveQuietly(s, tid, t.(pc := HintFinally));
    var closing := SetPc(s, tid, HintFinally);
    SpawnTask(closing, Task(HintReading(t.kind.hint, t.kind.retry + 1), RetryQueued, 0, 0), closing.host, closing.tokens);
  }

  lemma CloseHintKeeps(s: Sys, tid: nat)
    requires Inv(s) && tid < |s.tasks| && s.tasks[tid].pc.HintFinally?
    ensures Inv(CloseHint(s, tid, s.tasks[tid].kind.hint))
  {
    var t := s.tasks[tid];
    NotWaiting(s, tid);
    TallyCovers(s.tasks, tid);
    FlushKeeps(s.host.(snapshotInFlight := false), Some(t.kind.hint));
    var (h, start) := FinishHintRead(s.host, t.kind.hint);
    MoveTask(s, tid, t.(pc := Finished(true)), h, s.tokens, start);
  }

  lemma RetryHintKeeps(s: Sys, tid: nat)
    requires Inv(s) && tid < |s.tasks| && s.tasks[tid].pc.RetryQueued?
    ensures Inv(RetryHint(s, tid, s.tasks[tid].kind.hint))
  {
    var t := s.tasks[tid];
    var (h, started) := RequestHint(s.host, t.kind.hint);
    NotWaiting(s, tid);
    MoveTask(s, tid, t.(pc := if started then Settling else Finished(true)), h, s.tokens, None);
  }

  lemma ResumeKeeps(s: Sys, tid: nat)
    requires Inv(s) && tid < |s.tasks|
    ensures Inv(OnResume(s, tid))
  {
    var t := s.tasks[tid];
    match t.pc {
      case Settling => if tid !in s.host.mutationWaiters { IssueReadKeeps(s, tid); }
      case Opened(ok, ret) =>
        if ok { ActivateAfterOpenKeeps(s, tid); }
        else { MoveQuietly(s, tid, t.(pc := ClosingRehydrate(ret))); }
      case Activated(ok, ret) =>
        if ok { ReadAfterActivateKeeps(s, tid); }
        else { MoveQuietly(s, tid, t.(pc := ClosingRehydrate(ret))); }
      case ClosingRehydrate(_) => CloseRehydrateKeeps(s, tid);
      case Rehydrated(_) => ReplayOrThrowKeeps(s, tid);
      case HintThen => MoveQuietly(s, tid, t.(pc := HintFinally));
      case HintCatch => CatchHintKeeps(s, tid);
      case HintFinally => CloseHintKeeps(s, tid);
      case RetryQueued => RetryHintKeeps(s, tid);
      case _ =>
    }
  }

  lemma StartActivateKeeps(s: Sys, scope: Option<ScopeId>)
    requires Inv(s)
    ensures Inv(StartActivate(s, scope))
  {
    var token := NextToken(s.host);
    if token.Some? {
      var h := BeginActivate(s.host, token.value);
      if !s.floorLost { NextTokenExtends(s); }
      SpawnTask(s, Task(Activating, ActivateCall(h.context.value, token.value, scope, h.operation, Top), 1, 1),
                h, s.tokens + [token.value]);
    }
  }

  lemma StartCommandKeeps(s: Sys)
    requires Inv(s)
    ensures Inv(StartMutation(s)) && Inv(StartListKeys(s))
  {
    var mutating, listing := CaptureFor(s.host, true), CaptureFor(s.host, false);
    if mutating.Some? {
      SpawnTask(s, Task(Mutating, CommandCall(mutating.value, false, None, Top), 1, 1), BeginMutation(s.host), s.tokens);
      SpawnTask(s, Task(ListingKeys, CommandCall(listing.value, false, None, Top), 1, 1), s.host, s.tokens);
    }
  }

  lemma StartOpenKeeps(s: Sys)
    requires Inv(s)
    ensures Inv(StartOpen(s))
  {
    var h := BeginOpen(s.host);
    SpawnTask(s, Task(Opening, Listening(h.operation, Top), 0, 0), h, s.tokens);
  }

  lemma StartPurgeKeeps(s: Sys)
    requires Inv(s)
    ensures Inv(StartPurge(s))
  {
    SpawnTask(s, Task(Purging, PurgeCall, 1, 1), BeginOpen(s.host), s.tokens);
  }

  lemma StartSnapshotKeeps(s: Sys)
    requires Inv(s)
    ensures Inv(StartSnapshot(s))
  {
    TallyNonNegative(s.tasks);
    SpawnTask(s, Task(Reading, Settling, 0, 0), StartSnapshot(s).host, s.tokens);
  }

  lemma HintKeeps(s: Sys, hint: Hint)
    requires Inv(s)
    ensures Inv(OnHint(s, hint))
  {
    if Admits(s.host, hint) {
      var (h, started) := RequestHint(s.host, hint);
      if started { SpawnTask(s, Task(HintReading(hint, 0), Settling, 0, 0), h, s.tokens); }
    }
  }

  lemma ListenerKeeps(s: Sys, tid: nat, ok: bool)
    requires Inv(s) && tid < |s.tasks| && s.tasks[tid].pc.Listening?
    ensures Inv(Step(s, ListenerSettles(tid, ok)))
  {
    var pc := s.tasks[tid].pc;
    NotWaiting(s, tid);
    if ok { SendKeeps(s, tid, OpenCall(pc.operation, pc.ret), pc.ret.Top?); }
    else { MoveQuietly(s, tid, s.tasks[tid].(pc := if pc.ret.Top? then Finished(false) else Opened(false, pc.ret))); }
  }

  lemma ReplyStepKeeps(s: Sys, tid: nat, r: Reply)
    requires Inv(s) && tid < |s.tasks|
    ensures Inv(Step(s, ReplyArrives(tid, r)))
  {
    ReplyKeeps(s, tid, r);
  }

  lemma ResumeStepKeeps(s: Sys, tid: nat)
    requires Inv(s) && tid < |s.tasks|
    ensures Inv(Step(s, Resume(tid)))
  {
    ResumeKeeps(s, tid);
  }

  lemma SubscriberKeeps(s: Sys, tid: nat)
    requires Inv(s) && tid < |s.tasks|
    ensures Inv(Step(s, SubscriberThrows(tid)))
  {
    if s.tasks[tid].pc.HintThen? { MoveQuietly(s, tid, s.tasks[tid].(pc := HintCatch)); }
  }

  lemma ListenerStepKeeps(s: Sys, tid: nat, ok: bool)
    requires Inv(s) && tid < |s.tasks|
    ensures Inv(Step(s, ListenerSettles(tid, ok)))
  {
    if s.tasks[tid].pc.Listening? { ListenerKeeps(s, tid, ok); }
  }

  lemma TaskStepKeeps(s: Sys, e: Event)
    requires Inv(s) && (e.ListenerSettles? || e.ReplyArrives? || e.Resume? || e.SubscriberThrows?)
    requires e.tid < |s.tasks|
    ensures Inv(Step(s, e))
  {
    match e {
      case ListenerSettles(tid, ok) => ListenerStepKeeps(s, tid, ok);
      case ReplyArrives(tid, r) => ReplyStepKeeps(s, tid, r);
      case Resume(tid) => ResumeStepKeeps(s, tid);
      case SubscriberThrows(tid) => SubscriberKeeps(s, tid);
    }
  }

  lemma StepKeeps(s: Sys, e: Event)
    requires Inv(s)
    ensures Inv(Step(s, e))
  {
    match e {
      case CallOpen => StartOpenKeeps(s);
      case CallActivate(scope) => StartActivateKeeps(s, scope);
      case CallPurge => StartPurgeKeeps(s);
      case CallMutation => StartCommandKeeps(s);
      case CallListKeys => StartCommandKeeps(s);
      case CallSnapshot => StartSnapshotKeeps(s);
      case DisposeHost => DisposeKeeps(s);
      case HintArrives(hint) => HintKeeps(s, hint);
      case _ => if e.tid < |s.tasks| { TaskStepKeeps(s, e); }
    }
  }

  lemma DisposeKeeps(s: Sys)
    requires Inv(s)
    ensures Inv(Step(s, DisposeHost))
  {
  }

  lemma {:induction false} RunKeeps(events: seq<Event>)
    ensures Inv(Run(events))
  {
    if events != [] {
      RunKeeps(events[..|events| - 1]);
      StepKeeps(Run(events[..|events| - 1]), events[|events| - 1]);
    }
  }
}
