# DamHopper concurrency, path and file-transaction models

A Dafny model of the four stateful parts of DamHopper whose correctness depends on every
interleaving, every path or every partial failure:

* the SSH forward host of the desktop client, an asynchronous client protocol with
  activation tokens, fenced replies, ordered snapshot reads, in-flight mutation counting
  and coalesced change hints;
* the workspace target resolver of the server, a bounded discovery cache with two-level
  generation invalidation behind two read-write locks, and its lexical path algebra;
* the native Browser Debug host of the desktop client, a serialized task queue that drives
  one native child webview;
* agent-store distribution on the server: ship, unship and absorb as file-tree transactions.

`dafny verify dfyconfig.toml` checks everything.

## How the models are built

**Machines over runs.** The three concurrent parts are machines: a state, an event type that
covers everything the environment may do, and a total `Step`. One event runs the code between
two awaits of one call, or one lock operation of one task. A run is any sequence of events, so
a lemma about `Run(events)` speaks about every reachable state of every interleaving. An event
that does not apply changes nothing. Replies are arbitrary values that may arrive in any order
(`HostRuns`), native calls may fail halfway (`BrowserRuns`), locks are fair queues (`ResolverRuns`).

**Objects.** The classes of the source are classes here (`ForwardHost.NativeSshForwardHost`,
`WorktreeCache.WorkspaceTargetResolver`, `BrowserDebugHost.NativeBrowserDebugHost`,
`FileSystems.FileSystem`). Their methods update fields in place and are proved equal to the
functions the machines run on, or, for the file transactions, proved directly against a
contract over every intermediate state (`history`). `HostDriver`, `ResolverDriver` and
`BrowserDriver` deliver any events to an object and prove that its fields are those of the
machine's run, so that the theorems over runs are theorems about the objects.

**I/O.** A file system call may fail at any time, unless the file system is `reliable`: then it
succeeds when its own conditions hold. What always holds is proved for every file system, when an
operation succeeds for reliable ones. `cut` says which `read_dir` listings break off, reliable or not.

**Measured from outside.** What is promised of a state is measured, where it can be, by logs and
functions of the events that do not call the code's own predicates: the hints that were heard
(`World.heard`), the listings that Git gave (`ListsIn`), the page and viewport that were asked for
(`Requested`, `LatestViewport`), the page the child was created with (`ChildPage`), and a snapshot's
well-formedness by row indices (`WellFormed`).

**Files.** `Options`, `SetSizes`: shared helpers. `SshWire`, `SnapshotTables`, `SnapshotMeaning`, `HostSegments`,
`HostRuns`, `HostInvariants`, `HostTheorems`, `HostWaiting`, `HostRecovery`, `HintCoalescing`, `HintCoverage`, `HeardHints`,
`HintTakenBack`, `HintLoss`, `HintRetries`, `ForwardHost`, `HostDriver`: the SSH host. `WorktreeCache`, `ResolverRuns`,
`ResolverInvariants`, `ResolverTheorems`, `ResolverContents`, `ResolverDriver`: the resolver.
`PathComponents`, `TargetPaths`, `TargetContainment`: the path algebra. `BrowserSegments`, `BrowserRuns`,
`BrowserInvariants`, `BrowserTheorems`, `BrowserRequests`, `BrowserViewports`, `BrowserBridge`, `BrowserDebugHost`, `BrowserDriver`:
Browser Debug. `FileTrees`, `FileSystem`, `Copies`, `Distributor`: distribution.

## What the proofs found

* `absorb` can lose content. `copy_recursive` ends its loop on `Ok(Some(..))` only, so a listing
  that fails midway is taken for the end of the directory; the copy reports success and the
  original is then removed. `Distributor.AbsorbLosesAFile` absorbs such an item of two files and ends
  with a success that has lost the second. `Distributor.Absorb` keeps the whole original in every state, whatever
  else fails, when every listing is complete and nothing in the item is a link, and a success
  has kept it exactly then. The source's own comment promises the copy-then-remove order as a
  safety measure without this condition.
* An activation token can be sent twice after `dispose`: it clears the pending token without
  raising the established one, and `activateScope` does not look at `disposed`. When an activation
  was pending at that moment, the very next token sent, however late, repeats or undercuts an
  earlier one; otherwise none ever does.
* `normalize_target_path` lets a parent component pop a leading parent component, so `../..`
  normalizes to the empty path. Where a path leads is preserved from every directory exactly
  when the path is absolute or climbs at most one level above its start.
* `target_path_relative` leads back to the path except for roots whose identity is empty, as with
  `/a` and the empty root.
* A shipped link whose source has gone is not recognised when it is shipped again, because the
  fallback comparison looks at the joined, unnormalized path.
* A disposed Browser Debug host can leave its child behind, after three failed attempts.
* A bridge that answers while the zoom that changed during creation is being applied is reported as timed
  out later: the answer clears a timer that is armed only afterwards (`BrowserBridge.AnsweringBridgeTimesOut`).
* Hint coalescing relies on promise reactions running before the next event callback. A hint heard
  while a retry is queued is admitted and lost: the retry takes its place as the trailing hint
  (`HintLoss.HintHeardDuringRetryIsLost`).
* A hint whose counters are published already is refused, and can then be lost. A read may be sent after a
  mutation and answered before it; `acceptSnapshot` does not compare the mutation's answer, which carries
  no request number, with what is published, so that it takes the publication back below the refused
  hint (`HintTakenBack.RefusedHintIsTakenBack`). In every reachable state a published hint stays published,
  whatever follows, exactly when no mutation in flight for the current operation was served before it.
* A failing hint read is tried again without end, although a read is retried only once: the retry's
  microtask runs before the failed read's `finally`, becomes the trailing hint, and is flushed as a
  first read (`HintRetries.OneHintIsReadForWithoutEnd`).
* A subagent with the name of an agent's directory, such as `skills`, is shipped to the place that holds all
  skills. Apart from that, items that are not the same file never meet (`Distributor.ProjectPlacesDisjointExactly`).

## Model

| member | source | states |
|---|---|---|
| HostTheorems.OnlyTheLatestOperationWrites | apps/native/src/native-ssh-forward-host.ts:1232-1262 | fencing: a step that changes session, scope or published snapshot is the start of an activation, a disposal, or a reply to the call that captured the latest operation number of a host not disposed of |
| HostTheorems.PublishedSnapshotIsCoherent | apps/native/src/native-ssh-forward-host.ts:1336-1357 | in every reachable state a published snapshot has the host's context, token, scope and scope generation, no activation is pending, the freshness equals its counters, and its tables have no dangling reference |
| HostTheorems.AcceptedRequestsWereIssued | apps/native/src/native-ssh-forward-host.ts:793-803 | no snapshot is accepted under a request number that was not handed out |
| HostTheorems.TokensStrictlyIncrease | apps/native/src/native-ssh-forward-host.ts:726-792 | between two successful open replies every activation token exceeds all earlier ones, over all orders of replies, failures, supersessions, purges and failed re-opens |
| HostTheorems.TokensAfterDispose | apps/native/src/native-ssh-forward-host.ts:1123-1132 | an activation directly after disposal stays above all earlier tokens if and only if none was pending when the host was disposed of |
| HostTheorems.TokensAfterLostFloor | apps/native/src/native-ssh-forward-host.ts:1123-1132 | once an activation was pending at disposal, over every continuation the tokens stay in order if and only if no further one is sent, by a call or by a resumed rehydration |
| HostTheorems.TokenReuseExample | apps/native/src/native-ssh-forward-host.ts:1123-1132 | a concrete run in which the same token is sent twice |
| HostTheorems.NoLostWakeUp | apps/native/src/native-ssh-forward-host.ts:1201-1210 | a postponed refresh has a mutation or hint read in flight; every unfinished task can move, or waits for mutations of which one can; a task that holds a mutation slot never waits, even while rehydrating |
| HostTheorems.InFlightCountsAreExact | apps/native/src/native-ssh-forward-host.ts:1134-1200 | the in-flight counter equals the number of tasks holding a slot; at most one hint read and one rehydration run, as the flags say |
| HostWaiting.ReadsFollowMutations | apps/native/src/native-ssh-forward-host.ts:793-803 | a read asked for while mutations are in flight is not sent, whatever happens, before each of them has ended, unless the host is disposed of |
| HostTheorems.RestartRecoveryIsBounded | apps/native/src/native-ssh-forward-host.ts:1211-1231 | a snapshot makes at most 8 manager calls, any other command at most 4, and a mutation's own command is sent exactly once |
| HostTheorems.TaskStepsDescend | apps/native/src/native-ssh-forward-host.ts:1134-1231 | every step of a task lowers a natural number through the command and rehydration recursion |
| HostRecovery.OnlyMismatchRecovers | apps/native/src/native-ssh-forward-host.ts:1162-1181 | a reply to a command starts a recovery if and only if the manager says that its session is another one, no recovery is under way and the call is still current |
| HostRecovery.ReadSucceeds | apps/native/src/native-ssh-forward-host.ts:1154-1165 | a read succeeds exactly with a well-formed answer of its own session while it is current, or, if a later read was accepted, with a snapshot that is still published |
| HostRecovery.RestartIsRecovered | apps/native/src/native-ssh-forward-host.ts:1162-1231 | mismatch, open, activation, read and replay, one after the other, end a read with success and leave the host in the new session, one token above its floor, on the same scope, with the replayed snapshot |
| HostRecovery.WhichFailuresCostTheClient | apps/native/src/native-ssh-forward-host.ts:766-791 | of a current activation attempt exactly two error codes cost the context and the token; any other failure keeps the token that was sent |
| HostRecovery.SupersededActivationIsIgnored | apps/native/src/native-ssh-forward-host.ts:767-767 | a reply to an attempt that is no longer current changes no field |
| HostInvariants.StepKeeps | apps/native/src/native-ssh-forward-host.ts:692-1547 | the protocol invariant behind these results is kept by every segment of every method |
| HintCoverage.QuietHostHasEveryAdmittedHint | apps/native/src/native-ssh-forward-host.ts:1477-1547 | for every interleaving with a manager that serves in send order and whose counters only grow: once nothing is in flight or queued, the published snapshot's five counters are at least those of every admitted hint |
| HeardHints.HintIsReadForOrTrails | apps/native/src/native-ssh-forward-host.ts:1388-1488 | after any run a hint of this session with no counter below the published ones, and with one above or a change of the runtime, is read for at once or becomes the trailing one, mutations in flight included; any other hint changes nothing |
| HeardHints.QuietHostHasEveryHeardHint | apps/native/src/native-ssh-forward-host.ts:1388-1547 | once nothing is in flight or queued, the published counters are at least those of every hint heard for the session while a snapshot was published, admitted or refused, unless one was heard already published with an older mutation in flight |
| HeardHints.PublicationStaysExactlyWhenSafe | apps/native/src/native-ssh-forward-host.ts:1336-1357 | in every reachable state counters that are published stay published in every continuation if and only if no mutation in flight for the current operation was served before them |
| HintTakenBack.RefusedHintIsTakenBack | apps/native/src/native-ssh-forward-host.ts:1336-1357 | a run from construction on in which a hint is refused because it is published, and a mutation's answer takes the publication back below it for good |
| HintRetries.OneHintIsReadForWithoutEnd | apps/native/src/native-ssh-forward-host.ts:1489-1515 | for every number a run in which that many reads are sent for one hint, with failing replies and promise reactions only |
| HintLoss.HintHeardDuringRetryIsLost | apps/native/src/native-ssh-forward-host.ts:1494-1501 | a run in which an admitted hint is lost because it is heard while a retry is queued |
| HintCoverage.WorldStepKeeps | apps/native/src/native-ssh-forward-host.ts:1388-1547 | at every moment some published snapshot, read, mutation or trailing request covers the newest admitted hint |
| SnapshotTables.AcceptedTablesAreClosed | apps/native/src/native-ssh-forward-host.ts:387-549 | an accepted snapshot is referentially closed: exactly one credential state for each connection, every rule on an existing parent, every rule runtime with a connection runtime of the same generation |
| SnapshotMeaning.AcceptsExactlyWellFormed | apps/native/src/native-ssh-forward-host.ts:387-625 | the checks on sets and maps accept a snapshot if and only if, row by row: the bounds hold, keys are pairwise distinct, every row is of the scope, each connection has exactly one credential state, and every rule, runtime, legacy runtime and challenge refers to existing rows with matching parent and generation |
| SnapshotTables.CredentialsBiject | apps/native/src/native-ssh-forward-host.ts:387-440 | the set-size comparisons make credential states and connections correspond one to one |
| SnapshotTables.RuleRuntimesClosed | apps/native/src/native-ssh-forward-host.ts:480-549 | a rule runtime names an existing rule, and its parent has a runtime of its generation |
| HostDriver.Drive | apps/native/src/native-ssh-forward-host.ts:667-690 | a new host object after any events has the fields of the machine's run |
| HostDriver.Deliver | apps/native/src/native-ssh-forward-host.ts:692-1547 | which segments of the object each event runs, and that together they make the machine's step |
| ForwardHost.NativeSshForwardHost.OpenCalled | apps/native/src/native-ssh-forward-host.ts:692-698 | the segment before the first await, as a function of the old fields |
| ForwardHost.NativeSshForwardHost.OpenReplied | apps/native/src/native-ssh-forward-host.ts:699-724 | the segment after the reply: a valid, current reply replaces the session; any other changes nothing |
| ForwardHost.NativeSshForwardHost.ActivateCalled | apps/native/src/native-ssh-forward-host.ts:726-746 | the token sent is one above the pending or established one, and the published state is withdrawn |
| ForwardHost.NativeSshForwardHost.ActivateReplied | apps/native/src/native-ssh-forward-host.ts:747-791 | adoption of a current valid reply, quarantine after a current failure, nothing otherwise |
| ForwardHost.NativeSshForwardHost.CommandCalled | apps/native/src/native-ssh-forward-host.ts:1134-1153 | what a command captures and when a mutation takes a slot |
| ForwardHost.NativeSshForwardHost.CommandReplied | apps/native/src/native-ssh-forward-host.ts:1154-1184 | which replies are returned, thrown, or start a rehydration, and the fields afterwards |
| ForwardHost.NativeSshForwardHost.AcceptSnapshotReply | apps/native/src/native-ssh-forward-host.ts:1336-1357 | older numbered reads are ignored |
| ForwardHost.NativeSshForwardHost.WaitForMutationsToSettle | apps/native/src/native-ssh-forward-host.ts:1201-1204 | a caller waits exactly while a mutation is in flight |
| ForwardHost.NativeSshForwardHost.MutationFinished | apps/native/src/native-ssh-forward-host.ts:1205-1210 | the last mutation wakes all waiters in order and flushes the trailing refresh |
| ForwardHost.NativeSshForwardHost.HandleHint | apps/native/src/native-ssh-forward-host.ts:1388-1476 | only hints of this session that are not covered are passed on |
| ForwardHost.NativeSshForwardHost.RequestHintSnapshot | apps/native/src/native-ssh-forward-host.ts:1477-1488 | a read starts, or the hint becomes the trailing one |
| ForwardHost.NativeSshForwardHost.FlushTrailingSnapshot | apps/native/src/native-ssh-forward-host.ts:1503-1515 | when the trailing hint is dropped, kept or read for |
| ForwardHost.NativeSshForwardHost.HintReadFinished | apps/native/src/native-ssh-forward-host.ts:1498-1501 | the read flag is cleared before the flush |
| ForwardHost.NativeSshForwardHost.DisposeNow | apps/native/src/native-ssh-forward-host.ts:1123-1132 | disposal supersedes everything pending and wakes all waiters |
| ResolverTheorems.NoEntryIsStale | server/src/workspace_target.rs:274-312 | in every reachable state the listing behind every cached entry began after the last completed `invalidate` of its key and `invalidate_all`, though the generation pair is read in two steps; and the cache keeps its bound |
| ResolverTheorems.ResultIsFresh | server/src/workspace_target.rs:316-346 | any result of `refresh` or `cached_worktrees`, hit or refresh, in any attempt, comes from a listing that began after every relevant invalidation completed before the call began |
| ResolverContents.ContentsComeFromGit | server/src/workspace_target.rs:253-291 | every cached entry, and every listing returned, is what Git listed for that very project in a listing that began when it says |
| ResolverContents.ResultsAreObtained | server/src/workspace_target.rs:316-346 | what a call returns it has listed itself, or has itself read from an entry that was young then |
| ResolverContents.HitIsReturned | server/src/workspace_target.rs:323-335 | once a young entry was read, and while the pair stays the one observed, the call returns that entry's own listing, whatever else happens |
| ResolverContents.FreshListingIsReturned | server/src/workspace_target.rs:337-340 | once a listing has succeeded, and while the pair stays the one observed, `cached_worktrees` returns that listing |
| ResolverContents.RefreshReportsItsListing | server/src/workspace_target.rs:253-261 | an explicit refresh returns the listing it obtained, whether or not the generation moves |
| ResolverContents.NothingTakesAFailureOrAChange | server/src/workspace_target.rs:316-346 | a call that fails nowhere, while the pair of its project stands still, never ends with nothing |
| ResolverContents.ListingsAreStored | server/src/workspace_target.rs:348-389 | a listing is given up only at the first comparison, exactly if the pair has moved; after that the pair cannot move, and the project's entry becomes the listing, up to trimming |
| ResolverTheorems.NoDeadlock | server/src/workspace_target.rs:348-402 | in every reachable state of any number of calls all have returned or some task can take a step |
| ResolverTheorems.EachCallEnds | server/src/workspace_target.rs:316-346 | one call takes at most 119 steps, its three attempts included, whatever the others do |
| ResolverTheorems.EveryRunEnds | server/src/workspace_target.rs:316-346 | all calls together take at most 119 steps each, so every run comes to an end |
| ResolverInvariants.StepKeeps | server/src/workspace_target.rs:274-402 | lock ownership, observations and cache freshness are kept by every lock-step of every task |
| ResolverInvariants.ReadProjectRemembers | server/src/workspace_target.rs:391-402 | a torn generation read that matches the current pair was completed after the last relevant invalidation |
| ResolverInvariants.InsertKeeps | server/src/workspace_target.rs:348-389 | what the guarded check inserts is not stale, whichever entries eviction keeps |
| ResolverInvariants.BumpKeeps | server/src/workspace_target.rs:294-312 | raising a generation, or resetting project generations with the global one raised, leaves every earlier observation behind |
| ResolverInvariants.AgreesFollows | server/src/workspace_target.rs:348-402 | a lock's holders and queue always match the tasks' program points |
| ResolverDriver.Drive | server/src/workspace_target.rs:184-197 | a new resolver object used by any calls on any schedule has the data of one of the machine's runs, evictions being the object's own |
| ResolverDriver.Perform | server/src/workspace_target.rs:294-389 | which critical section of the object each lock-step runs, and that it makes the machine's change |
| WorktreeCache.WorkspaceTargetResolver.StoreIfCurrent | server/src/workspace_target.rs:356-389 | stores exactly when the generation pair still matches, then keeps as many entries as fit, none older than one that went, and all of them if they fit |
| WorktreeCache.WorkspaceTargetResolver.Evict | server/src/workspace_target.rs:378-388 | the eviction loop ends at the bound, having removed oldest entries only |
| WorktreeCache.WorkspaceTargetResolver.OldestKey | server/src/workspace_target.rs:379-382 | an entry no other entry is older than |
| WorktreeCache.WorkspaceTargetResolver.BumpProject | server/src/workspace_target.rs:298-302 | the project's generation is raised by one, or starts at one |
| WorktreeCache.WorkspaceTargetResolver.BumpAll | server/src/workspace_target.rs:308-310 | the global generation is raised and all project generations are forgotten |
| WorktreeCache.WorkspaceTargetResolver.RemoveEntry | server/src/workspace_target.rs:303-303 | the key's entry goes, every other stays |
| WorktreeCache.WorkspaceTargetResolver.ClearEntries | server/src/workspace_target.rs:311-311 | no entry is left |
| WorktreeCache.TrimExists | server/src/workspace_target.rs:378-388 | whatever the cache, eviction has a result it may end in |
| PathComponents.RenderThenSplit | server/src/workspace_target.rs:607-625 | splitting rendered components gives them back |
| PathComponents.PopOfRender | server/src/workspace_target.rs:613-616 | popping the buffer drops the last component |
| TargetPaths.NormalizeTargetPath | server/src/workspace_target.rs:607-625 | the loop on the string buffer computes the rendering of the component fold |
| TargetPaths.NormalizationIsIdempotent | server/src/workspace_target.rs:607-625 | normalizing twice is normalizing once |
| TargetPaths.IdentityIsTidy | server/src/workspace_target.rs:631-661 | an identity splits into its own components, with a parent in first position at most |
| TargetPaths.NormalizationKeepsMeaning | server/src/workspace_target.rs:607-625 | a path leads to the same place from every directory after normalization if and only if it is absolute or climbs at most one level above its start |
| TargetPaths.NormalizationIsThePlainWalk | server/src/workspace_target.rs:607-625 | a path that never climbs above its start normalizes to the names of the plain lexical walk |
| TargetPaths.TwoParentsVanish | server/src/workspace_target.rs:613-616 | a concrete path whose meaning changes |
| TargetContainment.WithinIsPrefix | server/src/workspace_target.rs:667-680 | string containment is exactly component-prefix containment, root included; for a root with an empty identity, which paths are within |
| TargetContainment.WithinIsAnOrder | server/src/workspace_target.rs:667-680 | containment of absolute paths is reflexive, transitive, and antisymmetric up to identity |
| TargetContainment.RelativeIffWithin | server/src/workspace_target.rs:685-707 | a relative form exists exactly for paths without parent components within the root |
| TargetContainment.RelativeRoundTrip | server/src/workspace_target.rs:685-707 | the relative form is relative, and joined to the root it has the path's identity if and only if the root's identity is not empty or the path's is |
| TargetContainment.EmptyRootHasNoWayBack | server/src/workspace_target.rs:700-706 | a concrete path and root whose relative form does not lead back |
| TargetContainment.TargetsLieInTheirWorktrees | server/src/workspace_target.rs:492-519 | every projected target lies in its worktree, the repository root's is the configured project and no other worktree's is, and different worktrees never share a target |
| BrowserTheorems.CreateOnlyWithoutChild | apps/native/src/native-browser-debug-host.ts:154-273 | a creation is only ever outstanding while no child exists, whatever is called during any await and whichever destructions fail |
| BrowserTheorems.QuietHostKeepsOnlyTheLatestChild | apps/native/src/native-browser-debug-host.ts:351-418 | a drained queue leaves no child but the latest call's, unless a disposed host gave up |
| BrowserTheorems.NothingRemainsAfterDestroy | apps/native/src/native-browser-debug-host.ts:351-369 | after a destroy as the last lifecycle call a drained queue leaves no child |
| BrowserTheorems.GivingUpTakesThreeFailures | apps/native/src/native-browser-debug-host.ts:394-399 | giving up takes disposal and a third failed attempt |
| BrowserTheorems.ChildCanOutliveDisposal | apps/native/src/native-browser-debug-host.ts:394-417 | a run in which a child remains after disposal |
| BrowserTheorems.StateDescribesTheChild | apps/native/src/native-browser-debug-host.ts:225-231 | a host with a state has a child created for its current target |
| BrowserRequests.StateShowsTheRequest | apps/native/src/native-browser-debug-host.ts:171-231 | after any run the host's target has the address and origin of the last request and its profile; a host with a state has a child created for exactly these |
| BrowserRequests.QuietHostShowsTheRequest | apps/native/src/native-browser-debug-host.ts:154-273 | once the queue has drained, and unless listening or creating failed for the last request, the host has a state and its child was created with the address, origin and profile asked for |
| BrowserRequests.RequestIsIgnoredExactlyWhenShown | apps/native/src/native-browser-debug-host.ts:154-165 | a request is ignored if and only if the host is disposed of, or the same page was asked for last, is shown or pending, and has not timed out; on a drained queue nothing is pending, so that a failed request can be repeated |
| BrowserViewports.QuietChildIsInPlace | apps/native/src/native-browser-debug-host.ts:275-296 | once the queue has drained, and unless a geometry call has failed, the child was last told the bounds and visibility of the latest viewport, changes during creation and between the two calls included |
| BrowserBridge.TimesOutExactlyUnanswered | apps/native/src/native-browser-debug-host.ts:425-449 | after any run, once the zoom that changed during creation is applied, the timer's next firing reports a time-out if and only if the child has a relay and its bridge has not answered since; nothing else is ever reported as timed out |
| BrowserBridge.AnsweringBridgeTimesOut | apps/native/src/native-browser-debug-host.ts:231-249 | a run in which the bridge answers while that zoom is applied, the host hears it, and yet reports a time-out |
| BrowserTheorems.ZoomConverges | apps/native/src/native-browser-debug-host.ts:297-322 | with no failed zoom call since the child was adopted, a drained queue means child, last applied and requested zoom agree and none is pending |
| BrowserTheorems.ZoomIsNeverForgotten | apps/native/src/native-browser-debug-host.ts:471-497 | until then the latest zoom is being applied or queued |
| BrowserInvariants.StepKeeps | apps/native/src/native-browser-debug-host.ts:154-558 | queue order, stages, the child's owner and zoom bookkeeping are kept by every event |
| BrowserDriver.Drive | apps/native/src/native-browser-debug-host.ts:127-152 | a new host object after any events has the fields of the machine's run |
| BrowserDriver.Deliver | apps/native/src/native-browser-debug-host.ts:154-558 | which method or continuation of the object each event runs, and that it makes the machine's step |
| BrowserDebugHost.NativeBrowserDebugHost.SetTarget | apps/native/src/native-browser-debug-host.ts:154-182 | a repeated target is ignored, any other supersedes everything and queues its task |
| BrowserDebugHost.NativeBrowserDebugHost.SetZoom | apps/native/src/native-browser-debug-host.ts:297-307 | which zooms are remembered and queued |
| BrowserDebugHost.NativeBrowserDebugHost.SetViewport | apps/native/src/native-browser-debug-host.ts:275-281 | a viewport change retries the zoom and queues the geometry |
| BrowserDebugHost.NativeBrowserDebugHost.Destroy | apps/native/src/native-browser-debug-host.ts:351-368 | destroy supersedes everything and queues the destruction |
| BrowserDebugHost.NativeBrowserDebugHost.Dispose | apps/native/src/native-browser-debug-host.ts:551-558 | disposal destroys once |
| BrowserDebugHost.NativeBrowserDebugHost.StartNext | apps/native/src/native-browser-debug-host.ts:451-457 | the next queued task up to its first await |
| BrowserDebugHost.NativeBrowserDebugHost.DestroyReturned | apps/native/src/native-browser-debug-host.ts:370-418 | when the destruction loop retries, gives up or goes on |
| BrowserDebugHost.NativeBrowserDebugHost.ListenReturned | apps/native/src/native-browser-debug-host.ts:191-208 | without listeners, currency or a profile there is no creation |
| BrowserDebugHost.NativeBrowserDebugHost.CreateReturned | apps/native/src/native-browser-debug-host.ts:225-272 | a superseded child is destroyed, a current one adopted, a zoom changed meanwhile applied next |
| BrowserDebugHost.NativeBrowserDebugHost.ZoomReturned | apps/native/src/native-browser-debug-host.ts:471-497 | what a successful, superseded or failed zoom call records |
| BrowserDebugHost.NativeBrowserDebugHost.BridgeTimeoutFires | apps/native/src/native-browser-debug-host.ts:431-448 | the timer counts only for the operation and generation it was armed for |
| FileTrees.DiffLeadsToSource | server/src/agent_store/distributor.rs:85-100 | the relative link computed for a target resolves to the source |
| FileSystems.FileSystem.MakeDirs | server/src/agent_store/distributor.rs:61-65 | only directories on the way are made; with reliable I/O success exactly if only directories are on it |
| FileSystems.FileSystem.CopyFile | server/src/agent_store/distributor.rs:648-652 | a copied file has the content read through links; with reliable I/O success if there is such content and a directory to put it in |
| FileSystems.FileSystem.RemoveDirAll | server/src/agent_store/distributor.rs:194-198 | recursive removal, one node at a time, touches nothing else in any state, and success leaves nothing |
| Copies.CopyIsTheOriginal | server/src/agent_store/distributor.rs:639-655 | a successful recursive copy is the original if and only if every listing was complete and nothing was a link |
| Copies.UnlistedIsLost | server/src/agent_store/distributor.rs:644-647 | what a listing left out is in neither place once the original was replaced |
| Copies.CutListingDropsAFile | server/src/agent_store/distributor.rs:644-647 | of a concrete item of two files, every tree a copy can leave lacks one |
| Distributor.CopyRecursive | server/src/agent_store/distributor.rs:639-655 | every state differs from the first at the target only; success means exactly what the listings showed was copied, node by node, links as the files they lead to; with reliable I/O and readable links it succeeds exactly if there is a source and only directories on the way |
| Distributor.PlacesAreDisjoint | server/src/agent_store/distributor.rs:448-483 | an item's places in disjoint store and project are disjoint |
| Distributor.FileNames | server/src/agent_store/distributor.rs:458-463 | a command's file always ends in `.md`, added at most once; every other item keeps its name; safe names stay safe |
| Distributor.SameFileExactly | server/src/agent_store/distributor.rs:458-463 | two names share a file exactly if they are equal or, for commands, differ in the `.md` only |
| Distributor.StorePlacesDisjointExactly | server/src/agent_store/distributor.rs:448-483 | two items are apart in the store unless they are of one category and share the file |
| Distributor.ProjectPlacesDisjointExactly | server/src/agent_store/distributor.rs:448-483 | two items are apart in a project unless they are of one agent and category and share the file, or one is a subagent named like the other's directory |
| Distributor.OwnLinkPointsTo | server/src/agent_store/distributor.rs:488-508 | a link that ship made is recognised if and only if its source is there |
| Distributor.Ship | server/src/agent_store/distributor.rs:57-119 | every node that was there stays in every state; an existing target is left alone and accepted exactly if it points to the source; at a free target success makes the relative link or the copy, and with reliable I/O comes exactly if only directories are on the way and, for a copy, the source can be copied |
| Distributor.ShipTwice | server/src/agent_store/distributor.rs:68-83 | with reliable I/O a first link succeeds exactly if the way is open; shipping it again changes nothing and succeeds if and only if its source is there |
| Distributor.ContentDiffers | server/src/agent_store/distributor.rs:513-541 | the shallow comparison: never a difference that is not there, and with reliable I/O every top-level one |
| Distributor.Unship | server/src/agent_store/distributor.rs:162-211 | only the target is removed, a link alone; with reliable I/O it succeeds exactly for links, missing targets, forced removals and unmodified copies, and a failure changes nothing |
| Distributor.ShipThenUnship | server/src/agent_store/distributor.rs:165-178 | unship after a fresh link restores the tree but for directories on the way; with reliable I/O and an open way both succeed |
| Distributor.Absorb | server/src/agent_store/distributor.rs:216-300 | in every state of every run the whole original is at one of the two places if listings are complete and nothing is a link; success ends with a link to the store and the copy there, and has kept the original exactly under that condition; with reliable I/O and readable links it succeeds exactly if the name is safe, the item present and no link, nothing stored and the way open, and a failure leaves both places as they were |
| Distributor.AbsorbLosesTheRest | server/src/agent_store/distributor.rs:644-647 | with reliable I/O but for a listing that breaks off, absorb succeeds and every node that was not listed is at neither place |
| Distributor.AbsorbLosesAFile | server/src/agent_store/distributor.rs:644-647 | a concrete item of two files that is absorbed with success and without its second file |
| Distributor.CopyToStore | server/src/agent_store/distributor.rs:260-271 | copying and cleaning up touch the store's place only; with reliable I/O the copy succeeds if it can, and a failed one is cleaned up completely |

## Left out

- HintCoverage.QuietHostHasEveryAdmittedHint: assumes what the design assumes of the manager (calls served in send order, growing counters, hints in order, no failing call, one activated scope) and that event callbacks wait for queued promise reactions.
- HeardHints.QuietHostHasEveryHeardHint: under the same assumptions; without its condition on refused hints it is false, as `HintTakenBack.RefusedHintIsTakenBack` shows, and `HeardHints.PublicationStaysExactlyWhenSafe` says exactly when such a hint is safe.
- Distributor.Absorb: requires that the item's place in the store is not itself a link, and disjoint store and project; the source would write through such a link. For items with links that cannot be read nothing says whether it succeeds, because a link may lead into the copy that is being made.
- FileSystems.FileSystem.RemoveDirAll: its own listings do not break off, so the loss shown is of a listing error that the copy met and the removal did not.
- ResolverTheorems.NoEntryIsStale: generation counters are unbounded, so the wrap-around of 64-bit counters is not modelled.
- SSH host: malformed scope ids, which are rejected before any state is read, the listener's subscription and removal, the known-scopes argument, error texts, and the composite profile methods that call several commands.
- SSH host: field-level syntax checks of the snapshot (text lengths, ports, timestamps, fingerprints); a row that fails them is one opaque case.
- Resolver: the time-to-live is an arbitrary answer per read, Git and canonicalization are arbitrary listings and failures, and `resolve` and `live_target_path` are not part of this model.
- Paths: Windows prefixes and case folding, non-UTF-8 names, and the canonicalization of targets that exist on disk.
- Browser Debug: the bounds and visibility a child is created with, before it is told the viewport, relayed events except the handshake's effect on the timer (one that arrives before adoption, which the source buffers until the timer is armed, counts as arriving then), emitted status events and listeners that call back into the host, and native children closed by anything but the host.
- Distribution: the MCP server and memory-template categories, `health_check`, the distribution matrix, bulk shipping, directories reached through links, spurious failures of reading metadata, and the Windows fallback to absolute links.
