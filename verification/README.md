# Specialist runtime: a verified model

The repository runs AI specialists as child activations of a coordinator. This project models the
parts of it whose correctness depends on order, on interleaving or on parsing, and proves what
they keep over every run or every input.

**The workspace writer lease.** One file per mutable workspace says who may write. `WorkspaceLease`
holds the liveness verdict and the admission rules, `WorkspaceReconcile` the recovery decisions,
and `WorkspaceStore` the calls that change the file. `LeaseProtocol` lets calls of any number of
processes interleave: looking whether a record stands, reading it, judging it with the probe, and
the `link`, `rename` or `unlink` that follows are separate steps, with spawns, crashes, PID reuse
and a probe that may stop answering in between. `LeaseSafety` proves exactly which runs refine an
atomic lease machine and keep exclusion, `LeaseSchedule` a schedule that is enough for it,
`LeaseHazards` the runs that go wrong, `LeaseRace` that a race has one winner, `LeaseEvidence` how
far the reconciliation log accounts for what was freed, and `GuardedTools` that a dispatched
specialist's mutating tools all consult the lease.

**Asking and answering.** `Interaction` is the ask/reply transport, one step per stretch of code
between two `await`s, so a reply may overtake the send it answers. `PeerBridge` adds the two
routes by which an answer arrives.

**Attempts.** `ActivationHost` is model selection and the fallback walk; `Attempts` is resume,
retry and attempt numbering.

**Streams.** `Jsonl` (LF framing of chunks), `RpcClient` (request correlation), `PiProjector`
(timeline to pi's event stream), `FeedMerge` (the merged feed), `LogCollapse` (windowed
de-duplication), `ChatTail` (incremental file tail).

**Contracts.** `BeadGate` is the bead parser and admission gate, `StepContract` the compiler that
shares the parser.

`Text`, `Sequences`, `StableSort`, `Chronology`, `Decimal` and `Prelude` are the string, sequence,
sorting, ordering and number operations these are built from.

Code that updates fields in place is a class whose methods are proved equal to a function on the
state; the theorems are lemmas about that function, over sequences of steps.

## What is assumed

The lease theorems hold under these assumptions, each a guard of a step in `LeaseProtocol`: a
(pid, start ticks) pair never recurs; only the process that minted an activation id calls with
it; calls inside one process do not interleave; a probe that answers tells the truth, its two
questions (can processes be seen, when did this one start) being answered of one moment; all
parties use the same lease path. The record file parses, once published.

Exclusion itself needs one thing more, which the code does not enforce: a reconciliation's unlink
must not find a live holder's record. `LeaseSafety.ExclusionExactlyWhenCareful` shows that this is
exactly what it needs. `LeaseSchedule.Apart` is a schedule that ensures it: reconciliations of one
workspace do not overlap, and no record changes while a reconciliation inspects it.
`LeaseHazards` has a run to two live owners for either part dropped.

Message ids and request ids are fresh. A locale's string comparison is a consistent total
preorder. Times are integers.

## What the proofs found

- Two overlapping reconciliations can leave two live owners of one workspace
  (`OverlappingReconciliationsBreakExclusion`). So can a single one, if its read of the record and
  its probe straddle a release and a new acquire (`SingleReconciliationBreaksExclusion`), or if
  the record goes between its look and its read, which makes it count as unreadable
  (`GapBeforeTheReadBreaksExclusion`).
- The lease is unlinked before the record of why is appended, so a crash or a failing append
  between them frees a workspace with no record (`UnlinkBeforeAppendLosesEvidence`). While
  reconciliations keep apart, the log is complete exactly when nothing was kept from its append
  (`ApartLogIsCompleteExactlyWhen`).
- The projection of uncertain workspaces inspects the file a record's worktree path leads to, not
  the file it lists. It is right about a file exactly when the two are of one kind: settled, blind,
  with a holder gone, or unreadable (`ProjectedRightExactlyWhen`). So it is always wrong about a
  record without a worktree path (`PathMissingIsMisprojected`). A record whose path now leads to a
  key without a file, as when a worktree reached by a symbolic link was deleted, is never listed
  (`StrayRecordIsNeverListed`); one whose path leads to another key's file is shown with that
  file's status (`StrayRecordTakesAnothersStatus`).
- The comment on `retry` says an activation is never half-advanced. A failing session creation
  after the attempt number was advanced leaves it `starting`, which neither `resume` nor `retry`
  accepts (`RetryIsHalfDoneExactlyWhen`).
- Only a failed activation is retried, but the state is not checked again after the model's
  validation is awaited. Attempts start only from the states they may exactly when each validated
  retry still finds the activation failed (`AttemptsStartRightlyExactlyWhen`); otherwise two
  overlapping retries with overrides both begin one (`OverlappingRetriesBothBegin`). Their attempt
  ids still differ.
- Whatever session is created last is installed. A retry's session is installed under its own
  attempt exactly when no attempt was begun while it was being created
  (`SessionIsItsAttemptsExactlyWhen`); otherwise the snapshot can name the later attempt with the
  session and model of the earlier (`LateSessionTakesTheLaterAttempt`). A fallback walk still at
  its awaits does the same to a retry accepted meanwhile, on the same condition
  (`WalkKeepsItsAttemptExactlyWhen`, `RetryInsideTheWalkLosesItsSession`).
- A request pending when the RPC client stops is dropped from the map but keeps its timer: it can
  only be rejected by timeout (`AbandonedRequestsOnlyTimeOut`).
- A list section that the gate admits may still compile to no items, if its lines are bare
  markers (`ListIsEmptyExactlyWhen`, `MarkerListsNothing`).
- Where every factory is exported, the names reported unguardable are exactly the spellings of
  `constructor` and `__proto__`, because the factory table is a plain object
  (`InheritedNamesAreUnguardable`). This errs on the safe side.
- Dispatch passes over an empty model override when it picks the chain, but not when it asks what
  was requested: it is refused as if no model were configured (`SelectModel`).

## Model

| member | source | states |
|---|---|---|
| WorkspaceLease.InspectVerdict | src/activation/workspace-lease.ts:229-257 | free exactly if no file; held exactly if the recorded process, pid and start time both, is seen running; unreadable exactly if the record is; nothing else in the record decides |
| WorkspaceLease.UncertainForItsReason | src/activation/workspace-lease.ts:244-256 | a record is uncertain because no process can be seen, because its process is gone, or because its PID runs with another start time, each exactly then |
| WorkspaceLease.ReadOnlyNames | src/activation/workspace-lease.ts:408-414 | the tools that do not mutate are exactly ten names, in any case and with any space around them |
| WorkspaceLease.AdmittedExactlyWhen | src/activation/workspace-lease.ts:438-509 | a read-only tool is admitted for anyone; a mutating one exactly for the activation on a record whose process is seen, or for the coordinator where no record stands |
| WorkspaceLease.AtMostOneParty | src/activation/workspace-lease.ts:438-509 | at one moment two different parties, coordinator or activation, are never both admitted to mutate |
| WorkspaceLease.UncertainRefusesEverything | src/activation/workspace-lease.ts:293-297 | an uncertain workspace refuses every acquire and release, and every mutating call of every party |
| WorkspaceReconcile.ResolvesExactlyWhen | src/activation/workspace-reconcile.ts:157-272 | a decision frees a workspace if and only if it is uncertain, a basis is given, and the outcome is one this reason permits, with a successor named if superseded |
| WorkspaceReconcile.SomeRequestIsAppliedExactlyWhen | src/activation/workspace-reconcile.ts:157-271 | on a held or free workspace every request is refused; on an uncertain one some request resolves it exactly if liveness could be established or the record not be read |
| WorkspaceReconcile.ProjectUncertainWorkspaces | src/activation/workspace-reconcile.ts:429-473 | the loop returns one row per uncertain file, in directory order, with its attempts and last record |
| WorkspaceReconcile.RowCarriesTheLog | src/activation/workspace-reconcile.ts:450-470 | a row carries its file's own record, the reason projected, the number of attempts logged and the latest of them |
| WorkspaceReconcile.RowsKeepTheDirectorysOrder | src/activation/workspace-reconcile.ts:437-471 | rows stand in the order of the directory |
| WorkspaceReconcile.ProjectionIsComplete | src/activation/workspace-reconcile.ts:437-471 | a listed file has its row exactly if the file its recorded path leads to is uncertain, or no path can be read |
| WorkspaceReconcile.ProjectedRightExactlyWhen | src/activation/workspace-reconcile.ts:440-460 | for any file, the outcomes offered are the proposals that would be applied, and none is offered exactly if none would be, if and only if the file inspected in its place is of the same kind |
| WorkspaceReconcile.ProjectedOutcomesAreTheApplicableOnes | src/activation/workspace-reconcile.ts:441-460 | so the projection is right about a record filed under its own path, and about an unreadable file |
| WorkspaceReconcile.StrayRecordIsNeverListed | src/activation/workspace-reconcile.ts:445-448 | a record whose path leads to a key without a file is never listed, which is right exactly if its holder is alive |
| WorkspaceReconcile.StrayRecordTakesAnothersStatus | src/activation/workspace-reconcile.ts:445-460 | a record whose path leads to an unreadable file of another key is always listed as unreadable, and always wrongly |
| WorkspaceReconcile.PathMissingIsMisprojected | src/activation/workspace-reconcile.ts:475-482 | for a record without a worktree path the projection is always wrong |
| WorkspaceStore.Store.Link | src/activation/workspace-lease.ts:312-327 | `link` creates the record or, if one stands, changes nothing |
| WorkspaceStore.Store.Acquire | src/activation/workspace-lease.ts:277-338 | whatever others did between look, read and write: success leaves the caller's own record, fresh with its live process or its old one with only the attempt advanced; refusal leaves the file as it was; success and each refusal have their exact cause |
| WorkspaceStore.Store.Release | src/activation/workspace-lease.ts:348-376 | the record is removed exactly if it names the caller and its process is seen, and otherwise stays; the call succeeds then or if no record stood; `NotHeldByCaller` and `LeaseUncertain` have their exact causes |
| WorkspaceStore.Store.Reconcile | src/activation/workspace-reconcile.ts:191-281 | each call appends exactly one record, the decision on what it saw, with the request it answers and the cause of a refusal; only a resolving one removes the file |
| WorkspaceStore.OnlyTheHolderIsReplaced | src/activation/workspace-lease.ts:283-338 | a standing record is replaced only for the activation it names, its process seen alive, and only the attempt changes |
| WorkspaceStore.AcquireThenRelease | src/activation/workspace-lease.ts:277-376 | uninterrupted, an acquire of a free workspace succeeds exactly if the caller's start time is readable, reads back as held, and its release restores the free workspace |
| LeaseProtocol.StepKeepsInv | src/activation/workspace-lease.ts:229-376 | every step of every process that clears no live record keeps the protocol's invariant: what a call in flight saw and may write agrees with the record |
| LeaseProtocol.RunKeepsInv | src/activation/workspace-lease.ts:229-376 | so does every run of such steps |
| LeaseProtocol.ClearingSawNoLiveHolder | src/activation/workspace-reconcile.ts:200-272 | a reconciliation that goes on to unlink read no holder, or one that a working probe showed gone |
| LeaseSafety.RefusedAtTheLook | src/activation/workspace-lease.ts:283-297 | an acquire that found another's record standing is refused whatever follows, and one that found its own is refused only if it cannot be verified |
| LeaseSafety.StepRefines | src/activation/workspace-lease.ts:229-376 | each step is one transition of the atomic machine (vacant, owned, orphaned) or none, with the same visible answer; a live record's clear, and only that, is no transition |
| LeaseSafety.ProtocolRefinesAtomicLease | src/activation/workspace-lease.ts:229-376 | a run of the protocol is, label by label, a run of the atomic machine exactly if no step clears a live record, and then ends in the state the file stands for |
| LeaseSafety.ExclusionExactlyWhenCareful | src/activation/workspace-reconcile.ts:191-281 | the live activations that acquired and have not released are at every step exactly the one a live-held record names, if and only if no reconciliation's unlink finds a live holder's record |
| LeaseSafety.ClearingALiveRecordAdmitsASecondOwner | src/activation/workspace-reconcile.ts:274-281 | after such an unlink any idle process with an activation is granted the workspace beside the live owner |
| LeaseSafety.OwnerIsTheOneOnRecord | src/activation/workspace-lease.ts:277-376 | after a run without one there is at most one live owner, and it is on record |
| LeaseSafety.AdmissionFollowsOwnership | src/activation/workspace-lease.ts:438-509 | in every state of such runs an activation admitted to mutate is the sole owner, the coordinator is admitted only if there is no owner and no record, and a visible owner is admitted |
| LeaseSafety.AdmissionOutlivesItsRead | src/activation/workspace-lease.ts:476-489 | however others step between an admission's read of the record and its probe, the activation it admits owns the workspace alone at the verdict |
| LeaseSafety.UncertainIsAbsorbing | src/activation/workspace-lease.ts:244-363 | after a holder's death the record stays unchanged and everything is refused, through any steps without a resolving reconciliation |
| LeaseSafety.UnverifiableRecordIsPermanent | src/activation/workspace-reconcile.ts:157-162 | where processes cannot be seen, no call of any kind, reconciliation included, ever removes or changes a record |
| LeaseRace.EveryCallAnswersOnce | src/activation/workspace-lease.ts:277-327 | in a race, calls made are answers given plus calls in flight |
| LeaseRace.RecordDecidesTheRest | src/activation/workspace-lease.ts:283-327 | once a record stands it names its holder to the end, and a call is granted exactly if it is the holder's |
| LeaseRace.FirstLinkDecides | src/activation/workspace-lease.ts:312-321 | nobody is answered before the first link, and that link's activation is the one granted |
| LeaseRace.RaceHasExactlyOneWinner | src/activation/workspace-lease.ts:283-327 | when all calls of a race for a free workspace have answered, latecomers included, exactly one activation was granted, all others refused, and the record named it from its link on |
| LeaseEvidence.StepConservesEvidence | src/activation/workspace-reconcile.ts:191-281 | each step balances: freed workspaces and unlinks that missed against resolving log records, decisions unlinked but not logged, and those kept from the log |
| LeaseEvidence.RunConservesEvidence | src/activation/workspace-reconcile.ts:191-312 | the balance holds over every run, and the log only grows |
| LeaseEvidence.EveryFreeIsOnRecordExactlyWhen | src/activation/workspace-reconcile.ts:200-204 | the log holds one resolving record per freed workspace exactly when unlinks that missed are as many as those unrecorded |
| LeaseEvidence.ApartLogIsCompleteExactlyWhen | src/activation/workspace-reconcile.ts:200-204 | while reconciliations keep apart none misses, the log never runs ahead, and it is complete exactly when no process is between unlink and append and none was kept from it |
| LeaseSchedule.StepKeepsApart | src/activation/workspace-reconcile.ts:191-281 | while reconciliations keep apart, what one has seen is what stands until its unlink |
| LeaseSchedule.ApartRunsKeepExclusion | src/activation/workspace-reconcile.ts:191-281 | so such runs clear no live record, and keep exclusion at every step |
| LeaseHazards.UnlinkBeforeAppendLosesEvidence | src/activation/workspace-reconcile.ts:202-203 | on the best of schedules, a crash or a failing append leaves a freed workspace and an empty log |
| LeaseHazards.OverlappingReconciliationsBreakExclusion | src/activation/workspace-reconcile.ts:191-281 | a run of two overlapping reconciliations, each inspecting undisturbed, that ends with two live owners |
| LeaseHazards.SingleReconciliationBreaksExclusion | src/activation/workspace-reconcile.ts:200-277 | a run without overlap that ends with two live owners, because the record changed between one reconciliation's read and its probe |
| LeaseHazards.GapBeforeTheReadBreaksExclusion | src/activation/workspace-lease.ts:234-242 | another, without a death, because the record went between its look and its read |
| GuardedTools.CreateGuardedTools | src/activation/guarded-tools.ts:83-130 | the allowlist is partitioned in order; each name of those four on it is guarded or reported, never both, and guarded exactly if its factory is exported; each guarded name gets the tool of its own builtin |
| GuardedTools.TableHoldsTheBuiltins | src/activation/guarded-tools.ts:54-59 | in any case and with any space around them, `edit`, `write`, `bash` and `powershell`, and no other name, are builtins, each with its own factory |
| GuardedTools.BuiltinsMutate | src/activation/guarded-tools.ts:54-59 | no spelling of a mutating builtin passes as read-only |
| GuardedTools.InheritedNamesAreUnguardable | src/activation/guarded-tools.ts:98-104 | where every factory is exported, the unguardable names are exactly the spellings of the two keys a plain object inherits, and those count as mutating |
| GuardedTools.NoMutatorPassesUnguarded | src/activation/guarded-tools.ts:98-127 | each of those four names on an allowlist is guarded or reported, never both, and is admitted exactly for the activation of a record whose holder is seen alive |
| GuardedTools.DispatchedMutatorsRunForTheOwnerOnly | src/activation/native-host.ts:537-554 | dispatch refusing unguardable names, each of those four names on a dispatched allowlist is guarded, and in every reachable state runs only for the sole owner |
| GuardedTools.GuardedCallIsTheOwners | src/activation/guarded-tools.ts:109-111 | a rebuilt tool, whatever others do between its two reads, is admitted only for the sole owner, and is admitted for an owner seen alive |
| GuardedTools.Session.Execute | src/activation/guarded-tools.ts:109-124 | a call that runs is the sole owner's and runs the builtin its name stands for; a live owner's call runs; a refusal is a result that runs nothing |
| Interaction.InteractionTransport.BeginSend | src/activation/interaction.ts:154-167 | an ask is logged and pending before its delivery is awaited |
| Interaction.InteractionTransport.BeginRequest | src/activation/interaction.ts:189-197 | the waiter is registered before the send |
| Interaction.InteractionTransport.DeliveryFinished | src/activation/interaction.ts:169-173 | delivery only marks the ask, and only if it still is pending |
| Interaction.InteractionTransport.SendReturned | src/activation/interaction.ts:199-205 | a request takes an early answer, or blocks |
| Interaction.InteractionTransport.BeginReply | src/activation/interaction.ts:209-222 | a reply is accepted exactly if it cites a pending ask; a refused one changes nothing |
| Interaction.InteractionTransport.WaitResolved | src/activation/interaction.ts:193-205 | a blocked request returns what its waiter was given |
| Interaction.ComposeCarries | src/activation/interaction.ts:305-321 | a message logged carries its input field by field, an empty citation or attempt being none |
| Interaction.BeginKeepsInv | src/activation/interaction.ts:154-197 | sending and requesting keep the invariant relating every ask and call to the log |
| Interaction.DeliveryKeepsInv | src/activation/interaction.ts:169-173 | so does a finished delivery |
| Interaction.ContinueKeepsInv | src/activation/interaction.ts:199-205 | so does what follows an awaited send |
| Interaction.ReplyKeepsInv | src/activation/interaction.ts:209-222 | so does a reply, whenever it comes |
| Interaction.WakeKeepsInv | src/activation/interaction.ts:193-205 | so does a waking request |
| Interaction.NoLostWakeup | src/activation/interaction.ts:189-222 | a blocked request with no reply logged is pending with its waiter; once a reply citing it is logged, its remaining code returns that reply, wherever the call stands |
| Interaction.NoCrossedReplies | src/activation/interaction.ts:189-222 | a request returns the one reply in the log that cites its id |
| Interaction.PendingIsUnanswered | src/activation/interaction.ts:160-216 | the pending map is exactly the asks of the log that no reply cites |
| Interaction.PendingAsksAreTheUnanswered | src/activation/interaction.ts:229-233 | the operator's list is exactly the unanswered asks concerning the participant, oldest first |
| Interaction.PendingAsksKeepTheOrderOfAsking | src/activation/interaction.ts:229-233 | asks of one time are listed in the order they were asked |
| Interaction.AttentionFollowsTheLog | src/activation/interaction.ts:241-243 | attention is raised exactly if an unanswered ask is addressed to the participant |
| Interaction.ImpliedStateFollowsTheLog | src/activation/interaction.ts:246-250 | escalated exactly if an escalation is unanswered; nothing exactly if no ask is |
| PeerBridge.StepKeepsInv | src/activation/peer-bridge.ts:69-124 | every step of sends, watchers and answers keeps the invariant and never loses a message |
| PeerBridge.AsksAreConserved | src/activation/peer-bridge.ts:79-102 | in every reachable state each ask is pending or cited by exactly one reply, never both, never neither |
| PeerBridge.RequestsReturnTheirOwnReply | src/activation/interaction.ts:189-222 | over every run of both routes, a blocked request is pending or can be woken with its own reply, and what it returned is its only reply |
| PeerBridge.FirstRouteWins | src/activation/native-host.ts:1047-1060 | whichever route comes first answers with one reply to the asker; the second leaves the transport as it was |
| PeerBridge.AnsweredStaysAnswered | src/activation/interaction.ts:209-216 | an ask once answered is never pending again |
| PeerBridge.DeliveredMeansAReceipt | src/activation/interaction.ts:169-171 | over every run a pending ask is marked delivered exactly if a receipt for it was reported |
| PeerBridge.TickEndsTheWatchExactlyWhen | src/activation/peer-bridge.ts:79-85 | a tick ends its watch exactly if it is late or finds a reply, touches no other watch, and without a reply leaves the transport as it was |
| PeerBridge.PeerDelivery.WatchForReply | src/activation/peer-bridge.ts:71-104 | an ask, and only an ask, is watched, by exactly one scheduled tick however often it is delivered |
| PeerBridge.PeerDelivery.Tick | src/activation/peer-bridge.ts:79-102 | a tick with the ask its closure captured is the protocol's tick: it gives up, polls again, or routes the reply as if it had looked the ask up, and keeps one tick per ask watched |
| PeerBridge.AnswerAsk | src/activation/native-host.ts:1047-1060 | `answer` answers exactly if the ask is pending, with one reply that cites it, and otherwise changes nothing |
| ActivationHost.SelectModel | src/activation/native-host.ts:375-414 | without an override, or with an empty one, dispatch takes the first available model of the configured chain; with one, that model alone; it refuses exactly if none is asked for, as by an empty override, or none is available |
| ActivationHost.ActivationRecord.RunToSettled | src/activation/native-host.ts:724-822 | one turn: the state and result agree with its outcome, and `fallbackUsed` is not yet set |
| ActivationHost.ActivationRecord.RunWithFallback | src/activation/native-host.ts:840-916 | the walk prompts the dispatched session and then one created for each later model, disposes all but the last, and reports the model, session and fallback flag of the index it ends at |
| ActivationHost.WalkEndsOnce | src/activation/native-host.ts:856-912 | where a walk ends is determined by what the world answers |
| ActivationHost.EarlierModelsWereExhausted | src/activation/native-host.ts:394-912 | every model before the last was unavailable at dispatch or failed with a rate limit, a timeout or a transient error, and the walk stopped for one of the listed reasons |
| ActivationHost.OverrideNeverFallsBack | src/activation/native-host.ts:375-377 | an explicit override runs on exactly that model |
| ActivationHost.ConfiguredChainIsWalked | src/activation/native-host.ts:377 | without an override the chain is the one configured, in its order |
| Attempts.NextIsOneMore | src/activation/registry.ts:69-74 | parsing undoes printing: after attempt n comes attempt n + 1, suffix kept |
| Attempts.UnnumberedCountsAsOne | src/activation/registry.ts:70-71 | an id without a number is followed by two, then three |
| Attempts.NumbersStopAtLineBreaks | src/activation/registry.ts:69-74 | an id with a line break before its number counts as unnumbered |
| Attempts.FleetHost.Resume | src/activation/native-host.ts:1283-1316 | a refusal leaves the registry untouched; acceptance advances only the attempt and the state; each record stays under its own id |
| Attempts.FleetHost.Retry | src/activation/native-host.ts:935-988 | up to its first await: a refusal leaves the registry untouched, and without an override the attempt begins |
| Attempts.FleetHost.ModelValidated | src/activation/native-host.ts:959-992 | a refused model or lease leaves the snapshot untouched; otherwise the attempt begins |
| Attempts.FleetHost.SessionCreated | src/activation/native-host.ts:1001-1012 | a created session replaces model and session and nothing else |
| Attempts.IdChangesExactlyWhenBegun | src/activation/native-host.ts:935-1316 | a step changes the attempt id exactly if it is an accepted resume, an accepted retry without override, or a validation that passes with its lease, and then to the next number |
| Attempts.AttemptNumberCountsAttempts | src/activation/native-host.ts:935-1316 | however resumes, retries and a fallback walk interleave at their awaits, the activation id is unchanged, and the k-th attempt begun has the k-th next number |
| Attempts.AttemptIdsNeverCollide | src/activation/registry.ts:69-74 | no attempt id is begun twice, nor the one dispatch began with |
| Attempts.RetryIsHalfDoneExactlyWhen | src/activation/native-host.ts:989-1004 | an unaccepted retry changes the snapshot exactly when an available override passed the lease and its session was not created, and then no resume or retry is accepted |
| Attempts.UnacceptedCallsLeaveAnAttemptExactlyWhen | src/activation/native-host.ts:935-1004 | over all interleavings, a call that ends unaccepted changes nothing in its last step, and leaves a begun attempt behind exactly if it is a retry whose session was not created |
| Attempts.AttemptsStartRightlyExactlyWhen | src/activation/native-host.ts:940-990 | over every run, attempts start only from the states their call may start in, if and only if each validated retry finds the activation still failed |
| Attempts.HeldRunsStartRightly | src/activation/native-host.ts:940-990 | which holds if nothing moves the state while a retry is being validated |
| Attempts.OverlappingRetriesBothBegin | src/activation/native-host.ts:940-990 | otherwise two overlapping retries with overrides both begin an attempt and both are accepted, the second from a state no retry may start in |
| Attempts.SessionIsItsAttemptsExactlyWhen | src/activation/native-host.ts:1001-1012 | over every run, a retry's session is installed under the retry's own attempt if and only if no attempt was begun while it was being created |
| Attempts.LateSessionTakesTheLaterAttempt | src/activation/native-host.ts:1001-1012 | a run that ends with the later attempt's id and the earlier attempt's session and model |
| Attempts.WalkKeepsItsAttemptExactlyWhen | src/activation/native-host.ts:865-904 | over every run, a fallback walk installs its next session under the attempt it walks for if and only if no attempt was begun while it awaited |
| Attempts.RetryInsideTheWalkLosesItsSession | src/activation/native-host.ts:865-904 | a retry accepted while the fallback walk awaits has its attempt given the walk's session and model |
| Jsonl.LineReader.OnData | pi/rpc/jsonl.ts:29-41 | a chunk emits the lines completed by it and keeps the rest |
| Jsonl.LineReader.OnEnd | pi/rpc/jsonl.ts:43-49 | the end emits a non-empty rest |
| Jsonl.LineReader.Read | pi/rpc/jsonl.ts:21-58 | however a text is cut into chunks, the lines emitted are those of the whole text |
| Jsonl.LinesAreTheSplit | pi/rpc/jsonl.ts:25-49 | those lines are the text split on LF, an empty last piece dropped, one trailing CR off each |
| Jsonl.OneCrIsStripped | pi/rpc/jsonl.ts:25-27 | one trailing CR is taken off a line and nothing else is |
| Jsonl.RecordsComeBackExactlyWhenFramable | pi/rpc/jsonl.ts:10-12 | serialised records come back exactly if and only if none contains an LF or ends in a CR, as JSON text never does (section 7 of RFC 8259) |
| Jsonl.StrippedComeBack | pi/rpc/jsonl.ts:10-49 | without inner LFs, each record comes back less one trailing CR |
| RpcClient.RpcClient.SendCommand | pi/rpc/rpc-client.ts:464-493 | a send issues the next id, pending and timed; before `start` it changes nothing |
| RpcClient.RpcClient.HandleOneLine | pi/rpc/rpc-client.ts:443-462 | a response to a pending id settles it with that response, and no listener sees it; any other JSON goes to the listeners and settles nothing; garbage changes nothing |
| RpcClient.RpcClient.TimeOut | pi/rpc/rpc-client.ts:475-478 | a timer rejects its own request |
| RpcClient.RpcClient.StartProcess | pi/rpc/rpc-client.ts:68-100 | a second start changes nothing |
| RpcClient.RpcClient.BeginStop | pi/rpc/rpc-client.ts:113-118 | stopping detaches the reader at once |
| RpcClient.RpcClient.EndStop | pi/rpc/rpc-client.ts:133-134 | and drops the pending requests when the process has exited |
| RpcClient.StepKeepsInv | pi/rpc/rpc-client.ts:443-493 | every step keeps: each id issued is timed or settled, never both, and no settlement repeats |
| RpcClient.RequestsSettleAtMostOnce | pi/rpc/rpc-client.ts:443-493 | over every run a request settles at most once, until then its timer is set, and a resolution carries its own id |
| RpcClient.RequestIdsNeverRepeat | pi/rpc/rpc-client.ts:469 | a send issues an id no request had, across stops and starts |
| RpcClient.EachLineGoesOneWay | pi/rpc/rpc-client.ts:443-462 | JSON lines handled are requests resolved plus events delivered, so no line goes both ways |
| RpcClient.AnswersSettle | pi/rpc/rpc-client.ts:443-462 | while reading, a response settles its request with itself exactly if the request is pending, and is an event exactly if not |
| RpcClient.PendingRequestsGetTheirResponse | pi/rpc/rpc-client.ts:443-493 | over every run, a request whose response is handled while it is pending has that response as its only settlement |
| RpcClient.StopAbandons | pi/rpc/rpc-client.ts:133-134 | `stop` abandons every request still pending, its timer set |
| RpcClient.AbandonedRequestsOnlyTimeOut | pi/rpc/rpc-client.ts:475-478 | over every run after that an abandoned request is never pending again, its only settlement is its timeout, and that comes exactly with its timer |
| PiProjector.PiJsonProjector.OnEvent | src/cli/pi-json-output.ts:93-214 | the closure's in-place updates are the projection on values, event for event |
| PiProjector.ProjectKeepsGrammar | src/cli/pi-json-output.ts:93-214 | projecting any event keeps the stream grammatical and the variables true to the current segment |
| PiProjector.RunsAlternate | src/cli/pi-json-output.ts:60-211 | one `session`, first; `agent_start` exactly after it or after `agent_settled`; `agent_settled` exactly after `agent_end`; nothing else there |
| PiProjector.MessagesStartOncePerSegment | src/cli/pi-json-output.ts:76-147 | in a turn segment a message starts at most once, and no update or end comes before it |
| PiProjector.TurnEndsCarryTheirResults | src/cli/pi-json-output.ts:120-182 | each `turn_end` carries exactly the tool results since the last turn start, in order |
| PiProjector.NothingLiveIsLost | src/cli/pi-json-output.ts:93-214 | without its brackets the stream says exactly what the events outside settled runs say: every turn edge, text, tool step, compaction, retry and completion, once and in order |
| PiProjector.StreamIsTruthful | src/cli/pi-json-output.ts:50-211 | over the whole stream an update carries its message's text, an ended agent at most one message, stopped and not empty, an ended turn one not stopped |
| PiProjector.ToolsHandOver | src/cli/pi-json-output.ts:149-182 | a tool starts with its own arguments, updates with those of its start, and ends with its raw result or for want of one its summary, and its error flag; the end is what the turn will carry |
| PiProjector.EventsFitTheirTurn | src/cli/pi-json-output.ts:120-182 | over every stream an update of a call carries the arguments of the call's latest start in its turn, and an ended message or turn the turn's latest text |
| PiProjector.CallsAreIdentified | src/cli/pi-json-output.ts:151 | a call without an id is named by its sequence number, or its time for want of one |
| PiProjector.TurnsStartAfresh | src/cli/pi-json-output.ts:85-103 | a turn starts with nothing of the turn before it but the model and its provider |
| PiProjector.MessagesOpenAndClose | src/cli/pi-json-output.ts:76-147 | a message's start is held back until something is said of it, and then emitted with the time noted, or if none was with its own; its end closes it |
| PiProjector.EventsHandOver | src/cli/pi-json-output.ts:105-196 | what usage, meta, compaction and retry events leave behind and emit |
| PiProjector.RunsHandOver | src/cli/pi-json-output.ts:198-211 | a completed run's model, provider, usage and output replace those so far, what it lacks stays, and the agent ends with that message or, without text, with none |
| PiProjector.MessagesSayTheirOrigin | src/cli/pi-json-output.ts:50-58 | a message names its provider if known, its model without that prefix, its usage and its time |
| PiProjector.SessionOpens | src/cli/pi-json-output.ts:60-74 | the first event emitted is the session, under its id or the job's, with when and where the run began |
| PiProjector.ModelLosesItsBackend | src/cli/pi-json-output.ts:14-17 | a provider prefix is taken off the model's name, once, and any other name is shown whole |
| FeedMerge.GroupByJob | src/cli/feed.ts:600-606 | each job's events are grouped in arrival order, jobs in order of first appearance |
| FeedMerge.JobsInOrderOfAppearance | src/cli/feed.ts:600-606 | of two jobs the one that appears first in the input has its queue first |
| FeedMerge.SelectNext | src/cli/feed.ts:619-626 | the inner loop finds the first queue with a least head |
| FeedMerge.BestIsFirst | src/cli/feed.ts:619-626 | every queue before the one selected has a strictly later head |
| FeedMerge.MergeQueues | src/cli/feed.ts:617-631 | the loop merges all queues and never reaches its `break` |
| FeedMerge.OrderMergedEvents | src/cli/feed.ts:600-631 | so does the whole function, on any input |
| FeedMerge.FeedIsAPermutation | src/cli/feed.ts:600-631 | the feed is a permutation of its input |
| FeedMerge.FeedKeepsEachJob | src/cli/feed.ts:608-630 | reading one job off the feed gives its own queue back |
| FeedMerge.JobsComeOutInTheirOrder | src/cli/feed.ts:608-616 | each job comes out in ascending sequence if all its events have one, else by ascending time and then sequence; events that come in that order come out as they came |
| FeedMerge.MergeSorts | src/cli/feed.ts:617-631 | merging chronological queues is chronological |
| FeedMerge.FeedIsChronologicalExactlyWhenJobsAre | src/cli/feed.ts:600-639 | the feed is chronological if and only if each job's own order is |
| FeedMerge.FeedIsInTimeExactlyWhenJobsAre | src/cli/feed.ts:600-639 | times ascend over the feed if and only if they ascend in each job's own order |
| FeedMerge.TimedJobsAreChronological | src/cli/feed.ts:609-614 | a job lacking some sequence number is always chronological |
| Chronology.ByStampIsConsistent | src/cli/feed.ts:633-639 | the feed's and the log's order by time, job and sequence is antisymmetric in sign and transitive |
| Chronology.ByStampMeans | src/cli/feed.ts:633-639 | that order is the earlier time, then the job the locale puts first, then the lower number, 0 if none |
| LogCollapse.CollapseDisplayDuplicates | src/cli/log.ts:292-305 | the loop computes the collapse, its map being the last kept row of each key |
| LogCollapse.SameKeyExactlyWhen | src/cli/log.ts:277-290 | two rows share a key exactly if they are of one job and differ only in time, sequence or, for a completed run, its length |
| LogCollapse.CollapseSelects | src/cli/log.ts:292-305 | the output is a subsequence of the input |
| LogCollapse.EveryRowIsAccountedFor | src/cli/log.ts:296-302 | each position is kept, or an earlier kept position has a row of its key within the window before it |
| LogCollapse.CollapseIsIdempotent | src/cli/log.ts:292-305 | de-duplicating twice changes nothing, sorted or not |
| LogCollapse.KeptRowsAreApart | src/cli/log.ts:292-305 | on time-sorted rows any two kept rows of one key are more than the window apart |
| LogCollapse.ShownRowsAreApart | src/cli/log.ts:272-274 | after sort, collapse and limit: at most the limit, and no two shown rows of one key within two seconds |
| LogCollapse.TheLastRowsAreShown | src/cli/log.ts:272-274 | the rows shown are the last of the sorted rows, collapsed unless printed as JSON |
| ChatTail.ChatEventTailer.ReadFileEvents | src/cli/chat.ts:304-319 | one read returns the events of the complete lines past the cursor, and moves the cursor to their end |
| ChatTail.CutAndSplit | src/cli/chat.ts:308-310 | splitting what precedes the last LF gives exactly the lines an LF ends |
| ChatTail.LineYields | src/cli/chat.ts:312-317 | a line yields what its trimmed text parses to, once; a blank or malformed one yields nothing |
| ChatTail.TailIsExactlyOnce | src/cli/chat.ts:304-319 | over any reads of a file whose ended lines only grow, the outputs joined are the parsed complete lines of the last content: none repeated, lost or read half-written |
| BeadGate.ExtractSections | src/activation/bead-gate.ts:118-140 | the loop computes the parse |
| BeadGate.HeadingNames | src/activation/bead-gate.ts:23-65 | the names that head a section are exactly eight |
| BeadGate.SectionsAreTheHeadings | src/activation/bead-gate.ts:118-140 | a section is present exactly if some line heads it |
| BeadGate.LastOfItsNameStands | src/activation/bead-gate.ts:118-140 | of several sections of one name the last stands, as its heading's inline text and the lines up to the next heading, trimmed |
| BeadGate.PlainNameHeads | src/activation/bead-gate.ts:91-97 | a section name alone on a line heads that section |
| BeadGate.AnySpellingHeads | src/activation/bead-gate.ts:91-97 | a section name in any case, its underscore written as a space or a hyphen if need be, behind hashes, between asterisks, and with a colon or without, heads its section |
| BeadGate.AnyGapHeads | src/activation/bead-gate.ts:94 | spaces and hyphens in a row count as one |
| BeadGate.HeadsOnlyWhatItNames | src/activation/bead-gate.ts:91-97 | a line without a colon heads a section only if it is that name, up to case, decoration and separators |
| BeadGate.InlineNameHeads | src/activation/bead-gate.ts:99-106 | a section name, a colon and text on one line head that section, the text being its first body line |
| BeadGate.InlineHeadsExactlyWhen | src/activation/bead-gate.ts:99-106 | a line with a colon and text after it heads a section exactly if what stands before is a letter and then letters, spaces, underscores and hyphens, spells a name, and no CR or Unicode line break stands in the text |
| BeadGate.ParseUndoesPrint | src/activation/bead-gate.ts:91-140 | distinct sections with trimmed, heading-free bodies, printed under bare headings, parse back to the same map |
| BeadGate.ReadyExactlyWhen | src/activation/bead-gate.ts:178-216 | a bead is admitted if and only if it is dispatchable, not draft, has every required section non-empty, and declares scrutiny; otherwise the sections reported missing are exactly those absent or empty |
| StepContract.AdmittedBeadsCompile | src/activation/step-contract.ts:107-150 | an admitted bead compiles to its success and scope as mandate, its scope, and exactly one output, all non-empty |
| StepContract.ContractCarriesTheLists | src/activation/step-contract.ts:107-150 | non-goals, constraints and validation are the lists of their own sections, the last two left off when empty |
| StepContract.ContractCarriesTheTexts | src/activation/step-contract.ts:107-150 | mandate, scope and output are the texts of their own sections; without one of success and scope the other is the mandate |
| StepContract.ContractNamesItsSources | src/activation/step-contract.ts:107-150 | the contract names its bead, specialist, time and revision, its inputs are the bead and then its blockers, and its output has the format asked for |
| StepContract.ItemsAreNonEmpty | src/activation/step-contract.ts:91-97 | a list's items are exactly the non-empty texts of its lines |
| StepContract.MarkersAreDropped | src/activation/step-contract.ts:95 | any bullet or number before an item is dropped, and the item is read as written |
| StepContract.ListsReadBack | src/activation/step-contract.ts:91-97 | items written one a line, each with a bullet, a number or nothing before it, read back as the same list |
| StepContract.BlockersAreNamed | src/activation/step-contract.ts:118-123 | the blockers among the inputs are exactly the dependencies that have an id |
| StepContract.BlockersKeepTheirOrder | src/activation/step-contract.ts:118-123 | blockers stand in the order of the dependencies, each as often as it is one |
| StepContract.LineListsNothingExactlyWhen | src/activation/step-contract.ts:95-96 | a line lists nothing exactly if, trimmed, it is empty, a number, a bullet, or a bullet and a number |
| StepContract.ListIsEmptyExactlyWhen | src/activation/step-contract.ts:91-97 | a list is empty exactly if its section is, or every line is such a bare marker |
| StepContract.MarkerListsNothing | src/activation/step-contract.ts:91-97 | the non-empty body `-` lists nothing |
| Decimal.ParsePrint | src/activation/registry.ts:69-74 | reading a printed attempt number gives it back |
| StableSort.SortIsStable | src/cli/feed.ts:610-614 | sorting keeps the order of rows that compare equal, as JavaScript's does |

## Left out

- The file system, `/proc`, git, SQLite and process spawning: only the lease file's content, the running processes and the atomicity of `link`, `rename` and `unlink` are modelled. Directory creation and staging files are not.
- Hashing and `realpath` of the workspace key, and UUIDs: one lease path and fresh ids are assumed.
- A record torn or corrupted while the protocol runs: `Unreadable` is in the verdicts and decisions, not in a step of `LeaseProtocol`.
- The status projection's reads are of one snapshot of the directory.
- Refusal texts, holder descriptions, forensic events and the note and key fields of a reconciliation record.
- Reading a torn line of the reconciliation log: the log is its list of records.
- JSON parsing and printing: a record is its JSON text, a line is already parsed. A listener that throws, listeners that unsubscribe during delivery, `waitForIdle` and `collectEvents`.
- The UTF-8 decoder of the line reader: chunks are text.
- Numbers beyond 2^53, NaN and fractional times.
- Case mapping beyond ASCII in headings, statuses and tool names.
- `localeCompare`: a parameter with a consistent order.
- The SCRUTINY pattern and the draft marker's lookup: parameters of the gate. `extractPurposeExcerpt`.
- Token usage arithmetic, dates and the default working directory in the projected stream, and the constant or copied fields of compaction and retry events; a tool's arguments and results are opaque text.
- Pairing each `message_end` with its own `message_start` when a turn has several messages: the projector promises only the form proved.
- Model validation, error classification, session creation and the turn itself: oracles of the fallback walk. A `stop` inside one of its awaits, errors of session disposal, and the release of a lease when a run settles.
- A retry whose activation is removed while it awaits, and the event subscription it renews.
- Sends with a message id chosen by the caller: ids are fresh.
- The peer adapter's push and the completion message that expects no reply: delivery is a receipt that comes at some step, or never.
- The SQLite branch of the chat tail, and the feed's and log's reading, filtering and formatting around the parts modelled.
- Host claims the code does not keep, such as that a running writer always holds its lease, and that a failed dispatch leaves no lease behind.
- The authority store, the epic lifecycle, terminal UI, command line, MCP server and performance scripts.
