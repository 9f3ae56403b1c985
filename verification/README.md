# Verification model of the image factory

This project models five parts of the image factory in Dafny and proves properties of them that hold
for every input, every interleaving and every run:

1. **The app-server protocol monitor** of the image gateway. It reads an untrusted stream of messages in
   five phases, binds the thread and the turn, counts images and retries, and finally issues one
   *authority*: the thread and the call whose file may be read. Below it lie the line framer and the
   failure classifier; above it lies the whole invocation from bytes to authority.
2. **Attempt workspaces** of the CLI runtime: recursive deletion under an entry budget and a depth limit,
   the cleanup of a workspace root, and removers that compete for one attempt while openers open it or create it
   again.
3. **Process groups and sealed outputs** of the CLI runtime: the guard that must leave no group behind
   wherever an invocation is dropped, and the batch of outputs that is sealed out of a directory that
   others may change at any moment.
4. **Refresh-token families** of the identity service: the store, the loop over peppers on a shared
   repository, the text of tokens, and derived keys.
5. **Two transactions**: the ledger of capacity risk waivers, and the handoff of the fixed updater.

`dafny verify dfyconfig.toml` verifies the whole project.

## How it is built

Code that changes things in place is modelled by classes and methods with loops (`ProtocolState.State`,
`Invocation`, `Framing.Source`, `WorkspaceCleanup.FileSystem`, `ProcessGuard.Kernel`,
`OutputSealing.Machine`, `RefreshService.Repository`, `WaiverLedger.Store`, `UpdaterHost.Host`). Each method
is tied to a function of its inputs, or says outright what it achieves; the properties are then lemmas about
those functions, or invariants over runs. Three ways of modelling the surroundings recur:

- *The environment answers as it likes.* Failures, timeouts, cancellation and the results of waits are
  arbitrary choices. A ghost keeps what was answered, or that something failed, so that results are
  explained in both directions: what success means, and that nothing else can prevent it.
- *The environment changes as it likes.* Where others may interfere (`OutputSealing`, `UpdaterHost`), the
  world is an arbitrary function of time and every look at it sees one moment. Where they act on a shared
  store (`RefreshService`), an arbitrary batch of operations comes before each call.
- *Values that are not computed here are parameters*: the JSON parser, SHA-256, HMAC, the clock, fresh
  identifiers, and what others do. Where a result needs that a hash has no collisions, it says so.

The protocol is proved in three steps. `ProtocolState` and `Invocation` are the imperative code; they refine
the transition function of `Protocol` and `Driver`. `ProtocolLanguage.Script` describes, without any state, the
message sequences that deserve an authority: what each message must say, given how many of each kind came
before. `AuthorityTheorem.AuthorityExactly` shows that the two agree on all sequences. Erasure of inert messages, the
exact rule that ties an image's start to its completion, and the statements about bytes follow from that.

Competing removers and openers are a state machine over their system calls (`ConcurrentRemoval`), which may
interleave in any order. Openers that are through write entries. The state keeps, as history, the names that
were lost to the undo of an opener, and how many entries were written.
`RemovalWithOpeners` proves, over every run, what holds and exactly when; `RemovalConditions` and
`UndisturbedRemoval` sharpen that for runs without such undos and without openers, and `RemovalExamples` holds
the runs that show what can go wrong.

A proof that would be costly hides the definitions that it does not need.

## Findings

- *The order of image start and completion matters.* One would expect the call named by an image's start to
  be the call that is granted. It need not be: when the completion comes first, a start that follows may name
  any well-formed call. `GrantsReachable.EveryGrantIsIssued` exhibits such runs, and
  `ImagePairing.StartIsComparedOnlyBeforeCompletion` gives the exact condition.
- *The undo of an opener can take away somebody else's directory.* `open_or_create` unlinks the name when it
  fails after creating a directory (`crates/cli-runtime/src/workspace.rs:187-192`), without a lock and whatever
  the name is bound to by then. When no call of an opener fails by itself, the name is then never bound to the
  directory it has made (`RemovalConditions.UndoIsMisplaced`).
  `RemovalExamples.UndoCanFailConfirmedRemover` is such a run: the directory of another opener goes, a remover
  that had confirmed it under its lock fails, and two directories are gone while one remover says that it
  removed one. The rule that only the holder takes the name, and the account of removals, hold exactly in the
  runs in which no undo takes a name (`RemovalWithOpeners.HoldersExactly`, `RemovalsMatchCreations`); the lock
  discipline exactly in those in which none takes it from under a confirmed remover (`DisciplineExactly`).
- *A remover can fail when the attempt is created again* between its first calls
  (`RemovalExamples.OpenerCanFailRemover`), *or written into* once it has been cleared
  (`RemovalExamples.WriteCanFailConfirmedRemover`): the lock of a remover does not keep openers out. With sound
  directories and no undo that takes a name, a remover fails if and only if, at its opening or its confirming
  call, the name is bound to another directory than the one it saw first, or entries stand in its way
  (`RemovalConditions.FailsByRebinding`); `RemovalWithOpeners.FailsExactly` is the condition for all runs.
- *Budgets are not shared.* Each remover has one of its own. Without openers, exactly one remover succeeds and
  none fails if and only if the attempt is private and one budget of 1024 entries clears it
  (`UndisturbedRemoval.ExactlyOneRemoves`). Beyond that, removers delete at most a budget each and fail, until
  what is left fits one budget (`UndisturbedRemoval.PartialRemovals`).
- *The in-memory repository is laxer than the database.* The fake repository in
  `crates/factory-identity/src/service.rs` rotates a live token of a revoked family. The Postgres repository
  refuses it, as the contract in `crates/factory-identity/src/model.rs` intends, but answers that the token is
  invalid rather than reused. The model follows the Postgres repository.
- *A dry run of a waiver can succeed where an apply is refused*, by the check of the policy's limit that is
  deferred to the end of the transaction, and only by that check (`WaiverRuns.DryRunForetells`).
- *Depth.* Clearing an attempt allows directories nested 32 deep; this is `WorkspaceCleanup.LevelsFrom`, and
  an empty directory one level deeper already fails.

## Model

Paths are relative to the repository.

| member | source | states |
|---|---|---|
| Framing.ReadBoundedLine | crates/image-gateway/src/codex_app_server.rs:1898-1935 | for any split of the stream into non-empty buffers, the line, end or error is that of the whole remaining stream split at line feeds under the bound, and exactly that line is consumed |
| Framing.ReadLines | crates/image-gateway/src/codex_app_server.rs:1898-1935 | the sequence of lines and the final error depend on the bytes only, never on how they arrive |
| Framing.RoundTrip | crates/image-gateway/src/codex_app_server.rs:1824-1838 | payloads written one per line are read back unchanged with nothing left if and only if each is non-empty, free of line feeds, does not end in a carriage return and fits the bound with its line feed |
| Framing.LinesAreBounded | crates/image-gateway/src/codex_app_server.rs:1917-1932 | no line that is read is empty, contains a line feed or reaches the bound |
| ByteStreamRuns.RunSource | crates/image-gateway/src/codex_app_server.rs:957-1089 | the outcome of an invocation over a buffered source is that of the byte stream |
| ByteStreamRuns.GrantedStreamIsWhole | crates/image-gateway/src/codex_app_server.rs:1052-1088 | an authority is only issued for a stream that did not break off, ends with a line feed and has a JSON value on every line |
| ByteStreamRuns.WrittenScriptIsGranted | crates/image-gateway/src/codex_app_server.rs:1824-1935 | framable payloads written one per line get an authority exactly when their values form a script for it |
| ProtocolState.State.BindThread | crates/image-gateway/src/codex_app_server.rs:546-558 | binding a thread refines the transition function: it conflicts with another answered or announced thread |
| ProtocolState.State.BindTurn | crates/image-gateway/src/codex_app_server.rs:560-575 | binding a turn refines the transition function: well-formed identifier, no conflict with the announced one |
| ProtocolState.State.RecordFailure | crates/image-gateway/src/codex_app_server.rs:371-392 | only the stored failure changes, as the recording rule says |
| ProtocolState.State.ObserveBoundIdentity | crates/image-gateway/src/codex_app_server.rs:774-798 | verdict of the identity check of items and errors; nothing else changes |
| ProtocolState.State.ObserveTurnIdentity | crates/image-gateway/src/codex_app_server.rs:800-820 | verdict of the identity check of turn events; nothing else changes |
| ProtocolState.State.ObserveImageCompleted | crates/image-gateway/src/codex_app_server.rs:662-709 | the whole monitor after an image completion and its verdict, as the transition function says |
| ProtocolState.State.ObserveTurnCompleted | crates/image-gateway/src/codex_app_server.rs:711-736 | the whole monitor after the end of the turn and its verdict |
| ProtocolState.State.ObserveError | crates/image-gateway/src/codex_app_server.rs:737-768 | the whole monitor after an error notification: counted as a retry, or recorded as a failure |
| ProtocolState.State.ObserveNotification | crates/image-gateway/src/codex_app_server.rs:577-772 | one notification, dispatched by its method, takes the monitor exactly where the transition function does |
| ProtocolState.State.FinalAuthority | crates/image-gateway/src/codex_app_server.rs:822-856 | the final verdict on the monitor |
| Invocation.WaitForResponse | crates/image-gateway/src/codex_app_server.rs:1151-1178 | a loop over messages that loses nothing of the run: what remains to be read from the returned state decides as the run from the old state did |
| Invocation.StreamEvents | crates/image-gateway/src/codex_app_server.rs:1052-1061 | the event loop, from any state, leads to the state after the turn from which the run goes on, or to its error |
| Invocation.DrainAfterTurn | crates/image-gateway/src/codex_app_server.rs:1062-1088 | after the turn the rest of the stream decides the run together with the final verdict |
| Invocation.RunCodexAppServer | crates/image-gateway/src/codex_app_server.rs:957-1089 | the imperative invocation computes the run of the transition function over the same frames |
| Driver.RunSplit | crates/image-gateway/src/codex_app_server.rs:957-1089 | a run over two stretches of frames is the run over the second from where the first arrived |
| AuthorityTheorem.AuthorityExactly | crates/image-gateway/src/codex_app_server.rs:546-1089 | over all message sequences, the authority for a thread and a call is issued if and only if the sequence is a script that grants them: every message admissible where it stands, three answered requests, both identities announced and answered alike, one image start, one completed image saved at exactly the expected path, a completed turn, all within the capture budget |
| AuthorityTheorem.Accepted | crates/image-gateway/src/codex_app_server.rs:957-1089 | completeness from any point of a script |
| AuthorityTheorem.Sound | crates/image-gateway/src/codex_app_server.rs:957-1089 | soundness from any point of a run |
| AuthorityTheorem.StaysOnCourse | crates/image-gateway/src/codex_app_server.rs:546-856 | identities and counts never return: a run that grants has agreed with the grant at every step |
| ProtocolSteps.JudgeCompletion | crates/image-gateway/src/codex_app_server.rs:662-709 | an image completion is accepted without spoiling the run exactly when it belongs to the granted thread and turn, is completed, has a result and is saved at the granted path |
| ProtocolSteps.JudgeThread | crates/image-gateway/src/codex_app_server.rs:595-609 | a thread announcement is accepted exactly when it names the granted thread |
| ProtocolSteps.JudgeTurn | crates/image-gateway/src/codex_app_server.rs:610-624 | a turn announcement is accepted exactly when it names the granted turn, and the granted thread once that is known |
| ProtocolSteps.JudgeEnd | crates/image-gateway/src/codex_app_server.rs:711-736 | the end of the turn is accepted exactly when both identities agree and the status is completed |
| ProtocolSteps.JudgeError | crates/image-gateway/src/codex_app_server.rs:737-768 | an error notification leaves a run able to succeed exactly when it is a retry notice that permits recovery |
| TraceErasure.ErasurePreservesAuthority | crates/image-gateway/src/codex_app_server.rs:577-772 | deleting any selection of retry notices, informational items, unknown notifications and messages after the turn from a successful run gives a successful run with the same authority |
| TraceErasure.RetriesAreCounted | crates/image-gateway/src/codex_app_server.rs:737-768 | in a live run the retry counter equals the number of error notifications, all of them accepted: the capture budget keeps the counter from saturating |
| RetryNotices.RetryNoticeMeaning | crates/image-gateway/src/codex_app_server.rs:737-768 | with the gateway's own summary, an error notification is absorbed if and only if it announces a retry, has exactly one error info and that of a recoverable kind, has only transient numbers, HTTP statuses, codes and types, no permanent message, and no policy, authentication or permanent signal in any text that is searched |
| RetryNotices.GrantedErrorsAreHarmless | crates/image-gateway/src/codex_app_server.rs:957-1089 | every error notification before the end of a run of the gateway that issues an authority is such a harmless one |
| ByteStreamRuns.FramesAreNonEmpty | crates/image-gateway/src/codex_app_server.rs:1888-1935 | what the framer yields meets the premise of the count of retries |
| ImagePairing.StartIsComparedOnlyBeforeCompletion | crates/image-gateway/src/codex_app_server.rs:647-675 | in a script, the image's start may be replaced by any other start of the same thread and turn if and only if it comes after the completion or names the granted call |
| GrantsReachable.EveryGrantIsIssued | crates/image-gateway/src/codex_app_server.rs:957-1089 | every well-formed grant is issued in both orders of start and completion; in the second order for any call the start names |
| PolicyAbsorption.PolicyIsAbsorbing | crates/image-gateway/src/codex_app_server.rs:371-392 | once a policy rejection is stored in a live run, no continuation of any length replaces it, counts another retry, or ends in success, a failed turn or a failed image tool |
| PolicyAbsorption.PolicyIsReported | crates/image-gateway/src/codex_app_server.rs:822-856 | a stream that then ends after the turn with agreed identities reports the policy rejection |
| PolicyAbsorption.AliveFailureIsImageFailure | crates/image-gateway/src/codex_app_server.rs:577-772 | as long as a run is alive, a stored failure means that the image has failed |
| FailureRecording.ClosedForm | crates/image-gateway/src/codex_app_server.rs:371-392 | recording any list of failures yields the first policy rejection unchanged, or else the first failure with its empty structured pair filled from the first later structured terminal event |
| HttpStatus.ObservedHttpStatuses | crates/image-gateway/src/codex_app_server.rs:1505-1542 | the result is strictly increasing and contains a status exactly when the text names it: bounded "http", whitespace, exactly three digits from 100 to 599, bounded |
| HttpStatus.StatusAfterMarker | crates/image-gateway/src/codex_app_server.rs:1516-1537 | one marker is followed by a status exactly when it is found, and there is only one reading |
| StreamClass.SignalsMeaning | crates/image-gateway/src/codex_app_server.rs:1544-1593 | a policy signal is detected exactly when one of its wordings occurs in the text |
| StreamClass.ClassifyStreamBytes | crates/image-gateway/src/codex_app_server.rs:1474-1503 | the imperative classification equals the function that the retry theorem is about |
| AuthenticationRetry.RetryIsConservative | crates/image-gateway/src/codex_app_server.rs:257-288 | for every captured text, the verdict is retryable if and only if nothing else in the report speaks against it and the text has no API code, no status but 401 and no signal but rejection and authentication |
| AuthenticationRetry.RetriedTextMeaning | crates/image-gateway/src/codex_app_server.rs:1474-1610 | behind a retryable verdict: no API code, every status the text names is 401, every wording found is one of rejection or authentication |
| Text.SplitJoin | crates/image-gateway/src/codex_app_server.rs:257-288 | splitting undoes joining for parts without the separator, which the verdict relies on |
| Uuids.ParsePrint | crates/image-gateway/src/codex_app_server.rs:689-696 | every identifier is recovered from its printed form |
| Paths.ParseRender | crates/image-gateway/src/codex_app_server.rs:685-698 | every canonical path is recovered from its text |
| WorkspaceCleanup.CleanupBudget.Consume | crates/cli-runtime/src/workspace.rs:334-340 | one entry is taken off the budget, or the budget is spent and stays so |
| WorkspaceCleanup.FileSystem.DirectoryEntries | crates/cli-runtime/src/workspace.rs:635-653 | exactly the names in the directory, without the dot entries, if there are no more than the limit |
| WorkspaceCleanup.ClearEntry | crates/cli-runtime/src/workspace.rs:555-580 | one entry goes, with everything below, exactly when it may be deleted within the budget; the rest of the directory stays as it was |
| WorkspaceCleanup.ClearDirectory | crates/cli-runtime/src/workspace.rs:544-585 | succeeds exactly when everything below may be deleted, nests within the depth and fits the budget; then the directory is empty and the budget is down by exactly the number of entries; otherwise the error is that of the first guard that fails, in the order of the traversal; in any case nothing outside the tree changes and no more entries are gone than the budget shows |
| WorkspaceCleanup.NoFault | crates/cli-runtime/src/workspace.rs:544-585 | no guard fails in the traversal exactly when everything below may be deleted within the depth and the budget |
| WorkspaceCleanup.RefusedAt | crates/cli-runtime/src/workspace.rs:557-580 | the traversal is only refused by a system call when some directory that has entries cannot be searched or changed; every other failure is one of integrity |
| FileTrees.ClearableMeaning | crates/cli-runtime/src/workspace.rs:544-585 | a tree may be deleted if and only if on every path every entry belongs to the user and every directory is on the device, can be listed and emptied, and lies within the depth |
| FileTrees.TreeUntouched | crates/cli-runtime/src/workspace.rs:544-585 | a change elsewhere leaves the size and the shape of a tree as they are |
| RootCleanup.RemoveAttempt | crates/cli-runtime/src/workspace.rs:473-498 | an attempt goes exactly when it is a private directory of the user on the root's device that may be cleared within the budget; otherwise the error is that of the first guard that fails; only its name and its tree are affected |
| RootCleanup.RemoveRecoverableAttempt | crates/cli-runtime/src/workspace.rs:500-542 | while nobody else acts: answers that there was nothing exactly when the name is missing or another remover holds the lock of a private attempt, that it removed the attempt exactly when nobody does and it could be removed within the budget, and otherwise fails by the first guard that does, leaving the name |
| RootCleanup.CollectAttempts | crates/cli-runtime/src/workspace.rs:451-463 | the names of all attempts, unless one name is foreign or there are more than the budget allows |
| RootCleanup.CleanupAttempts | crates/cli-runtime/src/workspace.rs:446-471 | succeeds exactly when all names are expected and attempts plus everything in them fit 1024 entries and may be removed; then it returns their number and only the lock is left; a foreign name leaves everything unchanged; no more than 1024 entries ever go |
| ConcurrentRemoval.AfterKeepsInv | crates/cli-runtime/src/workspace.rs:178-247 | every interleaving of the calls of removers and openers, and of what openers write, keeps this: locks are held by the removers that took them, a remover past its second look finds the name bound to what it holds unless that name was lost, names are lost only after an undo, and all directories but the bound one are empty |
| RemovalWithOpeners.DisciplineExactly | crates/cli-runtime/src/workspace.rs:527-542 | over every run, each remover past its second look finds the name bound to what it holds if and only if no undo of an opener takes the name from under one |
| RemovalWithOpeners.OnlyHolderRemoves | crates/cli-runtime/src/workspace.rs:521-542 | entries go only from the bound directory and by the holder of its lock, and come only into it by openers that hold it; the name goes only from an empty directory, and by the holder of its lock if and only if it is not lost |
| RemovalWithOpeners.HoldersExactly | crates/cli-runtime/src/workspace.rs:186-193 | over every run, the name is only ever taken by the holder of the lock on what it was bound to if and only if no undo takes it |
| RemovalWithOpeners.RemovalsMatchCreations | crates/cli-runtime/src/workspace.rs:178-193 | over every run of removers and openers, the directories that are gone are as many as the removers that say they removed one and the undos that took a name, and are empty; so removals and gone directories agree if and only if no undo took a name |
| RemovalWithOpeners.FailsExactly | crates/cli-runtime/src/workspace.rs:500-542 | over every run, a remover that has answered has failed if and only if one of its calls met: no private directory at first; a rebound name at its opening or confirming call; more than its budget can clear, as it listed the directory or came upon what was written since; a directory that had lost its name after that; or an entry written since, at the end |
| RemovalWithOpeners.ConfirmedSucceeds | crates/cli-runtime/src/workspace.rs:527-542 | a remover that has confirmed a directory it can clear goes on to remove it, whatever others do, if and only if none of its calls then meets what it came upon, a lost name or a new entry; in particular if the name is never lost and nothing is written |
| RemovalConditions.FailsByRebinding | crates/cli-runtime/src/workspace.rs:517-541 | over every run with sound directories and no undo that takes a name, a remover fails if and only if at its opening or confirming call the name is bound to another directory than the one it saw first, or entries stand in its way, which they never do when nothing is written and each directory fits a budget |
| RemovalConditions.UndoIsMisplaced | crates/cli-runtime/src/workspace.rs:216-236 | over every run in which no call of an opener fails by itself, an opener about to undo never finds the name bound to what it made |
| RemovalExamples.OpenerCanFailRemover | crates/cli-runtime/src/workspace.rs:517-520 | a concrete run in which a directory made in between makes a remover fail |
| RemovalExamples.UndoCanFailConfirmedRemover | crates/cli-runtime/src/workspace.rs:190-192 | a concrete run without faults in which an undo takes the name from under a confirmed remover: it fails, and two directories are gone with one removal |
| RemovalExamples.WriteCanFailConfirmedRemover | crates/cli-runtime/src/workspace.rs:534-541 | a concrete run without faults in which an entry that is written after clearing makes a confirmed remover fail, and the attempt stays |
| RemovalProgress.EverybodyAnswers | crates/cli-runtime/src/workspace.rs:521-525 | nobody ever waits: any run of calls by those who are not through, in any order, ends after nine calls a remover, seven an opener, one for every entry and three for every entry that is written |
| RemovalProgress.CanComplete | crates/cli-runtime/src/workspace.rs:500-542 | from every state that keeps the invariant, with any history, everybody can be brought to an end |
| UndisturbedRemoval.ExactlyOneRemoves | crates/cli-runtime/src/workspace.rs:500-559 | without openers, every complete interleaving of one or more removers ends with exactly one removal and all others finding the attempt absent, if and only if the attempt is private and everything in it can be deleted within the budget of 1024; then the name is gone, the directory empty and all locks free, and in every other case some remover fails |
| UndisturbedRemoval.PartialRemovals | crates/cli-runtime/src/workspace.rs:544-559 | for any attempt: removers delete at most a budget each, what cannot be deleted stays, and the name goes only with the last entry, by exactly one of them; so an attempt of many budgets goes only after enough removers have failed |
| UndisturbedRemoval.AttemptMeaning | crates/cli-runtime/src/workspace.rs:505-513 | the attempt that a tree in the file system is: its entries are those of the tree, and it is private and clearable within a budget exactly when a single removal of the tree succeeds |
| UndisturbedRemoval.ManyRemoveLikeOne | crates/cli-runtime/src/workspace.rs:500-542 | any number of removers of a tree end with exactly one removal under the very condition under which a single one removes it |
| ProcessGuard.ChildProcessGuard.Drop | crates/cli-runtime/src/process.rs:189-208 | an armed guard ends with a kill of the group and its leader; a disarmed one does nothing |
| ProcessGuard.TerminateRemainingGroup | crates/cli-runtime/src/process.rs:499-522 | false means that the first probe found the group absent and nothing was sent; true means that it was present, was killed, and was reported absent last; an error means that a probe failed, the kill was refused or the grace period is over |
| ProcessGuard.KillAndReap | crates/cli-runtime/src/process.rs:417-428 | group and leader are killed, in this order, before the leader is waited for; without a complaint the group's kill was delivered and the leader was reaped |
| ProcessGuard.Cleanup | crates/cli-runtime/src/process.rs:408-468 | however it ends, the group is told to terminate first, and was reported absent or is killed last; without a complaint every signal was delivered, the leader was reaped and the group was reported absent |
| ProcessGuard.FinishExited | crates/cli-runtime/src/process.rs:311-346 | after the leader's exit the guard is disarmed only when the group was reported absent; the result is what the probes call for |
| ProcessGuard.Execute | crates/cli-runtime/src/process.rs:237-363 | at every wait the guard is armed or the group was reported absent before; in the end the group was reported absent or killed; the invocation succeeds exactly when nothing at all went wrong, and then the runtime never signalled the group and every probe found it empty; otherwise the error is the one that the first thing to go wrong calls for; it is cancelled exactly when it was dropped at a wait |
| ProcessGuard.NobodyEscapesAtAWait | crates/cli-runtime/src/process.rs:189-208 | wherever the invocation is dropped, a group that still has a member free of the kill signal is still guarded |
| ProcessGuard.NobodyEscapesAtTheEnd | crates/cli-runtime/src/process.rs:189-208 | when the invocation is over, a member can only have escaped if the kernel refused the last kill |
| CapturedStream.CaptureStream | crates/cli-runtime/src/process.rs:389-406 | the longest prefix within 64 KiB of everything read, marked as truncated exactly when there was more, for any chunks |
| ByteOrder.SortForgetsOrder | crates/cli-runtime/src/output.rs:528-533 | the order in which distinct names are listed does not matter |
| ByteOrder.SortAscends | crates/cli-runtime/src/output.rs:528-533 | sorted distinct names are in strict byte order |
| OutputSealing.Machine.SortedEntries | crates/cli-runtime/src/output.rs:513-535 | the sorted names of one moment, within the limit |
| OutputSealing.ValidateRegularOutput | crates/cli-runtime/src/output.rs:581-592 | accepted exactly when it is a regular file with one link and a size from one byte to the limit; otherwise the error says which |
| OutputSealing.Validate | crates/cli-runtime/src/output.rs:388-408 | the directory was private, the names were listed, each name led to its file and each file had its identity, each at some moment of the call; undisturbed, it succeeds exactly when the directory is like that |
| OutputSealing.VerifyFiles | crates/cli-runtime/src/output.rs:199-238 | every entry of the snapshot is a regular file with its identity as of one moment, and after all of these moments all entries were current; undisturbed, it succeeds exactly when all outputs are acceptable and no more than allowed |
| OutputSealing.StreamFile | crates/cli-runtime/src/output.rs:346-374 | chunks of at most 64 KiB whose concatenation has the size of the identity, within the limit, from a file that had the identity before and afterwards; they are its content unless that changed in between; undisturbed, it succeeds exactly when the size is right |
| OutputSealing.ReadIsContent | crates/cli-runtime/src/output.rs:369-374 | if equal identity means equal content, bytes read between two sights of one identity are the content at every moment in between |
| OutputSealing.SealToAsyncSink | crates/cli-runtime/src/output.rs:338-384 | the digest is that of exactly the bytes delivered, and the whole snapshot was current before streaming began and again after it ended |
| OutputSealing.SealBatch | crates/cli-runtime/src/output.rs:199-384 | under any interference, if all seals succeed: names in strict byte order, sizes of the snapshot, and, if equal identity means equal content, the bytes that all files had together at the moment the snapshot was returned; undisturbed, they succeed exactly when the directory is as it should be |
| RefreshStore.OneLiveToken | crates/factory-identity/src/model.rs:305-327 | over every run of logins, refreshes, logouts and changes to users, a family has at most one unconsumed token |
| RefreshStore.OneSuccess | crates/factory-identity/src/model.rs:305-327 | over every run, at most one of all refreshes that present a token succeeds |
| RefreshStore.ReplayEndsFamily | crates/image-gateway/src/identity/postgres.rs:283-301 | a token that was refreshed and is presented again, after anything else, is found reused, and from then on no access and no refresh with any token of the family works |
| RefreshStore.LogOutEndsFamily | crates/image-gateway/src/identity/postgres.rs:421-468 | a matching logout by a refresh token has the same effect, for good |
| RefreshStore.AccessExactly | crates/image-gateway/src/identity/postgres.rs:470-513 | after a login and any other operations, access in its session is granted exactly to the user and authorization version of that login, while the user is enabled at that version, the session is not revoked, and neither its idle time nor its time since the login is over |
| RefreshStore.ReplayEndsAccess | crates/image-gateway/src/identity/postgres.rs:470-513 | after a token that was refreshed is presented again, access in its session is refused to every user, version and time, whatever follows |
| RefreshStore.RotationMeaning | crates/image-gateway/src/identity/postgres.rs:226-391 | a rotation succeeds exactly for a matching live token in a usable family of the client, makes the replacement the family's only live token, never extends the family beyond its absolute end, changes no other row, and changes nothing when the credential does not match |
| RefreshStore.ApplyGrows | crates/image-gateway/src/identity/postgres.rs:812-835 | no operation removes a token or a family, changes a lineage, or takes back a consumption or a revocation |
| RefreshService.RotateInTurn | crates/factory-identity/src/service.rs:98-136 | whatever others do between the calls, wherever they store the presented token meanwhile or whether it stays unknown, the tries amount to at most one rotation, with the digest of the stored pepper version |
| RefreshService.Refresh | crates/factory-identity/src/service.rs:98-136 | a request amounts to one rotation with the digest of the stored pepper version; to none, and an error, when the token stays unknown, its version has no pepper or the database fails first; a foreign client or an unreadable token touches nothing |
| RefreshService.LogOutRefresh | crates/factory-identity/src/service.rs:164-187 | a logout amounts to one revocation with the digest of the stored pepper version, or to none when the token stays unknown, its version has no pepper or the database fails first; an unreadable token touches nothing and succeeds |
| RefreshService.LogsOutMeaning | crates/factory-identity/src/service.rs:164-187 | after a logout that succeeds with a matching token, the family is revoked, whatever others did since |
| RefreshService.StoredSomewhere | crates/factory-identity/src/crypto.rs:291-304 | distinct versions give every known token one place among the digests or past their end, and an unknown one the end |
| Base64Url.DecodeEncode | crates/factory-identity/src/crypto.rs:256-271 | decoding undoes encoding for all byte sequences |
| Base64Url.EncodeDecode | crates/factory-identity/src/crypto.rs:284-287 | only the encoding of some bytes decodes to them |
| RefreshTokens.NewKeyring | crates/factory-identity/src/crypto.rs:231-254 | a keyring exists exactly for distinct non-zero versions with peppers of 32 bytes that include the current one, and holds exactly those |
| RefreshTokens.ParseTokenText | crates/factory-identity/src/crypto.rs:256-290 | every token is read back as the id and the secret it was made of |
| RefreshTokens.SecretIsCanonical | crates/factory-identity/src/crypto.rs:273-290 | a token that parses ends in the one spelling of its secret |
| RefreshTokens.ParseAndDigest | crates/factory-identity/src/crypto.rs:273-304 | succeeds exactly for well-formed tokens; one digest for every pepper, distinct versions, the current first and the others in ascending order |
| RefreshTokens.PresentIssued | crates/factory-identity/src/crypto.rs:256-304 | presenting an issued token gives the same id and, first, the stored hash and version |
| KeyDerivation.MessageIsInjective | crates/factory-identity/src/crypto.rs:306-321 | different domains or values never share a message |
| KeyDerivation.DerivationIsNoDigest | crates/factory-identity/src/crypto.rs:306-329 | no derivation has the message of a refresh digest |
| KeyDerivation.DeriveCurrent | crates/factory-identity/src/crypto.rs:306-321 | accepted exactly within the length limits; the MAC of exactly that message under the current pepper |
| WaiverManifests.AreReviewed | crates/image-gateway/src/capacity_risk_waivers.rs:101-109 | accepts exactly well-formed originals with pairwise distinct allocations and submissions |
| WaiverManifests.ParseManifest | crates/image-gateway/src/capacity_risk_waivers.rs:75-113 | the reviewed manifest or the error, for any bytes |
| WaiverLedger.CheckEach | crates/image-gateway/src/capacity_risk_waivers.rs:212-262 | the loop accepts exactly the admissible originals, counts those that were waived in the ledger before, and grants the rest |
| WaiverLedger.CountGranted | crates/image-gateway/src/capacity_risk_waivers.rs:263-272 | granting raises the number of held waivers by exactly the originals that had none, which is what a dry run adds |
| WaiverLedger.GrantAdds | crates/image-gateway/src/capacity_risk_waivers.rs:246-262 | granting adds exactly the originals without a waiver and changes no waiver |
| WaiverLedger.Store.ReviewOrApply | crates/image-gateway/src/capacity_risk_waivers.rs:117-282 | ledger and answer of one command; the ledger changes only when an apply commits |
| WaiverRuns.AuthorizationIsOneManifest | crates/image-gateway/src/capacity_risk_waivers.rs:201-230 | over every run from an empty ledger, the waivers of an authorization are exactly the originals of one manifest |
| WaiverRuns.WaiversStay | crates/image-gateway/migrations/0166_executor_capacity_risk_waivers.sql:28-31 | over every run, a waiver stays as it was granted |
| WaiverRuns.AlreadyAllOrNone | crates/image-gateway/src/capacity_risk_waivers.rs:212-227 | a command that succeeds has found all of its originals waived before, or none |
| WaiverRuns.ReapplyChangesNothing | crates/image-gateway/src/capacity_risk_waivers.rs:115-122 | applying the same bytes again, after any other commands, changes nothing and reports all as applied; it succeeds exactly when the manifest is in time and its originals and policy are found |
| WaiverRuns.DryRunForetells | crates/image-gateway/src/capacity_risk_waivers.rs:263-282 | a dry run reports the counts that an apply in the same state reports; the apply is refused only when new waivers leave the effective count outside the policy's limit |
| UpdaterHost.Host.CandidateIdleSnapshot | crates/platform-updater/src/candidate_bootstrap.rs:19-101 | Apply is disabled in the updater's own configuration; each part of the snapshot was seen at some moment, and so were idle commands, no recovery, clean migrations and Apply disabled in both services; it succeeds if nothing fails, that configuration is so and production is idle throughout |
| UpdaterHost.Host.UpdaterIdentity | crates/platform-updater/src/candidate_bootstrap.rs:280-324 | the process was running, executed the fixed path with the pinned bytes, and the fixed file had them; it succeeds if nothing fails and this is so throughout |
| UpdaterHost.Host.VerifyRunningUpdater | crates/platform-updater/src/candidate_bootstrap.rs:326-352 | one invocation was seen running the pinned bytes at two moments, and its messages were clean afterwards; it succeeds if nothing fails and the updater keeps running them |
| Handoff.Prepare | crates/platform-updater/src/candidate_bootstrap.rs:172-200 | production was seen idle and the same before and after, in between the fixed updater was the one in the current release, the staged release has an updater, and the bootstrap is that candidate; it succeeds if neither verifying the source, staging, the schema contract nor anything else fails and all this is so throughout |
| Handoff.TryCandidate | crates/platform-updater/src/candidate_bootstrap.rs:215-237 | success means that the candidate, and nothing else, was put in place under the fence and the maintenance lock alone and that the fence was released; it is reached if nothing fails and the candidate keeps running beside an unchanged production |
| Handoff.RollBack | crates/platform-updater/src/candidate_bootstrap.rs:238-262 | the error of the handoff is reported only when the previous updater is back in place, and then it is if nothing fails; otherwise the error is the rollback's own |
| Handoff.BootstrapPinnedSource | crates/platform-updater/src/candidate_bootstrap.rs:120-277 | success: only the candidate ran, under the fence and the maintenance lock alone, is in place with production unchanged, and the fence is released; handoff error: no helper ran, or the previous updater is back in place with production unchanged; any other error: no helper ran, or the rollback failed; it succeeds if nothing fails, all is ready, and the candidate keeps running beside an unchanged production |
| Handoff.BytesInPlace | crates/platform-updater/src/candidate_bootstrap.rs:120-277 | without digest collisions, what runs after success is the binary that executed the bootstrap, and after a rollback what was fixed before |

## Left out

- The texts of protocol errors are kept, but not the diagnostics that record the phase, the reason and the class of the last message, the class and digest fields of failures, tracing, and the files diagnostics are written to.
- Spawning, sockets, scheduling and signals themselves; sending requests, the deadline of an invocation and the exit of the app server are not part of the protocol model, so neither are the errors they raise.
- Reading the output file once an authority is issued, and refining a failed image tool by the captured text.
- Invocation.RunCodexAppServer: the deadline of an invocation and failed writes of requests, which may also end it, are not modelled.
- The protocol results hold for every summarizer of failures; `RetryNotices` is about the gateway's own one, `Diagnostics.Summarize`, which keeps the fields that decisions depend on.
- ASCII case folding is modelled; other characters of captured text are passed through unchanged, and JSON numbers are integers.
- The model assumes one file system without other users at work for recursive deletion and root cleanup; input/output errors of listing, synchronizing and looking up are not part of them. Concurrent removal has its own model, in which the entries of an attempt are two counts, of those that can be deleted and of those that cannot; they are deleted one after another, and clearing may stop early when it cannot succeed. Openers add entries, all of which can be deleted, to the directory that is bound, and a remover comes upon them or not; nobody but removers takes entries away. Input/output errors of removers are not part of it; openers may fail at every call, with one error for each.
- A directory is deleted by an unprivileged user: permission bits decide what can be listed and changed. Access control lists, mounts over directories and sticky bits are not modelled.
- The names and keys of attempts, the creation and the lock file of the root, exclusive attempt directories and dropping them.
- Identifiers are never reused: a group reported absent stays absent, and a file held open keeps its device and inode.
- A child whose identity is unavailable is killed and reaped before any group is known; it is outside the guard.
- The single-file variants of sealing, which use the same loop, and the check that an output directory is empty before a run. The listing of a directory is taken at one moment.
- Passwords, throttling, access-token signing and claims, users and memberships. An access token counts through its session, user and authorization version.
- The uniqueness of secret hashes and the time constraints of the identity tables: the database may refuse any operation, which covers them.
- The order in which the waiver command locks rows, its timeouts, and the uniqueness of submissions and executions, which follows from the tables they refer to. The state of executions, intents and reconciliations is one flag.
- WaiverRuns.AuthorizationIsOneManifest: assumes that manifests have no digest collisions.
- Selecting and showing service units, verifying and staging a release, and writing the receipt; each of them may fail, and then the bootstrap does.
- Service tiers, migrations, command specifications and configuration: simple checks over small domains.
