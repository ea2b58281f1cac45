# ClaudeDock: verified models

ClaudeDock is a desktop application that runs Claude Code conversations and owns a local gateway for a
ChatGPT account. This project models in Dafny the parts of it that must hold up against crashes, late
callbacks and unreliable networks, and proves what those parts promise.

| file | what it models |
|---|---|
| `AuthProtocol.dfy`, `AuthTransaction.dfy` | replacing the OAuth account: phase markers on directories, with a crash after any file step |
| `ModelReconciliation.dfy` | the cache of model lists, fenced by generations and exact process ownership |
| `StateStore.dfy` | the state file and the recovery of a process record from its temporary file |
| `ProcessOwnership.dfy` | the owned child, the stored process record, and the processes of the machine |
| `ConfigTransaction.dfy` | the retrying all-or-nothing switch of the configuration |
| `QuotaFence.dfy` | reading the account's quota only while nothing changes the account |
| `RequestRunner.dfy`, `EventStream.dfy` | one chat request: redirects, retries, the compatibility ladder, the incremental stream reader |
| `ConversationLifecycle.dfy` | deleting a conversation against resumes and running sessions |
| `ArgumentQuoting.dfy`, `ChunkedCoding.dfy` | native-argument quoting against its two parsers, and the chunked coding |
| `ChatHistory.dfy` | saving, deleting and sweeping with attachments on disk |
| `StartupConnection.dfy`, `QuitController.dfy` | the startup connection and leaving the application |
| `GatewayState.dfy`, `Common.dfy` | shared data types and the supply of random names |

## How the models are built

What the source updates in place is a class with the same fields, and its methods are proved against
functions on values or against a ghost log; the theorems over whole runs are lemmas about those functions
and logs. An asynchronous function is one method per segment between two awaits. Either a run is any
sequence of segments that respects which continuation follows which, or a method takes what others do during
its awaits as a parameter. Faults, clocks, networks and answers of the user are parameters too.

The account protocol has three boundaries. A fault is a crash followed by recovery. Making a directory with
its first marker is one step, and so is removing a directory; two lemmas show what goes wrong otherwise.
Random names do not collide. Other programs write candidate files only while no transaction is open or a
login is active.

A kill checks id and birth of a process in one step, and so does an inspection. Only processes that the
gateway spawned run the managed executable with the managed configuration. The operations of the gateway that
load, spawn and save run one at a time; exits and their callbacks come at any time.

## Where the code does less than it might seem

- A failing backup rename loses the configuration: `LostExactlyWithoutBackup` gives the exact condition.
- A failing rename during a load of the state leaves a record that a torn write then forgets: `TornWritesForget`.
- The lifecycle coordinator treats an empty conversation identifier like a missing one when it checks a launch,
  but not when a deletion supersedes resumes: `EmptyIdentifierEscapes`. The application never passes one, for the
  launch handler rejects every identifier that is not a session identifier (`src/main/ipc/claude-launch.ts:824`),
  and so does a run here.
- An inspection in doubt keeps the record, but if the port is free a new child is started nevertheless, and its
  record replaces that of a process still alive that does not listen: `DoubtLosesTheRecord`. A live record is lost
  in no other way: `RecordsOutliveTheirProcess`.
- A setup can commit a login that was made in another environment than the one that got ready:
  `LoginOfAnotherEnvironment` gives the exact condition, `SetupWithLoginOfAnotherEnvironment` the attempts.
- Once a response was accepted and then cut, a 400 or 422 no longer descends the compatibility ladder: `Run` says
  so as an if-and-only-if, and `RequestThatLeavesTheLadder` is such a request.
- Typographic quotes end a PowerShell literal, which the quoting does not double: `NativeJsonArrives` holds
  for exactly the texts without them.
- A history file beyond the limit of fifty conversations loses attachments at the startup sweep:
  `LongFilesForget` says which.
- The exit callback of a child does not clear a ready record: `ReadyRecordsOutliveTheExit`.

## Model

| member | source | states |
|---|---|---|
| `AuthProtocol.StepKeepsAccount` | `src/main/claude/managed-chatgpt-auth-transaction.ts:133-243` | every file step of the protocol except the commit and a login write keeps the one account the disk stands for, and keeps at most one directory uncommitted, whichever phase it happens in |
| `AuthProtocol.CommitSwitches` | `src/main/claude/managed-chatgpt-auth-transaction.ts:212-218` | renaming active to committed leaves no uncommitted directory, so the visible files become the account |
| `AuthProtocol.RunExtends` | `src/main/claude/managed-chatgpt-auth-transaction.ts:133-243` | a legal step after a run gives a run, so recovery after a crash continues the run that was cut |
| `AuthProtocol.EveryRunIsTruthful` | `src/main/claude/managed-chatgpt-auth-transaction.ts:133-243` | in every reachable state, whatever steps crashes cut off, the disk stands for the account last committed, and while a login is active the visible files are only what it wrote |
| `AuthProtocol.UndecidedKeepsCommitted` | `src/main/claude/managed-chatgpt-auth-transaction.ts:133-243` | as long as no commit and no write outside a transaction happens, the committed account stays the same |
| `AuthProtocol.RecoveredAccount` | `src/main/claude/managed-chatgpt-auth-transaction.ts:133-174` | once recovery left no uncommitted directory, the credentials are exactly the old ones if no commit happened, and exactly what the committed login had written if one did, after any number of crashes, also inside recovery |
| `AuthProtocol.VisibleAccount` | `src/main/claude/managed-chatgpt-auth-transaction.ts:91-131` | a reader never sees a mix: with nothing uncommitted the visible files are the committed account, with an active login they are what it wrote and the quarantine holds the whole committed account |
| `AuthProtocol.TrustedCandidates` | `src/main/claude/managed-chatgpt-auth-transaction.ts:91-131` | in every reachable state that a reader may trust, the candidate files are exactly the committed account, or, for the reader that inspects the live login, exactly what that login wrote |
| `AuthProtocol.DirectoryWithoutMarkerLosesAccount` | `src/main/claude/managed-chatgpt-auth-transaction.ts:181-182` | if the directory and its first marker were two steps, a crash between them would make recovery discard the account |
| `AuthProtocol.CommittedWithoutMarkerRevivesAccount` | `src/main/claude/managed-chatgpt-auth-transaction.ts:219-220` | if a committed directory lost its marker before its files, the replaced account would come back |
| `AuthTransaction.AuthDirectory.Perform` | `src/main/claude/managed-chatgpt-auth-transaction.ts:133-243` | each file operation is recorded, and a legal one extends a legal run of the protocol |
| `AuthTransaction.RemoveCandidates` | `src/main/claude/managed-chatgpt-auth-transaction.ts:162-166` | only under a discarding marker are all candidates removed; the account behind the disk stays |
| `AuthTransaction.ReturnArtifacts` | `src/main/claude/managed-chatgpt-auth-transaction.ts:77-81` | every quarantined artifact goes back under a fresh name, none is lost or doubled |
| `AuthTransaction.RestoreArtifacts` | `src/main/claude/managed-chatgpt-auth-transaction.ts:77-83` | the quarantine is emptied into the account directory and the transaction directory is gone |
| `AuthTransaction.RecoverDirectory` | `src/main/claude/managed-chatgpt-auth-transaction.ts:137-173` | one abandoned directory, in any phase, is resolved without changing the account it stands for |
| `AuthTransaction.RecoverAbandoned` | `src/main/claude/managed-chatgpt-auth-transaction.ts:133-174` | recovery throws exactly when the directory is not owned or some transaction is not well formed; otherwise no transaction is left and the visible files are the account the disk stood for |
| `AuthTransaction.Begin` | `src/main/claude/managed-chatgpt-auth-transaction.ts:176-210` | beginning a transaction quarantines the whole account behind an active marker, or gives every file back when a rename fails |
| `AuthTransaction.Transaction.Commit` | `src/main/claude/managed-chatgpt-auth-transaction.ts:212-224` | a commit leaves nothing uncommitted and the visible files unchanged; a second call does nothing |
| `AuthTransaction.Transaction.Rollback` | `src/main/claude/managed-chatgpt-auth-transaction.ts:226-243` | a rollback brings back exactly the quarantined account and removes the directory |
| `AuthTransaction.Scan` | `src/main/claude/managed-chatgpt-auth-transaction.ts:105-126` | one pass classifies every directory as broken, unresolved or the inspected one, and sweeps only committed ones |
| `AuthTransaction.HasPending` | `src/main/claude/managed-chatgpt-auth-transaction.ts:91-131` | answers false exactly when the directory is owned and well formed and nothing is uncommitted, or only the live inspected transaction with its active marker is; and then the candidates, which it never changes, are exactly the committed account, or what the inspected login wrote |
| `AuthTransaction.Login` | `src/main/claude/managed-chatgpt-gateway.ts:956-1020` | a login recovers first, and ends either with its live transaction as the only one and exactly the reported artifact visible, or with the former account; over a safe disk it succeeds exactly when the directory is owned, the reported artifact is the only candidate and no rename fails |
| `AuthTransaction.Logout` | `src/main/claude/managed-chatgpt-gateway.ts:528-561` | over a safe disk a logout passes exactly when the directory is owned and no rename fails; then the account is empty, nothing is uncommitted and, if it can be removed, no transaction is left; a failed one keeps the account |
| `AuthTransaction.LoginOfAnotherEnvironment` | `src/main/claude/managed-chatgpt-gateway.ts:393-423` | over all attempts, a setup gets ready in an environment other than that of the login it commits if and only if a needed login succeeds twice while the environment changes behind the first and changes back during the second |
| `AuthTransaction.RunTurn` | `src/main/claude/managed-chatgpt-gateway.ts:397-423` | one attempt logs in again, after a rollback, when a login is needed or the last one that stayed current was made in another environment |
| `AuthTransaction.RunAttempts` | `src/main/claude/managed-chatgpt-gateway.ts:709-754` | up to three attempts, whose course is the specified one; the environment of the present login is the one that got ready if and only if it stayed current |
| `AuthTransaction.Setup` | `src/main/claude/managed-chatgpt-gateway.ts:371-454` | a setup that gets ready commits what its last login wrote, or changes nothing when it needed none; any other keeps the former account, with the transaction left for recovery only while a process may still use the new one; over a safe disk it passes exactly when the specified course gets ready |
| `AuthTransaction.SetupWithLoginOfAnotherEnvironment` | `src/main/claude/managed-chatgpt-gateway.ts:393-423` | the three attempts with which it happens: the login of the second is committed in the environment of the first |
| `EventStream.SplitContinues` | `src/main/chat/request-runner.ts:715-718` | splitting a text equals splitting its front and going on with the last unfinished line, also when the cut falls inside CRLF |
| `EventStream.SplitUndoesJoining` | `src/main/chat/request-runner.ts:715-716` | splitting undoes the joining of lines, whether by a line feed or by a return and a line feed |
| `EventStream.TrimmedOf` | `src/main/chat/request-runner.ts:722-722` | the data of a line is trimmed of nothing but space, and of all space at both ends |
| `EventStream.StopIsFinal` | `src/main/chat/request-runner.ts:718-743` | lines behind the end marker or an error change nothing |
| `EventStream.EmittedOutputIsExact` | `src/main/chat/request-runner.ts:640-679` | the flag that forbids asking again is set exactly when visible output was emitted, and an incomplete stream reports it |
| `EventStream.RecordShows` | `src/main/chat/request-runner.ts:647-672` | the events of one record carry its text as text, its thinking as thinking, its tool input and its refusal as such, in this order and with the usage so far, or bare usage: this leaves no choice |
| `EventStream.TakenRecords` | `src/main/chat/request-runner.ts:718-742` | reading takes exactly the records of the lines up to the first that marks the end, fails, or exceeds the limit; usage, stop reason and length are those the records report |
| `EventStream.StreamShowsItsRecords` | `src/main/chat/request-runner.ts:632-680` | of each kind of text the events of a stream carry exactly what its records carry, in order; it is complete exactly if the last line read marks the end within the limit |
| `EventStream.StoppedEarly` | `src/main/chat/request-runner.ts:700-747` | stopping inside a chunk gives the outcome of the whole text |
| `EventStream.EmitDelta` | `src/main/chat/request-runner.ts:647-676` | the events of one record, in their order |
| `EventStream.ApplyStreamDelta` | `src/main/chat/request-runner.ts:632-680` | one record: usage, length limit, events and end marker |
| `EventStream.ConsumeLine` | `src/main/chat/request-runner.ts:718-742` | one line: ignored, end marker, record or error |
| `EventStream.ConsumeLines` | `src/main/chat/request-runner.ts:718-743` | the loop over lines stops at the first end or error |
| `EventStream.ConsumeChunk` | `src/main/chat/request-runner.ts:715-743` | after each chunk the buffer is the unfinished last line of the text read so far, and the state that of its finished lines |
| `EventStream.ConsumeEventStream` | `src/main/chat/request-runner.ts:682-775` | for every way of cutting the text into chunks the outcome and the events are those of splitting the whole text once |
| `RequestRunner.Ladder` | `src/main/chat/request-runner.ts:489-501` | the compatibility ladder has one to three rungs |
| `RequestRunner.LadderDrops` | `src/main/chat/request-runner.ts:484-501` | the first rung asks for all that the protocol knows, and each further one gives up exactly one thing: thinking, then the token ceiling, or the stream usage |
| `RequestRunner.ChatRequest.FetchWithRedirectPolicy` | `src/main/chat/request-runner.ts:317-367` | at most four fetches; only 307 and 308 within the origin and without credentials are followed, so the network alone decides what a provider request comes to |
| `RequestRunner.ChatRequest.Retry` | `src/main/chat/request-runner.ts:503-527` | a retry is granted exactly while the shared budget lasts, and announces itself |
| `RequestRunner.ChatRequest.FetchOnce` | `src/main/chat/request-runner.ts:529-560` | what is transient is asked for again only while the budget lasts |
| `RequestRunner.ChatRequest.FetchResilient` | `src/main/chat/request-runner.ts:528-561` | the answer is final, or the budget is spent |
| `RequestRunner.ChatRequest.SelectCompatibleResponse` | `src/main/chat/request-runner.ts:570-588` | the ladder is descended only on 400 and 422, and to its end |
| `RequestRunner.ChatRequest.ConsumeJson` | `src/main/chat/request-runner.ts:590-630` | a plain answer shows its text and refusal and then done, or nothing |
| `RequestRunner.ChatRequest.ConsumeStream` | `src/main/chat/request-runner.ts:682-775` | a stream shows the events of its text, and done exactly at its end marker |
| `RequestRunner.ChatRequest.AskAgain` | `src/main/chat/request-runner.ts:798-811` | after an accepted answer that was cut the same rung is asked for again, exactly while the budget lasts |
| `RequestRunner.ChatRequest.ConsumeProviderResponse` | `src/main/chat/request-runner.ts:777-814` | asks again only while nothing of an answer was shown, and only on the rung that was accepted; a failure means the budget is used up, or the ladder, or that this rung had been accepted |
| `RequestRunner.ChatRequest.ExecuteRequest` | `src/main/chat/request-runner.ts:816-843` | what was shown comes from the last response read, or nothing was shown |
| `RequestRunner.ChatRequest.Run` | `src/main/chat/request-runner.ts:845-879` | at most ladder plus retries provider requests of at most four fetches, each the reply of the network; all output from one accepted response; exactly one terminal event, after everything else; an error only when nothing is left to try; and a 400 or 422 ends the request above the last rung if and only if an answer was accepted above it |
| `RequestRunner.RequestThatLeavesTheLadder` | `src/main/chat/request-runner.ts:784-813` | a network with which it happens: an event stream that ends before its first event, then a 400 |
| `RequestRunner.ShownEnds` | `src/main/chat/request-runner.ts:682-775` | a body shows at most one terminal event, done, last, and exactly when it is complete |
| `RequestRunner.JsonShows` | `src/main/chat/request-runner.ts:590-630` | a plain answer is shown as its text, then its refusal, then done with its stop reason and usage, and fails exactly when both are empty |
| `RequestRunner.StreamShows` | `src/main/chat/request-runner.ts:682-775` | a stream is shown as what its records carry, each text as what it is, then done with their stop reason and usage; it fails for good only on a record that is none or beyond the limit |
| `RequestRunner.OthersShow` | `src/main/chat/request-runner.ts:688-690` | a missing or unreadable body shows nothing and may be asked for again |
| `RequestRunner.ShownOnce` | `src/main/chat/request-runner.ts:777-814` | after silent attempts, one body gives output of one source, and a terminal event at most at the end, exactly when it is complete |
| `ArgumentQuoting.QuotedArgumentRoundTrip` | `src/main/claude/configuration.ts:547-547` | reading the literal gives back the value, for exactly the values without typographic quotes |
| `ArgumentQuoting.EscapedReadsBack` | `src/main/claude/configuration.ts:561-565` | the argument parser of the C runtime undoes the doubled backslashes and escaped quotes, for every run of backslashes |
| `ArgumentQuoting.SpacesKeepString` | `src/main/claude/configuration.ts:554-565` | inside a string body, writing each raw space as its escape keeps the characters it decodes to |
| `ArgumentQuoting.SpacesKeepMeaning` | `src/main/claude/configuration.ts:554-565` | rewriting the spaces of a compact JSON text keeps its tokens (section 7 of RFC 8259) |
| `ArgumentQuoting.SpaceAfterStrayBackslash` | `src/main/claude/configuration.ts:565-565` | a text that is not JSON can change its meaning: a raw space behind a backslash |
| `ArgumentQuoting.NativeJsonArrives` | `src/main/claude/configuration.ts:561-567` | a JSON text arrives as one argument, equal to the text with its spaces escaped and with the same tokens, for exactly the texts without typographic quotes |
| `ChunkedCoding.FindCrlf` | `src/main/claude/managed-chatgpt-owned-models.ts:114-114` | the first line end at or after an offset, or none |
| `ChunkedCoding.NextStep` | `src/main/claude/managed-chatgpt-owned-models.ts:113-135` | a chunk that is accepted lies inside the body and within the limit |
| `ChunkedCoding.ReadStep` | `src/main/claude/managed-chatgpt-owned-models.ts:113-134` | one turn of the loop, with its checks in their order |
| `ChunkedCoding.DecodeChunked` | `src/main/claude/managed-chatgpt-owned-models.ts:109-137` | decoding stays in bounds, ends, and never returns more than the limit |
| `ChunkedCoding.DecodesExactly` | `src/main/claude/managed-chatgpt-owned-models.ts:109-137` | decoding succeeds with some data if and only if the body is a sequence of frames with that data within the limit, a line announcing zero, and anything behind it |
| `ChunkedCoding.SizesExactly` | `src/main/claude/managed-chatgpt-owned-models.ts:118-122` | a size line announces a number exactly if it is short and its digits, in either case, are those of the number behind some zeros |
| `ChunkedCoding.SizeEndsAtSemicolon` | `src/main/claude/managed-chatgpt-owned-models.ts:118-118` | the size ends at the first semicolon, behind which a chunk extension may follow |
| `ChunkedCoding.LengthsExactly` | `src/main/claude/managed-chatgpt-owned-models.ts:170-174` | a declared length is worth a number exactly if it consists of its decimal digits behind some zeros |
| `ChunkedCoding.ChunkedRoundTrip` | `src/main/claude/managed-chatgpt-owned-models.ts:109-137` | decoding undoes the coding of section 7.1 of RFC 9112 for every list of non-empty chunks within the limit |
| `ChunkedCoding.SelectBody` | `src/main/claude/managed-chatgpt-owned-models.ts:164-186` | a transfer coding goes before a declared length, which must be met exactly; no body exceeds the limit |
| `ModelReconciliation.Matches` | `src/main/claude/managed-chatgpt-model-reconciliation.ts:61-74` | two ownerships match exactly when they agree on everything but the account and the management key |
| `ModelReconciliation.StateMatches` | `src/main/claude/managed-chatgpt-model-reconciliation.ts:76-92` | a stored state matches exactly when it agrees on those fields and records the process of the ownership |
| `ModelReconciliation.FinalCheck` | `src/main/claude/managed-chatgpt-model-reconciliation.ts:114-148` | the verification succeeds exactly when the looked-up id is the owned one, the generation is current and the snapshot is |
| `ModelReconciliation.ChangesStartGenerations` | `src/main/claude/managed-chatgpt-model-reconciliation.ts:201-205` | the generation moves exactly at a clear, a write, the start of a probe and an invalidation that meets something |
| `ModelReconciliation.GenerationsGrow` | `src/main/claude/managed-chatgpt-model-reconciliation.ts:298-300` | two points of a run have the same generation exactly when nothing changed between them |
| `ModelReconciliation.OneOfCurrentGeneration` | `src/main/claude/managed-chatgpt-model-reconciliation.ts:302-347` | in every run there is a cache or a probe but not both, and it is of the current generation |
| `ModelReconciliation.CacheWasWritten` | `src/main/claude/managed-chatgpt-model-reconciliation.ts:410-424` | the cache is what the latest change wrote |
| `ModelReconciliation.WrittenStays` | `src/main/claude/managed-chatgpt-model-reconciliation.ts:306-315` | what a segment wrote stays cached until the next change |
| `ModelReconciliation.ProbeWasBegun` | `src/main/claude/managed-chatgpt-model-reconciliation.ts:326-346` | the probe in flight was begun by the latest change |
| `ModelReconciliation.BegunStays` | `src/main/claude/managed-chatgpt-model-reconciliation.ts:316-346` | a probe stays in flight until the next change or its own end |
| `ModelReconciliation.CapturedIsCurrent` | `src/main/claude/managed-chatgpt-model-reconciliation.ts:101-112` | at its capture an ownership is current exactly if the stored state is that of the process and no other or dead child is owned |
| `ModelReconciliation.WritersAreUntouched` | `src/main/claude/managed-chatgpt-model-reconciliation.ts:333-341` | a task writes only if nothing changed since it began |
| `ModelReconciliation.ServedModelsAreFresh` | `src/main/claude/managed-chatgpt-model-reconciliation.ts:306-315` | under every interleaving, models served from the cache were read by a task begun for a matching ownership, whose process was alive and current after the reading, and no clear, invalidation or write came since they were written; nor, unless the start of the child told them, since the reading was begun |
| `ModelReconciliation.JoinedProbeIsFresh` | `src/main/claude/managed-chatgpt-model-reconciliation.ts:316-321` | a caller joins only a probe for its own ownership that nothing touched since it began |
| `ModelReconciliation.OlderTasksAreInert` | `src/main/claude/managed-chatgpt-model-reconciliation.ts:331-346` | after any change the end of an older task leaves cache, generation and probe as they are |
| `ModelReconciliation.InvalidationIsExact` | `src/main/claude/managed-chatgpt-model-reconciliation.ts:286-296` | an invalidation leaves nothing of the named ownership, and changes nothing exactly when there was nothing of it |
| `ModelReconciliation.ContinuationsStay` | `src/main/claude/managed-chatgpt-model-reconciliation.ts:302-347` | a continuation may still run after any other segments |
| `ModelReconciliation.ManagedGatewayModelReconciliation.Clear` | `src/main/claude/managed-chatgpt-model-reconciliation.ts:201-205` | empties the store and starts a generation |
| `ModelReconciliation.ManagedGatewayModelReconciliation.ModelsForOwnedProcess` | `src/main/claude/managed-chatgpt-model-reconciliation.ts:207-219` | serves, joins, refuses or starts, each in exactly one case |
| `ModelReconciliation.ManagedGatewayModelReconciliation.CaptureForConfiguration` | `src/main/claude/managed-chatgpt-model-reconciliation.ts:378-383` | ownership and generation of that moment are captured together |
| `ModelReconciliation.ManagedGatewayModelReconciliation.ModelsArrive` | `src/main/claude/managed-chatgpt-model-reconciliation.ts:349-356` | the models of a task come in and change nothing |
| `ModelReconciliation.ManagedGatewayModelReconciliation.VerifyOwnership` | `src/main/claude/managed-chatgpt-model-reconciliation.ts:357-362` | owned exactly when asked, the looked-up id is the owned one, the generation is the captured one and the snapshot is current |
| `ModelReconciliation.ManagedGatewayModelReconciliation.SettleProbe` | `src/main/claude/managed-chatgpt-model-reconciliation.ts:331-341` | the models are answered, and written, exactly when the process is owned and nothing changed since the probe began; without models the verdict is passed on |
| `ModelReconciliation.ManagedGatewayModelReconciliation.ReleaseProbe` | `src/main/claude/managed-chatgpt-model-reconciliation.ts:342-344` | removes its own probe if it is still there, and never another |
| `ModelReconciliation.ManagedGatewayModelReconciliation.Conclude` | `src/main/claude/managed-chatgpt-model-reconciliation.ts:384-396` | succeeds exactly when the process is owned and nothing changed since the capture, and then its models are cached |
| `ModelReconciliation.ManagedGatewayModelReconciliation.BeginReading` | `src/main/claude/managed-chatgpt-gateway.ts:1174-1186` | the readiness probe of a start is a reading for the child that was spawned, and changes nothing |
| `ModelReconciliation.ManagedGatewayModelReconciliation.RememberModelsForChild` | `src/main/claude/managed-chatgpt-model-reconciliation.ts:254-275` | remembers what the readiness probe read, exactly for the live current child recorded in the state |
| `ModelReconciliation.ManagedGatewayModelReconciliation.Remember` | `src/main/claude/managed-chatgpt-model-reconciliation.ts:410-424` | writes unless an expected generation is over |
| `ModelReconciliation.ManagedGatewayModelReconciliation.InvalidateOwnership` | `src/main/claude/managed-chatgpt-model-reconciliation.ts:286-296` | drops what matches, in a new generation |
| `StateStore.LoadAnswersLastKept` | `src/main/claude/managed-chatgpt-state.ts:89-100` | in every run with crashes in which each incarnation loads first, a load answers with the last state renamed into place or written completely with a process record |
| `StateStore.RecordsAreNotForgotten` | `src/main/claude/managed-chatgpt-state.ts:145-153` | loads, crashes and cut writes never make a kept state be forgotten |
| `StateStore.TornWritesForget` | `src/main/claude/managed-chatgpt-state.ts:94-98` | a torn write keeps the answer exactly when nothing was left to recover; after a load whose rename failed it forgets the record |
| `StateStore.ManagedGatewayStateStore.Load` | `src/main/claude/managed-chatgpt-state.ts:89-100` | answers with the recoverable record, otherwise the state in place |
| `StateStore.ManagedGatewayStateStore.Persist` | `src/main/claude/managed-chatgpt-state.ts:145-153` | writes and renames, with every fault in between |
| `ProcessOwnership.PromotionIsExact` | `src/main/claude/managed-chatgpt-persisted-process.ts:110-128` | in every run, the record of a process changes only from starting to ready with the same id and birth, and only by a promotion that holds exactly the stored record or by the commit of the operation that started it |
| `ProcessOwnership.EveryRunIsSane` | `src/main/claude/managed-chatgpt-persisted-process.ts:143-182` | under exits, reuse of ids and late callbacks, whatever a kill hits was spawned here, what was seen dead stays dead, and every record that is stored or held names a process that was recorded |
| `ProcessOwnership.RecordsOutliveTheirProcess` | `src/main/claude/managed-chatgpt-persisted-process.ts:130-135` | in every run and under every save, a process that is still there stops being the recorded one exactly when the start of another child is recorded, and then an inspection of it had been in doubt |
| `ProcessOwnership.DoubtLosesTheRecord` | `src/main/claude/managed-chatgpt-persisted-process.ts:79-95` | from every start with a record of a live process, an inspection in doubt can lose it: the starting record of a new child replaces it |
| `ProcessOwnership.RecordsWereStarted` | `src/main/claude/managed-chatgpt-persisted-process.ts:97-108` | every stored record is of a process whose start was recorded in this run, or the one an earlier incarnation left |
| `ProcessOwnership.OlderOwnershipsAreInert` | `src/main/claude/managed-chatgpt-process-lifecycle.ts:113-124` | a lost ownership never becomes current again and its late callbacks change nothing |
| `ProcessOwnership.ReadyRecordsOutliveTheExit` | `src/main/claude/managed-chatgpt-gateway.ts:1117-1127` | the exit callback holds the starting record, so a ready one stays until an inspection finds the process gone |
| `ProcessOwnership.InspectionIsARun` | `src/main/claude/managed-chatgpt-persisted-process.ts:79-95` | what an inspection that clears the record does are steps of a run, whatever else runs during its awaits |
| `ProcessOwnership.StopIsARun` | `src/main/claude/managed-chatgpt-persisted-process.ts:143-182` | what a stop that clears the record does are steps of a run, whether the process was alive or gone, and it is gone before the record |
| `ProcessOwnership.PartsFollow` | `src/main/claude/managed-chatgpt-process-lifecycle.ts:86-156` | the child and the stored state of a run are what its steps make of each of them alone, which is what the two classes are proved against |
| `ProcessOwnership.SpawnsMoveTheGeneration` | `src/main/claude/managed-chatgpt-process-lifecycle.ts:86-104` | in every run the generation moves exactly when a child is spawned while none is owned |
| `ProcessOwnership.ManagedGatewayProcessLifecycle.Start` | `src/main/claude/managed-chatgpt-process-lifecycle.ts:86-104` | a child is taken over exactly when none is owned, as a step of the run |
| `ProcessOwnership.ManagedGatewayProcessLifecycle.MarkStopping` | `src/main/claude/managed-chatgpt-process-lifecycle.ts:106-111` | only the current ownership is marked |
| `ProcessOwnership.ManagedGatewayProcessLifecycle.Clear` | `src/main/claude/managed-chatgpt-process-lifecycle.ts:113-124` | only the current ownership clears, and the generation stays |
| `ProcessOwnership.ManagedGatewayProcessLifecycle.Complete` | `src/main/claude/managed-chatgpt-process-lifecycle.ts:126-130` | an exit that was seen clears the current ownership and no other |
| `ProcessOwnership.ManagedGatewayProcessLifecycle.Stop` | `src/main/claude/managed-chatgpt-process-lifecycle.ts:132-149` | kills the owned child once and keeps the ownership |
| `ProcessOwnership.ManagedGatewayProcessLifecycle.RunTurn` | `src/main/claude/managed-chatgpt-process-lifecycle.ts:171-185` | one turn of the barrier, with what others do during its port await |
| `ProcessOwnership.ManagedGatewayProcessLifecycle.WaitForExitAndPort` | `src/main/claude/managed-chatgpt-process-lifecycle.ts:165-197` | succeeds exactly if in some turn the exit was seen, the port is free, and no other child was taken over until then, whatever steps of a run come during the awaits; then nothing is owned, and otherwise the barrier itself changes nothing |
| `ProcessOwnership.ManagedGatewayProcessLifecycle.StopForReplacement` | `src/main/claude/managed-chatgpt-process-lifecycle.ts:151-156` | succeeds exactly if nothing was owned or the barrier of the stopped child does; after that the next start cannot be refused |
| `ProcessOwnership.ManagedGatewayPersistedProcess.ClearOwnership` | `src/main/claude/managed-chatgpt-persisted-process.ts:130-135` | forgets exactly the expected record; an error forgets nothing, unless the rename of the load failed too |
| `ProcessOwnership.ManagedGatewayPersistedProcess.PersistStarting` | `src/main/claude/managed-chatgpt-persisted-process.ts:97-108` | stores the starting record of the child, and fails exactly when the write does |
| `ProcessOwnership.ManagedGatewayPersistedProcess.PromoteReady` | `src/main/claude/managed-chatgpt-persisted-process.ts:110-128` | succeeds exactly when the stored record is the one held and the write does not fail, and then is a step of the run |
| `ProcessOwnership.ManagedGatewayPersistedProcess.OwnedProcessId` | `src/main/claude/managed-chatgpt-persisted-process.ts:79-95` | answers with the id only on a match, and drops the record only when the process surely is not there; its steps are an inspection and a clearing |
| `ProcessOwnership.ManagedGatewayPersistedProcess.Stop` | `src/main/claude/managed-chatgpt-persisted-process.ts:143-182` | passes exactly when there is no recorded process, another one is under its id, or it was terminated, its port free and the record cleared; then, and only after a termination, the local child of that id is completed; an error keeps the record, unless the rename of the load failed too |
| `ConfigTransaction.UnsuccessfulAttempts` | `src/main/claude/managed-chatgpt-gateway.ts:709-754` | an unsuccessful attempt leaves configuration, staged files and backups exactly as they were if and only if no harmful fault happened, and a retry follows only then |
| `ConfigTransaction.VerdictOfAttempt` | `src/main/claude/managed-chatgpt-gateway.ts:709-754` | an attempt is done exactly when its file gets in place and its state is stored without a fault, and is repeated exactly when only the environment changed and the process was stopped and everything taken back |
| `ConfigTransaction.OthersUntouched` | `src/main/claude/managed-chatgpt-config-files.ts:17-81` | whatever happens, an attempt leaves alone what other attempts staged or backed up |
| `ConfigTransaction.LostExactlyWithoutBackup` | `src/main/claude/managed-chatgpt-config-files.ts:44-62` | the old configuration is lost exactly when its backup could not be made, because the rollback then removes the only copy |
| `ConfigTransaction.SuccessfulAttempts` | `src/main/claude/managed-chatgpt-config-files.ts:64-73` | a successful attempt has the new configuration in place, nothing staged, and a stale backup exactly if that could not be removed |
| `ConfigTransaction.CommitState` | `src/main/claude/managed-chatgpt-gateway.ts:772-794` | both ways of committing store exactly the committed state |
| `ConfigTransaction.ManagedGatewayConfigFiles.Stage` | `src/main/claude/managed-chatgpt-config-files.ts:17-31` | a staged file is complete and protected, or removed again |
| `ConfigTransaction.ManagedGatewayConfigFiles.RemoveStaged` | `src/main/claude/managed-chatgpt-config-files.ts:33-42` | the staged file is gone, or the removal failed |
| `ConfigTransaction.ManagedGatewayConfigFiles.Activate` | `src/main/claude/managed-chatgpt-config-files.ts:44-62` | backs up, moves into place and protects, or takes it back |
| `ConfigTransaction.ManagedGatewayConfigFiles.Commit` | `src/main/claude/managed-chatgpt-config-files.ts:64-73` | keeps the new configuration even when the backup cannot be removed |
| `ConfigTransaction.ManagedGatewayConfigFiles.Rollback` | `src/main/claude/managed-chatgpt-config-files.ts:75-81` | does nothing after a commit, otherwise puts the backup back |
| `ConfigTransaction.Gateway.GiveUp` | `src/main/claude/managed-chatgpt-gateway.ts:735-754` | the rollback comes first, then the staged file; only a changed environment, with everything taken back and the process stopped, allows another attempt |
| `ConfigTransaction.Gateway.RunAttempt` | `src/main/claude/managed-chatgpt-gateway.ts:709-754` | an attempt is done, or repeated, exactly under the fault conditions for it, and a done one has stored exactly its state |
| `ConfigTransaction.Gateway.StartWithStableEnvironment` | `src/main/claude/managed-chatgpt-gateway.ts:700-758` | at most three attempts, of which all before the last one tried had only a changed environment; Ok exactly when the last one gets through, with the new configuration in place and its state stored; on an error all files are as before if and only if the last attempt met no harmful fault |
| `ConversationLifecycle.KeyIsInjective` | `src/main/claude/conversation-lifecycle.ts:22-24` | a key names one directory and one conversation |
| `ConversationLifecycle.FoldedExactly` | `src/main/claude/conversation-lifecycle.ts:22-24` | two identifiers have the same key exactly if they differ in the case of letters at most |
| `ConversationLifecycle.BlockedExactly` | `src/main/claude/conversation-lifecycle.ts:67-78` | a launch is refused exactly while some conversation that it could reach is being deleted |
| `ConversationLifecycle.ReservingADeletionKeeps` | `src/main/claude/conversation-lifecycle.ts:162-194` | both indexes agree and no current resume reaches the conversation |
| `ConversationLifecycle.ReservingADeletionSupersedes` | `src/main/claude/conversation-lifecycle.ts:169-178` | a deletion takes their ownership from exactly the resumes of its directory that name its conversation or none |
| `ConversationLifecycle.SessionsOfTargets` | `src/main/claude/conversation-lifecycle.ts:169-178` | the sessions that a deletion collects are exactly those of the resumes it targets |
| `ConversationLifecycle.FinishingADeletionKeeps` | `src/main/claude/conversation-lifecycle.ts:135-148` | both indexes agree after the end of a deletion |
| `ConversationLifecycle.ReservingAResumeKeeps` | `src/main/claude/conversation-lifecycle.ts:196-215` | a resume that is admitted reaches no conversation being deleted |
| `ConversationLifecycle.FinishingAResumeKeeps` | `src/main/claude/conversation-lifecycle.ts:150-160` | the index of resumes holds only unfinished ones |
| `ConversationLifecycle.EveryRunIsGuarded` | `src/main/claude/conversation-lifecycle.ts:61-216` | in every run the two deletion indexes hold the same unfinished deletions and deletions are absorbing |
| `ConversationLifecycle.EveryRunWaits` | `src/main/claude/conversation-lifecycle.ts:239-263` | in every run, whoever owns a conversation being deleted is a candidate not yet closed |
| `ConversationLifecycle.ActiveDeletionsAreUnreachable` | `src/main/claude/conversation-lifecycle.ts:67-78` | in every run, while a deletion is active, no current resume of its directory names its conversation or none |
| `ConversationLifecycle.UnlinkedIsUnowned` | `src/main/claude/conversation-lifecycle.ts:239-269` | in every run, no session owns the conversation when its transcript is unlinked |
| `ConversationLifecycle.LostResumesStayLost` | `src/main/claude/conversation-lifecycle.ts:103-109` | a superseded or finished resume never becomes current again, in any continuation of the run |
| `ConversationLifecycle.ResumesAreLostExactly` | `src/main/claude/conversation-lifecycle.ts:103-178` | in every run a current resume is lost exactly by its own end or by a deletion that targets it |
| `ConversationLifecycle.DeletionsHold` | `src/main/claude/conversation-lifecycle.ts:99-101` | in every continuation of a run, a deletion keeps its ownership until it finishes, and no second one of the conversation starts before that |
| `ConversationLifecycle.EmptyIdentifierEscapes` | `src/main/claude/conversation-lifecycle.ts:171-177` | of the resumes that the coordinator admits, exactly those with an empty identifier survive the reservation of a deletion and could reach its conversation |
| `ConversationLifecycle.ClaudeConversationLifecycleCoordinator.AssertLaunchAllowed` | `src/main/claude/conversation-lifecycle.ts:67-78` | throws exactly for the launches that could reach a conversation being deleted |
| `ConversationLifecycle.ClaudeConversationLifecycleCoordinator.ReserveResume` | `src/main/claude/conversation-lifecycle.ts:196-215` | refused exactly when blocked, otherwise current |
| `ConversationLifecycle.ClaudeConversationLifecycleCoordinator.SupersedeResumes` | `src/main/claude/conversation-lifecycle.ts:169-178` | marks exactly the pending resumes that the deletion targets, and collects their sessions |
| `ConversationLifecycle.ClaudeConversationLifecycleCoordinator.ReserveDeletion` | `src/main/claude/conversation-lifecycle.ts:162-194` | refused exactly when the conversation is already being deleted |
| `ConversationLifecycle.ClaudeConversationLifecycleCoordinator.FinishDeletion` | `src/main/claude/conversation-lifecycle.ts:135-148` | removes exactly this deletion from both indexes |
| `ConversationLifecycle.ClaudeConversationLifecycleCoordinator.FinishResume` | `src/main/claude/conversation-lifecycle.ts:150-160` | removes exactly this resume |
| `QuotaFence.GenerationsCountTouches` | `src/main/claude/managed-chatgpt-quota.ts:202-205` | the generation is unchanged exactly when no operation was queued, cancelled or shut down |
| `QuotaFence.SameGenerationIsQuiet` | `src/main/claude/managed-chatgpt-gateway.ts:595-621` | if reading was possible at the capture and the generation is the same, it was possible at every point in between |
| `QuotaFence.AbortsStay` | `src/main/claude/managed-chatgpt-quota.ts:202-205` | an aborted request stays aborted, with its first reason |
| `QuotaFence.AbortedByFirst` | `src/main/claude/managed-chatgpt-quota.ts:202-216` | the first disturbance of a request decides the reason of its abort |
| `QuotaFence.UnreadableWhile` | `src/main/claude/managed-chatgpt-gateway.ts:595-621` | a queued or running operation keeps the account unreadable until it settles, a shutdown for good |
| `QuotaFence.ReadableAgain` | `src/main/claude/managed-chatgpt-gateway.ts:595-621` | once every operation has settled and nothing was shut down, the account is readable again |
| `QuotaFence.CurrentExactly` | `src/main/claude/managed-chatgpt-quota.ts:218-222` | the check after an await passes exactly if nothing disturbed the request until then |
| `QuotaFence.ManagedChatGptQuotaReader.Read` | `src/main/claude/managed-chatgpt-quota.ts:207-290` | a quota is available exactly if the gateway was readable, nothing disturbed the request from the capture to the last check, the account was the same before and after, and windows came; otherwise the kind is that of the abort or of the first failure, and a changing account is never named |
| `QuotaFence.ManagedChatGptQuotaReader.Failure` | `src/main/claude/managed-chatgpt-quota.ts:278-289` | an abort gives its own reason, and a changing account is never named |
| `StartupConnection.TimesIncrease` | `src/main/app/startup-model-connection-coordinator.ts:235-241` | published times increase strictly, whatever the clock does |
| `StartupConnection.RunShape` | `src/main/app/startup-model-connection-coordinator.ts:102-176` | a run publishes connecting states, at most one cancelling, one terminal; after cancelling only cancelled or timed out |
| `StartupConnection.RunBegins` | `src/main/app/startup-model-connection-coordinator.ts:103-112` | a run begins with connecting, after the former one has ended |
| `StartupConnection.StartupModelConnectionCoordinator.Publish` | `src/main/app/startup-model-connection-coordinator.ts:235-241` | the published time is the larger of the clock and one more than the last |
| `StartupConnection.StartupModelConnectionCoordinator.Begin` | `src/main/app/startup-model-connection-coordinator.ts:72-112` | refused exactly while a run is active or the timing is invalid |
| `StartupConnection.StartupModelConnectionCoordinator.Update` | `src/main/app/startup-model-connection-coordinator.ts:126-133` | progress is published only by the active run before its cancellation |
| `StartupConnection.StartupModelConnectionCoordinator.Cancel` | `src/main/app/startup-model-connection-coordinator.ts:179-221` | refused exactly without a run or too early for the user; the first reason stays |
| `StartupConnection.StartupModelConnectionCoordinator.Finish` | `src/main/app/startup-model-connection-coordinator.ts:135-176` | one terminal state, decided by an accepted cancellation before the outcome; connected exactly for a restored connection that was not cancelled |
| `StartupConnection.StartupModelConnectionCoordinator.CancelReturns` | `src/main/app/startup-model-connection-coordinator.ts:222-232` | answers exactly once the run it waits for has unwound, and what it shows is not older than the terminal state of that run |
| `QuitController.ShutdownOnce` | `src/main/app/lifecycle.ts:130-154` | in every run the runtimes are shut down at most once |
| `QuitController.QuitsShutDownFirst` | `src/main/app/lifecycle.ts:411-423` | in every run, whoever reaches the end of the application has shut the runtimes down before |
| `QuitController.SupersededNeverReturns` | `src/main/app/lifecycle.ts:81-109` | once a question is superseded, a late answer to it or its timer changes nothing, in any continuation of the run |
| `QuitController.ForcedQuitsWereAnswered` | `src/main/app/lifecycle.ts:178-190` | in every run, a forced quit is begun only by the accepted answer to a residual question, which was put only after an unforced cleanup had found something |
| `QuitController.UnforcedQuitsAreExcused` | `src/main/app/lifecycle.ts:482-496` | in every run, the quit that reaches its end was begun before and did not end in between; unforced, it got there by a clean cleanup of its own, a spent budget or a failed pipeline |
| `QuitController.DirtyQuitsWereAnswered` | `src/main/app/lifecycle.ts:395-408` | a quit that goes on although its own cleanup found something was begun by the accepted answer to a residual question |
| `QuitController.QuitsEndOnce` | `src/main/app/lifecycle.ts:411-506` | each quit that is begun ends at most once, and reaches the end of the application at most once, and not after it ended |
| `QuitController.NoQuestionsWhileQuitting` | `src/main/app/lifecycle.ts:222-232` | once the latch is set, by a quit, an installation or the end of the session, no question is put until a failed installation takes it back |
| `QuitController.QuitController.Invalidate` | `src/main/app/lifecycle.ts:81-99` | drops the confirmation only if it is the expected one |
| `QuitController.QuitController.CreateConfirmation` | `src/main/app/lifecycle.ts:101-109` | puts a question under a new identifier in place of the former one |
| `QuitController.QuitController.SendCleanupConfirmation` | `src/main/app/lifecycle.ts:206-283` | asks exactly when not quitting |
| `QuitController.QuitController.ShowNativeFallback` | `src/main/app/lifecycle.ts:214-219` | replaces the question by one of the system, unless quitting |
| `QuitController.QuitController.FindResidue` | `src/main/app/lifecycle.ts:285-394` | the findings are clean exactly when every step succeeded and nothing is left |
| `QuitController.QuitController.ShutdownRuntime` | `src/main/app/lifecycle.ts:130-154` | a step of the run, which does nothing the second time |
| `QuitController.QuitController.Finish` | `src/main/app/lifecycle.ts:411-423` | shuts down and sets the latch for the quit that is under way, once |
| `QuitController.QuitController.BeginControlledQuit` | `src/main/app/lifecycle.ts:436-444` | refused exactly while quitting or cleaning up; withdraws the question |
| `QuitController.QuitController.CleanupEnds` | `src/main/app/lifecycle.ts:395-408` | the end of the cleanup that was begun asks exactly when the quit was unforced and something was found, otherwise the quit goes on |
| `QuitController.QuitController.BudgetEnds` | `src/main/app/lifecycle.ts:490-493` | a spent budget ends the quit that was begun, and its cleanup goes on detached |
| `QuitController.QuitController.DetachedCleanupEnds` | `src/main/app/lifecycle.ts:222-232` | a cleanup that outlived its budget puts no question while the application quits |
| `QuitController.QuitController.RequestQuit` | `src/main/app/lifecycle.ts:533-582` | asks exactly when the window can answer and nothing was asked yet, otherwise begins an unforced quit; nothing while one is under way |
| `QuitController.QuitController.ConfirmQuit` | `src/main/ipc/app.ts:128-160` | an answer counts only for the current confirmation of the window; No and Minimize only close it, the others begin a quit, which Yes to a residual question alone forces |
| `QuitController.QuitController.AnswerNative` | `src/main/app/lifecycle.ts:178-191` | an answer counts only for the current confirmation of the system |
| `QuitController.QuitController.DeliveryTimesOut` | `src/main/app/lifecycle.ts:271-276` | a timer acts only on its own confirmation: a residual one goes to the system, an ordinary one on to the cleanup |
| `QuitController.QuitController.RendererGone` | `src/main/app/window.ts:144-157` | the question of a lost window is withdrawn |
| `QuitController.QuitController.NativeFails` | `src/main/app/lifecycle.ts:192-204` | a dialog that cannot be shown withdraws its own question only |
| `QuitController.QuitController.SessionEnds` | `src/main/app/window.ts:165-174` | the end of the session sets the latch and withdraws the question |
| `QuitController.QuitController.InstallerLatches` | `src/main/ipc/software.ts:36-41` | an installation sets the latch before its cleanup |
| `QuitController.QuitController.InstallerFails` | `src/main/ipc/software.ts:44-47` | a failed installation takes the latch back |
| `ChatHistory.NewestKeeps` | `src/main/chat/history-store.ts:588-592` | sorting keeps exactly the conversations |
| `ChatHistory.LoadKeeps` | `src/main/chat/history-store.ts:553-594` | a load keeps every reference of a file within the limit |
| `ChatHistory.SortedByRank` | `src/main/chat/history-store.ts:588-592` | the sort takes each conversation to the place given by how many are newer, or as old and earlier in the file |
| `ChatHistory.LongFilesForget` | `src/main/chat/history-store.ts:588-592` | a load answers with exactly the fifty newest conversations, and forgets exactly the references mentioned only beyond them |
| `ChatHistory.NextIsHistory` | `src/main/chat/history-store.ts:482-488` | the saved history has unique identifiers and starts with the new version; behind it come the others in their order, exactly the first forty-nine of them |
| `ChatHistory.WithoutAt` | `src/main/chat/history-store.ts:482-482` | without the replaced version the others keep their order |
| `ChatHistory.SaveConservesReferences` | `src/main/chat/history-store.ts:482-490` | every reference is retained or handed to the cleanup, and what the cleanup may delete is what the new history no longer mentions |
| `ChatHistory.SweepableExactly` | `src/main/chat/attachment-store.ts:441-448` | the sweep wants exactly the old directories deleted of attachments that are not retained, and of interrupted imports |
| `ChatHistory.DeleteConservesReferences` | `src/main/chat/history-store.ts:508-523` | a deleted conversation hands over exactly its own references |
| `ChatHistory.ChatHistoryStore.DeleteUnreferenced` | `src/main/chat/attachment-store.ts:413-422` | deletes exactly the candidates that are not retained, and fails exactly if one of those that exist is locked |
| `ChatHistory.ChatHistoryStore.CleanupAttachments` | `src/main/chat/history-store.ts:533-545` | a failing cleanup is not a failure, and deletes nothing that is retained |
| `ChatHistory.ChatHistoryStore.Load` | `src/main/chat/history-store.ts:553-596` | the history, or an error when the file repeats an identifier |
| `ChatHistory.ChatHistoryStore.Save` | `src/main/chat/history-store.ts:457-492` | at every point what the history on disk mentions and existed still exists; a completed cleanup deletes exactly what the loaded history mentioned and the new one does not |
| `ChatHistory.ChatHistoryStore.Delete` | `src/main/chat/history-store.ts:508-523` | the same for a deletion, which removes exactly that conversation, and changes nothing when it throws or finds none |
| `ChatHistory.ChatHistoryStore.CollectOrphans` | `src/main/chat/attachment-store.ts:428-458` | of what it finds in the folder, the sweep deletes exactly the old attachments that the loaded history does not mention and the old interrupted imports, except what cannot be deleted; nothing when the file or the folder is unusable, and nothing mentioned when the file is within the limit |

## Left out

- The thrown input/output error followed by a second rollback of an account transaction in the same process: it deletes current candidates again.
- Login: which files count as account candidates, and the inspection of their contents, are parameters.
- Bytes to text: the stream reader starts from decoded text chunks, including what the decoder flushes at the end.
- The idle monitor of a chat request and its probes, the delays between retries, and parsing of provider records, which are functions given from outside.
- NativeJsonArrives: how `buildClaudeLaunchCommand` joins the other arguments is not modelled.
- Lower-casing of identifiers beyond the letters A to Z, and resolving directories: they are given already resolved.
- ManagedGatewayStateStore.Load: the shape checks of a state are one predicate, readable or not; a state that was stored reads back as itself.
- EveryRunIsSane: the scripts that inspect and terminate processes are single steps with their four possible answers.
- EveryRunIsSane: ports. The check that the port of the gateway is free before a spawn is left out, which only allows more runs.
- WaitForExitAndPort: deadlines are the number of turns of its loop.
- CommitState: a state left in the temporary file by a failing rename of the commit is not followed into the next attempt.
- Gateway.StartWithStableEnvironment: what starting the gateway does between activation and commit is one of three outcomes.
- FindResidue: releasing attachments of closed conversations, which never blocks a quit.
- Login: the cancellation of a setup while its login runs is one of the ways the login process ends.
- CollectOrphans: what a removal that fails half-way leaves of a directory.
- The draft limits of the attachment store, renaming conversations and derived titles: single-branch facts.
- Retrying the rename of the history file: it succeeds or the save fails.
- Windows, tray, IPC plumbing, encryption, sockets, access-control scripts, release download, message texts and log redaction.
