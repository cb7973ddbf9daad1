# Zelavis, verified

This project models the parts of the Zelavis Platform whose correctness only shows over whole runs:
approvals decided in a race, deletions and updates that survive a crash at any point, readers that
must not depend on how a stream was cut, limits that hold over time. The models keep the branches,
constants and error outcomes of the code they follow; the theorems are about every input, every run
or every interleaving.

`dafny verify dfyconfig.toml` checks everything.

## What is where

| files | component |
|---|---|
| `Text` | strings: trimming, splitting, joining, order |
| `SystemStore` | the in-memory store, its calls as functions of the records, and runs of calls |
| `Approvals`, `ApprovalProtocol`, `ApprovalSafety`, `ApprovalTheorems`, `ApprovalAnswers`, `ApprovalRaces` | requests for approval, the protocol as a state machine over every await, its invariant, what follows for runs, what its answers are worth, and a race that misleads its caller |
| `DeletionState`, `ProjectManager` | ownership between Projects and resumable deletion |
| `RuntimeUpdate` | upgrades under a durable intent, and runs of all operations with passes of reconciliation in between |
| `PlacementFencing` | process records and fencing before a takeover |
| `LineReader`, `EventStream`, `ModelStreams`, `CompletionStream`, `MessageStream` | incremental readers |
| `Responder` | the bounded loop of model steps and tool calls |
| `TurnLimiter`, `LoadSlots`, `Paging` | the sliding window, the load semaphore, cursor pages |
| `Doubles`, `Versions` | version precedence, with `Number()` as the rounding it is |
| `BundleKeys` | storage keys of bundles |

Objects whose methods update their fields are classes; their methods are proved against functions
of the old state or against predicates whose consequences are lemmas. Protocols whose calls
interleave at awaits are state machines. Faults, crashes, answers of drivers and of the operating
system are nondeterministic, or a list of what will happen at the awaits, over which the theorems
range; decoding JSON, a model, a tool and a permission check are parameters.

## What turned out false

Each of these keeps the code as it is, exhibits the case in which it fails, and says exactly when it holds.

- A caller of `resolveApproval` who is answered "expired", "forbidden" or "target changed" is told
  that the change was not run even when the caller lost the race to decide the request, and the winner
  may run it (`ToldNotRunYetExecuted`). The answer is final exactly if the change was not run and no
  other call has claimed it and is still at it: always if the call decided the request itself, which
  is when it shows it as decided, and always if no other unanswered call about it was under way
  (`NotRunTells`, `NotRunIsFinalExactly`, `AloneIsFinal`).
- A compare-and-set by time notices every write, but not a removal followed by a new creation under a
  clock that is not past the time that was read. It succeeds if and only if nothing touched the record
  as long as every creation has a clock past that time (`CompareAndSetSucceedsIffUntouched`), and every
  other clock can defeat it (`RemovalBreaksTheComparison`).
- Reconciliation's own start checks for a deletion and for the desired state, but not for an
  unfinished update as the operations of an operator do. It starts under an intent exactly when an
  upgrade breaks off between a pass's own look at the record and its start
  (`StartsUnderIntentExactly`, `InterruptedUpgradeIsStarted`).
- Asking again for an interrupted upgrade can be answered as done although the driver settled on the
  previous selection: exactly when the update kept the recipe's name and version, as one to another
  engine may, and no engine version or the previous one is asked for (`RetryIsDoneExactly`,
  `RetryCanDoNothing`).
- Version comparison takes numerals from 2^53 on for equal that are not, in the three numbers too
  (`LargeNumeralsMerge`); `ComparesByPrecedence` says for all versions when it answers as the standard
  does, by the first number that differs and the first that doubles tell apart. It is not transitive
  when identifiers are numerals with one `Number()`, as with leading zeros
  (`LeadingZerosBreakTransitivity`); that condition on two versions is exact (`CompareTransitive`,
  `BlurredExactly`).
- A Project whose id is the system key shares the system's bundles, so deleting it deletes them
  (`SystemBundlesShareTheSystemKey`).
- Fencing can succeed and leave the placement's process alive: the age of a process is read by `ps`
  and compared only when the answer is handled, against a wall clock that may have been set.
  What is left is exactly what was misjudged so (`FencedIsGone`, `MisjudgedIsLeft`), and
  `AgreeExactly` says which delays and settings of the clock do it.
- The process that is killed after the grace period may only have taken over the pid
  (`LastResortCanMissItsTarget`); `SignalledAges` says when its age still agrees with the record.
- Streamed text and saved message differ when a streaming model says only white space: the saved
  message is then a sentence of the responder's own (`StreamedIsSaved`).

## Model

| member | source | states |
|---|---|---|
| ApprovalTheorems.ExecutesAtMostOnce | packages/zelavis/src/assistant-tools.ts:444-537 | in every interleaving of any number of calls, with failures and crashes between any two awaits, an approved change runs at most once and a request is decided at most once |
| ApprovalTheorems.StatusTellsExecutions | packages/zelavis/src/assistant-tools.ts:516-546 | in every reachable or crashed state a stored pending, denied or expired request has no execution, and an executed one exactly one |
| ApprovalTheorems.ExecutedAsApproved | packages/zelavis/src/assistant-tools.ts:482-526 | what runs was requested and approved by one principal, with the stored arguments, having passed permission, expiry, confirmation and fingerprint within the approving call, after its `pending_approval` and then its `allowed` audit record |
| ApprovalTheorems.MutationsNeedApproval | packages/zelavis/src/assistant-tools.ts:339-349 | `run` itself never executes a tool that changes something |
| ApprovalTheorems.StatusMovesForward | packages/zelavis/src/assistant-approvals.ts:103-137 | while it is stored, a request keeps everything but its decision, its status only moves pending to running, denied or expired and running to executed or failed, and a removed one never returns |
| ApprovalTheorems.ShownRefusalIsFinal | packages/zelavis/src/assistant-tools.ts:464-512 | a request shown to a caller as denied or expired has not run and never will |
| ApprovalAnswers.NotRunTells | packages/zelavis/src/assistant-tools.ts:464-512 | a call that says that a change was not run shows the request as decided exactly if its own decision was written; otherwise it decided nothing, and the request was decided by another call or is no longer stored |
| ApprovalAnswers.NotRunIsFinalExactly | packages/zelavis/src/assistant-tools.ts:464-512 | no run through that state executes the change if and only if it was not run and no call has claimed it and is still at it; only another call can have claimed it |
| ApprovalAnswers.AloneIsFinal | packages/zelavis/src/assistant-tools.ts:444-537 | what such a call says is final if no other call about the same request that had not been answered yet was under way |
| ApprovalAnswers.InHandRuns | packages/zelavis/src/assistant-tools.ts:519-530 | a call that has claimed a request and is left to itself runs the change |
| ApprovalAnswers.SettledStays | packages/zelavis/src/assistant-tools.ts:516-530 | a request that is decided or gone, and that nobody has in hand, is never run |
| ApprovalRaces.ToldNotRunYetExecuted | packages/zelavis/src/assistant-tools.ts:464-512 | for each of the three answers a run in which a caller is told that the request expired, or was not run for lack of permission or because its target changed, although another call executed it |
| ApprovalTheorems.DecideIsCompareAndSet | packages/zelavis/src/assistant-approvals.ts:103-118 | the protocol's decision is the store's compare-and-set over the record that was read |
| ApprovalTheorems.FinishIsCompareAndSet | packages/zelavis/src/assistant-approvals.ts:126-137 | the same for recording how a change ended |
| ApprovalTheorems.CreateIsSetIfAbsent | packages/zelavis/src/assistant-approvals.ts:88-93 | creating a request writes exactly when the store's set-if-absent does, and the same record |
| ApprovalTheorems.RunGrows | packages/zelavis/src/assistant-tools.ts:283-546 | audit log, decisions and executions are only ever added to |
| ApprovalSafety.NextKeeps | packages/zelavis/src/assistant-tools.ts:283-546 | every step of every call, every change of the surroundings and every crash keeps the protocol's invariant |
| ApprovalSafety.DecideKeeps | packages/zelavis/src/assistant-tools.ts:516-520 | a request that leaves `pending` had never been decided before |
| ApprovalSafety.ExecuteKeeps | packages/zelavis/src/assistant-tools.ts:526-530 | only the call that claimed the request gets to the tool, and only once |
| ApprovalSafety.EvaluateFits | packages/zelavis/src/assistant-tools.ts:455-498 | a call goes on to claim a request only with its own pending one and every gate passed in the world it evaluated in |
| Approvals.SlotsDiffer | packages/zelavis/src/assistant-approvals.ts:88-96 | requests with different ids never share a record, whatever their threads are called |
| Approvals.ApprovalStore.Create | packages/zelavis/src/assistant-approvals.ts:88-93 | stores a new request, and refuses an id that is taken without changing anything |
| Approvals.ApprovalStore.Decide | packages/zelavis/src/assistant-approvals.ts:103-118 | moves exactly a pending request on, and leaves the store as it was otherwise |
| Approvals.ApprovalStore.Finish | packages/zelavis/src/assistant-approvals.ts:126-137 | ends exactly a running request |
| Approvals.ApprovalStore.DeleteForThread | packages/zelavis/src/assistant-approvals.ts:119-125 | removes exactly the requests of one thread and counts them |
| SystemStore.CompareAndSetSucceedsIffUntouched | packages/zelavis/src/system-store.ts:138-199 | after any run of calls in which the record is not created anew under a clock that is not past the time that was read, a compare-and-set with that time, and with the value that was read or none, succeeds if and only if nothing wrote or removed the record in between |
| SystemStore.NeverRecreated | packages/zelavis/src/system-store.ts:153-199 | without a removal the record is never created anew, so the above holds under any clocks |
| SystemStore.RunKeepsTime | packages/zelavis/src/system-store.ts:103-108 | a record's time never goes back, and stands still only when nothing wrote it |
| SystemStore.RemovalBreaksTheComparison | packages/zelavis/src/system-store.ts:168-199 | the condition is exact: under every other clock a removal, a re-creation and further writes defeat the comparison |
| SystemStore.RecordIdInjective | packages/zelavis/src/system-store.ts:110-113 | two addresses share a record only if they are the same, for namespaces without NUL |
| SystemStore.ApplyKeepsPlace | packages/zelavis/src/system-store.ts:138-199 | every call keeps every record under its own, trimmed address |
| SystemStore.MemorySystemStore.Set | packages/zelavis/src/system-store.ts:138-152 | writes the record that the model of the call says, and refuses blank names |
| SystemStore.MemorySystemStore.SetIfAbsent | packages/zelavis/src/system-store.ts:153-167 | writes only when there is no record, and returns the one that is there |
| SystemStore.MemorySystemStore.CompareAndSet | packages/zelavis/src/system-store.ts:168-183 | writes only over the record that was read |
| SystemStore.MemorySystemStore.CompareAndDelete | packages/zelavis/src/system-store.ts:184-191 | removes only the record that was read |
| SystemStore.MemorySystemStore.List | packages/zelavis/src/system-store.ts:200-207 | the records of one namespace, each once |
| ProjectManager.ProjectManager.DeleteProject | packages/zelavis/src/project.ts:1155-1292 | whatever fails and wherever the process dies: what is stored as completed was cleaned, planned and completed sets never shrink, only the Project and what it owns is touched, a record that goes has everything ever planned for it cleaned, and without faults it does go |
| ProjectManager.ProjectManager.CleanUp | packages/zelavis/src/project.ts:1209-1239 | the configured cleanups in order, each recorded before and after, skipping what is completed |
| ProjectManager.ProjectManager.CleanOwned | packages/zelavis/src/project.ts:892-907 | ends well only when nothing is owned any more |
| ProjectManager.ProjectManager.FindUnavailable | packages/zelavis/src/project.ts:1202-1208 | finds a planned participant that is neither completed nor configured, if there is one |
| ProjectManager.ProjectManager.Create | packages/zelavis/src/project.ts:1743-1757 | refuses exactly an owner that is the Project itself, missing, owned or being deleted, and a taken id |
| ProjectManager.ProjectManager.Restart | packages/zelavis/src/project.ts:887-923 | starting again with other participants keeps everything that is stored true |
| ProjectManager.Session | packages/zelavis/src/project.ts:1155-1292 | any sequence of creations, complete or broken-off deletions and restarts keeps the Platform sound at every moment; between any two moments while a record stays, its planned and completed participants never shrink |
| DeletionState.PlanCovers | packages/zelavis/src/project.ts:1163-1171 | a plan keeps everything planned before, adds everything configured, and has runtime data once and last |
| DeletionState.PlanIsConfigured | packages/zelavis/src/project.ts:1163-1171 | with unchanged participants the plan is their order |
| DeletionState.RuntimeDataGoesLast | packages/zelavis/src/project.ts:1209-1239 | with unchanged participants the completed ones are a prefix of the order, so runtime data goes last |
| DeletionState.ClearedOwnsNothing | packages/zelavis/src/project.ts:892-907 | after `owned-projects` has completed nothing names the Project as its owner; owners are stored and unowned; completed is cleaned; planned only grows |
| DeletionState.OngoingWrites | packages/zelavis/src/project.ts:1192-1238 | writing the state of an attempt at any point, also over a record that has just gone, keeps the Platform sound |
| DeletionState.OngoingErases | packages/zelavis/src/project.ts:1240-1245 | a record may be removed once everything planned is completed |
| DeletionState.OngoingThroughChild | packages/zelavis/src/project.ts:903-905 | deleting what a Project owns does not disturb the Project's own attempt |
| RuntimeUpdate.Session | packages/zelavis/src/project.ts:1992-2011 | at every moment of every run of all operations and of passes of reconciliation, also where the process dies: while an intent is stored the record holds one of its selections, the committed one if it was seen to follow; every intent that was cleared left the selection the driver had in force |
| RuntimeUpdate.UpgradeKeeps | packages/zelavis/src/project.ts:1909-2013 | an upgrade that ends well leaves no intent, and the selection it started from if that was already the target, or the upgraded one, which after a handover is in force |
| RuntimeUpdate.HandOverKeeps | packages/zelavis/src/project.ts:1996-2011 | the record holds one of the two selections whatever fails; success leaves the target, with the target last in the driver's journal |
| RuntimeUpdate.ApplyKeeps | packages/zelavis/src/project.ts:2001-2003 | after every commit that was acknowledged the record holds what the journal says last |
| RuntimeUpdate.RecoverKeeps | packages/zelavis/src/project.ts:1113-1121 | clears the intent together with taking over what the journal says last, or leaves the record as it was |
| RuntimeUpdate.StopKeeps | packages/zelavis/src/project.ts:1837-1858 | stopping a Project with an unfinished update settles it on what is in force |
| RuntimeUpdate.StartKeeps | packages/zelavis/src/project.ts:1463-1497 | a start leaves selection and intent alone, and asks the driver at most once |
| RuntimeUpdate.OnlyUpgradesLeaveOne | packages/zelavis/src/project.ts:1909-2013 | an unfinished update was there before, or an upgrade has just broken off |
| RuntimeUpdate.OnlyPassStartsUnderIntent | packages/zelavis/src/project.ts:1650-1657 | only reconciliation starts under an intent, and exactly when one is stored as it gets to ask the driver |
| RuntimeUpdate.StartsUnderIntentExactly | packages/zelavis/src/project.ts:1604-1657 | in every run that happens exactly when an upgrade broke off after the pass's own look at the record and is still unfinished |
| RuntimeUpdate.InterruptedUpgradeIsStarted | packages/zelavis/src/project.ts:1604-1657 | such a run, for any Project and upgrade that goes through a handover |
| RuntimeUpdate.RetryIsDoneExactly | packages/zelavis/src/project.ts:1919-1920 | when asking again for an interrupted upgrade ends at once, for either choice of the driver |
| RuntimeUpdate.RetryCanDoNothing | packages/zelavis/src/project.ts:1919-1920 | a run in which an engine-only upgrade breaks off, the driver settles on the previous engine, and asking again is answered as done |
| RuntimeUpdate.Updates.UpgradeProject | packages/zelavis/src/project.ts:1909-2013 | `upgrade`, await by await, as the model says: keeps the invariant, refuses a Project being deleted, and ends well only without an intent and with one of the selections the code allows |
| RuntimeUpdate.Updates.HandOverUpdate | packages/zelavis/src/project.ts:1996-2011 | the handover under its intent: the record holds one of the two selections, after success the target with the driver behind it |
| RuntimeUpdate.Updates.ApplyUpdate | packages/zelavis/src/project.ts:2001-2003 | the driver's commits in a loop: the intent stays, the journal only grows, and success has the target in force |
| RuntimeUpdate.Updates.RecoverUpdate | packages/zelavis/src/project.ts:1113-1121 | recovery: success clears the intent with what is in force |
| RuntimeUpdate.Updates.StopProject | packages/zelavis/src/project.ts:1837-1858 | stopping: refused exactly for a Project being deleted; success leaves no intent and what is in force |
| RuntimeUpdate.Updates.StartProject | packages/zelavis/src/project.ts:1661-1685 | refuses exactly a Project being deleted or with an unfinished update, and changes nothing then; otherwise leaves the update alone |
| RuntimeUpdate.Updates.RestartProject | packages/zelavis/src/project.ts:1859-1908 | refuses as a start does, and leaves the update alone |
| RuntimeUpdate.Updates.RenameProject | packages/zelavis/src/project.ts:1823-1833 | refuses as a start does; otherwise changes the name and nothing else |
| RuntimeUpdate.Updates.ReconcileUpdateNow | packages/zelavis/src/project.ts:1604-1612 | the recovery of a pass: success leaves no unfinished update; a deletion is left alone |
| RuntimeUpdate.Updates.ReconcileStartNow | packages/zelavis/src/project.ts:1650-1657 | the start of a pass, under its three conditions; leaves the update alone |
| RuntimeUpdate.HistoryIsTheLastTen | packages/zelavis/src/project.ts:1974-1980 | however many upgrades there were, the last ten are remembered in order |
| PlacementFencing.Runner.FencePlacement | packages/zelavis/src/adapters/_agent-process-runner.ts:372-417 | runs as the model of fencing says, whatever happens at its awaits; success needs a state directory, leaves no file about the Project, and of the placement exactly what was misjudged and has not ended |
| PlacementFencing.Runner.DealWith | packages/zelavis/src/adapters/_agent-process-runner.ts:382-415 | one record, as the model of a file says: success leaves no file about the Project under that name |
| PlacementFencing.Runner.Judge | packages/zelavis/src/adapters/_agent-process-runner.ts:391-395 | the age is kept as `ps` read it and compared when the answer is handled |
| PlacementFencing.Runner.End | packages/zelavis/src/adapters/_agent-process-runner.ts:396-411 | a process whose judgement agreed is asked to end before it is killed, with the code's deadlines and early returns; success means that it is gone |
| PlacementFencing.Runner.Start | packages/zelavis/src/adapters/_agent-process-runner.ts:430-454 | a placed process without a durable record is killed; only a crash between spawn and record leaves one |
| PlacementFencing.FenceKeeps | packages/zelavis/src/adapters/_agent-process-runner.ts:372-417 | in every run, also one that breaks off: every live placed process has its record or was misjudged, signals are sent only on judgements that agreed and a kill only after a request to end; success leaves no file about the Project and is refused for another placement |
| PlacementFencing.FencedIsGone | packages/zelavis/src/adapters/_agent-process-runner.ts:372-417 | after success, what is left of the placement is exactly what was misjudged and has not ended since; nothing, if every judgement was within the tolerance |
| PlacementFencing.MisjudgedIsLeft | packages/zelavis/src/adapters/_agent-process-runner.ts:391-415 | for every process, record, delay and setting of the clock there is a run that succeeds and leaves the process alive exactly if these put the ages too far apart |
| PlacementFencing.AgreeExactly | packages/zelavis/src/adapters/_agent-process-runner.ts:391-395 | the ages agree exactly when drift of the clock, delay since the reading and the fraction of a second stay within 30 seconds |
| PlacementFencing.RemoveKeeps | packages/zelavis/src/adapters/_agent-process-runner.ts:414 | removing a record whose process has gone or was misjudged uncovers no other placed process |
| PlacementFencing.SignalledAges | packages/zelavis/src/adapters/_agent-process-runner.ts:396-411 | every signal goes to the process that was judged or to a newcomer under its pid; when its age agrees at that moment, and that a newcomer's can only for a record hardly older than the tolerance |
| PlacementFencing.LastResortCanMissItsTarget | packages/zelavis/src/adapters/_agent-process-runner.ts:399-405 | for every judgement and newcomer there is a run in which the newcomer is killed |
| LineReader.FeedAll | packages/zelavis/src/adapters/_agent-process-runner.ts:96-135 | for any cut of a stream into chunks the lines delivered are those of the whole stream, and the held buffer never exceeds the cap |
| LineReader.LineReader.Feed | packages/zelavis/src/adapters/_agent-process-runner.ts:107-134 | after each chunk exactly the lines of everything written so far have been delivered |
| LineReader.ChunkContinues | packages/zelavis/src/adapters/_agent-process-runner.ts:96-135 | a chunk adds to what was delivered what the held remainder and the chunk make together, with nothing said twice about a line that was cut |
| LineReader.DeliversLines | packages/zelavis/src/adapters/_agent-process-runner.ts:101-120 | terminated lines are delivered as they are, over-long ones cut |
| LineReader.DeliveredGrows | packages/zelavis/src/adapters/_agent-process-runner.ts:96-135 | what was delivered is never taken back |
| EventStream.ReadEvents | packages/zelavis/src/assistant-model.ts:258-273 | within the size limit the outcome is that of the undivided stream; beyond it reading never succeeds |
| EventStream.WholeFolds | packages/zelavis/src/assistant-model.ts:258-273 | reading the whole stream is handing over its lines one by one, then the unterminated rest |
| ModelStreams.FramesRead | packages/zelavis/src/assistant-model.ts:222-225 | payloads framed as data lines, with either line ending, are read back as they were |
| ModelStreams.SortKeys | packages/zelavis/src/assistant-model.ts:275-278 | the indices in ascending order |
| CompletionStream.ReadStream | packages/zelavis/src/assistant-model.ts:209-279 | content, deltas and tool calls do not depend on how the response was cut |
| CompletionStream.CompletionAddsUp | packages/zelavis/src/assistant-model.ts:222-256 | content is the deltas in order; each index's call has its last id and name and the in-order concatenation of its own fragments; calls without id or name are left out |
| MessageStream.ReadAnthropicStream | packages/zelavis/src/assistant-model.ts:400-484 | content, deltas and tool calls do not depend on how the response was cut |
| MessageStream.MessageAddsUp | packages/zelavis/src/assistant-model.ts:413-452 | content is the deltas in order; each tool call is the one last opened under its index with the input that followed for it |
| Responder.Respond | packages/zelavis/src/assistant-model.ts:539-616 | at most ten steps, the last allowed one without tools; one tool message per call, in order, behind its assistant message; the text shown and the text saved as functions of the steps |
| Responder.StreamedIsSaved | packages/zelavis/src/assistant-model.ts:551-578 | for a streaming model the shown text is the saved message up to white space exactly if something non-blank was said or nothing was streamed |
| Responder.SilentIsSaved | packages/zelavis/src/assistant.ts:340-342 | for a model that does not stream they are equal |
| Responder.ShowReply | packages/zelavis/src/assistant.ts:324-342 | a reply that was not streamed is shown whole |
| Responder.AppendMessage | packages/zelavis/src/assistant.ts:324-358 | what a listening caller is shown is the saved message: as it is for a model that does not stream; white space apart for one that does, exactly if it said something non-blank or streamed nothing |
| Responder.ReadStepsStream | packages/zelavis/src/assistant-model.ts:222-256 | the steps that either reader of streams makes have their pieces for their content |
| Responder.PairedMore | packages/zelavis/src/assistant-model.ts:580-608 | one more round keeps every call answered once, in order |
| TurnLimiter.TurnLimiter.Acquire | packages/zelavis/src/assistant-limits.ts:32-56 | grants exactly below both limits, records the turn, and answers a refusal with the right wait |
| TurnLimiter.TurnLimiter.Release | packages/zelavis/src/assistant-limits.ts:47-53 | takes the permit out of flight once |
| TurnLimiter.TurnLimiter.Bounds | packages/zelavis/src/assistant-limits.ts:24-56 | in flight equals granted minus released and stays within the cap; no half-open window holds more grants than allowed while the clock does not go back |
| TurnLimiter.TurnLimiter.RefusalLasts | packages/zelavis/src/assistant-limits.ts:38-40 | a refusal for the rate lasts exactly until the oldest counted turn leaves the window, and its wait is long enough |
| TurnLimiter.WindowHoldsAtMost | packages/zelavis/src/assistant-limits.ts:34-42 | turns spaced a window apart fit any window |
| TurnLimiter.KeptSuffices | packages/zelavis/src/assistant-limits.ts:34-42 | the entries that are kept count as the whole history would |
| LoadSlots.NeverMoreThanLimit | packages/zelavis/src/service.ts:421-434 | however loads arrive, finish and overtake woken waiters, no more than the limit are active |
| LoadSlots.NoLostWakeup | packages/zelavis/src/service.ts:424-434 | once all loads have finished and all wake-ups have run, nobody waits |
| LoadSlots.RunsEnd | packages/zelavis/src/service.ts:477-517 | without newcomers every run ends after a bounded number of steps |
| LoadSlots.SomebodyGoesOn | packages/zelavis/src/service.ts:424-434 | and it ends only when every load is done |
| LoadSlots.LoadQueue.Acquire | packages/zelavis/src/service.ts:424-429 | one turn of the loop takes a slot or queues |
| LoadSlots.LoadQueue.Release | packages/zelavis/src/service.ts:431-434 | gives the slot back and wakes the first waiter |
| Paging.StorePage | packages/zelavis/src/system-store.ts:121-128 | exactly the first records of the namespace beyond the cursor, ascending, with a next cursor when more follow |
| Paging.ListAudit | packages/zelavis/src/assistant-audit.ts:54-84 | the same descending under any filter, with the limits and the errors |
| Paging.FillPage | packages/zelavis/src/assistant-audit.ts:66-79 | the loop takes the first matching records and looks one further |
| Paging.PagesCover | packages/zelavis/src/assistant-audit.ts:54-84 | pages fetched at each other's cursors show every matching record once and in order |
| Paging.PagesEnd | packages/zelavis/src/system-store.ts:121-128 | following cursors comes to an end |
| Paging.FollowStore | packages/zelavis/src/system-store.ts:121-128 | following the cursors from the first page terminates and yields every record of the namespace once, ascending |
| Paging.FollowAudit | packages/zelavis/src/assistant-audit.ts:54-84 | the same for the audit list under any filter and limit, descending |
| Versions.ComparesByPrecedence | packages/zelavis/src/updates.ts:91-111 | for all versions of the grammar, when the comparison answers as section 11 of Semantic Versioning 2.0.0 orders: if doubles tell a number apart, exactly if the first such stands in the same order as the first number that differs; otherwise exactly if the first identifiers that differ are not merged numerals and the tails stand in the order of the first number that differs, if there is one |
| Versions.CompareIsOrder | packages/zelavis/src/updates.ts:91-111 | for versions valid under section 9 whose first differing numerals doubles tell apart it is that order, and zero only for one and the same version |
| Versions.SmallAreToldApart | packages/zelavis/src/updates.ts:91-111 | versions whose numerals are below 2^53 are always told apart |
| Versions.CompareTransitive | packages/zelavis/src/updates.ts:91-111 | transitive among any versions of the grammar, unless the first identifiers that differ are numerals with one `Number()` |
| Versions.BlurredExactly | packages/zelavis/src/updates.ts:104-107 | that condition on two versions is exact: they meet it if and only if they compare as no number, or as the same although a third version tells them apart |
| Versions.LargeNumeralsMerge | packages/zelavis/src/updates.ts:105-106 | two accepted texts without leading zeros that the standard orders and the comparison calls equal, and that meet the condition |
| Versions.CompareReversed | packages/zelavis/src/updates.ts:91-111 | exchanging any two versions reverses the sign |
| Versions.PrecedesTransitive | packages/zelavis/src/updates.ts:90-111 | the standard's precedence is transitive for all versions of the grammar |
| Versions.CompareVersions | packages/zelavis/src/updates.ts:91-111 | the loops with their early returns compute the comparison, and anything outside the grammar is refused |
| Versions.ParseShow | packages/zelavis/src/updates.ts:83-98 | every well-formed version is read back from its text, and build metadata leaves no trace |
| Versions.LeadingZerosBreakTransitivity | packages/zelavis/src/updates.ts:105-106 | two versions that each compare equal to a third and not to each other |
| Doubles.NearestKeepsOrder | packages/zelavis/src/updates.ts:95-106 | rounding to the nearest double never reverses an order |
| BundleKeys.BuildInjective | packages/zelavis/src/bundle-store.ts:155-176 | for the same options two addresses share a key exactly when they normalise to the same parts |
| BundleKeys.DeletePrefixIsOwner | packages/zelavis/src/bundle-store.ts:231-240 | a built key starts with a Project's delete prefix exactly when the Project owns it |
| BundleKeys.SystemBundlesShareTheSystemKey | packages/zelavis/src/bundle-store.ts:164-168 | system bundles go with a Project exactly when its id is the system key |
| BundleKeys.ListedRebuilds | packages/zelavis/src/bundle-store.ts:216-229 | a path cut from a stored built key leads back to that key |
| BundleKeys.List | packages/zelavis/src/bundle-store.ts:216-230 | lists exactly the stored keys below the prefix, as paths that lead back to them |
| BundleKeys.DeleteProject | packages/zelavis/src/bundle-store.ts:231-248 | removes exactly the files under the prefix, so all of the Project's and no other's, and counts them |
| BundleKeys.SegmentsAgain | packages/zelavis/src/bundle-store.ts:101-123 | normalised segments normalise to themselves |

## Left out

- Strings are sequences of characters: surrogate pairs, encodings and the decoder's handling of split multi-byte characters are not part of this model, nor is an unfinished byte sequence at the end of a stream.
- ISO timestamps are the milliseconds they denote; a stored timestamp that cannot be parsed does not occur.
- JSON is opaque: decoding is a parameter, stored values that fail to parse as the record they should be do not occur (except in the audit list), and redaction of results is left out.
- The limit of five pending requests per thread is a list and then a create, so it holds for calls that do not overlap and nothing is claimed about it otherwise.
- Placement of Projects on other nodes, leases and their renewal, and the writes made for them outside the lifecycle permit.
- Overlap of a create with its owner's deletion: the owner check and the claim are separate steps in the code, and ownership is stated for operations that do not overlap.
- ProjectManager.ProjectManager.DeleteProject: `stopPlacedRuntime`, runtime destruction and the host's participants are steps that may succeed, fail or be where the process dies; what they do inside is not modelled.
- RuntimeUpdate.Updates.UpgradeProject: catalogue, isolation and version-resolution checks before the handover are one answer of the surroundings; which selection the driver commits to is its own choice, and it ends a handover well only with the target in force.
- RuntimeUpdate.Session: passes stop between their steps but do not overlap each other, and a Project that has been removed is not created again.
- Projects whose stored record is malformed, repairs of old records, and ingress previews.
- PlacementFencing.Runner.FencePlacement: `reclaim` at start-up, and processes started while fencing is under way, are left out; pids taken over meanwhile belong to processes of no placement.
- PlacementFencing.Runner.Start: the sweep before the spawn, awaits while the record is written, and everything after the handle exists are left out.
- Tool call indices are whole numbers from zero on.
- SystemStore.MemorySystemStore.List: the order in which the store lists a namespace is not modelled; its callers sort.
- Pruning of old audit records.
- TurnLimiter.TurnLimiter.Acquire: limits and clock are whole numbers.
- Responder.Respond: cancellation by a signal, labels of tool activity and the history that precedes the prompt.
- SQLite-backed and custom stores, closing a store, and namespaces that contain a NUL.
- Route tables, provider requests, network and file access, the installer, domains and the dashboard.
