# Verified model of Indispenso

Indispenso lets users request that a command template is run on many machines. A request collects votes until
its template's threshold is met, starts once, becomes one command per client, and is released to the clients in
batches; each batch is held back until the one before it has finished. Clients poll for their commands, run
them, and report status and output; the server validates the output against the template's rules. Beside this
the repository holds a server-side data table and a console that renders coloured output.

This project models that behaviour in Dafny and proves what it is meant to guarantee, over every input, every
run or every order of events, together with the exact condition wherever a guarantee has one.

- `Strategy`, `Rollout*`: coordinator entries, launch goroutines, dispatched commands, status messages, purges,
  cancels and client cleanup as one state machine with atomic steps. `RolloutInvariants` proves conservation of
  commands, `RolloutBarrier` the batch barrier and containment of failures, `RolloutRace` a run that breaks the
  barrier when its premise fails. `RolloutProgress`, `RolloutOthers` and `RolloutCompletion` prove that rollouts
  complete, with the callbacks triggered exactly once, whatever goes on around them, and `RolloutCallbacks` how often
  callbacks are triggered in any run. `RolloutCancel` proves when a cancel is final, `RolloutCrash` when a request that
  is no longer stored can still bring the server down, and `RolloutMishaps` gives runs from the start of the server in
  which these things happen.
- `Coordinator`: the objects behind that state machine (clients, server, coordinator entries), updated in place.
  `Refinement` proves that every method of theirs takes the step of the state machine that it stands for:
  registration, cleanup, starting a request, Next, landing a launch, status messages, cancels and purges. Clients,
  their command lists and the coordinator's entries stay tied to the state machine across all of them; launch
  goroutines and calls of Next are no objects, and the methods report the ones they spawn.
- `Commands`, `Lines`: the command's own state machine, the signature check, log buffering and shipping, output
  validation, and the verdict over everything a client can send.
- `Consensus`: voting, starting once, expiry; the handlers on the objects, and the runs of a desk they are steps of.
- `LongPoll`: handing commands to polling clients without losing a wake-up, on the client objects and over every run.
- `Columns`, `RowWindow`, `Filter`: the bounded sorted row set, row filtering over an unordered map, the store.
- `KeyParser`, `FormTree`, `Numerals`, `SearchRequest`, `MapOrder`: bracketed form keys, the nested tree built
  from them, and the decoding of a search request.
- `Ansi`: the interpreter of SGR sequences in console output (section 8.3.117 of ECMA-48).

## How to read it

Runs are sequences of atomic steps, given either by their events (`Run`) or by all their states (`TimelyStates`,
`FreshStates`, `Schedule`); `StatesAreRuns` and the lemmas beside it show that the two agree. Code that runs under
one lock, or that only one goroutine touches, is one step; where the program has a gap that another goroutine can
use, the model has two steps: a launch goroutine reads its iteration number and submits in separate steps, a status
update and the call of Next it spawns are separate steps, and so are the insert, the signal and the sweep of the
long poll. Loops over Go maps take an arbitrary order, and their results are proved for every order or the exact
condition is given.

Premises are predicates over runs, named where they are used:

- `Rollout.Fresh`: identifiers drawn by the server are new.
- `Rollout.Timely` (over whole runs `TimelyStates`, `TimelyRun`): a launch goroutine reads the iteration number after
  its increment, Next runs when the launches of its request towards registered clients have landed, and clients send
  the status messages that `Execute` sends, in its order (`ExecutionIsOrderly`).
  `NextKeepsBarrierIffNoLaunchUnderWay`, `NextKeepsBarrierIff` and `RaceBreaksBarrier` say exactly what the first two
  are worth: the code does not enforce them.
- `RolloutCompletion.Possible`: beside that, for a rollout to complete, its request is not cancelled or expired, its
  commands are not purged and its clients not cleaned up meanwhile, a finish and the call of Next it spawns are one
  step, and nobody else brings the server down. Other requests, other commands and all clients do what they like.
- `RolloutCrash.Mannerly`: clients keep to their message order, and nothing else.
- `Consensus.Fresh`: template ids are drawn fresh (`AddTemplateKeepsBooksIff` says what that is worth).

Six results differ from what one would expect of the code:

- A request that is cancelled or gets too old stays in the coordinator. If calls of Next for it are waiting, or its
  clients still report finishes, its entry goes on dealing out batches, and the call that finds the queue empty reads
  the callbacks of a request that is not there: a nil dereference in a goroutine, which ends the process.
  `CancelledMayBringDownIff` and `ExpiredMayBringDownIff` say exactly when that can happen,
  `CancelIsHarmlessIff` when a cancel is both final and harmless, and `CancelMayUndoTheServer` shows it from the start
  of the server. A waiting call alone is not enough: where the queued commands' clients are gone, each batch takes a
  call and gives none back (`NoneThereDrains`, `WaitingCallMayBeHarmless`).
- The callbacks of a request are triggered by every call of Next that finds nothing left to do
  (`CallbacksAreDrainedCalls`), which is more than once if a call is still waiting then (`CallbacksTwice`).
- Next may run while a launch of its own batch is still under way, and then starts the next batch too early
  (`RaceBreaksBarrier`).
- The row set's guard skips rows greater than its least row, so a page shows the sort of the first Limit + 1
  accepted rows. `PageIsTopPageIff` says exactly when that is the page of all rows; the variant with the comparison
  swapped, which always is, is kept as `KeepSwapped` and is not the code's. Rows that come in ascending order always
  show a wrong page (`RisingFeedShowsWrongPage`).
- `FilterRow` answers by the first cell that settles the matter, in map order. `OrderFreeIffAgreeing` says exactly
  when the answer does not depend on it, `TwoVerdicts` gives a row where it does.
- A list of codes that ends inside an extended colour swallows the parameters of what follows
  (`CutsAfterIffComplete`).

`newExecutionValidation` (execution_validation.go:18-38) ignores its mustContain, outputStream and fatal arguments
and always builds a must-contain rule on standard output. The model validates against whatever rules are stored,
for both polarities and both streams.

## Model

| member | source | states |
|---|---|---|
| `Strategy.BatchSize` | execution_coordinator.go:93-127 | every batch takes at least one and at most all remaining commands |
| `Strategy.LaunchedAfterClosedForm` | execution_coordinator.go:93-151 | after k batches of n commands exactly n, min(1,n) then n, min(n,k) or min(n, 2^k - 1) have been started, by strategy |
| `Strategy.LaunchedAfterMonotone` | execution_coordinator.go:133-151 | further batches start strictly more commands until all are started |
| `Strategy.ExponentialBatchCount` | execution_coordinator.go:117-123 | the exponential rollout ends with the least k for which 2^k - 1 reaches the number of commands |
| `Strategy.PowerStaysBelowCommandCount` | execution_coordinator.go:119-122 | whenever the power of two is computed it is at most the number of commands, so it neither overflows nor loses precision below 2^53 |
| `Rollout.TakeTurn` | execution_coordinator.go:73-148 | a batch is dealt only when the current one is done, of size 1 up to the queue's length; callbacks only when the queue is empty and all is done |
| `Rollout.TurnKeepsConsistent` | execution_coordinator.go:133-151 | each turn keeps: queue plus launched, reversed, is what was assembled, and as many were launched as the strategy allows |
| `Rollout.StatesAreRuns` | execution_coordinator.go:38-152 | runs as sequences of states and runs as folds over events are the same runs under the same premises |
| `Rollout.ExecutionIsOrderly` | cmd.go:211-344 | whatever an execution sends, and whatever verdicts its validation gets, every status message comes in the order that the runs assume |
| `Rollout.AssembledExactly` | execution_strategy.go:17-43 | exactly the listed clients that are registered get a command, each its own, in listing order |
| `RolloutInvariants.SpawnAdds` | execution_coordinator.go:133-148 | one launch per command of the batch, each for its own client and batch, others untouched |
| `RolloutInvariants.StepKeepsStructure` | execution_coordinator.go:133-151 | every step of server, clients and goroutines keeps each command in exactly one place: queued, in flight or submitted once |
| `RolloutInvariants.RunKeepsStructure` | execution_strategy.go:17-49 | conservation over every run with fresh identifiers, in any order of events: queued, in-flight and submitted commands are exactly the assembled ones, launched in reverse assembly order |
| `RolloutBarrier.StepKeepsBarrier` | execution_coordinator.go:53-91 | every step under the stated premises keeps the batch barrier |
| `RolloutBarrier.BatchBarrier` | execution_coordinator.go:53-91 | in every state of every run, on every client object still registered, commands tagged below the entry's current iteration are finished, and launches under way towards registered clients carry the current one |
| `RolloutBarrier.NextKeepsBarrierIffNoLaunchUnderWay` | execution_coordinator.go:133-151 | a call of Next that deals a batch leaves earlier batches complete exactly when no launch of the request towards a registered client is under way |
| `RolloutBarrier.NextKeepsBarrierIff` | execution_coordinator.go:133-151 | a call of Next that deals a batch keeps the whole barrier exactly when no launch of the request towards a registered client is under way and no goroutine of the batch towards a registered client reads the iteration before the increment |
| `RolloutBarrier.FailureContainment` | execution_coordinator.go:85-127 | while some command of batch k on a registered client has not finished, the run has started exactly the strategy's bound for k batches |
| `RolloutRace.RaceBreaksBarrier` | execution_coordinator.go:133-151 | fresh identifiers, orderly clients and iterations read in time are not enough: for any names there is a run where the third batch starts while a command of the second is pending |
| `RolloutRace.CommandSucceeds` | cmd.go:112-124 | a command whose client reports in order reaches finished and spawns one call of Next |
| `RolloutProgress.NeverStuck` | execution_coordinator.go:73-91 | a rollout in progress always has a possible step, unless all is launched, finished and called back |
| `RolloutOthers.ForeignStepApart` | execution_coordinator.go:38-152 | no step of other requests, of their commands or of clients, be it a start, a call of Next, a report, a cancel or a purge, touches the entry, the calls, the callbacks or the commands of a request |
| `RolloutCompletion.RolloutCompletes` | execution_coordinator.go:73-83 | however its steps are scheduled, and whatever others do in between, a rollout of n commands takes exactly 7n steps of its own, always has one to take before that, and then has launched and finished everything and triggered the callbacks exactly once, at once when n is 0 |
| `RolloutCallbacks.CallbacksAreDrainedCalls` | execution_coordinator.go:73-83 | over every run with fresh identifiers, the callbacks of a request have been triggered exactly as often as a call of its Next found nothing queued and its batch finished |
| `RolloutCallbacks.CallbacksPerWaitingNext` | cmd.go:119-123 | once all work is done, each further waiting call of Next triggers the callbacks once more: k waiting calls, k times |
| `RolloutMishaps.CallbacksTwice` | cmd.go:119-123 | for any names there is a run, under all premises of the barrier, after which the callbacks have been triggered twice |
| `RolloutCancel.StepKeepsQuiet` | consensus.go:44-70 | once nothing of a request can wake its entry, no step of anybody changes that |
| `RolloutCancel.QuietForever` | consensus.go:44-70 | and no later run launches another batch of it |
| `RolloutCancel.FinalOverRuns` | consensus.go:44-70 | finality over all states of all continuations is finality over all event sequences |
| `RolloutCancel.LaunchRevives` | server.go:1513-1528 | from a cancelled state, a launch under way towards a registered client lets that client finish its command, and that starts the next batch |
| `RolloutCancel.CancelIsFinalIff` | consensus.go:44-70 | no continuation changes a cancelled request's entry exactly when the queue is empty, or no call of Next waits and no launch towards a registered client is under way |
| `RolloutCrash.TooFewForever` | execution_coordinator.go:31-35 | over every continuation with orderly clients, calls too few to drain a request stay too few, and none of them stops the server |
| `RolloutCrash.GoneBringsDownIff` | execution_coordinator.go:31-35 | a request that is not stored can stop the server in some continuation exactly when the calls of Next waiting for it and those its live commands are good for can empty its queue and run once more |
| `RolloutCrash.CancelledMayBringDownIff` | consensus.go:44-70 | after a cancel, exactly when the waiting calls and one for each launch under way towards a registered client can |
| `RolloutCrash.ExpiredMayBringDownIff` | consensus.go:165-182 | after a request got too old, its unfinished commands on registered clients count as well |
| `RolloutCrash.CancelledWithClientsThere` | consensus.go:44-70 | where the clients of all queued commands are registered, exactly when a call waits or a launch towards a registered client is under way |
| `RolloutCrash.NoneThereDrains` | execution_coordinator.go:73-151 | where none of them is, exactly when more calls wait than batches are left |
| `RolloutCrash.CancelIsHarmlessIff` | consensus.go:44-70 | a cancel is final and can never stop the server exactly when no call of Next waits and no launch towards a registered client is under way |
| `RolloutMishaps.CancelMayUndoTheServer` | consensus.go:44-70 | for any names there is a run, under all premises of the barrier, after which a cancel is not final and the cancelled request can stop the server |
| `RolloutMishaps.WaitingCallMayBeHarmless` | consensus.go:44-70 | and one after which a call waits for the cancelled request and no continuation stops the server |
| `Coordinator.RegisteredClient.Submit` | server.go:98-107 | the command is on the pending list and on the dispatched list, nothing else changes |
| `Coordinator.RegisteredClient.TakePending` | server.go:1561-1570 | a sweep hands out each pending command once and leaves none pending |
| `Coordinator.RegisteredClient.GetDispatchedCmds` | server.go:136-168 | exactly the commands of the last 14 days are returned and kept |
| `Coordinator.Server.RegisterClient` | server.go:50-76 | a known client keeps its object and commands, an unknown one gets a new object without commands; the client has the new tags and ping, the server gains the tags |
| `Coordinator.Server.CleanupClients` | server.go:85-95 | exactly the clients silent for more than five ping intervals are removed |
| `Coordinator.Server.PutClientCmdState` | server.go:1497-1532 | only the addressed command changes, to the settled state; unknown clients and commands change nothing; Next is spawned exactly when validation ends in finished |
| `Coordinator.Server.PutClientCmdLogs` | server.go:1430-1494 | both buffers grow by the posted lines in order, the state stays |
| `Coordinator.Server.DeleteCommands` | consensus.go:44-56 | every registered client loses exactly the request's dispatched commands, and none of its pending list |
| `Coordinator.ExecutionCoordinatorEntry.ScanBatch` | execution_coordinator.go:53-71 | the nested scan with its early exit decides whether every command of the current iteration on every registered client is finished |
| `Coordinator.ExecutionCoordinatorEntry.CmdsToStart` | execution_coordinator.go:93-127 | the branch per strategy is the batch size |
| `Coordinator.ExecutionCoordinatorEntry.LaunchLoop` | execution_coordinator.go:133-148 | the loop takes the last commands off the queue, last first |
| `Coordinator.ExecutionCoordinatorEntry.Next` | execution_coordinator.go:38-152 | Next on the objects takes the entry's turn and keeps conservation |
| `Coordinator.ExecutionCoordinatorEntry.Launch` | execution_coordinator.go:137-144 | the copy submitted is the assembled command in every field, with the iteration number read, pending and without output |
| `Coordinator.ExecutionCoordinator.Add` | execution_coordinator.go:160-168 | a fresh entry at iteration 0 with all commands queued replaces the request's entry |
| `Coordinator.AssembleCmds` | execution_strategy.go:17-43 | one command per listed registered client, in listing order: the template's text, timeout and id, for that client, by that requester, signed under the client's token |
| `Coordinator.ExecuteStrategy` | execution_strategy.go:13-52 | the new entry is registered under the request with the commands so assembled, and has taken its first turn |
| `Coordinator.RunAtItsClient` | cmd.go:211-344 | a command so assembled is accepted by a client that holds the token, and what it sends makes the server finish it exactly if the script exited zero and every rule holds of the raw streams |
| `Coordinator.ScanAgrees` | execution_coordinator.go:53-71 | the scan over objects and the state machine's scan agree |
| `Coordinator.TurnCommutes` | execution_coordinator.go:93-151 | taking a turn commutes with naming client objects |
| `Coordinator.NextRefines` | execution_coordinator.go:38-152 | Next on the objects leads to the entries that the state machine reaches |
| `Refinement.TiedRepresents` | execution_coordinator.go:53-71 | objects tied to a state show its registered clients and their dispatched commands, no more and no less |
| `Refinement.StatusTies` | cmd.go:44-125 | settling a status on both sides keeps them tied |
| `Refinement.AssemblyAgrees` | execution_strategy.go:20-43 | assembling for client objects gives the state machine's jobs, in its order |
| `Refinement.StatusMessage` | server.go:1497-1532 | with the verdict that the rules of the request's template give on the command's own output, a status message takes the objects where the state machine's takes the state, and spawns Next exactly when it does |
| `Refinement.CancelRequest` | consensus.go:44-56 | deleting a request's commands is the state machine's cancel |
| `Refinement.RemoveSilent` | server.go:85-95 | removing silent clients is the state machine's cleanup of exactly those |
| `Refinement.RegisterOne` | server.go:50-76 | a registration is the state machine's: a new object and handle, or none |
| `Refinement.PurgeOld` | server.go:136-168 | looking up dispatched commands is the state machine's purge of exactly the old ones |
| `Refinement.LandOne` | execution_coordinator.go:137-144 | submitting a launched copy is the state machine's landing, whether or not the client object is still registered, and the copy is of its request's template |
| `Refinement.NextOne` | execution_coordinator.go:38-152 | a call of Next is the state machine's: same lists, the entry that it reaches, the launches that it spawns, the callbacks or the panic |
| `Refinement.NextOfRequest` | execution_coordinator.go:38-152 | and so it is for the coordinator as a whole: every other entry object stays tied to its entry |
| `Refinement.StartOne` | execution_strategy.go:13-52 | executing a strategy is the state machine's start of a request: commands assembled to the order, first turn, launches spawned, and all entry objects tied to their entries |
| `Commands.Cmd.SetState` | cmd.go:44-62 | the mutual recursion with validation terminates, in the settled state |
| `Commands.Cmd.Validate` | cmd.go:65-125 | on a server with the template stored, finished if every rule holds of the stream it names and failed_validation otherwise; unchanged without server or template; Next is spawned with finished only |
| `Commands.MatchOnLine` | cmd.go:89-96 | a text matches exactly if some line contains it |
| `Commands.Cmd.NotifyServer` | cmd.go:128-136 | the local state settles as on the server, Next included where the process is one; signed commands report the state, local ones send nothing |
| `Commands.Cmd.CheckFlushLogs` | cmd.go:139-144 | buffers stay at ten lines and no line is lost or reordered |
| `Commands.Cmd.FlushLogs` | cmd.go:147-173 | everything buffered is posted once, buffers end empty; local commands keep theirs |
| `Commands.Cmd.LogOutput` | cmd.go:176-184 | the line joins what was logged, sent or buffered |
| `Commands.Cmd.LogError` | cmd.go:187-195 | the same for the error stream |
| `Commands.Cmd.ShipStreams` | cmd.go:335-342 | all lines of both streams have been sent in order, wherever the flushes fell |
| `Commands.Cmd.Execute` | cmd.go:211-344 | a client stops at invalid_signature exactly if the signature is not the hash of this text and id under its token; otherwise a signed run emits the status sequence of its outcome and, in small chunks, exactly the lines of its streams, an unsigned one nothing; the local state and spawned Next in each case |
| `Commands.SentByOutcome` | cmd.go:300-344 | outcome by outcome: the statuses in order, both streams in full, and first among the errors the error of a script that failed |
| `Commands.Cmd.ReceiveLogs` | server.go:1478-1490 | a post appends its lines in order |
| `Commands.DeliveredBeforeFlush` | cmd.go:44-62 | before flushed_logs the server holds the last status and all lines, however chunked |
| `Commands.ExecutionVerdict` | cmd.go:44-125 | finished exactly if the script exited zero, its template is stored and every rule holds of the raw stream it names; non-zero exits end failed, killed runs never finish; Next is spawned exactly with finished, and the server ends where a local run would |
| `Commands.VerdictIsSubstringCheck` | cmd.go:80-110 | for newline-free rule texts the line-by-line verdict is a substring check on the raw stream, for both polarities |
| `Lines.Split` | cmd.go:335-340 | lines join to the stream and contain no line end |
| `Lines.ContainsIsSubstring` | cmd.go:92-95 | the scan for a text finds exactly substrings |
| `Lines.LineMatchIsStreamMatch` | cmd.go:89-96 | some line contains a text exactly if the stream does and the text has no line end |
| `Consensus.ConsensusRequest.Start` | consensus.go:79-112 | a request starts at most once and only with a template |
| `Consensus.ConsensusRequest.Check` | consensus.go:122-144 | it starts exactly if one plus its approvers reach the threshold and it has not started |
| `Consensus.ConsensusRequest.Approve` | consensus.go:146-163 | votes of the requester and repeated votes do not count; a counted vote is followed by the check |
| `Consensus.ConsensusStore.AddRequest` | consensus.go:215-239 | without the requester role nothing is stored |
| `Consensus.ConsensusStore.Delete` | consensus.go:58-63 | exactly the request is taken out of the store |
| `Consensus.ConsensusStore.Save` | consensus.go:165-182 | exactly the requests older than 14 days are dropped |
| `Consensus.PostConsensusApprove` | server.go:646-678 | the handler on the objects takes the desk's step, answers whether the vote counted, and starts the strategy when the desk registers an entry |
| `Consensus.PostConsensusRequest` | server.go:727-765 | the same for a new request |
| `Consensus.DeleteConsensusRequest` | server.go:681-724 | the same for a cancel |
| `Consensus.VoteDoes` | consensus.go:146-163 | a vote of another user who has not approved adds exactly him, and executes the request, registering one entry, exactly if that meets the threshold; other votes change nothing but what is too old |
| `Consensus.PostDoes` | consensus.go:215-239 | a post is stored without approvers and started at once exactly if one vote is enough; other requests stay unless too old |
| `Consensus.CancelDoes` | consensus.go:44-70 | a cancel takes off its own request; others stay unless too old |
| `Consensus.StepKeepsBooks` | server.go:646-765 | every handler keeps the equivalence of executed and quorum, and the count of registered entries |
| `Consensus.QuorumIff` | consensus.go:122-163 | over every run, the approvers of a stored request are exactly the users other than its requester who voted on it since it was posted; if its template exists, it is executed exactly if they and the requester reach the threshold; no request registered two entries |
| `Consensus.AddTemplateKeepsBooksIff` | consensus.go:122-144 | adding a template, under whatever id, keeps the equivalence of executed and quorum exactly if it holds of every stored request that names that id already |
| `LongPoll.StepLosesNothing` | server.go:98-114 | insert, signal, sweep and timeout each keep: pending work has a signal or a sweep coming |
| `LongPoll.NoLostWakeUp` | server.go:98-114 | over every interleaving, a pending command implies an unreceived signal or a sweep under way |
| `LongPoll.DeliveredAtQuiescence` | server.go:1559-1575 | at quiescence every submitted command has been in exactly one poll response and nothing else in any |
| `LongPoll.CanDeliver` | server.go:1559-1575 | from any point of any run, one receive per signal and one sweep per receive lead there: every submitted command delivered once |
| `LongPoll.SubmitOne` | server.go:98-114 | submitting to the client object is an insert of the mailbox |
| `LongPoll.SweepOne` | server.go:1561-1570 | the sweep of the client object hands out exactly the response of the mailbox's sweep |
| `RowWindow.LessIsTotal` | data_table/sortable_rowset.go:45-59 | rows are ordered asymmetrically, and any two with different addresses are ordered |
| `RowWindow.LessIsTransitive` | data_table/sortable_rowset.go:45-59 | across ordering columns and directions |
| `Columns.CompareIsLexicographic` | data_table/sortable_rowset.go:48 | cells compare lexicographically |
| `RowWindow.PageReadsInOrder` | data_table/sortable_rowset.go:45-84 | of any two rows of a page, the upper has the greater cell in the first ordering column where they differ if that is "desc", the lesser otherwise, and the greater address if there is none; other columns never matter |
| `RowWindow.TwoNamesInOrder` | data_table/sortable_rowset.go:45-84 | two rows and one column: "asc" shows the lesser name first, "desc" the greater |
| `RowWindow.SortSorts` | data_table/sortable_rowset.go:69-84 | the reference sort is a descending permutation |
| `RowWindow.SortableRowSet.Add` | data_table/sortable_rowset.go:61-67 | the row is dropped by the guard as written, or inserted in its place |
| `RowWindow.SortableRowSet.GetRows` | data_table/sortable_rowset.go:69-84 | the rows at positions start up to limit of the set, greatest first, and no others |
| `RowWindow.SortableRowSet.ColumnByName` | data_table/sortable_rowset.go:22-29 | the first column of that name |
| `RowWindow.FirstRowsStay` | data_table/sortable_rowset.go:61-67 | once full, the set keeps its first limit + 1 rows on top whatever follows |
| `RowWindow.PageAsWritten` | data_table/sortable_rowset.go:61-84 | the page is the page of the sort of the first limit + 1 rows |
| `RowWindow.PageIsTopPageIff` | data_table/sortable_rowset.go:61-84 | with more rows than that, it is the page of the sort of all rows exactly if it is empty by its bounds or every later row is less than the last row it can show |
| `RowWindow.RisingFeedShowsWrongPage` | data_table/sortable_rowset.go:61-84 | a feed longer than limit + 1 that comes in ascending order always shows a wrong page |
| `RowWindow.ThirdRowIsMissed` | data_table/sortable_rowset.go:61-84 | three such rows and a page of one: the second is shown, the third should be |
| `RowWindow.SwappedPageIsTopPage` | data_table/sortable_rowset.go:62 | labelled variant, comparison swapped: always the page of the sort of all rows |
| `RowWindow.SwappedPagesConcatenate` | data_table/sortable_rowset.go:62 | labelled variant: consecutive pages concatenate to the sort |
| `Filter.SearchDefinition.GetRegExp` | data_table/core.go:189-208 | with its cache, succeeds exactly if the search is a regular expression that compiles |
| `Filter.SearchDefinition.IsApplicable` | data_table/core.go:173-181 | caches never change the answer |
| `Filter.SearchDefinition.IsMatch` | data_table/core.go:183-187 | the expression decides if there is one, else whether the lower-cased search is a substring of the lower-cased cell |
| `Filter.FilterRow` | data_table/default_store.go:50-76 | the loop with its early returns gives the verdict of the first cell that settles it, in the order visited |
| `Filter.FirstSettlingCellDecides` | data_table/default_store.go:55-73 | the first cell that hits or misses decides |
| `Filter.VerdictWhenAgreeing` | data_table/default_store.go:50-76 | where the order does not matter: with a global filter some cell hits it, without one no cell misses its column's |
| `Filter.GlobalSearchAccepts` | data_table/default_store.go:50-76 | with a global search alone, in every order of the cells, a row is accepted exactly if some cell matches it |
| `Filter.ColumnSearchesAccept` | data_table/default_store.go:50-76 | without one, exactly if every cell matches the search of its searchable column |
| `Filter.OrderFreeIffAgreeing` | data_table/default_store.go:50-76 | every order of the cells gives one verdict exactly if no cell hits or every missing cell also hits |
| `Filter.TwoVerdicts` | data_table/default_store.go:50-76 | a row with one cell that hits and one that misses is accepted in one order of its cells and not in the other |
| `Filter.DefaultStore.AddRow` | data_table/default_store.go:22-33 | fails without a row set; else counts the row, and keeps and counts it if accepted |
| `Filter.DefaultStore.QueryData` | data_table/default_store.go:39-48 | totals are the rows fed and accepted, the page is cut from what the row set kept, with bounds converted to unsigned 64 bits |
| `Filter.AcceptedOrderFree` | data_table/default_store.go:50-76 | a feed of agreeing rows is accepted alike in every order |
| `KeyParser.ParseKey` | data_table/http_request.go:45-65 | the buffer loop computes the segments of the key |
| `KeyParser.ParseBetweenBrackets` | data_table/http_request.go:45-65 | a key without brackets is its own segment, and any bracket parts a key into two read on their own |
| `KeyParser.ParsePrint` | data_table/http_request.go:45-65 | a printed path of non-empty bracket-free segments parses to itself |
| `KeyParser.ParsePrintParse` | data_table/http_request.go:45-65 | parse, print, parse is parse, for every string |
| `FormTree.TreePostFormValues` | data_table/http_request.go:21-43 | the loop builds the tree of the first values in the order it meets the keys |
| `FormTree.PutExactly` | data_table/http_request.go:25-38 | an insertion fails exactly if a leaf is in its way, and otherwise replaces what is at and below its path and keeps the rest |
| `FormTree.LeavesDetermineTree` | data_table/http_request.go:21-43 | trees without empty nodes that flatten alike are equal |
| `FormTree.BuildFlattens` | data_table/http_request.go:21-43 | compatible entries build a tree that flattens to exactly them |
| `FormTree.BuildInvertsFlatten` | data_table/http_request.go:21-43 | any listing of a tree's leaves builds the tree |
| `FormTree.OrderFreeIffCompatible` | data_table/http_request.go:21-43 | for every form, all iteration orders succeed with one tree exactly if no key's path leads through another's leaf and keys with one path carry one value; keys without values or segments do not matter |
| `FormTree.PostedFormBuilds` | data_table/http_request.go:21-65 | form values posted under a tree's printed leaf paths build that tree, in every order |
| `Numerals.ParsePrinted` | data_table/core.go:122-130 | decimal numerals that fit 64 bits are read back |
| `Numerals.ValueIsDecimal` | data_table/core.go:122-130 | numerals are decimal, the last digit the least |
| `SearchRequest.ParseOrdering` | data_table/core.go:146-160 | the ordering map of the entries visited, or the panic of a wrong shape |
| `SearchRequest.FillColumns` | data_table/core.go:121-125 | each column in the slot its key numbers, or the panic of a bad index or shape |
| `SearchRequest.NewSearchRequest` | data_table/core.go:106-144 | the answer is that of decoding the built tree, for some orders of its loops, or the empty request where there are no form values |
| `SearchRequest.DecodedFields` | data_table/core.go:118-132 | each field of the answer is what the form has at its key |
| `SearchRequest.ColumnFields` | data_table/core.go:218-226 | and so is each field of a column |
| `SearchRequest.AllDirected` | data_table/core.go:146-160 | every column gets its own direction from the order entries |
| `SearchRequest.AllSlots` | data_table/core.go:118-125 | every column ends in its own slot |
| `SearchRequest.DecodeEncode` | data_table/core.go:106-132 | decoding a request's tree gives its columns, directions, paging and search, for every order of the loops |
| `SearchRequest.RequestRoundTrip` | data_table/core.go:106-226 | posting a request as bracketed form values and decoding them gives the request back exactly if it has a column, through key parser, tree builder and decoder; without one it gives the empty request |
| `Ansi.SetupPalette` | console/ansi_up.js:47-83 | the nested loops fill the 256 colours of the closed form |
| `Ansi.SystemColours` | console/ansi_up.js:16-38 | the first sixteen colours of the palette are the system colours, in their order |
| `Ansi.CompleteComposes` | console/ansi_up.js:144-236 | a list of codes that does not end inside an extended colour acts before any continuation as it does alone |
| `Ansi.IncompleteDiffers` | console/ansi_up.js:165-233 | after any other list some continuation acts differently, whatever the style |
| `Ansi.CutsAfterIffComplete` | console/ansi_up.js:144-236 | so a list may be cut exactly where no 38 or 48 group is open |
| `Ansi.GreedyFindsEveryMatch` | console/ansi_up.js:139 | matching the chunk pattern greedily succeeds exactly if the pattern allows any match |
| `Ansi.FindMatchIsLeftmost` | console/ansi_up.js:139 | in multi-line mode the match is at the first start of a line that has one |
| `Ansi.AnsiUp.ExtendColor` | console/ansi_up.js:165-233 | the operands of an extended colour are taken as its mode says, and nothing more without enough of them |
| `Ansi.AnsiUp.ApplyCodes` | console/ansi_up.js:144-236 | the shifting loop is the fold of the codes over the style |
| `Ansi.OneCode` | console/ansi_up.js:158-181 | what each single code does to foreground, background and brightness, from any style |
| `Ansi.ExtendedCode` | console/ansi_up.js:182-233 | an extended colour sets the side its code names, from the palette or from three levels, and nothing if a number is too large |
| `Ansi.ForegroundCodesKeepBackground` | console/ansi_up.js:154-234 | a list without codes for the background and without resets leaves the background alone |
| `Ansi.BackgroundCodesKeepForeground` | console/ansi_up.js:154-234 | and one without codes for the foreground the foreground |
| `Ansi.PaletteMeetsCodes` | console/ansi_up.js:174-233 | palette colours below sixteen are those of the short codes, and a palette colour is the true colour of its levels |
| `Ansi.AnsiUp.ProcessChunk` | console/ansi_up.js:122-283 | without markup the text alone and the style untouched; with it the text in a span if a colour is set |
| `Ansi.AnsiUp.Process` | console/ansi_up.js:108-120 | the first chunk as it is, then one piece per chunk, the style carried across chunks and calls |
| `Ansi.AnsiUp.AnsiToText` | console/ansi_up.js:103-106 | all texts, style untouched |
| `Ansi.SpansCarryTheText` | console/ansi_up.js:98-120 | for every stream and style, the text inside the spans is the text without markup |
| `Ansi.StreamSplits` | console/ansi_up.js:108-120 | a printed stream splits into its texts with their codes |
| `Ansi.StreamRecovered` | console/ansi_up.js:108-283 | from any style, a printed stream gives back each text in order, dressed in the fold of all codes up to it |
| `Ansi.RedThenPlain` | console/ansi_up.js:108-283 | a text after code 31 is shown red on no background, a text after code 0 plain |
| `Ansi.StreamActsAsOneSequence` | console/ansi_up.js:144-236 | where no sequence ends inside an extended colour, all codes so far act as one sequence |

## Left out

- HTTP routing, TLS, JSON, sessions, file storage, process spawning and the network are outcomes given as parameters;
  messages from one client about one command arrive once and in order, transport retries are not modelled.
- Re-encoding of log lines by JSON (invalid UTF-8 is replaced there) is not modelled: lines arrive as they were sent.
- The keyed hash behind a signature is an uninterpreted function of token, text and id; tokens and random identifiers
  are given, and a client that finds a bad signature does not ask for a new token here.
- Restarts: once-only execution is claimed within one process run, because saving and starting are not atomic.
- Data races beyond the modelled gaps (unlocked reads of a command's state and buffers) are not modelled.
- The audit log, start and complete times, notifications, and what callbacks do beyond being triggered.
- A strategy value outside the four known ones panics in the code; stored strategies are taken to be one of the four.
- The role and ownership checks before a cancel are not modelled: a cancel event is one that passed them.
- The red-black tree is an ideal ordered set; two rows never share an address.
- Regular expressions, lower-casing and the printing of cell values are uninterpreted functions.
- Conversions of strings other than plain decimal numerals to integers (hexadecimal, octal, signed with a plus) are
  read as 0.
- FormTree.TreePostFormValues: inserts by rebuilding the path on values; the code's cursor into nested maps updates in
  place, and what an insertion leaves behind when it panics half-way is not modelled.
- A request with missing column slots or no search makes filtering panic; the store is modelled for complete requests.
- Launch goroutines, spawned calls of Next and callbacks are not objects: they exist in the state machine only, and the
  methods report them as results.
- Ansi.AnsiUp.ProcessChunk: models the mode with inline styles only; the class mode sets other attributes on the same
  spans.
- The console's link detection, HTML escaping and the exact spelling of style attributes.
- users.go, user_auth.go, ldap_auth.go, conf.go, notifications.go and http checks would add easy members only.
