# CCB operator: model and proofs

The operator runs calculations on a cluster. A *bulk* lists entries to compute.
The dispatcher pairs pending entries with available workers and creates one
`Calculation` object for each pair. On the worker a reconciler hands the object
to an executor over an unbuffered channel and writes `Processing`. The executor
runs the steps and reports results and errors over two more unbuffered channels
to a result updater, which writes step statuses and `Failed`. The dispatcher
writes the final phase and copies it into the bulk. Losing a worker pod deletes
its work and reopens the bulk entries. Vega calculations also leave their result
in a table that the dispatcher looks up before it schedules. Before the last vega
step, model files are rewritten line by line into a column-sensitive input file.

`dafny verify dfyconfig.toml` checks everything.

## Modules

| module | what it models |
|---|---|
| `Phases`, `CalcStore` | phases; one object of the API server as its versions and the writes that made them |
| `CalcProtocol` | the life of one Calculation as a state machine: every Get, every Update, every send and every watch delivery is a step of its own, and the caches of worker and dispatcher may lag (`pkg/worker/controller.go:101-261`, `pkg/worker/executor/executor.go:65-228`, `pkg/pipelines/vega.go:60-128`, `pkg/dispatcher/calculations/controller.go:118-241`) |
| `CalcInvariants`, `CalcTheorems` | its invariants and its main theorems |
| `PoolMark`, `CalcRuns` | the protocol with the worker's entry in its pool, and concrete runs that end badly |
| `Fleet`, `FleetRuns` | any number of Calculations on any number of workers, each worker with one reconciler, executor and updater; that it cannot deadlock, and how its runs end |
| `RetryLoops` | the retry loops, the updater's loop and the worker's reconcile as methods that update an object |
| `ExecutorRun` | the executor's `Run` as methods of a class, and a simulation that ties it to the protocol's executor |
| `Strings`, `Objects`, `CalculationUtil`, `Scheduler` | API objects, sorted names, the tests on steps and entries, the assignment of entries to workers |
| `ResultStore`, `VegaExecution` | the result table, the vega pipeline that fills it, and the marking of cached entries |
| `Cluster`, `Dispatcher` | the three dispatcher reconcilers, as functions on the object store and as methods of a class |
| `FieldLaws` | what each reconcile of the dispatcher does to the objects, field by field |
| `Conservation`, `Creation`, `PostCalculations`, `Failover` | which entries and post-calculations have a Calculation over every run, what one bulk reconcile creates, and what a lost pod leads to |
| `Incidents` | concrete runs of the whole cluster that end badly |
| `Synspec`, `SynspecFile`, `Kurucz` | the text rewrite per line and per folder, and the Kurucz header |

Two granularities are used. `CalcProtocol` is fine: one object, every
interleaving, stale reads. `Cluster` is coarse: a reconcile of a bulk or of a
pod is one step, a reconcile of a Calculation is a read, a final write and a copy
with any steps of the others in between, and objects, bulks and pools appear and go.

## What the proofs say about the code

Results that hold as one would hope: no update is lost, `Completed` is sound
under stale reads, a default pipeline ends with the same phase under every
interleaving, every run of the fleet ends, the assignment is an exact matching
that does not depend on map order, an entry without input files never has two
Calculations, the rewrite is idempotent.

Results that a reader may not expect. Each has its exact condition, for all runs
or inputs, and a run that reaches it:

* A vega calculation whose command fails can stay in `Processing` for ever. It
  does exactly when the third step never ran and `Failed` was written before
  `Processing` was, which the hand-off before line 131 of
  `pkg/worker/controller.go` allows (`CalcTheorems.VegaOutcome`,
  `CalcRuns.VegaCanStick`).
* An error outside the steps leaves no trace exactly when the dispatcher's final
  write is committed after it; the dispatcher then decided on a version older
  than the error, or the error came before `Processing`
  (`CalcTheorems.ErrorsMasked`, `CalcTheorems.MaskedByOldRead`,
  `CalcRuns.StoreFailureCanBeMasked`).
* A worker that is still busy is marked Available exactly when an error was
  answered. So is one whose executor has returned
  (`PoolMark.AvailableMeansError`, `CalcRuns.AvailableWhileRunning`,
  `CalcRuns.AvailableWithoutExecutor`).
* An input file that cannot be copied ends the executor (`return` at
  `pkg/worker/executor/executor.go:110` and `:119`). What is never executed in the
  end is exactly what was not handed out before, all of it on such workers
  (`Fleet.NoProgressMeansSettled`, `FleetRuns.StrandedIsReachable`).
* An object is left to be handed out, and executed, again exactly when no turn of
  the loop that writes `Processing` lands and nobody else wrote a phase meanwhile
  (`RetryLoops.HandedOutAgain`, `RetryLoops.HandOutTwice`).
* When a pod is lost between a reconcile's read of a running Calculation and its
  copy of the phase, the entry that failover has reopened gets the old phase back
  and is never dispatched again; otherwise no entry in phase `Created` or
  `Processing` is without a Calculation (`Conservation.OrphansExactly`,
  `Conservation.NoWorkLost`, `Incidents.WorkCanBeLost`).
* An entry that is given out gets a Calculation exactly if the hash of its
  content is a free name. A twin, or a post-calculation with the same content,
  blocks it; with input files the hash is of a printed address, and there can be
  two (`Creation.ServedExactly`, `Creation.ServedTwice`,
  `Incidents.TwinCanStarve`, `Incidents.InputFilesDuplicate`).
* Losing a pod loses a post-calculation for good exactly when its first phase had
  been copied back and no Calculation for it was elsewhere
  (`PostCalculations.PodLossLosesPost`, `Incidents.PostCanBeLost`).
* Cached marks are made on a copy that is read again before use
  (`pkg/dispatcher/bulks/controller.go:111-119`), so the reconcile does not
  depend on the result table (`Dispatcher.CachedIsDispatched`,
  `Dispatcher.DispatchCached`).
* The result table is a map exactly as long as no parameter map is first stored
  after a larger one (`ResultStore.TableIsMapExactly`,
  `ResultStore.SubsetStoreOverwrites`).
* The third field of a rebuilt TEFF line keeps its column for temperatures of
  six and seven characters only; the headers this code writes have five below
  10000 (`Synspec.ThirdFieldColumn`, `Kurucz.HeaderRewritten`).

Where code and comments differ, the code is modelled. The comment at
`pkg/pipelines/vega.go:62-63` speaks of continuing an interrupted calculation,
but the loop ranges over the constant step list, whose statuses are always
empty, so every step is run again. `IsAllFinishedCalculations` counts `Created`
as finished.

## Model

| member | source | states |
|---|---|---|
| CalcStore.CommitKeepsStoreInv | pkg/worker/controller.go:125-141 | Whatever order the four writers commit in, each committing only what its own code produces, all invariants of the object's history survive: statuses are kept, Processing is written once, Completed only over finished and failure-free steps, at most one version can be finalised |
| CalcStore.FinalIsLate | pkg/dispatcher/calculations/controller.go:127-144 | A final phase, decided on an older read, is still the one the newest steps decide |
| CalcStore.FinishedFixes | pkg/worker/controller.go:247-260 | Once a version has every status, the statuses of all later versions are the same |
| CalcInvariants.StepKeepsInv | pkg/worker/controller.go:114-261 | Every step of every actor keeps the invariant of the protocol, thirteen conjuncts on history, caches, messages and program counters |
| CalcInvariants.ReachableInv | pkg/worker/controller.go:114-261 | The invariant holds in every state reachable from a fresh object under any interleaving |
| CalcTheorems.NoLostUpdates | pkg/worker/controller.go:229-261 | In every reachable state the object is the replay of the successful writes in commit order; every status written is still there and the phase is that of the last phase write |
| CalcTheorems.UpdatesAreChecked | pkg/worker/controller.go:229-261 | In every reachable state, a step that changes the object is an update by the worker, the updater or the dispatcher that had read the newest version; the new version is the one it read with its one field changed; an update that had read an older version changes nothing but sends its actor back to read a newer one |
| CalcTheorems.ReadsAreOfTheCache | pkg/dispatcher/calculations/controller.go:122-148 | Each read returns the version in the reader's cache, whatever is newer; the worker goes on exactly for Created; the dispatcher goes on to finalise exactly if that version is Processing with no status empty; the phase it copies is that of the version it first read |
| CalcTheorems.EnvironmentIsFree | pkg/worker/executor/executor.go:65-228 | In every reachable state the watches may deliver any later version, every command, link, copy, store, cleanup and pool update may succeed or fail, and the writers that give up may do so |
| CalcTheorems.FaultsExactly | pkg/worker/executor/executor.go:65-228 | A run counts as faulted exactly after a failed setup, link, input copy, pipeline link, preparation, output copy, store or cleanup or a write of the updater that gave up; never because a command failed |
| CalcTheorems.StatusSurvives | pkg/worker/controller.go:247-260 | A committed status is the status in the newest version |
| CalcTheorems.ReplayPhase | pkg/dispatcher/calculations/controller.go:130-144 | Replaying writes leaves the phase of the last phase write, whatever statuses were written after it |
| CalcTheorems.CompletedIsSound | pkg/dispatcher/calculations/controller.go:127-144 | In every version that is Completed every step is Completed, although the dispatcher decides on one read and writes after a later one |
| CalcTheorems.PhaseHistory | pkg/dispatcher/calculations/controller.go:127-136 | Created is never re-entered, Processing is written at most once, Completed only after Processing, and a Completed object can only become Failed |
| CalcTheorems.QuiescentOutcome | pkg/dispatcher/calculations/controller.go:188-241 | With nothing left to do, whatever failed: the bulk entry holds the object's phase; with every step reported it is the phase the steps decide if the final write came after every error, else Failed; with a step missing the object is stuck in Processing exactly when no error was written after Processing |
| CalcTheorems.ErrorsMasked | pkg/dispatcher/calculations/controller.go:127-144 | For every final state with all steps Completed: the object, and its entry, is Completed if and only if a final write was committed and no error after it; this covers errors of setup, copying, storing and cleanup |
| CalcTheorems.MaskedByOldRead | pkg/dispatcher/calculations/controller.go:122-144 | A final write after an error was computed on the one version that passes the finished test; that version is older than the error, or the error was written before Processing was |
| CalcTheorems.Confluence | pkg/worker/executor/executor.go:165-208 | A default pipeline without setup, file or lost-write failure ends, under every interleaving, with every step Completed or Failed and object and bulk entry in phase Failed if a step failed, else Completed |
| CalcTheorems.OrderedDelivery | pkg/worker/controller.go:206-227 | What the updater has handled is what the executor sent minus at most the last message; step indices strictly increase, are in range and had no status; once the executor has left a fault-free default loop none of those is missing |
| CalcTheorems.UnsetBelowProperties | pkg/worker/executor/executor.go:165-168 | The steps that the loop does not skip, listed in order, are exactly those without a status |
| CalcTheorems.VegaStepShape | pkg/pipelines/vega.go:60-128 | Even with status writes dropped, nothing after a failed vega step has a status, and the finished test holds only with the first two Completed, the computed phase being the third step's outcome |
| CalcTheorems.VegaOutcome | pkg/pipelines/vega.go:121-123 | A fault-free vega run is Completed if no step failed; it is stuck in Processing if and only if a step failed, the third never ran, and no error was written after Processing |
| CalcRuns.VegaCanStick | pkg/worker/controller.go:123-131 | A reachable final state, with no fault, in which a failed vega calculation and its bulk entry are in Processing |
| CalcRuns.StoreFailureCanBeMasked | pkg/worker/executor/executor.go:156-161 | A reachable final state in which storing failed, the error was handled and Failed written, and object and entry are Completed |
| CalcRuns.AvailableWhileRunning | pkg/worker/executor/executor.go:205-207 | A reachable state, with no fault, in which the worker's pool entry is marked Available while the executor still has a step to run |
| CalcRuns.AvailableWithoutExecutor | pkg/worker/executor/executor.go:106-120 | A reachable state in which Run has returned and the worker's pool entry is marked Available |
| PoolMark.AvailableMeansError | pkg/worker/controller.go:217-224 | In every reachable state from the hand-off until the executor lets go, the mark is Available if and only if an error has been answered, or only if when pool updates of the updater failed |
| PoolMark.MarkIsOfLastWrite | pkg/worker/controller.go:217-224 | Over any run the mark is Available if and only if an executor that let go, or an answered error whose pool update succeeded, has written it, or it was before, and the reconciler has not marked the worker Processing since |
| PoolMark.AvailableAfterwards | pkg/worker/executor/executor.go:222-225 | Once the executor is back at the receive, or has returned for good, and its messages are answered, the mark is Available |
| Fleet.FleetProjects | pkg/worker/operator.go:51-53 | Seen from one Calculation, a run of the whole fleet is a run of its own protocol |
| Fleet.OneAtATime | pkg/worker/controller.go:206-213 | In every reachable fleet no two Calculations on one worker are both in the reconciler, both in the executor or both at the updater, and no two anywhere both at the dispatcher's reconciler |
| Fleet.WorkersAreIndependent | pkg/worker/operator.go:51-53 | Nothing else holds a Calculation up: while no other one of its worker is in the reconciler, the executor or the updater, every step of its own that is not the dispatcher's is possible, whatever other workers do |
| Fleet.NoProgressMeansSettled | pkg/worker/controller.go:123-227 | When no actor can take a step that is not a failure, a Calculation is not done if and only if it was never handed out, and then an input copy has failed on its worker |
| Fleet.NoDeadlock | pkg/worker/controller.go:123-227 | While a Calculation on a worker with a live executor is not done, some actor can take a step that is not a failure: the waits reconciler, executor, updater never close |
| FleetRuns.StepDecreases | pkg/worker/executor/executor.go:65-228 | Every step but a requeue lowers a lexicographic rank of executor work, commits, deliveries, queue and re-reads |
| FleetRuns.ProgressDecreases | pkg/worker/executor/executor.go:65-228 | The same for the sum over the fleet |
| FleetRuns.RunsEnd | pkg/worker/controller.go:206-227 | Every run without further API failures comes to a stop, with every Calculation done but those never handed out on workers whose executor is dead |
| FleetRuns.RunsEndAlike | pkg/dispatcher/calculations/controller.go:188-241 | Every run with finitely many requeues ends so, with each fault-free default Calculation that was handed out, and its bulk entry, in the phase its statuses decide |
| FleetRuns.DeadExecutorStrands | pkg/worker/executor/executor.go:106-120 | After one failed input copy, a Calculation being handed to that executor stays in the send after any further steps of anyone |
| FleetRuns.StrandedIsReachable | pkg/worker/executor/executor.go:106-120 | A reachable fleet in that state |
| RetryLoops.ApiObject.Update | pkg/worker/controller.go:135-137 | An Update succeeds exactly against the newest version, and then appends one version |
| RetryLoops.ApiObject.Modify | pkg/worker/controller.go:125-141 | The Get-modify-Update loop, for any interference and any lagging reads, equals one atomic write made at most once, and reports success exactly when it was made |
| RetryLoops.LoopIsOneWrite | pkg/dispatcher/calculations/controller.go:130-144 | The loop's write is committed once, after everything the others committed meanwhile, or not at all; nobody's commit is missing from the log |
| RetryLoops.LoopReplays | pkg/worker/controller.go:229-261 | After the loop the object is the replay of its whole log |
| RetryLoops.ApiObject.Handle | pkg/worker/controller.go:229-261 | One message leads to the write it stands for, or to none when the loop gives up |
| RetryLoops.ResultUpdater.Run | pkg/worker/controller.go:206-227 | The select loop over any messages, interference and stop signal: the object after it, which messages made it, and that the worker is marked Available exactly if an error was answered by a pool update that succeeded |
| RetryLoops.UpdaterStatuses | pkg/worker/controller.go:247-260 | While the others write phases only, the statuses after the updater's loop are the old ones overwritten by exactly the results whose loop succeeded, in order received |
| RetryLoops.WorkerReconciler.Reconcile | pkg/worker/controller.go:101-146 | Only an assigned Created object is handed out, as it was read and before its phase is written; a write that gives up fails the reconcile with the hand-off made |
| RetryLoops.LandsExactly | pkg/worker/controller.go:125-141 | The loop makes its write if and only if, before the first failed request, some turn reads the newest version and nobody commits before its Update |
| RetryLoops.HandedOutAgain | pkg/worker/controller.go:123-141 | After the hand-off the object is Created, to be handed out again, if and only if it was, no turn of the loop lands, and the others wrote nothing but step statuses |
| RetryLoops.HandOutTwice | pkg/worker/controller.go:123-141 | Two reconciles that hand out the same object |
| ExecutorRun.Executor.CopyInputs | pkg/worker/executor/executor.go:95-122 | One error for the first file that fails; a failed link leaves the file loop, a failed copy ends Run |
| ExecutorRun.Executor.RunSteps | pkg/worker/executor/executor.go:165-212 | The default loop sends a result for each step without a status and an error after each failed one, and goes on |
| ExecutorRun.Executor.RunVega | pkg/worker/executor/executor.go:125-163 | The vega branch sends the pipeline's results, one error if anything failed, and stores a row only if nothing did |
| ExecutorRun.Executor.Execute | pkg/worker/executor/executor.go:68-225 | Everything sent for one calculation, whether Run goes on, returns or panics, whether the worker is marked Available, and the table afterwards |
| ExecutorRun.TraceExactly | pkg/worker/executor/executor.go:68-212 | The messages for one calculation, case by case on what failed: setup, an input file linked or copied, the pipeline, the outputs, the cleanup |
| ExecutorRun.RowLeft | pkg/worker/executor/executor.go:125-163 | One calculation changes the result table exactly if it is vega and setup, links, preparations, all three commands and the store succeed, by a row under its own temperature and gravity |
| ExecutorRun.Executor.Run | pkg/worker/executor/executor.go:65-228 | Calculations are answered one after another until an input file cannot be copied or the worker cannot be marked, and none after that |
| ExecutorRun.LoopReports | pkg/worker/executor/executor.go:165-208 | The default loop reports step k with outcome p if and only if k had no status and p is its command's outcome; an error is sent if and only if one of them failed |
| ExecutorRun.ExecutorSimulatesCode | pkg/worker/executor/executor.go:65-228 | Under any interference, an executor of the protocol that takes the code's steps has at every moment sent a prefix of what the imperative executor sends, and all of it once it is over; it returns only when an input copy failed |
| ExecutorRun.CodeCanGoOn | pkg/worker/executor/executor.go:65-228 | The code's next step is always enabled in the protocol: only a busy updater holds it up, and only a panic ends it |
| ExecutorRun.TraceIsReached | pkg/worker/executor/executor.go:65-228 | For every environment some reachable state has exactly the messages of the imperative executor sent |
| ExecutorRun.CodeReportsInOrder | pkg/worker/executor/executor.go:165-208 | The imperative executor never reports a step twice, out of order, out of range or over a status |
| CalculationUtil.IsFinishedCalculation | pkg/util/calculations.go:54-61 | True exactly if no step's status is empty |
| CalculationUtil.GetCalculationFinalPhase | pkg/util/calculations.go:63-77 | Failed exactly if some status is Failed, else Completed |
| CalculationUtil.IsAllFinishedCalculations | pkg/util/calculations.go:108-115 | True exactly if no entry is pending or Processing, for any order of the map; Created counts as finished |
| CalculationUtil.GetSortedCreatedCalculations | pkg/util/calculations.go:88-106 | The pending names in increasing order, for any order of the map |
| Strings.SortLists | pkg/util/calculations.go:95 | Sorting distinct names lists their set in increasing order |
| Strings.ListsUnique | pkg/util/calculations.go:88-106 | A set has one increasing listing, so the order of the map cannot matter |
| Strings.LtExactly | pkg/util/calculations.go:95 | Smaller means: a proper prefix, or the smaller byte at the first difference |
| Strings.RankInListing | pkg/util/calculations.go:95 | The k-th name of a listing has exactly k smaller ones in the set |
| Scheduler.SortedAvailable | pkg/dispatcher/bulks/controller.go:199-205 | The available nodes in increasing order, for any order of the map |
| Scheduler.AssignCalculationsToWorkers | pkg/dispatcher/bulks/controller.go:195-223 | The k-th smallest pending entry is paired with the k-th smallest available node, min(pending, available) times, whatever the map orders |
| Scheduler.AssignmentExactly | pkg/dispatcher/bulks/controller.go:195-246 | The k-th Calculation of a round is for the pending entry with k smaller pending names and on the available node with k smaller ones, in phase Created, with exactly the entry's parameters, pipeline and files, the bulk's pool and pattern, labels naming both, and the entry's steps or, for vega, the three literal ones |
| Scheduler.AssignmentLength | pkg/dispatcher/bulks/controller.go:207-221 | A round has the smaller of the number of pending entries and of available nodes |
| Scheduler.AssignmentIsMatching | pkg/dispatcher/bulks/controller.go:207-221 | Exactly min(pending, available) Calculations, each for a pending entry, entries strictly increasing, workers available, and every pending entry covered if there are enough workers |
| Scheduler.AssignmentInjectiveOnNodes | pkg/dispatcher/bulks/controller.go:208-219 | No two Calculations of one round go to the same node |
| Scheduler.AllFinishedNothingToAssign | pkg/dispatcher/bulks/controller.go:125-152 | When all entries count as finished the assignment is empty, so the early return skips no dispatch; it is empty if and only if nothing is pending or nobody available |
| ResultStore.CalculationResultsStore.GetData | pkg/db/store.go:49-63 | The first row, in table order, that has every queried key with the queried value |
| ResultStore.CalculationResultsStore.StoreOrUpdateData | pkg/db/store.go:23-47 | The first matching row gets the new results and keeps the rest; without a match a row is appended; the reply says which; a failed query or save is an error and changes nothing |
| ResultStore.FirstIsFirst | pkg/db/store.go:57-60 | The index found matches and none before it does |
| ResultStore.StoreThenLookup | pkg/db/store.go:29-46 | After a store under p, p reads the stored value, every query that resolves to that row reads it too, and every other query is untouched, for arbitrary key sets |
| ResultStore.FirstMatchIsStable | pkg/db/store.go:29-46 | Once q matches, the row it resolves to, its parameters and its creation time survive any further stores |
| ResultStore.TableRefinesMap | pkg/db/store.go:23-63 | With one key set the table has at most one row per parameter map and answers as a finite map under the same stores |
| ResultStore.TableIsMapExactly | pkg/db/store.go:29-46 | For any key sets: every stored parameter map reads as its last value at every point, whatever the values, if and only if no parameter map is first stored after a proper superset of it was |
| ResultStore.SubsetStoreOverwrites | pkg/db/store.go:29-40 | A store under one key overwrites the row stored under two |
| VegaExecution.Run | pkg/pipelines/vega.go:60-128 | The results sent and whether an error is returned: it stops at the first step whose input or command fails |
| VegaExecution.SentShape | pkg/pipelines/vega.go:60-128 | Results of steps 0, 1, ... in order, all Completed but possibly the last; all three Completed if and only if everything went well |
| VegaExecution.RunBranch | pkg/worker/executor/executor.go:125-163 | A row is stored exactly when linking, all steps, reading fort.7 and the store succeed, under the six-decimal temperature as teff and the six-decimal gravity as log_g |
| VegaExecution.RowsComeFromRuns | pkg/worker/executor/executor.go:138-156 | Over any sequence of runs, a lookup finds a row if and only if some run under these parameters stored; its creation time is that of the first such run and its results are those of the last |
| VegaExecution.ResultsAreOfRuns | pkg/worker/executor/executor.go:138-156 | The same on the parameters themselves: a lookup for a star finds a row if and only if some run stored whose printed temperature and gravity are both those of the star, and the row holds exactly these two values under teff and log_g |
| VegaExecution.SentExactly | pkg/pipelines/vega.go:60-128 | The results sent, case by case: which of the two prepared inputs and three commands failed first |
| VegaExecution.WholeSecondsExactly | pkg/grpc/server.go:49 | A creation time is sent rounded down to the second |
| VegaExecution.ReconcileCalculations | pkg/dispatcher/bulks/controller.go:157-193 | Exactly the entries with an answering store and a row not newer than the bulk, in whole seconds, are marked Cached; exactly failed calls and rows with an unreadable time are reported, and like empty answers they change nothing |
| VegaExecution.CachedMeansRun | pkg/dispatcher/bulks/controller.go:178-189 | Over whole runs an entry becomes Cached if and only if the store answers and the first run that stored under its printed temperature and gravity is, in whole seconds, not newer than the bulk; otherwise, and in every field but the phase, it is as before |
| VegaExecution.CachedNotAssigned | pkg/dispatcher/bulks/controller.go:188-223 | From a marked map the assignment sees as pending exactly the pending entries without an old enough row, and returns no Cached one |
| Dispatcher.Dispatcher.Create | pkg/dispatcher/bulks/controller.go:147-152 | An object whose name is taken is not replaced |
| Dispatcher.Dispatcher.ReconcileBulk | pkg/dispatcher/bulks/controller.go:98-155 | A due post-calculation on an available worker, else the assignment; nothing when the bulk cannot be written back; nothing depends on the result table |
| FieldLaws.DueExactly | pkg/dispatcher/bulks/controller.go:125-144 | A post-calculation is due exactly when its phase is empty and no entry is pending or Processing |
| FieldLaws.PostCreatedExactly | pkg/dispatcher/bulks/controller.go:125-144 | A due bulk with an available worker gets exactly one Calculation, unless its name is taken: with the parameters, steps, files and pipeline of the post-calculation, labelled as one, on that worker; nothing else changes |
| FieldLaws.RoundCreatedExactly | pkg/dispatcher/bulks/controller.go:146-152 | Any other bulk keeps all Calculations there are, and a name is new exactly if something was given out under it, as the first of that name was made |
| FieldLaws.NothingWithoutWorker | pkg/dispatcher/bulks/controller.go:125-152 | Without an available worker a reconcile of a bulk changes nothing, due or not |
| FieldLaws.NothingWithoutPool | pkg/dispatcher/bulks/controller.go:98-125 | Nor does one of a bulk that is missing or whose pool is |
| Dispatcher.CachedIsDispatched | pkg/dispatcher/bulks/controller.go:111-119 | An entry that would be marked Cached gets a Calculation whenever it is given out under a free name |
| Dispatcher.DispatchCached | pkg/dispatcher/bulks/controller.go:111-152 | A reconcile that dispatches an entry whose result is in the table and old enough |
| Dispatcher.Dispatcher.ReconcileCalculation | pkg/dispatcher/calculations/controller.go:118-241 | The final phase is written if due, the phase read before it is copied to the labelled entry or slot, and exactly which missing objects make it fail |
| FieldLaws.CalculationFinalised | pkg/dispatcher/calculations/controller.go:127-144 | After the reconcile the phase is Failed if some status is, else Completed, if it was Processing with no status empty; otherwise it is as before; nothing else of the object, no other Calculation and no pool changes |
| FieldLaws.PhaseCopied | pkg/dispatcher/calculations/controller.go:220-260 | The phase as read, before the final write, goes to exactly the entry or post-calculation slot the labels name, and no other bulk, entry, slot or field changes |
| FieldLaws.FinalisesAsInProtocol | pkg/dispatcher/calculations/controller.go:127-144 | The dispatcher finalises on whole objects exactly what it finalises in the protocol of one Calculation |
| Dispatcher.Dispatcher.ReconcileWorkerInPools | pkg/dispatcher/workers/controller.go:139-172 | In every pool exactly the workers with the pod's name become Unknown |
| Dispatcher.Dispatcher.DeleteAssignedCalculations | pkg/dispatcher/workers/controller.go:174-232 | Each Created or Processing Calculation of the pod is deleted and its entry reopened, in list order, up to the first that cannot be deleted or whose bulk is missing |
| Dispatcher.DeletesUntilKept | pkg/dispatcher/workers/controller.go:195-198 | Up to the first Calculation that cannot be deleted it is failover; that one and the later ones stay |
| Dispatcher.Dispatcher.ReconcilePod | pkg/dispatcher/workers/controller.go:114-137 | Nothing while the pod is there; otherwise both loops, which together are one failover step when labels name existing entries |
| Failover.LoopIsFailover | pkg/dispatcher/workers/controller.go:195-229 | Deleting and reopening one by one, in any order, equals doing it at once, and does not fail |
| Failover.SucceedsExactly | pkg/dispatcher/workers/controller.go:195-229 | Failover succeeds if and only if every Calculation listed with both labels names an existing bulk; otherwise it ends at the first that does not, which is deleted but reopens nothing, and leaves the later ones |
| Failover.FailoverEffect | pkg/dispatcher/workers/controller.go:139-232 | With labels that exist: afterwards no Calculation has the pod's label and phase Created or Processing; every one with another label or phase is kept as it was; an entry is pending again exactly if such a Calculation was labelled with it, and else as before; exactly the workers of the pod's name are Unknown; and no other field of a bulk or worker differs |
| Failover.ListedExactly | pkg/dispatcher/workers/controller.go:174-193 | What failover is given to delete is each Calculation with the pod's label in phase Created or Processing, once, as it is, and no other |
| Failover.FailoverThenAssign | pkg/dispatcher/bulks/controller.go:195-223 | The next assignment gives nothing to the lost pod and covers every reopened entry when enough workers are available |
| Conservation.ReconcileInParts | pkg/dispatcher/calculations/controller.go:118-241 | With nobody in between, read, final write and copy are the calculation reconcile as one step |
| FieldLaws.DecidedOnTheCopyRead | pkg/dispatcher/calculations/controller.go:127-148 | Over a run the final phase is decided on the statuses of the copy read, even if the object has changed since, and only the phase of the object as it then is changes; the reconcile fails if it is gone |
| FieldLaws.CopiedLater | pkg/dispatcher/calculations/controller.go:188-260 | At the end the phase of the copy read at the start goes to the entry or slot of the bulk as it then is, and nothing else changes |
| FieldLaws.OthersGoOn | pkg/dispatcher/calculations/controller.go:118-122 | At any point of such a reconcile bulks are reconciled, pods lost, pools and objects written, and it may fail |
| Conservation.BulkKeeps | pkg/dispatcher/bulks/controller.go:124-152 | A bulk reconcile keeps labels naming slots that exist and names that are hashes of contents |
| Conservation.CopyKeeps | pkg/dispatcher/calculations/controller.go:220-260 | So does copying a phase into a bulk |
| Conservation.PodLostKeeps | pkg/dispatcher/workers/controller.go:195-229 | So does failover |
| Conservation.OneNameOneSlot | pkg/util/calculations.go:50-52 | In every reachable cluster an entry or post-calculation without input files has at most one Calculation, and two of them with equal content never both have one |
| Conservation.OrphansExactly | pkg/dispatcher/calculations/controller.go:220-241 | After any step of anyone an entry is Created or Processing without a Calculation if and only if its phase was just copied from a Calculation read as running and none is left for it, or it was so before and its phase was not just copied |
| Conservation.NoWorkLost | pkg/dispatcher/bulks/controller.go:146-152 | In every run in which no pod is lost between a reconcile's read of a running Calculation and its copy, every Created or Processing entry has a Calculation labelled with it |
| Conservation.OvertakenLosesWork | pkg/dispatcher/workers/controller.go:195-225 | If one is, the copy leaves the entry running without a Calculation if and only if every Calculation for it was lost with the pod |
| Conservation.OrphanStays | pkg/dispatcher/bulks/controller.go:146-152 | Such an entry is never dispatched again |
| Creation.CreateAllExact | pkg/dispatcher/bulks/controller.go:147-152 | Of the Calculations of a round exactly those with a name neither taken nor given to an earlier one are created, and nothing else changes |
| Creation.AddsExactly | pkg/dispatcher/bulks/controller.go:146-152 | An entry gains a Calculation under a name exactly if it is given out under it and it is free; all others keep theirs |
| Creation.ServedExactly | pkg/util/calculations.go:50-52 | Over any cluster an entry given out has a Calculation afterwards if and only if its name was free or it had one before |
| Creation.TwinNotServed | pkg/util/calculations.go:50-52 | The second of two entries with equal content and no input files gets none from a round that gives out both |
| Creation.ServedTwice | pkg/util/calculations.go:50-52 | The Calculations of an entry after two reconciles that give it out, exactly; without one before, they are two if and only if both printed addresses hash to free names |
| PostCalculations.PodLossLosesPost | pkg/dispatcher/workers/controller.go:195-208 | A lost pod leaves the post-calculation slot claiming running work that nobody does if and only if the slot was Created or Processing and every Calculation for it was lost with the pod |
| PostCalculations.UnsetPostComesBack | pkg/dispatcher/bulks/controller.go:125-144 | A slot still empty is due again exactly if all entries count as finished and none was reopened, and the next reconcile with an available worker creates it, off the lost pod, exactly if the name is free |
| PostCalculations.PostStaysLost | pkg/dispatcher/bulks/controller.go:125-144 | A lost post-calculation is never created again |
| Incidents.WorkCanBeLost | pkg/dispatcher/calculations/controller.go:122-233 | A run in which a pod is lost between read and copy, after which an entry is Created with no Calculation, for ever |
| Incidents.TwinCanStarve | pkg/util/calculations.go:50-52 | A run after which one of two entries with equal content is pending without a Calculation, for as long as the other has one |
| Incidents.InputFilesDuplicate | pkg/util/calculations.go:50-52 | A run after which an entry with input files has two Calculations |
| Incidents.PostCanBeLost | pkg/dispatcher/workers/controller.go:195-208 | A run after which a post-calculation slot is Created with no Calculation, for ever |
| Synspec.CollapseTidy | pkg/pipelines/vega.go:175-191 | The collapse leaves no white space but single blanks |
| Synspec.TidyCollapse | pkg/pipelines/vega.go:175-191 | A line without other white space is left alone |
| Synspec.CollapseKeepsWords | pkg/pipelines/vega.go:191 | The collapse keeps the words of a line |
| Synspec.JoinSplit | pkg/pipelines/vega.go:193 | Joining what was split gives the text back, for every separator |
| Synspec.SplitJoin | pkg/pipelines/vega.go:193 | Splitting what was joined gives the fields back, if none holds a blank |
| Synspec.TeffKeepsFields | pkg/pipelines/vega.go:192-193 | A rebuilt TEFF line, read again, has exactly the first five fields of the original in order |
| Synspec.ReplaceExact | pkg/pipelines/vega.go:195 | The replacement keeps the length and changes exactly the two digits of every occurrence |
| Synspec.ReadKeepsFields | pkg/pipelines/vega.go:194-196 | A READ DECK6 72 line keeps the number and lengths of its fields and every byte but those digits |
| Synspec.RewriteTwice | pkg/pipelines/vega.go:189-197 | Rewriting a line twice is rewriting it once |
| Synspec.RewriteKeepsWords | pkg/pipelines/vega.go:189-197 | A TEFF line keeps its first five words, any line of neither kind keeps all |
| Synspec.FieldColumns | pkg/pipelines/vega.go:251-269 | The five fields of a rebuilt line in order, the gap after the first being two blanks before a field of six characters and one otherwise, and one, two and three blanks after the others |
| Synspec.ReplacedDigits | pkg/pipelines/vega.go:195 | A byte of the result is 6 or 4 exactly where READ DECK6 72 had 7 and 2, and else the byte before |
| Synspec.CollapseKeepsBytes | pkg/pipelines/vega.go:191 | The collapse keeps the bytes that are not white space, in order |
| Synspec.IsSpaceExactly | pkg/pipelines/vega.go:175 | White space is blank, tab, line feed, form feed and carriage return |
| Synspec.ThirdFieldColumn | pkg/pipelines/vega.go:251-269 | The third field stands nine columns after the first exactly for second fields of six and seven characters |
| SynspecFile.ReconstructSynspecInputFile | pkg/pipelines/vega.go:172-215 | The nested loops write the rewritten lines of all model files in walk order; a panic of a line, or the first file that cannot be opened or read, or a failed write, ends it with nothing written |
| SynspecFile.ModelLinesExactly | pkg/pipelines/vega.go:172-188 | The lines read are those of the entries that are no directories and begin with the literal prefix, in walk order |
| SynspecFile.ScanExactly | pkg/pipelines/vega.go:186-188 | A line ends at a line feed or at the end of a file that does not end with one, and loses one carriage return |
| SynspecFile.ReconstructTwice | pkg/pipelines/vega.go:172-215 | The rewrite of a folder panics if and only if some TEFF line has fewer than five fields; otherwise every line of the output is ended and free of carriage returns, the line count is kept, the k-th line is the rewritten k-th, and rewriting the output gives the output |
| Kurucz.AtoiItoa | pkg/pipelines/vega.go:168-170 | A printed temperature reads back as itself, for every integer |
| Kurucz.GenerateKuruzInputFile | pkg/pipelines/vega.go:142-166 | The header replaces what stands before the first line break of the template and nothing after it |
| Kurucz.HeaderColumns | pkg/pipelines/vega.go:168-170 | GRAVITY starts at offset 14 if and only if the temperature is from -99999 to 999999; then the six columns before it read back as the temperature, and this is the whole header |
| Kurucz.TruncateExactly | pkg/pipelines/vega.go:155 | The printed temperature is rounded towards zero |
| Kurucz.HeaderRewritten | pkg/pipelines/vega.go:251-269 | A header never makes the rewriter panic, keeps its five words, and has GRAVITY at offset 13 if and only if its temperature prints in five or six characters |

## Left out

- `RetryLoops.ApiObject.Modify` takes the turns of a retry loop as a parameter of any length; the five turns and the back-off of `retry.DefaultRetry` are library constants. In `CalcProtocol` giving up is a step of the updater and of the dispatcher, and a read after a conflict is newer than the version that lost.
- Second hand-off: in `CalcProtocol` the write of Processing does not give up; `RetryLoops.HandedOutAgain` says exactly when it leads to a second one.
- `PoolMark.AvailableMeansError` follows the pool entry as written for one Calculation; a second one that the reconciler has taken up marks the same entry Processing while it waits.
- `Dispatcher.Dispatcher.ReconcileCalculation` has no factory branch (`pkg/dispatcher/calculations/controller.go:150-186`), and runs without interference; `Conservation` takes it apart.
- `Dispatcher.Dispatcher.DeleteAssignedCalculations`: the update that reopens an entry fails only for a missing bulk. Conflicts on bulks and pools are requeues.
- Bulk reads and writes inside a calculation reconcile: one step in `CalcProtocol`; conflicts on the bulk are failures that requeue the reconcile.
- After the panic when the worker cannot be marked Available, and after restarts of worker or dispatcher processes, nothing is modelled.
- A crash between deleting a Calculation and reopening its entry.
- The janitor and deletions by users: conservation is stated without them.
- The factory controller sends on a channel nobody receives from.
- Registration of workers in pools and the other pool helpers (`pkg/util/workers.go`, `pkg/worker/workerpools/workerpools.go`): single-object updates; conservation allows any change of any pool at any time.
- SHA-256 and base32: the name of an object is an arbitrary function of its content and, with input files, of an address in memory.
- Commands, directories, links, rlimits, dumps of output and timeouts: outcomes given from outside. So are the printed six decimals and the printed gravity.
- Timestamps of Calculations, pod phases other than found or not found, and log lines.
- The gRPC transport, JSON encoding, soft deletion and concurrent calls of the result store: each call is one step on an ordered table.
- The template of the synspec runtime file (`pkg/pipelines/vega.go:217-248`) and the scanner's limit of 64 KiB a line, which is one of the faults a file can have.
- HTTP handlers, option parsing, metrics, generated code and deployment files.
