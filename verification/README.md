# pufferd, verified model

pufferd supervises game servers: it starts them from a shared queue, restarts them after a crash
a limited number of times, waits for them at shutdown, and keeps its list of servers in step with
json files on disk. This project models that core in Dafny and proves what it guarantees.

The supervision protocol is concurrent, so it is modelled as a transition system in which one
action is one line of one goroutine:

- `Environment.dfy` is one environment object: `ttyExecuteAsync`, `IsRunning`,
  `WaitForMainProcessFor` and `handleClose` of the tty environment, the different order of the same
  lines in the standard environment, and the lines of `Program.Start` that lead up to them.
  `EnvironmentInvariant.dfy` proves what every line keeps, `EnvironmentTheorems.dfy` the results, for
  both kinds; `StandardTheorems.dfy` is what the standard environment keeps under less.
- `Supervisor.dfy` is the whole daemon: any number of programs with their environment objects, the
  start queue with its ticker and processor, the `afterExit` callbacks, reload, direct starts, and
  the goroutines of `Shutdown`. `SupervisorTheorems.dfy`, `RestartBound.dfy`, `RestartTheorems.dfy`
  and `ShutdownTheorems.dfy` hold the results about whole runs, `ProcessorTheorems.dfy` says when the
  queue processor comes back, and `ReviveTheorems.dfy` when a shutdown can be undone;
  `SupervisorRuns.dfy` lifts runs of one environment to runs of the daemon.
- `Tty.dfy`, `StartService.dfy`, `Programs.dfy` and `ShutdownGroup.dfy` are the same code as objects
  whose methods change their fields. Their contracts are stated with the functions and runs of the
  transition systems, so the results about all interleavings speak about these bodies;
  `CallbackTheorems.dfy` makes that link for `afterExit`.
- `Operations.dfy`, `Registry.dfy` with `RegistryTheorems.dfy`, `WebSockets.dfy`, `Tokens.dfy`,
  `Migrate.dfy` and `Lister.dfy` are the components around it.

## Assumptions that have names

- `Discipline`, at the line `Wait.Wait()` only. `Serialised`: a start passes it while no other start
  is between `Wait.Wait()` and `Wait.Add(1)`. `Released`: also, no close handler is between
  `Wait.Done()` and `Process.Release()`. `Exclusive`: also, none is between `Wait.Done()` and the line
  that clears `mainProcess`. The code locks none of these. For tty, whose handler clears before `Done`,
  they are the same (`TtySerialised`), so serialised starts are all that is assumed there.
  `PassSafeIff` shows for both kinds that each pass is safe exactly when it is exclusive,
  `OneProcessIff` that released passes are exactly what keeps standard at one running process.
- `Policy.idleReload`: a program is reloaded only while nothing runs or starts in its environment.
  `ReloadSafeIff` shows that, with no start of the program under way, a reload is safe exactly when
  `IsRunning` says no.
- The counter test and the increment of `afterExit` are one atomic step, the crash limit is fixed,
  and pre- and post-execution steps succeed or fail from outside. Process ids are not reused.
- A nil dereference in a goroutine ends the daemon, so in the transition systems it is no step.

## Results about the code that its comments do not say

- A failed spawn (`tty.go:66-69`) leaves the wait group raised for ever. It occurs
  (`FirstSpawnFails`), nothing starts after it (`FailedSpawnWedges`), and it is the only thing that
  can keep an environment object from being started again (`StartableIffNotWedged`). It also takes the
  queue with it: a queue start of that program that reaches `ExecuteAsync` never comes back, nothing is
  dequeued any more (`StuckForGood`, `StuckOccurs`), and that is the only way in which the processor
  can be lost (`ProcessorFreeIff`).
- The standard handler calls `Wait.Done()` before it is finished with `mainProcess`
  (`standard.go:178`, `192`), so a start can overtake it. Then the old handler can go on to clear the
  handle of the new run: its process lives, `IsRunning` says no (`LatePassLosesProcess`), and if the
  new handler has not read the handle yet, it dereferences nil. Two running processes are possible
  exactly when the start passed before the old handler released its process (`standard.go:189`), or
  together with another start (`OneProcessIff`). It takes a new process that closes its output
  (`SilencedDoubles`), because `exec.Cmd.Wait` also waits for the output (`standard.go:60-61`); on runs
  without one, serialised starts are enough (`OneUnlessSilenced`).
- A tick delivered before `ShutdownService` returned can undo the shutdown (`PendingTickRevives`):
  exactly if it can reach a queued program that is enabled and whose newest spawn did not fail
  (`RevivedPlainIff`), or, if programs may be reloaded meanwhile, any queued program (`RevivedIff`).
  How much can still be started is bounded by `StartsAfterShutdown`.
- The rollback of a failed `Create` is an undo only when neither the json file nor (once it reached
  the mkdir) the root directory existed before; otherwise it deletes them (`FailedCreateUndoneIff`).
- An empty json file makes `LoadFromFolder` and `Reload` panic, a `Save` that fails right after
  truncating its file leaves one (`ReloadAfterSavePanicsIff`), and `a.json` next to `a.txt` is
  registered twice (`LoadFromFolder`, `LoadedDistinctIff`).
- A token response that is not JSON counts as a successful refresh (`UndecodableBodyBlocks`): a
  refresh that reports success leaves a token exactly if the body was JSON with a non-empty
  `access_token`, and nothing else can be obtained for a minute (`UsableIffTokenDecoded`).

## Model

| member | source | states |
|---|---|---|
| EnvironmentInvariant.StepKeeps | environments/impl/tty/tty.go:43-78 | when Wait.Wait() is passed exclusively, every line of every goroutine of a tty or standard environment keeps the invariant: handle, wait counter, runs, starters and waiters fit together |
| EnvironmentInvariant.WaitMeaning | environments/impl/tty/tty.go:52-64 | under the invariant the wait counter is 0 or 1, and 0 exactly when no run is between its Add and its Done |
| EnvironmentTheorems.HandlerOwnsHandle | environments/impl/tty/tty.go:178-197 | in every interleaving with exclusive passes, each line of a close handler that uses mainProcess finds that run's own handle, and Wait() is entered on its own process and finds one to wait for |
| EnvironmentTheorems.ClearPrecedesInstall | environments/impl/tty/tty.go:52-64 | a new handle is installed only after the handle was cleared and every earlier run was reaped, and is past Done and past its last use of the handle |
| EnvironmentTheorems.WaitCountsRuns | environments/impl/tty/tty.go:62-66 | the wait counter is 0 or 1 and equals the number of runs from their increment until their close handler releases, failed spawns included |
| EnvironmentTheorems.WaiterLeavesAfterRun | environments/impl/tty/tty.go:149-166 | a caller that saw a run alive leaves only after that run was reaped and, in tty, its handle cleared |
| EnvironmentTheorems.WaiterSawRun | environments/impl/tty/tty.go:149-154 | a caller that waits saw the newest run, not yet reaped |
| EnvironmentTheorems.ChecksDecide | programs/program.go:138-168 | where each check of a start leads: on if enabled, not running and prepared, each at its line, else to its end with nothing else changed |
| EnvironmentTheorems.RunningIsLeftAlone | programs/program.go:88-145 | as long as the server is running, no start of any origin runs a pre-execution step, waits for the wait group or touches the process |
| EnvironmentTheorems.GracefulMeansSuccess | environments/impl/tty/tty.go:181-196 | the callback is told of a graceful exit only if that run's process exited successfully |
| EnvironmentTheorems.CallbackTellsTruth | environments/impl/standard/standard.go:176-198 | once the Wait() of a run returned, in every continuation and for both environments: the final callback is told graceful if and only if the process exited successfully and Wait() returned no error, and the extra first callback of standard is made only otherwise and told false |
| EnvironmentTheorems.FailedSpawnWedges | environments/impl/tty/tty.go:62-69 | after a failed spawn no interleaving passes the wait group, spawns, or lets a waiter leave |
| EnvironmentTheorems.StartableIffNotWedged | environments/impl/tty/tty.go:43-78 | in every reachable state some continuation spawns (again) if and only if the newest spawn did not fail |
| EnvironmentTheorems.FirstSpawnFails | environments/impl/tty/tty.go:66-69 | such a state is reachable |
| EnvironmentTheorems.PassSafeIff | environments/impl/standard/standard.go:51-53 | as long as every pass of Wait.Wait() was exclusive: the next one leaves all continuations with at most one unreaped process, and that one found by IsRunning, if and only if no other start is before Wait.Add(1) and no handler is between Done and clearing the handle |
| EnvironmentTheorems.SerialisedTtyOneLive | environments/impl/tty/tty.go:43-78 | a tty environment whose starts never overlap between Wait.Wait() and Wait.Add(1) has at most one live process, the one its handle points to |
| EnvironmentTheorems.TwoRaisingTwoRunning | environments/impl/tty/tty.go:52-62 | every state with two starts between Wait.Wait() and Wait.Add(1) has a continuation to two running processes |
| EnvironmentTheorems.LatePassLosesProcess | environments/impl/standard/standard.go:176-193 | every state in which a start passed Wait.Wait() before an older standard handler cleared the handle has a continuation in which the new process lives and IsRunning says no |
| EnvironmentTheorems.OverlappingStarts | environments/impl/tty/tty.go:44-62 | unserialised starts do reach such a state with two starts, and two running processes |
| EnvironmentTheorems.OverlapWaitsOnOther | environments/impl/tty/tty.go:178-179 | and a handler waits on whatever mainProcess points to: after overlapping starts, the first run's handler can wait on the second run's process |
| StandardTheorems.OneProcessIff | environments/impl/standard/standard.go:176-192 | as long as every pass of Wait.Wait() waited for Process.Release(): the next one leaves all continuations with one running process if and only if no other start is before Wait.Add(1) and no handler is between Wait.Done() and Process.Release() |
| StandardTheorems.ReleasedOneLive | environments/impl/standard/standard.go:51-77 | on runs whose passes all waited for the release there is at most one unreaped process, whatever the processes do with their output |
| StandardTheorems.OneUnlessSilenced | environments/impl/standard/standard.go:59-61 | with starts that are only serialised, there is at most one running process on every run in which no process closes its output before it ends |
| StandardTheorems.SilencedDoubles | environments/impl/standard/standard.go:176-192 | whenever a start passes Wait.Wait() while an older handler has yet to release, a continuation in which the new process closes its output ends in two running processes, also if all later passes wait for the release |
| StandardTheorems.LatePassOccurs | environments/impl/standard/standard.go:176-181 | such a pass is reachable with exclusive passes before it |
| StandardTheorems.StandardCloses | environments/impl/standard/standard.go:176-198 | the undisturbed lines of the standard close handler make a first callback exactly when the run ended badly, and end in the callback that is told whether it ended well |
| StandardTheorems.SpawnsOwnHandle | environments/impl/standard/standard.go:53-72 | standard starts what mainProcess points to, which is the run of this very start |
| TtyObject.Tty.IsRunning | environments/impl/tty/tty.go:106-117 | the method answers what the machine's running check says of its fields |
| TtyObject.Tty.ExecuteAsync | environments/impl/tty/tty.go:43-79 | refuses a running environment untouched, and otherwise changes the fields as the machine's lines of one start do |
| TtyObject.Tty.HandleClose | environments/impl/tty/tty.go:178-197 | changes the fields as the machine's lines of one close handler do, and reports success exactly for a successful exit without wait error |
| TtyObject.ExecuteRuns | environments/impl/tty/tty.go:43-79 | the undisturbed lines of a start form a legal run with this result |
| TtyObject.CloseRuns | environments/impl/tty/tty.go:178-197 | the undisturbed lines of a close handler form a legal run with this result |
| SupervisorInvariant.EnvsKept | programs/program.go:138-181 | every step of the daemon keeps the invariant of every environment |
| SupervisorInvariant.RetiredKept | programs/program.go:428-436 | an environment object replaced by a reload while idle is dead and stays dead |
| SupervisorTheorems.ReachableOnePerProgram | programs/program.go:88-94 | under both disciplines no reachable state has two live processes of one program, in one environment object or across several, whatever queue starts, direct starts and restarts mix |
| SupervisorTheorems.ReloadSafeIff | programs/program.go:428-436 | at any reload with no start of the program under way, every continuation keeps one process per program if and only if IsRunning said no |
| SupervisorTheorems.ReloadWhileRunning | programs/program.go:428-436 | a reload of a running program is reachable, and leads to its second live process |
| SupervisorTheorems.QueueConserved | programs/program.go:56-88 | on every run the queue plus the accepted pushes equals the programs whose start was begun plus the queue left, in order |
| SupervisorTheorems.NothingAcceptedAfterShutdown | programs/program.go:56-75 | after ShutdownService nothing is pushed any more |
| SupervisorTheorems.CrashCounterCounts | programs/program.go:438-474 | on every run CrashCounter is the number of crash restarts requested since the last graceful exit, never exceeds max(0, limit), and nothing else changes it |
| RestartBound.StepPaid | programs/program.go:77-96 | no step of the daemon costs more than the worth it removes plus the credit of an outside event, for every tariff |
| RestartBound.RunPaid | programs/program.go:77-96 | the same, summed over whole runs |
| RestartTheorems.StartsBounded | programs/program.go:438-474 | processes spawned on any run are at most the outstanding starts, plus outside requests, plus limit + 1 for each graceful callback, for both environments and any number of callbacks per exit |
| RestartTheorems.OutstandingWhenCalm | programs/program.go:470-473 | with nothing in progress the outstanding starts are the queue length plus the remaining crash budgets |
| RestartTheorems.CrashRestartsBounded | programs/program.go:438-474 | from there, without outside requests and graceful exits, further starts are at most that number |
| RestartTheorems.WorkBounded | programs/program.go:77-96 | the number of protocol lines executed is bounded by the starting state, the ticks, the outside requests and the graceful exits: restarts terminate |
| RestartTheorems.DequeuesAfterShutdown | programs/program.go:67-88 | after ShutdownService at most the pending tick and the tick in hand dequeue a program, so at most two |
| RestartTheorems.StartsAfterShutdown | programs/program.go:67-96 | after ShutdownService processes spawned are at most the starts under way, those two ticks, and direct requests |
| ShutdownTheorems.ShutdownNotUndone | shutdown/shutdown.go:37-79 | once ShutdownService returned with no start under way and no tick that will find a program, no run without direct starts spawns a server, and a goroutine that ended without error leaves no process of its program |
| ReviveTheorems.RevivedPlainIff | programs/program.go:67-96 | once ShutdownService returned with no start under way, some run without direct starts and reloads spawns a process, successfully, if and only if a queue entry that the ticks pending or in hand can reach belongs to an enabled program whose environment is not wedged |
| ReviveTheorems.RevivedIff | programs/program.go:67-96 | the same for runs that may reload programs: if and only if the queue is not empty and a tick is pending or in hand |
| ShutdownTheorems.GroupCounts | shutdown/shutdown.go:43-50 | the wait group always equals the number of goroutines that have not ended |
| ShutdownTheorems.AllServersStopped | shutdown/shutdown.go:29-35 | when the group's wait returns on a run on which no Stop returned an error, no environment has a process left |
| ShutdownTheorems.GaveUpIff | shutdown/shutdown.go:65-69 | a goroutine gives up if and only if Stop returned an error to it while its program was running |
| ShutdownTheorems.StopperLines | shutdown/shutdown.go:57-75 | where each line of a goroutine leads: to its end if the program is not running, on to Stop and the wait if it is |
| ShutdownTheorems.CollectedAfterShutdown | shutdown/shutdown.go:44-46 | on every run the snapshot of the registry is taken after the service was shut down, and once |
| ShutdownTheorems.LaunchOrder | shutdown/shutdown.go:48-77 | the goroutines are launched in the order of the snapshot |
| ReviveTheorems.PendingTickRevives | programs/program.go:67-96 | that state is reachable with every environment dead: a tick pending at ShutdownService starts a server afterwards, without any reload |
| ShutdownGroup.LoopLaunches | shutdown/shutdown.go:48-77 | the launching loop is a legal run that leaves every goroutine at its first line |
| ShutdownGroup.ShutdownGroup.Shutdown | shutdown/shutdown.go:37-79 | the service is shut down, the group raised by the number of programs, and every goroutine launched |
| ShutdownGroup.ShutdownGroup.End | shutdown/shutdown.go:49-50 | an ending goroutine lowers the group by one and keeps it equal to the unended goroutines |
| ShutdownGroup.ShutdownGroup.Wait | shutdown/shutdown.go:31-32 | the wait gets through exactly when every goroutine has ended |
| ProcessorTheorems.ProcessorFreeIff | programs/program.go:77-96 | in every reachable state the processor can come back to its queue if and only if it is not inside a start that is at or before Wait.Wait() of ExecuteAsync in an environment whose newest spawn failed |
| ProcessorTheorems.StuckForGood | programs/program.go:77-96 | from there no continuation dequeues anything |
| ProcessorTheorems.StuckOccurs | programs/program.go:88-94 | a failed start followed by a queue start of the same program reaches that state |
| StartService.StartService.StartViaService | programs/program.go:56-65 | pushes at the back exactly while the service is running, as the machine's push does |
| StartService.StartService.ShutdownService | programs/program.go:67-75 | stops pushes and ticker and keeps the queue |
| StartService.StartService.TakeFront | programs/program.go:79-84 | removes and returns the front of the queue, if there is one |
| StartService.StartService.ProcessQueue | programs/program.go:77-96 | over any ticks and arrivals, everything queued or accepted is taken once in order or still queued, at most one per tick |
| CallbackTheorems.CallbackIsAfterExit | programs/program.go:438-474 | the machine's callback lines, undisturbed, change counter and queue as AfterExitOutcome says |
| SupervisorTheorems.DecisionMeaning | programs/program.go:464-473 | the decision line goes on to the push exactly in those two cases, and raises the counter exactly in the second |
| SupervisorTheorems.RestartsOnlyIfConfigured | programs/program.go:464-473 | on every run, no callback told of a graceful exit (of a crash) pushes a program whose restarts after graceful exits (crashes) are off |
| Programs.Program.AfterExit | programs/program.go:438-474 | runs the post-execution steps with the variables, success and rootDir; pushes the program exactly if the service is running, no step failed, and the exit was graceful with restarts after graceful exits on, or a crash with crash restarts on and the counter below the limit; counts exactly the latter and forgets all on a graceful exit |
| Programs.Program.Start | programs/program.go:138-181 | leaves a disabled or running server alone; otherwise runs the steps up to the first failure and launches the main process exactly when there is none |
| Programs.Program.CopyFrom | programs/program.go:428-436 | takes everything from the fresh copy and keeps CrashCounter |
| Programs.Program.Edit | programs/program.go:382-402 | the variables become the order-independent Edited, whatever order the keys come in |
| Programs.EditIdempotent | programs/program.go:382-402 | the same edit twice is the edit once |
| Programs.EditRespectsUsers | programs/program.go:382-402 | an edit changes only values, keeps every variable, and without override neither touches non-editable variables nor admits keys not marked editable |
| Programs.Program.DataToMap | programs/program.go:105-113 | one entry for each variable, with its value |
| Operations.GenerateProcess | programs/operations/operationprocess.go:45-111 | refuses exactly when some direction is undecodable or has no factory, with the first such error; otherwise one operation per direction, in order, made by its factory from exactly the metadata keys with tokens replaced case by case, the replaced environment, and the data with rootDir |
| Operations.OperationProcess.Run | programs/operations/operationprocess.go:117-125 | runs exactly the prefix up to the first failing or nil step, returns that failure, and leaves exactly the rest |
| Operations.OperationProcess.RunNext | programs/operations/operationprocess.go:127-132 | takes the first step, runs it, and returns its outcome |
| Operations.ReachMeaning | programs/operations/operationprocess.go:117-136 | what the executed prefix is, without recursion |
| Registry.Registry.LoadFromFolder | programs/loader.go:49-73 | appends the loadable programs in order, and completes exactly when no entry belongs to an empty file |
| Registry.Registry.GetFromCache | programs/loader.go:209-216 | finds the first program with the id, or none |
| Registry.Registry.Get | programs/loader.go:75-81 | the registered program, or else what Load finds |
| Registry.Registry.Create | programs/loader.go:120-169 | new state and outcome are Created, for every combination of failing calls |
| Registry.Registry.Delete | programs/loader.go:171-207 | new state and outcome are Deleted, for every combination of failing calls |
| Registry.Registry.Save | programs/loader.go:218-226 | new state and outcome are Saved |
| Registry.Registry.Reload | programs/loader.go:228-243 | new state and outcome are Reloaded; CrashCounter is kept |
| RegistryTheorems.DeletedIsGone | programs/loader.go:171-207 | after a deletion without error the id is not registered, its file cannot be loaded, its directory is gone, and nothing else changed |
| RegistryTheorems.DeleteOutcome | programs/loader.go:171-207 | exactly when a deletion fails, with which error, and that nothing has changed if it did so before destroying the server |
| RegistryTheorems.CreatedIsThere | programs/loader.go:120-169 | after a creation without error the server is registered last, its file loads as it was, its directory is there, and nothing else changed |
| RegistryTheorems.CreateOutcome | programs/loader.go:120-169 | exactly when a creation fails or panics, and with which error |
| RegistryTheorems.SavedIsReloaded | programs/loader.go:218-243 | a faultless save changes only the file, and a reload gives the same program back |
| RegistryTheorems.ReloadCases | programs/loader.go:228-243 | what a reload does, case by case of what is on disk: only a decodable file of a known environment changes the program, and only its data |
| RegistryTheorems.CommandsKeep | programs/loader.go:120-226 | after any sequence of commands with any failures, ids are unique and every registered id has its json file |
| RegistryTheorems.CommandRefinesMap | programs/loader.go:120-243 | on the map from id to program that the slice stands for, every command does exactly its insert, removal or replacement |
| RegistryTheorems.CutIsFilter | programs/loader.go:205-205 | the in-place cut removes exactly the program with that id and keeps the order of the rest |
| RegistryTheorems.TableAt | programs/loader.go:209-216 | with unique ids, lookups agree with the map at every position |
| RegistryTheorems.FailedCreateRegistersNothing | programs/loader.go:127-165 | a creation that does not succeed leaves the registered programs alone, whatever fails |
| RegistryTheorems.FailedCreateUndoneIff | programs/loader.go:127-165 | given working clean-up calls, a failed creation is undone if and only if the file, and the directory if it got that far, did not exist before; neither exists after |
| RegistryTheorems.ReloadAfterSavePanicsIff | programs/loader.go:218-243 | a reload after a save panics if and only if the write failed with nothing written, or the file could not be opened and was empty before |
| RegistryTheorems.LoadedDistinctIff | programs/loader.go:58-72 | the loaded ids are unique if and only if no two loadable entries share their stem |
| RegistryTheorems.LoadedConsistent | programs/loader.go:49-73 | a folder whose stems differ loads into a consistent registry |
| WebSockets.WsManager.Write | utils/websockettracker.go:47-71 | attempts every registered socket exactly once in order with the same packet, ends with exactly the ones whose write succeeded, and terminates |
| WebSockets.KeptInOrder | utils/websockettracker.go:54-66 | a socket survives exactly when its write succeeds, in its original place among the survivors |
| WebSockets.WsManager.Register | utils/websockettracker.go:43-45 | appends the connection |
| Tokens.TokenStore.RefreshToken | oauth2/shared.go:39-90 | refreshes exactly when the last refresh is a minute old, the credentials are there and the answer has no error; otherwise changes nothing |
| Tokens.TokenStore.RefreshIfStale | oauth2/shared.go:92-101 | refreshes only a stale token, and then under the same conditions |
| Tokens.TokenStore.RefreshAll | oauth2/ssh.go:48-70 | a run of attempts, each by a stale check or after a 401, refreshes at exactly the times Stamps and ends in the store AfterAll |
| Tokens.RateLimited | oauth2/shared.go:43-46 | at most floor(w / 60s) + 1 refreshes fall into any window of length w, over any run with a clock that does not run backwards |
| Tokens.UsableIffTokenDecoded | oauth2/shared.go:78-89 | a refresh that returns true leaves a non-empty token, throughout the next minute and whatever is tried in it, if and only if the body was JSON with a non-empty access_token |
| Tokens.UndecodableBodyBlocks | oauth2/shared.go:78-89 | a body that is not JSON refreshes exactly when a JSON body without an error would, leaves the empty token, and no attempt in the next minute changes that |
| Migrate.MigrateSteps | cmd/migrate.go:110-124 | panics exactly when a step has no string type; otherwise each step becomes its type and its other keys, in order, and putting the type back gives the original list |
| Migrate.MigrateData | cmd/migrate.go:96-108 | keeps every variable key and every v1 attribute |
| Migrate.MigrateFile | cmd/migrate.go:61-169 | panics exactly when the environment or a step has no string type; otherwise every field of the server is the v1 field it stands for, and the v1 file can be recovered except for its enabled flag, template and other environment attributes |
| Migrate.MigrationLosesExactly | cmd/migrate.go:61-169 | two v1 files migrate to the same server if and only if they differ in nothing but those |
| Lister.ListAt | sftp/requestprefix.go:276-287 | copies the entries from the offset that fit and reports the end exactly when the buffer was not filled or nothing was left |
| Lister.ReadPages | sftp/requestprefix.go:276-287 | pages of any non-zero sizes give a prefix of the listing, the whole of it once in order when the end is seen, which more pages than entries always reach |

## Left out

- EnvironmentTheorems.WaiterLeavesAfterRun: that the handle is cleared is claimed for tty only, because standard lets waiters go before it clears it.
- SupervisorTheorems.ReloadSafeIff: for reloads with no start of the program under way. A start in this model keeps the environment object it arrived at, while Program.Start reads p.Environment again at every use; the two differ only when a reload falls into a start.
- ProcessorTheorems.ProcessorFreeIff: for the same reason it is exact only under the idle-reload discipline; without it, a reload just before line 173 of program.go would send a start that the model counts as lost to the new environment object.
- Programs.Program.Edit: the result of writing the file is given from outside, because the file belongs to the registry.
- Program.Stop, Kill, SendCode and ExecuteInMainProcess: the transition system has the exit of a process as a free step, so they add nothing to it; a stop appears as a shutdown step that succeeds or fails.
- TtyObject.Tty: stdInWriter and the timeout of WaitForMainProcessFor; writing to a server and killing a slow one are not part of the properties.
- Registry.Registry: the slice is a sequence of values, so what a caller of GetAll sees while Delete shifts the shared array is not captured; a pointer to a program is its position.
- Supervisor: the set of programs is fixed during a run; creating and deleting servers while the daemon runs is in module Registry only.
- Supervisor: one call of Shutdown; the second one that entry.go makes after the web server closed would add a second set of goroutines of the same kind.
- A command step started through Execute: it runs in the same environment with a nil callback, and the factories of tty and standard leave the WaitFunction it calls unset.
- Non-atomic crash counting: two callbacks of one program between the test and the increment of the counter.
- Docker and lxd environments, HTTP and websocket routing, the OAuth2 handler, the other commands, downloads, statistics, logging and configuration.
- Path confinement and symlink filtering: decided in apufferi, which is not part of this model; so are token replacement and JSON decoding, which enter as functions and outcomes.
- Token expiry: expires_in is kept as an arbitrary duration; only the one-minute limit is proved.
