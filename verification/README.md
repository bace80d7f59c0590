# Jasper process management: a verified model

Jasper starts processes, tracks them in managers, and runs commands made of
several processes. This project models the process lifecycle and the state kept
around it, and proves what holds over every interleaving, every run or every
input.

- **Processes** (`Lifecycle`, `Signals`, `Blocking`, `BlockingProofs`,
  `BlockingProgress`, `Basic`, `BasicProofs`, `ProcessObjects`, `Closing`). The
  blocking process is a reactor goroutine that races with the goroutine waiting
  for the executor, with the process's context, and with any number of client
  calls. The basic process is one finishing closure under a lock. Both are
  transition systems. What is done while a mutex is held is one step, a channel
  operation is one step, and a rendezvous on an unbuffered channel is one step.
  An operation that the blocking process's reactor runs for a client holds no
  mutex across its parts, so a signal's operation is split into reading the signal
  triggers, running each of them, sending or skipping the signal, and replying,
  with anybody else's steps in between. In the basic process `Signal` holds the
  lock for reading, so several calls run at once, each split in the same way, and
  `finish` is split into steps that hold it for writing. Every state carries a
  history of events, and the ordering claims are claims about that history for
  every reachable state; claims about one call are about its events alone.
  `ProcessObjects` has the objects themselves: their critical sections for
  registering triggers and taking the snapshot, proved to be those steps, and the
  basic process's `finish`. `Closing` has the two constructors, and follows the
  options' closers and the loggers' senders to the end of every run.
- **Output** (`Output`). Resolution of standard output and error, with
  redirection, kept writers and loggers that make their senders when first
  resolved, and closing.
- **Managers** (`Manager`, `ManagerObjects`, `SpawnTree`). The process map, the
  logging cache that has to track it, the capacity of the self-clearing manager,
  and the runs of child processes that default triggers spawn.
- **Commands** (`Command`, `Parallel`). Sequential execution with its flags, and
  the fan-out and fan-in of parallel execution.
- **Options** (`CreateOptions`, `WriteFile`, `Wire`). Timeout normalisation,
  copying and storage separation, closers, direct and buffered file writing, and the
  wire form of option trees.

Executors are abstract: an executor has an exit report and a history of calls.
Clocks, UUIDs, the outcome of starting and waiting for processes, the answers of
signal triggers, the success of making a logger's sender, the point where a write
fails, and the success of closers are parameters. Integers
are 64-bit where the source multiplies or converts them (`Wrap64`). The conversion
of a duration to whole seconds goes through floating point in the source; the
timeout results hold for either rounding, and the wire results for any conversion
at all.

What follows the code where its documentation says something else:

- A blocking process whose context is cancelled publishes exit code 0 and no
  success whatever its executor reported (`ReportHidden`), and one that receives
  from the already closed exit channel publishes a nil error although the executor
  reported one (`ErrorHidden`). `PublishedOutcome` says exactly when each part of
  the outcome differs from the report. Death by signal is reported as the signal
  number.
- A signal trigger that the blocking process accepts while a signal is being
  served does not run for it, and the signal goes out without it: every registered
  signal trigger ran exactly when none was accepted in that window
  (`SignalWindow`, `SignalWindowReachable`). The basic process has no such window.
- A trigger registered between the blocking process's trigger step and the
  publication of completion is accepted and never run (`WindowLosesTriggers`).
- A timeout that is not a whole number of seconds passes `Validate` and is then
  rejected by the second validation inside `Resolve` (`FractionsRejected`). Seconds
  so large that their product overflows can get a fraction accepted, or a whole
  number rejected; `WholeSecondsFail` says exactly when.
- When the output or error stream cannot be resolved, the senders made on the way
  stay open: there is one exactly if the first attempt to make one succeeds
  (`ResolveStreams`, `OneLeftOpen`). And a copy of output options shares the loggers, so
  closing both the original and the copy closes each sender twice (`CloseBoth`).
- Children of default triggers bypass the capacity check: the bound holds
  throughout a run exactly when none is created while the manager is full
  (`NeverOverCapacity`, `ChildrenPassTheBound`). Once it is exceeded, it is not
  restored by refusing creations (`PastTheBound`).
- The wire conversions are inverse to each other exactly under the conditions of
  `WireRoundTrip` and `LosslessExactlyWireForm`.
- A file is truncated before two sources of content are rejected, unlike in a
  buffered write, and a buffered write stops at a read without bytes (`BothWays`).
- A buffered write reports a failed portion only if it came with end of file, and
  a read error only if it came with bytes (`WriteBufferedContent`, `LostPortion`,
  `FailingReader`). The contents are complete exactly if every portion arrives
  whole, so success is reported with bytes lost exactly if some portion does not
  and neither of the two cases applies.

## Model

| member | source | states |
|---|---|---|
| BlockingProofs.InvKept | process_blocking.go:117-204 | every step of the reactor, of an operation it is running, of the exit goroutine, the context and any client keeps the whole invariant, so it holds in every interleaving |
| BlockingProofs.OutcomeFrozen | process_blocking.go:130-203 | once `Complete` is set it is never cleared, and error, exit code, success, timeout and end time never change again in any continuation |
| BlockingProofs.WaitsAgree | process_blocking.go:365-395 | any two `Wait` calls not cancelled by their own context return the same exit code and error, those of the published outcome; off the context branch the code is the number of the signal that ended the process, or else the executor's exit code |
| BlockingProofs.CompleteInfoIsFinal | process_blocking.go:207-233 | an `Info` call that reports completion, by whichever branch it returned, reports the final outcome; any other reports a running process without an outcome |
| BlockingProofs.InfoAnswers | process_blocking.go:207-233 | where an `Info` call goes by each of its steps |
| BlockingProofs.RunningAnswers | process_blocking.go:235-272 | what a `Running` call returns, by the step with which it ends: with a reply, whether the executor's process id was positive; without, whether the process is still to be completed |
| BlockingProofs.WaitAnswers | process_blocking.go:365-395 | where a `Wait` call goes by each of its steps: it reads the outcome on seeing completion, ends otherwise only by its own context, and never gets a reply |
| BlockingProofs.CompleteOnce | process_blocking.go:130-203 | `Complete` becomes visible at most once and never while the reactor is in its loop |
| BlockingProofs.OperationsNeverBlock | process_blocking.go:198-377 | while an operation runs its reply channel is empty, so it has room for the one message a step may send; the step that ends it sends exactly one, or none for `Wait` |
| BlockingProofs.SignalContract | process_blocking.go:278-321 | a signal reaches the executor only before completion and only after the signal triggers registered when its operation started all ran, once each, in order, with none skipping; it is the signal asked for, or a kill where Windows cannot express it, sent at most once a call; a `Signal` that returned nil was executed by the reactor, which ran the triggers and then sent the signal or was asked to skip it |
| BlockingProofs.SignalAnswers | process_blocking.go:278-321 | what a `Signal` call returns, by the step with which it ends: with a reply, nil iff the executor took the signal or a trigger asked to skip it; without, an error, unless the call had been received, and then nil iff the final exit code is the signal as it was sent |
| BlockingProofs.SignalWindow | process_blocking.go:292-299 | the triggers that ran before a signal was sent are exactly those accepted before its operation started; they are all that were accepted before the send exactly when none was accepted in between |
| BlockingProofs.NothingAfterSignal | process_blocking.go:292-299 | once the signal is sent nothing more is done for that call, so a trigger accepted in the window never runs for it |
| BlockingProofs.SignalWindowReachable | process_blocking.go:292-299 | a run in which a trigger is accepted in the window and the signal goes out without it, for every trigger and signal |
| BlockingProgress.ReactorFinishes | process_blocking.go:130-203 | once the executor's exit or the context is there to be taken, the reactor alone can run to its end within a stated number of steps, finishing the operation it serves, with the outcome published, every closer called once, the waiters released and the executor closed; and after the loop nobody else's steps hold it back (`NothingHoldsItBack`) |
| BlockingProgress.CallEnds | process_blocking.go:207-395 | once the process is complete every pending `Info`, `Running`, `Signal` or `Wait` call can return by itself within three steps, whatever its own context |
| BlockingProofs.ExecutorContract | process_blocking.go:117-157 | in every interleaving `Success`, `ExitCode` and `SignalInfo` come after the executor's `Wait` returned and before `Close`, and after `Close` there is nothing but a late `Wait` |
| BlockingProofs.TriggersRun | process_blocking.go:160-172 | the triggers that ran are exactly those registered by the trigger step, once each and in order; accepted triggers that never run are exactly those registered after it |
| BlockingProofs.TriggersBeforeComplete | process_blocking.go:323-338 | triggers run and registrations are accepted only before `Complete` is visible; refusals, `Wait` results and sightings of completion come only after |
| BlockingProofs.WindowLosesTriggers | process_blocking.go:160-172 | a new trigger registered between the trigger step and publication is accepted, and no continuation runs it |
| BlockingProofs.WindowReachable | process_blocking.go:175-197 | that window is reachable, here through cancellation |
| BlockingProofs.TagsNeverLost | process_blocking.go:403-422 | the tag set equals the tags in the options, and both equal the replay of all `Tag` and `ResetTags` calls, so publishing the stale snapshot loses none: a tag is there iff it was added since the last reset, or is initial and there was no reset |
| BlockingProofs.PublishedOutcome | process_blocking.go:131-197 | the published outcome, by branch; off the context branch the exit code is the number of the signal that ended the process or else the reported exit code, and a timeout is a kill, or on Windows exit code 1, after the deadline; each of error, exit code, success and timeout differs from the executor's report exactly when the closed channel hid an error, or when the context was taken and the report says something else |
| BlockingProofs.EndTime | process_blocking.go:133-183 | the published end time is the time at which the reactor took its copy of the information, in every run from there |
| BlockingProofs.ReportPublished | process_blocking.go:132-174 | for every report, a run without cancellation that publishes it as it is |
| BlockingProofs.ErrorHidden | process_blocking.go:121-134 | for every failing report, a run that completes with a nil error although the executor reported one |
| BlockingProofs.ReportHidden | process_blocking.go:175-197 | for every report, a run that completes through the context with exit code 0, no success and the context's error although the executor reported that |
| BlockingProofs.OptionsClosedOnce | process_blocking.go:52-57 | the options' closers have each been called exactly once, in order, after the trigger step and none before, on the exit branch and on the context branch |
| BasicProofs.InvKept | process_basic.go:82-117 | every step of every participant keeps the invariant, with `finish` and every `Signal` call split while they hold the lock |
| BasicProofs.EveryAcceptedTriggerRuns | process_basic.go:92-116 | when the waiters are released the triggers run are exactly the accepted ones, once each, in registration order; before that they are a prefix |
| BasicProofs.TriggersBeforeObservers | process_basic.go:122-194 | whenever a client sees completion or an uncancelled `Wait` returns, every accepted trigger has run, and none is accepted or run afterwards |
| BasicProofs.RefusedNeverRuns | process_basic.go:179-194 | a refused trigger never runs unless the same trigger was also accepted |
| BasicProofs.OutcomeFrozen | process_basic.go:92-115 | once complete, information and error never change in any continuation |
| BasicProofs.WaitsAgree | process_basic.go:162-177 | uncancelled `Wait` calls agree and return the executor's error and the number of the signal that ended the process, or else the reported exit code |
| BasicProofs.WaitAnswers | process_basic.go:162-177 | where a `Wait` call goes by each of its steps |
| BasicProofs.PublishedOutcome | process_basic.go:92-115 | a complete process has the executor's error and success, the number of the signal that ended it or else its exit code, and a timeout iff it was killed, or on Windows exited with code 1, after its deadline; an incomplete one is running without an outcome |
| BasicProofs.ExecutorContract | process_basic.go:82-117 | in every interleaving `Success`, `ExitCode` and `SignalInfo` come after the executor's `Wait` returned |
| BasicProofs.SignalContract | process_basic.go:139-152 | with any number of `Signal` calls at once: a signal is sent only before completion and only after all triggers accepted by then ran for that call, once each, in order, with none skipping; it is the signal asked for, or a kill where Windows cannot express it, sent at most once a call; a call that ran to its end returned nil iff the executor took the signal or a trigger asked to skip it, and only calls on a complete process are turned away |
| BasicProofs.OptionsClosedOnce | process_basic.go:50-56 | the options' closers have each been called exactly once, in order, when the waiters are released, and none while the process runs |
| BasicProofs.FinishCompletes | process_basic.go:92-116 | once the exit is received and the `Signal` calls that hold the lock have returned, which they can, `finish` can run to its end and yields the reported outcome, every trigger in order, then the release of the waiters |
| ProcessObjects.RunTriggers | triggers.go:25-29 | every trigger runs once, in order, and the closing trigger calls each closer once |
| ProcessObjects.RunSignalTriggers | triggers.go:45-51 | every signal trigger runs even after one asked to skip; the signal is skipped iff one asked |
| ProcessObjects.BlockingProcess.constructor | process_blocking.go:41-57 | the tag set is built from the options' tags and the closing trigger is registered |
| ProcessObjects.BlockingProcess.RegisterTrigger | process_blocking.go:323-338 | nil triggers and completed processes are refused; otherwise the trigger is appended; the step of the transition system |
| ProcessObjects.BlockingProcess.RegisterSignalTrigger | process_blocking.go:340-355 | the same for signal triggers |
| ProcessObjects.BlockingProcess.GetTags | process_blocking.go:424-433 | each tag of the set exactly once |
| ProcessObjects.BlockingProcess.SnapshotOnExit | process_blocking.go:136-158 | the snapshot step of the transition system: only the end time is written to the shared information; the snapshot holds the executor's success, the signal's number or else the exit code, and a timeout iff killed after the deadline, or on Windows exited with code 1; the executor is asked in the source's order |
| ProcessObjects.BasicProcess.Finish | process_basic.go:92-115 | the outcome is the executor's report, the exit code being the signal's number if a signal ended the process; every trigger runs in order after the executor was asked and before the waiters are released |
| Closing.NewBlocking | process_blocking.go:32-82 | from options that resolve, a failing start calls every closer exactly once and leaves no process; otherwise none has been called yet, and in every run of the started process each is called exactly once, after exit or cancellation |
| Closing.NewBasic | process_basic.go:30-80 | the same for the basic process; a failing start also closes the executor |
| Closing.BlockingCloses | process_blocking.go:160-195 | in every run of a blocking process no closer is called before the trigger step and each has been called exactly once when it is complete |
| Closing.BasicCloses | process_basic.go:92-116 | in every run of a basic process no closer is called while it runs and each has been called exactly once when the waiters are released |
| Closing.BlockingClosesLoggers | options/create.go:260-263 | at any point of a run of a started blocking process: no logger's sender has been closed before the trigger step, and each has been closed exactly once when the process is complete, for distinct loggers that no other options share |
| Closing.BasicClosesLoggers | options/create.go:260-263 | the same for a basic process: none while it runs, each once when the waiters are released |
| Output.Logger.Resolve | options/logger.go:197-211 | the first success makes the sender and every later call returns that one without another attempt; until then each call tries again |
| Output.ResolveLoggers | options/output.go:122-131 | succeeds iff as many attempts succeed as there are distinct loggers without a sender, and yields the senders in order; failing stops at the first attempt that fails; no made sender is lost, none is made twice, and loggers never share one |
| Output.Output.Validate | options/output.go:68-104 | accepts iff the loggers are valid, no suppressed stream has a writer or is redirected, and every redirected stream leads to one that is not redirected back and has a writer or unsuppressed loggers |
| Output.Output.GetOutput | options/output.go:109-155 | terminates without a redirect cycle, the only flags for which no measure can exist (`RedirectionEnds`); succeeds iff already resolved, no logger is needed, or the missing senders can be made, and otherwise stops at the first attempt that fails; the writer reaches exactly the sinks of `SinksOfStreams`; repeated calls return the same writer and keep what was built |
| Output.Output.GetError | options/output.go:159-200 | the same for standard error |
| Output.Output.SinksOfStreams | options/output.go:109-200 | a stream reaches exactly the writer of the stream it is redirected to, or its own, and every logger unless that stream is suppressed |
| Output.Output.ResolveStreams | options/create.go:239-258 | succeeds iff no logger is needed or the missing senders can be made, and both streams then reach their specified sinks through the same senders; failing closes no sender, each sender made stays with its logger, and one was made iff the first attempt succeeds |
| Output.OneLeftOpen | options/create.go:239-258 | two loggers, the second of which fails: no streams, one sender made and kept, none closed |
| Output.Output.Close | options/output.go:221-242 | after both streams of a validated configuration were resolved, each logger's sender is closed as often as the logger is listed, shared by the streams or not; so exactly once each iff no logger is listed twice |
| Output.CloseBoth | options/output.go:204-242 | resolving a copy makes no new sender, and closing the original and the copy closes each sender twice |
| Output.Output.SilentExactlyWhenConfigured | options/output.go:68-104 | a validated stream reaches nothing exactly when it is not redirected, has no writer, and has no loggers or is suppressed |
| Manager.CacheInStep | manager_basic.go:50-124 | over every run from an empty manager, the ids in the logging cache are exactly those of stored processes whose last insertion, by the operations of the run, was a creation and not a registration; every stored process was inserted by one |
| Manager.ClearRemovesExactlyDone | manager_basic.go:175-186 | `Clear` removes every complete process, no incomplete one, and keeps both maps in step |
| Manager.RefusedExactlyWhenFull | manager_self_clearing.go:59-69 | creation is refused for capacity exactly when `maxProcs` stored processes are all incomplete |
| Manager.NeverOverCapacity | manager_self_clearing.go:59-90 | from a manager within its capacity, at most `maxProcs` processes are stored at every point of a run iff no trigger child is created while `maxProcs` are stored; so always in runs without trigger children |
| Manager.ChildrenBypassCapacity | manager_basic.go:73-85 | children of default triggers are stored however full the manager is |
| Manager.PastTheBound | manager_self_clearing.go:59-69 | once past the bound, no number of further creations is refused for capacity |
| Manager.ChildrenPassTheBound | manager_basic.go:73-85 | for every positive capacity, a run in which one process's children pass it |
| ManagerObjects.LoggingCache.Put | logging_cache.go:107-124 | refuses a nil logger and an existing id, otherwise adds the logger with its access time |
| ManagerObjects.LoggingCache.Remove | logging_cache.go:126-137 | reports a missing id, otherwise removes it |
| ManagerObjects.BasicManager.CreateProcess | manager_basic.go:50-88 | a constructed process enters the map and the cache together and has the default trigger registered iff it had not ended; a failed construction changes nothing |
| ManagerObjects.BasicManager.Register | manager_basic.go:96-124 | refuses a cancelled context, nil, an empty id and an id in use; otherwise stores without caching a logger |
| ManagerObjects.BasicManager.Clear | manager_basic.go:175-186 | the loop over the map does to both maps what `Manager.Clear` says |
| ManagerObjects.SelfClearingManager.CheckProcCapacity | manager_self_clearing.go:59-69 | clears exactly when full and refuses iff still full |
| ManagerObjects.SelfClearingManager.CreateProcess | manager_self_clearing.go:71-82 | the creation step of the runs above, and the completion step if the process had already ended; a refused creation does not reach the basic manager |
| ManagerObjects.SelfClearingManager.Register | manager_self_clearing.go:84-90 | the registration step of the runs above |
| ManagerObjects.RunDefaultTrigger | triggers.go:72-124 | creation is attempted with exactly the options of one list, all of them in order: on timeout the timeout list, otherwise the success or the failure list; the created children have the options of the successful attempts in order, are stored, cached and tagged with the parent's id; failed attempts are passed over; nothing else changes |
| ManagerObjects.EndProcess | triggers.go:68-126 | ending a process of a pool attempts and adds the children of its timeout, success or failure list, or none if its trigger was not registered or a blocking process lost it; this is the step of the runs below on the options of the processes in the pool |
| SpawnTree.RunsBounded | triggers.go:68-126 | every run from one process creates at most `Bound(t)` processes and has at most that many steps; it can go on exactly while a process is left, so a run that cannot go on has ended every process it created |
| SpawnTree.BoundAttained | triggers.go:68-126 | some run ends every process and creates exactly that many |
| Command.Command.GetCreateOpts | command.go:807-825 | succeeds iff no subcommand is malformed |
| Command.Command.Exec | command.go:827-856 | an attempt fails iff its process does not start or, in the foreground, the context is cancelled during the wait or waiting for any held process fails |
| Command.Command.Run | command.go:513-563 | an unmet prerequisite or a run function means that nothing is run or closed; otherwise nothing starts if a subcommand is malformed, the attempts are exactly those up to the first that fails, or all, as far as cancellation allows, between subcommands or during a wait; nil iff none was left out because of cancellation, closing succeeds, and errors are ignored, or no attempt fails, or, with a post hook, it reports no error for any; without hook and cancellation: nil iff closing succeeds and errors are ignored or every process starts and, in the foreground, no wait fails; closed once on every exit, also when processes of an earlier run are held |
| Command.FailsIffSomeFailed | command.go:844-850 | although every held process is waited for again, some attempt fails iff some subcommand fails of its own |
| Parallel.InvKept | command.go:567-623 | every step of every goroutine, the context and the collector keeps the invariant |
| Parallel.SendsNeverBlock | command.go:585-600 | a goroutine that wants to send always finds room, even after cancellation |
| Parallel.AtMostOneEach | command.go:587-599 | each goroutine sends at most one result, and no more than one per subcommand is ever sent |
| Parallel.CollectorProgress | command.go:603-619 | without cancellation a collector that lacks results has one to take or a goroutine yet to send |
| Parallel.CollectsEverything | command.go:602-623 | a collector that finishes took exactly one result from every goroutine, appended a permutation of all processes they returned, and if the inner options have no closers, closed once in total |
| Parallel.RunParallelResult | command.go:586-622 | over any run in which the collector finishes, told of the inner commands: the command's processes are those before and all that inner commands returned; nil iff closing succeeds and errors are ignored or no inner command returned an error or panicked |
| Parallel.CollectorVerdict | command.go:603-622 | success iff closing succeeded and errors are ignored or no result carries one |
| Parallel.CancelledDropsProcesses | command.go:610-618 | a cancelled collector drops the processes and still closes once, if the inner options have no closers |
| Parallel.Prepare | command.go:567-579 | the inner commands get copies of the options, apart from each other and without closers, so in every run the command's closers have been called exactly once when the collector stops and never before |
| CreateOptions.SecondValidation | options/create.go:97-150 | for at most 9223372036 seconds: after an accepted `Validate` a second one succeeds iff the normalised timeout is a whole number of seconds, and then changes nothing |
| CreateOptions.SecondValidationExactly | options/create.go:97-150 | for every 64-bit value: exactly when a second `Validate` accepts what the first made, and exactly when it then changes nothing |
| CreateOptions.WholeSecondsFail | options/create.go:139-143 | acceptance differs from being a whole number of seconds exactly when seconds were given whose product overflows to a fraction above a second or to a negative whole number of seconds |
| CreateOptions.FractionsRejected | process.go:18-29 | validating twice, as `NewProcess` does, accepts exactly the accepted whole-second timeouts |
| CreateOptions.OverflowingSeconds | options/create.go:139-143 | both kinds occur, with inputs: a fraction that passes twice and has its seconds rewritten, and a negative whole second that is rejected; and a product that wraps to a rejected fraction |
| CreateOptions.Create.Validate | options/create.go:97-150 | accepts iff the timeout is zero or at least a second, the seconds are not negative, and if both are given the timeout is their 64-bit product; fills in the timeout from the seconds or the seconds from the timeout |
| CreateOptions.Create.AddEnvVar | options/create.go:305-311 | sets one variable, making a map only if there was none |
| CreateOptions.Create.RegisterCloser | options/create.go:326-332 | appends a closer unless it is nil |
| CreateOptions.Create.Close | options/create.go:316-322 | every closer is called once, in order, whether or not others fail |
| CreateOptions.Create.Resolve | options/create.go:188-266 | success adds the cancel closer of a timeout and the output closer; failure adds the cancel closer iff validation had accepted a timeout |
| CreateOptions.Create.Copy | options/create.go:336-389 | same contents in fresh storage, and no closers |
| CreateOptions.CopyForAll | command.go:807-825 | the copies' environments and tags are disjoint from each other's and from the command's |
| CreateOptions.RecordIds | process_basic.go:30-32 | after all constructors wrote their ids, every process still records its own and the command's environment is untouched |
| CreateOptions.SpawnAll | command.go:781-825 | the two together, for any number of subcommands |
| CreateOptions.Respawn | process_basic.go:154-160 | the new process records its own id and the original's recorded environment is unchanged |
| WriteFile.WriteFile.DoWrite | options/file.go:55-89 | the file is opened, and truncated unless appending, before two sources are rejected; the content of memory or reader is copied to its end or up to the fault, whose prefix stays in the file; success iff one source, no fault and no read error |
| WriteFile.WriteFile.ContentReader | options/file.go:154-167 | rejects exactly two sources; otherwise a reader of the same content, the given one or a new one to which the content is moved |
| WriteFile.PortionsAreOneWrite | options/file.go:91-127 | when every write succeeds, writing in portions leaves what one write of all their bytes leaves |
| WriteFile.WriteFile.ContentBytes | options/file.go:138-151 | an error for exactly two sources; otherwise the whole content with end of file, or the reader's next chunk with how the read ended |
| WriteFile.WriteFile.WriteBufferedContent | options/file.go:94-127 | for every reader, read errors included, and every pattern of faults, partial writes included: the file holds what arrived of each portion in order; it holds all of them iff each arrives whole, where the first request reaches the file or appends; success iff no read error came with bytes and no fault hit the portion that came with end of file, which is content from memory or a last chunk that ends a reader |
| WriteFile.PortionsContents | options/file.go:94-127 | sending portions one by one, whatever the faults, leaves the concatenation of what arrived of each |
| WriteFile.WholeContents | options/file.go:94-127 | what arrived is all of the portions iff each of them arrives whole |
| WriteFile.BothWays | options/file.go:55-127 | the same options written directly and in portions, without faults and read errors: both succeed for the same options; the files agree iff no bytes follow an empty read, or for two sources iff there was nothing to truncate |
| WriteFile.FailingReader | options/file.go:55-127 | a reader that ends with an error, written both ways: the direct write always reports it; the buffered write reports it iff it comes with bytes and no read was empty, and drops those bytes |
| WriteFile.LostPortion | options/file.go:110-112 | a run in which a middle portion is half lost and success is reported |
| Wire.ExportCreateOptions | remote/internal/jasper.ext.go:25-71 | the recursive loops compute `Wire.Export` |
| Wire.ConvertCreateOptions | remote/internal/jasper.ext.go:78-122 | the recursive loops compute `Wire.Convert` and write the seconds back as `Wire.Touched` says |
| Wire.ExportFields | remote/internal/jasper.ext.go:25-71 | where each field of exported options comes from, the three lists included; without output options nothing is suppressed, redirected or logged |
| Wire.ConvertFields | remote/internal/jasper.ext.go:78-122 | where each field of converted options comes from, the three lists included |
| Wire.TouchedFields | remote/internal/jasper.ext.go:79-81 | converting changes its options in missing seconds alone, also in the trees below |
| Wire.WireRoundTrip | remote/internal/jasper.ext.go:25-122 | converting an exported wire tree gives it back exactly when output options are present at every node |
| Wire.TripIsProjection | remote/internal/jasper.ext.go:73-122 | for any local tree, convert-export-convert equals convert |
| Wire.LosslessExactlyWireForm | remote/internal/jasper.ext.go:73-122 | a trip gives the local tree back exactly when no field that never travels is set and the timeout matches its seconds, at every node |
| Wire.TouchedConvertsAlike | remote/internal/jasper.ext.go:79-81 | the seconds written back do not change what is converted |
| Wire.SubSecondsTruncated | remote/internal/jasper.ext.go:79-81 | a trip truncates the sub-second part of a timeout iff there is none or the conversion to seconds did not round up |

## Left out

- REST, gRPC and MongoDB-wire services and clients, the CLI and the SSH client.
- Local, SSH and Docker executors, job objects, cgroups and OOM log parsing; an executor is an exit report and a history of calls.
- Argument splitting, logging senders, job queues, hashing and codecs; they are opaque values.
- Real time and fairness: times are integers, and no claim is made that a step is eventually scheduled.
- Memory-model questions about unsynchronised accesses: the blocking process's end time written under a read lock, its signal triggers read without the lock, and the basic process's tags, whose consistency is not claimed.
- The nested `Info` call inside a blocking `Signal` that saw completion is one read, since completion is published by then.
- The logging cache's `Create`, `Get`, `Prune`, `CloseAndRemove` and `Clear`, which look up, add and close loggers on request of other clients, past the process map, and the managers' `List`, `Get` and `Group`, which look up stored processes by filter, id and tag.
- Output.Logger.Resolve: every producer makes a sender of its own; an inherited logger wraps the process-wide sender of the logging library instead (options/logger_producers.go:126-146), so for several of those the closing of distinct senders is not modelled. Combining several senders into one is assumed not to fail.
- Command.Command.Run: a pre hook that modifies options is not modelled; what it does to a process is part of how the subcommand behaves.
- CreateOptions.Create.Copy: arguments, input bytes and the three trigger lists are copied like the tags and are not fields of this model; the options in a trigger list are shared with the copy, and every trigger copies them again before use. Output options are copied in `Output.Output.Copy`.
- CreateOptions.Create.Resolve: whether building the executor and resolving the streams succeeds are inputs here; the streams are in `Output.Output.ResolveStreams`. Working directory and environment passing are not modelled.
- Logger configurations on the wire are opaque and their conversion does not fail; payload-format and signal tables are not modelled.
- WriteFile.WriteFile.WriteBufferedContent: a portion is taken through the wire, which drops the reader, as all callers in the repository do; that gRPC portions share one stream, whose result arrives at its end, is not modelled.
- WriteFile.WriteFile.DoWrite: readers that return no bytes a hundred times in a row, which the buffering reader rejects, are not modelled.
- Directories, permissions and file descriptors: an error before the file is open is one fault.
- A manager's `Close` ends its running processes and leaves its maps as they are; in the runs such ends are `Completes` steps.
- Option trees are finite; sharing and cycles between options of different nodes are not modelled.
