# Verification of the containerd runc shim

A Dafny model of the parts of the Rust shim for containerd's runc runtime that are hard to
get right by inspection, and proofs of what they are for. `dafny verify dfyconfig.toml`
checks everything.

| files | what they model |
|---|---|
| `Processes`, `Registry`, `Kernel`, `TaskService` | one process as a value and as an object; the containers map; the Task handlers and the exit pump's search as code over a map of process objects, each method proved to be a step of the protocol |
| `Lifecycle`, `LifecycleInvariant`, `LifecycleTheorems`, `LifecycleProgress` | handlers, exit pump, SIGCHLD reaper, kernel, event channel and wait calls as one concurrent protocol; its invariant; safety over all runs; absence of deadlock and lost wakeups |
| `LifecycleTransitions` | what each handler makes of the runtime's answer, record by record and event by event |
| `LifecycleHistory`, `LifecycleRecords`, `LifecycleWitness` | what becomes of one process's record over a run: restarts of execs, whose exit a waiter is told, what is reported and what is lost; runs that show it |
| `Monitor`, `Reaper`, `Executor` | the pub/sub of exits against "filter the history"; draining all zombies for one signal; running a runtime command and learning its own exit code |
| `StdinHold`, `StdinCopy` | the stdin fifo, its hold, and the copies of any number of starts, interleaved with containerd's writers, CloseIO, aborts and failed starts |
| `IoShutdown`, `IoTasks` | the copy tasks with any number of callers of abort and shutdown in any interleaving; the tasks as an object, and failed exec starts |
| `Utf8`, `Strings`, `Sequences`, `Overlay`, `MountOptions`, `OverlayMount` | compaction of overlay options over UTF-8 bytes, the fold of options into flags, and both together in a mount |
| `MountInfo`, `Umount` | the mountinfo parser against a printer; recursive unmounting over a table of stacked mounts |
| `CgroupMemory` | memory and swap limits on both cgroup versions, with the kernel's side of each write |
| `Publisher` | the event publisher's bounded queue and retries |

Code that updates state in place is a class with methods proved against specification
functions; concurrency is a step relation whose atomic steps are the sections between two
points where a task can be preempted, with runtime results, outcomes of opens, timeouts and
timestamps as free choices. Fields called history (`inst`, `obj`, `log`, `exits`, `closed`,
`passed`, `written`, `attempts` and the like) are in the state for the statements only: no guard of
the shim's own steps reads them.

## Assumptions about the surroundings

- The kernel does not hand out a pid that an unreaped child has, that a registered process
  still carries, or whose exit the reaper or the pump has yet to act on (`Lifecycle.PidFree`),
  and, for commands, that was notified since a live subscription began (`Executor.PidFree`).
- The runtime's pid file names the process that the runtime left behind.
- The receiver of the event channel is never closed; a handler runs to its end.
- A fifo reader sees EOF exactly if the fifo is empty and nobody has it open for writing,
  and is told only if it ever had a writer.
- A mount table is plain: mounts stacked on one point come off from the top, a point with
  mounts below it is busy, mountpoints can be looked up, and each is printed as the root or
  as names with one slash before each. Paths are followed component by component, with ".",
  ".." and a working directory (`Umount.Place`), as if there were no symbolic links.
- Paths that a mount looks up are compared as the kernel is given them, with the working
  directory in front (`Overlay.Resolve`), so "/b" and "//b" count as two. The working
  directory is that of the thread that mounts, which keeps it after a compacted mount.

## Where the code and its comments or purpose part

- The publisher's comment says five attempts; `count > MAX_REQUEUE` makes it six
  (`Publisher.SixAttempts`).
- `trim_flawed_dir` slices a first byte that may not be there or not be a whole character;
  compaction of a doubled or trailing slash right after the shared part names another
  directory, several lowerdir options are each given the whole list, and a relative
  upperdir, workdir, target, or source that is bound or put behind a loop device is looked up
  in another directory. `Overlay.PanicsIff`, `Overlay.KeepsMeaningIff` and
  `OverlayMount.MountKeepsMeaningIff` say exactly when; `OverlayMount.PanicsInMount`,
  `OverlayMount.MistakesInMount` and `OverlayMount.UpperMoves` give lists that a mount
  compacts.
- A bind mount without "ro" keeps the flags of what it binds, so of ["bind", "nosuid"] the
  "nosuid" has no effect; and a remount with no data of anything but a read-only bind mount
  makes no call at all, so ["remount", "ro"] changes nothing (`MountOptions.FlagsInForce`).
- The mountinfo scan never looks at its own starting index and its check for index 5 cannot
  succeed there; a lone dash among the first words makes it panic or misread the line.
  `MountInfo.RoundTripIff` and `MountInfo.ExtraWordsIff` say exactly when a line survives.
  "36 35 98:0 - /mnt rw - ext3 /dev/root rw" panics (`MountInfo.PanicsOnRoot`), and of
  "36 35 98:0 / /mnt rw - - ext3 /dev/root rw" the filesystem is read as "-"
  (`MountInfo.DashAsType`).
- Unmounting recursively takes exactly what is at or below the target only if the target is
  absolute and every component of it is a name (`Umount.PlainIff`). With "/a/", "/a/./b",
  "/a/x/../b" or a relative "b" nothing is unmounted, with an empty target every mount there
  is, and `/` lists only itself and then fails if anything else is mounted.
- Nothing keeps an exec from being started again. One that has stopped then runs again
  (`LifecycleRecords.StoppedStaysIff`, `LifecycleWitness.StoppedExecRuns`).
- Nothing keeps a process that runs from being started again, as an exec, or replaced by an
  exec or a container of the same id, or deleted. Its exit is then never reported:
  `LifecycleRecords.ExitReportedIff` says that an exit is reported exactly if the process was
  STOPPED when it was last registered under its instance, `LifecycleRecords.LostIsSilent`
  that it otherwise never will be, and `LifecycleWitness.RunningExecOverwritten` is a run.
- A waiter is never told of an exit before its call, but perhaps of another one's than it
  waits for. It is told of the one it saw exactly if the process is still registered at the
  reply and no start in between is followed by a mark (`LifecycleRecords.AnswerIsOwnIff`). If
  one is, it is told of a later start's exit (`LifecycleWitness.LaterExitAnswered`); if the
  process is not registered, of nothing or of whatever is under its id by then
  (`LifecycleRecords.AnswerOtherwise`), say of code 0 without a time while the process that it
  waits for runs on (`LifecycleWitness.DeletedExecAnswered`).
- The second section of a delete removes whatever is under the id: the container that was
  deleted exactly if no create of the id has come in between
  (`LifecycleRecords.RemovesOwnIff`, `LifecycleWitness.NewContainerRemoved`).
- A start of an exec leaves the copies of its earlier starts alone, which still read the
  fifo. A copy gives its process all there was until its EOF exactly if no other copy read
  meanwhile (`StdinCopy.DeliveredExactly`, `StdinCopy.ReadByEarlierCopy`), and bytes that a
  client writes between the EOF and the end of the copy's flushing are left behind
  (`StdinCopy.LateByteLost`). The copy of a start that has failed can see EOF without CloseIO.
- A copy whose tasks are shut down while it is being set up can still be running when the
  shutdown returns. A call leaves nothing, however the run goes on without further copies,
  exactly if none is being set up when it begins (`IoShutdown.LeavesNothingIff`,
  `IoShutdown.CopyOutlivesAbort`). In the runc shim the two do not overlap: a start sets its
  copies up while it holds the containers lock, and a delete shuts tasks down only after it
  has held that lock and unregistered the process, or found the init exited, after which no
  start is accepted. Other callers of the io module, which is public, have to see to it
  themselves, such as a shim that sets up copies in one task and shuts down in another.

## Model

| member | source | states |
|---|---|---|
| LifecycleTheorems.NoExitLost | crates/runc-shim/src/service.rs:170-221 | in every reachable state a registered process that is not STOPPED and has a pid is running, or a zombie the reaper has been told of, or its exit is with the reaper, in the pump's queue or in its hand; one that is STOPPED carries the code that very process exited with |
| LifecycleTheorems.ReachableInv | crates/runc-shim/src/task.rs:182-321 | every state that any interleaving of handlers, pump, reaper, kernel and channel can reach satisfies the invariant, so a handler that waited for the runtime still finds the container and process it was called for |
| LifecycleTheorems.StepInv | crates/runc-shim/src/service.rs:170-221 | each atomic step keeps the invariant |
| LifecycleTheorems.RunInv | crates/runc-shim/src/service.rs:170-221 | so does every run |
| LifecycleTheorems.EventOrder | crates/runc-shim/src/task.rs:272-308 | over all the events ever sent, no TaskExit of a process comes after its TaskDelete, no kernel process is reported twice, and the reported code is the one it exited with |
| LifecycleTheorems.DeletedIsGone | crates/runc-shim/src/task.rs:272-308 | once a TaskDelete is sent or about to be, its process is registered nowhere, across both lock sections of a delete and concurrent deletes |
| LifecycleRecords.WaiterHeldIff | crates/runc-shim/src/task.rs:450-455 | over any run, restarts or not, a registered process keeps a waiter's sender if and only if the pump does not mark it in between |
| LifecycleRecords.WokenByMark | crates/runc-shim/src/task.rs:450-455 | between a wait call that blocked and a state in which it no longer does, its process was marked, unless it is not registered then |
| LifecycleTheorems.RightAnswer | crates/runc-shim/src/task.rs:455-467 | the reply to a woken waiter is the record of whatever is registered under the key, "not found" exactly if nothing is, and for its own process has an exit time and, if that is STOPPED, the code it exited with |
| LifecycleRecords.AnswerIsOwnIff | crates/runc-shim/src/task.rs:437-468 | the reply is the exit of the instance registered at the time of the call, as the last mark before the reply recorded it, if and only if that process is still registered at the reply and no start in between is followed by a mark |
| LifecycleRecords.AnswerOfLastMark | crates/runc-shim/src/task.rs:455-467 | while the process is registered, the reply is what the last mark before it recorded, of the instance there was then |
| LifecycleRecords.AnswerOtherwise | crates/runc-shim/src/task.rs:455-467 | and otherwise nothing, or the record of another process, registered under the key since the call |
| LifecycleWitness.DeletedExecAnswered | crates/runc-shim/src/container.rs:124-156 | a run in which a running exec is deleted and another added under its id, and its waiter is answered with code 0 and no time while the process runs on, never to be reported |
| LifecycleRecords.MarkWrites | crates/runc-shim/src/processes.rs:107-113 | what a mark records is the exit code of the instance the process has then, and it stays until the next mark |
| LifecycleTheorems.WaitBlocksIff | crates/runc-shim/src/task.rs:440-453 | exactly which wait calls block, with their sender registered, and which are answered at once (a paused init answers for its execs too) |
| LifecycleTheorems.PausingNeverShows | crates/runc-shim/src/runc.rs:322-335 | no state with the lock free shows PAUSING, as a state or in a report |
| LifecycleTheorems.StoppedIsFinal | crates/runc-shim/src/task.rs:226-235 | once an init process has stopped, its state, pid, exit code and exit time never change again in any run, whatever the requests and runtime results |
| LifecycleTheorems.StoppedExecRestarts | crates/runc-shim/src/runc.rs:441-450 | a command to start an exec can end in success exactly if the runtime succeeded and there is a pid, and then the exec is RUNNING, whatever its state was; otherwise it is as before |
| LifecycleRecords.StoppedStaysIff | crates/runc-shim/src/runc.rs:441-464 | over any run, a stopped process that stays registered is unchanged if and only if no start of it, as an exec, took effect |
| LifecycleRecords.StoppedStepIff | crates/runc-shim/src/runc.rs:441-464 | the same for one step: it changes exactly if a handler that started this exec finishes with success |
| LifecycleWitness.StoppedExecRuns | crates/runc-shim/src/runc.rs:441-464 | a run from the start in which an exec is started, exits, is marked STOPPED and runs again |
| LifecycleWitness.AnyExecStarts | crates/runc-shim/src/runc.rs:456-464 | from any idle state of any run with the init not stopped an exec can be started, whatever its state, and only its state, pid and instance change |
| LifecycleRecords.LostIsSilent | crates/runc-shim/src/container.rs:124-156 | a process that is started anew, replaced or removed before it is marked is lost: nothing is ever registered or reported under its instance again |
| LifecycleWitness.RunningExecOverwritten | crates/runc-shim/src/runc.rs:441-450 | a run in which that happens: the first process exits, everything is idle, and nothing was reported |
| LifecycleWitness.LaterExitAnswered | crates/runc-shim/src/task.rs:437-468 | a run in which a caller waits for a start that exits with 7 and is told 9, the exit of the next start |
| LifecycleRecords.ExitReportedOnce | crates/runc-shim/src/service.rs:197-216 | a marked exit is in the channel's history or with the pump, with its name, instance, code and time, exactly once |
| LifecycleRecords.AdoptedIsAccounted | crates/runc-shim/src/service.rs:170-221 | every adopted kernel process is still registered under its instance, or was until one step that started the exec anew, replaced it or removed it, and if it was marked by then it had been reported |
| LifecycleRecords.ExitReportedIff | crates/runc-shim/src/service.rs:170-221 | at any later time the exit of an adopted process is with the pump or in the channel's history if and only if the process was STOPPED in the last state in which it was registered under its instance |
| LifecycleRecords.RemovesOwnIff | crates/runc-shim/src/task.rs:272-286 | the second section of a delete removes the container whose init the first one looked at, if any, if and only if no create of the id took effect in between |
| LifecycleWitness.NewContainerRemoved | crates/runc-shim/src/task.rs:272-286 | a run in which it removes the container created meanwhile, whose process runs and is never reported |
| LifecycleHistory.StepFollows | crates/runc-shim/src/processes.rs:74-113 | what one step can do to a registered process: a start gives an exec a newer instance, a mark records an exit and drops the waiters, anything else at most adds the caller of a wait |
| LifecycleHistory.FullStep | crates/runc-shim/src/service.rs:170-221 | each step keeps that instances are distinct and only get newer and that marked exits are reported |
| LifecycleProgress.WorkDecreases | crates/runc-shim/src/service.rs:170-244 | every step the shim takes by itself lowers one measure over zombies, queues, the lock, sends, deletes and waiters |
| LifecycleProgress.OwnStepsEnd | crates/runc-shim/src/service.rs:170-244 | so no interleaving of its own steps goes on for ever |
| LifecycleProgress.QuietIsSettled | crates/runc-shim/src/runc.rs:594-648 | a reachable state in which the shim has no step left is in order: the lock is free or its holder waits for a runtime command that still runs, no zombie is unreaped, the channel is empty, and with the lock free every exit has been marked and every sleeping waiter's process is not over |
| LifecycleProgress.AlwaysSettles | crates/runc-shim/src/runc.rs:594-648 | from every reachable state the shim's own steps lead to such a state, within the measure: no deadlock while the lock is held across a runtime command or a full event channel |
| LifecycleTransitions.InitStartEnds | crates/runc-shim/src/runc.rs:204-210 | from every reachable state, a start of an init ends in success exactly if the runtime does; then its record is RUNNING and nothing else in it or any other record differs, and TaskStart is the one event; otherwise nothing differs |
| LifecycleTransitions.ExecStartEnds | crates/runc-shim/src/runc.rs:441-450 | the same of an exec, which also gets the pid and instance that the runtime left, with TaskExecStarted |
| LifecycleTransitions.PauseEnds | crates/runc-shim/src/runc.rs:322-335 | a pause ends in PAUSED with TaskPaused exactly if the runtime succeeds, and in RUNNING without an event otherwise; nothing else differs |
| LifecycleTransitions.ResumeEnds | crates/runc-shim/src/runc.rs:343-355 | a resume ends in RUNNING with TaskResumed exactly if the runtime succeeds, and otherwise leaves everything as it was |
| LifecycleTransitions.CreateEnds | crates/runc-shim/src/task.rs:193-206 | a create that succeeds registers a CREATED init with the pid that the runtime left, no exit, no waiters and no execs, and sends TaskCreate; otherwise nothing differs |
| LifecycleTransitions.DeleteEnds | crates/runc-shim/src/task.rs:272-282 | the first section of a delete changes no record, and puts down the pid, code and time of the init as they are |
| LifecycleTransitions.KillEnds | crates/runc-shim/src/runc.rs:212-227 | a kill changes nothing |
| LifecycleTransitions.PauseThenResume | crates/runc-shim/src/runc.rs:322-355 | over any run, a pause and the resume that ends it give back the very record there was, unless the process is marked in between |
| LifecycleTransitions.RequestsIff | crates/runc-shim/src/task.rs:225-239 | exactly when a handler gets as far as its command: the container is there, a start finds its init not STOPPED and its exec registered, a pause its init RUNNING, a resume its init PAUSED |
| LifecycleTransitions.RequestBegins | crates/runc-shim/src/runc.rs:322-325 | and what it does before it waits: it holds the lock, and only a pause changes a record, to PAUSING |
| LifecycleTransitions.MarkEnds | crates/runc-shim/src/service.rs:196-216 | a mark gives the process that carries the pid the code of its own exit and the time, lets its waiters go, changes no other record, and has TaskExit with its name, pid, code and time sent next |
| LifecycleTransitions.ExecAddEnds | crates/runc-shim/src/container.rs:149-156 | a new exec is CREATED without a pid, an exit or waiters, no other record differs, and TaskExecAdded is announced |
| LifecycleTransitions.WaitChanges | crates/runc-shim/src/task.rs:437-453 | a wait call changes no record but that it may add its sender to the process it waits for |
| LifecycleTransitions.ChannelIsTail | crates/runc-shim/src/service.rs:224-244 | over any run the channel holds the events sent last, in order, and at most 128 |
| LifecycleTransitions.ToldStays | crates/runc-shim/src/task.rs:126-135 | no step that announces nothing loses, doubles or makes up an event on its way to the channel |
| LifecycleTransitions.StatusReported | crates/runc-shim/src/container.rs:82-97 | with the lock free the status reported is PAUSED for a paused init and each of its execs, and otherwise the process's own state |
| LifecycleTransitions.DeleteTells | crates/runc-shim/src/task.rs:272-308 | over any run, the TaskDelete of a container carries the pid, exit code and time that its init had at the delete's first section, the code being the one it exited with if it was STOPPED |
| LifecycleTransitions.ExecDeleteTells | crates/runc-shim/src/container.rs:124-134 | the same of an exec's TaskDelete, at the one step of its delete |
| Tasks.TaskService.BeginStart | crates/runc-shim/src/task.rs:225-239 | refused exactly if the protocol has no such request: container or exec missing, or the init STOPPED; otherwise the objects take its request step |
| Tasks.TaskService.BeginPause | crates/runc-shim/src/runc.rs:322-325 | refused exactly if the init is missing or not RUNNING; otherwise the request step, which leaves PAUSING in the init object |
| Tasks.TaskService.BeginResume | crates/runc-shim/src/runc.rs:343-345 | refused exactly if the init is missing or not PAUSED; otherwise the request step |
| Tasks.TaskService.BeginDelete | crates/runc-shim/src/task.rs:272-282 | refused exactly if there is no such container; otherwise the request step |
| Tasks.TaskService.EndCreate | crates/runc-shim/src/task.rs:193-200 | the finishing step of a create: on success a new object is registered with its pid, on failure nothing |
| Tasks.TaskService.EndInitStart | crates/runc-shim/src/runc.rs:204-210 | the finishing step of an init start |
| Tasks.TaskService.EndExecStart | crates/runc-shim/src/runc.rs:441-450 | the finishing step of an exec start, whatever state the object is in |
| Tasks.TaskService.EndPause | crates/runc-shim/src/runc.rs:326-331 | the finishing step of a pause, which leaves PAUSING either way |
| Tasks.TaskService.EndResume | crates/runc-shim/src/runc.rs:346-351 | the finishing step of a resume |
| Tasks.TaskService.EndDelete | crates/runc-shim/src/task.rs:272-282 | the finishing step of an init delete's first section: what is remembered of the process |
| Tasks.TaskService.Unregister | crates/runc-shim/src/task.rs:283-308 | the step of its second section: whatever is under the id goes, and TaskDelete tells what the first one read |
| Tasks.TaskService.RemoveExec | crates/runc-shim/src/container.rs:124-134 | refused exactly if there is no such exec; otherwise the step that deletes it |
| Tasks.TaskService.NewExec | crates/runc-shim/src/container.rs:149-156 | refused exactly if there is no such container; otherwise the step that adds a fresh exec, in the place of one of that id |
| Tasks.TaskService.Wait | crates/runc-shim/src/task.rs:440-453 | refused exactly if there is no such process; otherwise the step that answers at once or leaves a sender with the process object |
| Tasks.TaskService.Reply | crates/runc-shim/src/task.rs:455-467 | the step in which a woken call is answered from the process object, or not found |
| Tasks.TaskService.HandleExit | crates/runc-shim/src/service.rs:175-221 | the pump's step for the exit in its hand: the process that carries the pid is marked, an init before the execs of its container, and no other object changes; or no process carries it |
| Tasks.TaskService.Search | crates/runc-shim/src/service.rs:175-195 | finds a process that carries the pid if there is one |
| Tasks.AreSteps | crates/runc-shim/src/task.rs:182-468 | which steps of the protocol these contracts name |
| Reaper.Reaper.HandleSigchld | crates/shim/src/asynchronous/mod.rs:445-471 | one SIGCHLD, with children born and dying while it is handled: afterwards no child is dead, every death so far has been reaped exactly once, each one reaped here was notified once with its own code, and the loop ends |
| Reaper.SubscribersHear | crates/shim/src/asynchronous/mod.rs:445-471 | a subscription that was live before the signal hears those exits, in the order of reaping, and nothing else |
| Reaper.HeardCodes | crates/shim/src/asynchronous/mod.rs:447-458 | in numbers: each child that exited is heard with its status, and each one killed with 128 and the signal, in order |
| Reaper.SignalsApart | crates/shim/src/asynchronous/mod.rs:453-455 | so no signal is heard under the code of a normal exit of at most 128 |
| Reaper.Reaper.Round | crates/shim/src/asynchronous/mod.rs:447-470 | one round reaps and notifies at most one child, and says when the loop is over |
| Monitor.Monitor.Subscribe | crates/shim/src/asynchronous/monitor.rs:76-88 | a new id, never used before; the two maps stay each other's index; every channel still holds what the history says |
| Monitor.Monitor.Unsubscribe | crates/shim/src/asynchronous/monitor.rs:126-136 | exactly that id stops being a subscriber, a second time has no effect, nothing received is lost |
| Monitor.Monitor.NotifyTopic | crates/shim/src/asynchronous/monitor.rs:105-124 | exactly the live subscribers of the topic receive the event, once each |
| Monitor.Monitor.NotifyByPid | crates/shim/src/asynchronous/monitor.rs:90-95 | every channel then holds what the history with this notification says: subscribers to pids and to everything get it once |
| Monitor.Monitor.NotifyByExec | crates/shim/src/asynchronous/monitor.rs:97-102 | the same for execs |
| Monitor.Monitor.Notify | crates/shim/src/asynchronous/monitor.rs:90-102 | the same for either kind |
| Monitor.HeardIsBetween | crates/shim/src/asynchronous/monitor.rs:75-137 | what a subscription has received is exactly the notifications after its subscription that concern its topic, in order, without duplicates |
| Monitor.SilentAfter | crates/shim/src/asynchronous/monitor.rs:126-136 | and nothing after its unsubscription |
| Executor.ReturnsOwnCode | crates/runc-shim/src/runc.rs:594-617 | in every interleaving of any number of executions, with other tasks getting in between a child's reaping and its notification, each returns the exit code of the very process it spawned |
| Executor.NeverWaitsInVain | crates/runc-shim/src/runc.rs:635-648 | the receive loop's subscription is live all along, and its child is there, or with the reaper, or its exit is there to be received |
| Executor.SubscribersAsBefore | crates/runc-shim/src/runc.rs:594-617 | the subscribers are the other users and the executions still to unsubscribe, so after success or a failed spawn, despite the second unsubscription, they are as before |
| Executor.QuietIsDone | crates/runc-shim/src/runc.rs:594-648 | when nothing is left to happen by itself every execution is over, has yet to spawn, or its command is running |
| Executor.WorkDecreases | crates/runc-shim/src/runc.rs:635-648 | each receive, unsubscription, reaping and notification lowers one measure |
| Executor.OwnStepsEnd | crates/runc-shim/src/runc.rs:635-648 | so only so many of them follow each other |
| Executor.CommandReturns | crates/runc-shim/src/runc.rs:594-648 | a run in which a command is spawned, exits with any code, and is returned with it |
| Executor.SpawnFailsRun | crates/runc-shim/src/runc.rs:599-606 | a run in which it cannot be spawned |
| Executor.StepInv | crates/runc-shim/src/runc.rs:594-648 | the invariant behind these, kept by every step |
| StdinCopy.EofIsExact | crates/shim/src/asynchronous/io.rs:110-130 | in every interleaving of the copies of any number of starts with containerd's writers and CloseIO, a copy of the tasks in place sees EOF only after CloseIO, with no writer left and the fifo empty, so that everything written has left it |
| StdinCopy.NoEofBeforeCloseIo | crates/shim/src/asynchronous/io.rs:110-130 | before CloseIO an open reader of the tasks in place always has a writer, and no such copy ends by EOF, however often the process is started |
| StdinCopy.DeliveredExactly | crates/shim/src/asynchronous/io.rs:208-229 | a copy that ended by EOF has delivered all that was in the fifo when its reader opened and was written until its EOF if and only if no other copy read in between, and all that was written until its end if and only if moreover no client writes anything after the EOF |
| StdinCopy.LateByteLost | crates/shim/src/asynchronous/io.rs:208-229 | a run in which a byte written after the EOF is lost |
| StdinCopy.ReadByEarlierCopy | crates/runc-shim/src/runc.rs:413-450 | a run of two starts in which a byte that is written after the second goes to the first copy, and the second ends by EOF without it |
| StdinCopy.GivenExactly | crates/shim/src/asynchronous/io.rs:110-130 | from its reader's opening to its EOF a copy is given at most what was there and was written, and all of it if and only if no other copy reads |
| StdinCopy.DeliveredInOrder | crates/shim/src/asynchronous/io.rs:208-229 | what has left the fifo is what was written first, and each copy has delivered, in order, the first of what it read of that |
| StdinCopy.LetsGo | crates/shim/src/asynchronous/io.rs:110-130 | however a copy ends its descriptors are closed, after CloseIO the shim keeps no hold on the fifo, and only an abort, of all tasks or of a failed start's, cancels it |
| StdinCopy.CanBeEnded | crates/shim/src/asynchronous/io.rs:200-229 | after an abort or a failed start every copy that was there can be cancelled at any time, and any copy can fail, and then has nothing open |
| StdinCopy.OpenFails | crates/shim/src/asynchronous/io.rs:113-121 | a copy that one of the three opens fails for ends with nothing open and leaves the hold alone |
| StdinCopy.FailedStartRenews | crates/runc-shim/src/runc.rs:453-464 | after a failed start the tasks are not cancelled, hold nothing, and count a CloseIO that came; every copy there was can be cancelled |
| StdinCopy.UnusedIsEmpty | crates/shim/src/asynchronous/io.rs:100-112 | a fifo that nobody has open is empty |
| StdinCopy.EofArrives | crates/shim/src/asynchronous/io.rs:85-95 | after CloseIO, with containerd's writers gone, there is always a step to take until every copy has ended, also when nobody ever wrote |
| StdinCopy.CopyStepsEnd | crates/shim/src/asynchronous/io.rs:208-229 | and those steps run out, with copies ending by EOF only |
| StdinCopy.StepInv | crates/shim/src/asynchronous/io.rs:85-130 | the invariant behind these, kept by every step: descriptors by phase, CloseIO remembered, every byte in the fifo or out of it once |
| IoShutdown.ReturnsClean | crates/shim/src/asynchronous/io.rs:200-206 | when a call of abort or shutdown has returned, and ever after, no copy that ran or was numbered before it runs, save those just being set up then; the stdin hold is released for good; and if none was being set up and none has been since, nothing runs and no fifo is held, whoever else has a handle on the tasks |
| IoShutdown.NothingUntilNextCopy | crates/shim/src/asynchronous/io.rs:167-206 | the same over the steps of a run: a call that begins while no copy is being set up has left nothing running and no fifo held when it has returned, until another copy is set up |
| IoShutdown.LeavesNothingIff | crates/shim/src/asynchronous/io.rs:167-206 | whatever run goes on with a call of abort or shutdown and sets up no further copy, nothing runs and no fifo is held at its return, if and only if no copy is being set up when it begins |
| IoShutdown.CopyOutlives | crates/shim/src/asynchronous/io.rs:200-206 | if one is, there is a run on which it is spawned in time to be running at the return |
| IoShutdown.CopyOutlivesAbort | crates/shim/src/asynchronous/io.rs:200-206 | and so a run from the start in which an abort returns and a copy runs on |
| IoShutdown.QuietHasReturned | crates/shim/src/asynchronous/io.rs:200-206 | no wait gets stuck: when nothing is left to happen by itself every call has returned |
| IoShutdown.WorkDecreases | crates/shim/src/asynchronous/io.rs:208-229 | and only so many such steps can be taken, in any interleaving |
| IoShutdown.CutOnlyAfterDrain | crates/shim/src/asynchronous/io.rs:175-183 | no copy is cut before some call on the tasks is past its drain |
| IoShutdown.NeverCutInDrain | crates/shim/src/asynchronous/io.rs:171-183 | an output copy spawned before any call is never cut, and has ended by the time any call cancels, however many shutdowns are called, unless an abort is called or a drain times out |
| IoShutdown.DrainsThenCancels | crates/shim/src/asynchronous/io.rs:171-183 | a run in which a shutdown gets through its drain to the cancelling |
| IoShutdown.TimesOutAndCuts | crates/shim/src/asynchronous/io.rs:171-183 | and one in which the drain times out and the copy is cut |
| IoShutdown.HoldMoves | crates/shim/src/asynchronous/io.rs:125-162 | CloseIO can come at any time and only releases the hold; an input copy that is set up takes it unless it has been released |
| IoShutdown.ReleasedForGood | crates/shim/src/asynchronous/io.rs:125-162 | once released by a CloseIO or a call it stays so, whatever copies are set up |
| IoShutdown.StepInv | crates/shim/src/asynchronous/io.rs:167-206 | the invariant behind these, kept by every step of copies, callers and CloseIO |
| IoTasks.IoTasks.CopyFromFifo | crates/shim/src/asynchronous/io.rs:110-130 | the steps that set up and spawn an input copy, exactly if all opens succeed; a CloseIO that came before is kept |
| IoTasks.IoTasks.CopyToFifo | crates/shim/src/asynchronous/io.rs:139-155 | the same for an output copy |
| IoTasks.IoTasks.CloseInput | crates/shim/src/asynchronous/io.rs:159-161 | the hold is released |
| IoTasks.IoTasks.Renew | crates/shim/src/asynchronous/io.rs:187-196 | fresh tasks with nothing running, which are Released exactly if the old ones were |
| IoTasks.IoTasks.AbortBegins | crates/shim/src/asynchronous/io.rs:200-204 | an abort takes its four steps up to the waits |
| IoTasks.ExecIo.StartFailed | crates/runc-shim/src/runc.rs:456-464 | after a failed start the exec has fresh tasks that keep a CloseIO, and the old ones, also for whoever else has a handle on them, are aborted |
| IoTasks.ExecIo.CloseIo | crates/runc-shim/src/processes.rs:191-194 | CloseIO reaches the tasks in place |
| IoTasks.ExecIo.CopyStarts | crates/runc-shim/src/runc.rs:431-431 | a start's copy takes the hold or honours the CloseIO, and runs |
| IoTasks.CloseIoIsKept | crates/runc-shim/src/runc.rs:456-464 | through any sequence of starts, failures and CloseIOs the tasks in place are Released exactly if a CloseIO came, and hold the fifo exactly if a copy started since the last failure and none came |
| IoTasks.AbortFirstInvents | crates/runc-shim/src/runc.rs:458-460 | with the tasks aborted before they are renewed, they would be Released after any failed start as well: a CloseIO made up |
| Overlay.LongestCommonPrefix | crates/shim/src/mount_linux.rs:333-355 | the byte scan with its back-off returns exactly the longest common prefix of characters, for every list, and ends |
| Overlay.BackOff | crates/shim/src/mount_linux.rs:340-352 | backing off to a character boundary loses no shared character |
| Overlay.CommonPrefixIsLongest | crates/shim/src/mount_linux.rs:333-355 | the reference: a string is shared by all exactly if it is a prefix of it |
| Utf8.BoundaryIsPrefix | crates/shim/src/mount_linux.rs:344-349 | a byte boundary is where a prefix of characters ends (section 3 of RFC 3629) |
| Utf8.PrefixReflects | crates/shim/src/mount_linux.rs:333-355 | byte prefixes of whole characters are character prefixes |
| Utf8.CharBytesInjective | crates/shim/src/mount_linux.rs:333-355 | the encoding is prefix-free |
| Overlay.TrimFlawedDirInRange | crates/shim/src/mount_linux.rs:360-362 | exactly when the slice is in range and on a boundary |
| Overlay.TrimIsLongest | crates/shim/src/mount_linux.rs:360-362 | it is the longest prefix that ends in a slash |
| Overlay.LowerdirCompactor.CollectLowerdirs | crates/shim/src/mount_linux.rs:379-390 | the directories of all lowerdir options in order |
| Overlay.LowerdirCompactor.FindPrefix | crates/shim/src/mount_linux.rs:392-401 | with that scan, the directory to change to, none for the root or a single directory, or a panic |
| Overlay.LowerdirCompactor.Compact | crates/shim/src/mount_linux.rs:403-431 | the compacted options, as the lemmas below characterise them |
| Overlay.CompactedDirs | crates/shim/src/mount_linux.rs:405-427 | reading the compacted options back gives the relative names in order, once for each lowerdir option there is |
| Overlay.KeepsMeaningIff | crates/shim/src/mount_linux.rs:403-431 | for any options, working directory and further paths, the compacted options name, after the change of directory, the same directories in the same order, with all else unchanged, if and only if there is one lowerdir option, the shared prefix has a slash, no directory has nothing or a slash right after the last shared one, and no upperdir, workdir or further path is relative, unless the change leads nowhere |
| Overlay.CleanDirsKeepMeaning | crates/shim/src/mount_linux.rs:403-431 | so for absolute directories without empty components or trailing slash it never panics, and preserves the meaning exactly if they come in one lowerdir option and no other path is relative, unless the change of directory leads nowhere |
| Overlay.ChdirIsLongest | crates/shim/src/mount_linux.rs:392-401 | the directory to change to is the longest common prefix that ends in a slash |
| Overlay.StaysIff | crates/shim/src/mount_linux.rs:392-401 | of directories that share a slash, none is changed to exactly if the root is the only directory they share |
| Overlay.SizeChangesExactly | crates/shim/src/mount_linux.rs:329-331 | for any options, the size drops by the number of directories times the length of the one changed to, in bytes, less the compacted list and a colon for every lowerdir option after the first |
| Overlay.PanicsIff | crates/shim/src/mount_linux.rs:360-362 | exactly which lists make the compactor panic |
| OverlayMount.PanicsInMount | crates/shim/src/mount_linux.rs:620-627 | a list that the mount compacts and that makes it panic, for every page size |
| OverlayMount.MistakesInMount | crates/shim/src/mount_linux.rs:620-627 | one whose meaning changes through a doubled slash |
| MountOptions.Fold | crates/shim/src/mount_linux.rs:629-645 | a flag is set exactly if the last option touching it sets it, the data are the unrecognised options in order, and whether a loop device is wanted |
| MountOptions.DataKeepsOrder | crates/shim/src/mount_linux.rs:642-644 | each unrecognised option is kept as often as given, and nothing else |
| MountOptions.NoPropagation | crates/shim/src/mount_linux.rs:312-321 | no option list asks for a propagation flag |
| MountOptions.MountCalls | crates/shim/src/mount_linux.rs:660-706 | the calls made, as the lemmas below say what they amount to; the propagation call is never among them |
| MountOptions.TableIs | crates/shim/src/mount_linux.rs:125-307 | which options set and which clear each flag, by their names, the clearing ones undoing the setting ones |
| MountOptions.IsDataIff | crates/shim/src/mount_linux.rs:632-644 | an option goes to the filesystem exactly if it is none of those, nor "loop" or "defaults" |
| MountOptions.FlagsInForce | crates/shim/src/mount_linux.rs:660-706 | with the kernel's side of each call, the flags in force afterwards: those whose last option sets them, but for a bind mount without "ro", which has those of what it binds, and for a bare remount, which changes nothing |
| MountOptions.ReadOnlyIff | crates/shim/src/mount_linux.rs:693-706 | so the mount is read-only exactly if the last of "ro" and "rw" is "ro", but for those two |
| MountOptions.CallsCarry | crates/shim/src/mount_linux.rs:660-706 | how many calls there are, that the first carries the data and the loop device, read-only exactly if asked, and that the only other one is for a read-only bind mount |
| OverlayMount.MountRootfs | crates/shim/src/mount_linux.rs:620-706 | only overlay options too long for a page are compacted, and then mounted from the shared directory |
| OverlayMount.ShortOptionsFit | crates/shim/src/mount_linux.rs:618-627 | overlay options that are not compacted fit into a page with their commas, if there are at most 513 |
| OverlayMount.CompactionKeepsCalls | crates/shim/src/mount_linux.rs:620-706 | compacting changes neither the calls nor their flags nor any data but the lower directories |
| OverlayMount.MountKeepsMeaningIff | crates/shim/src/mount_linux.rs:620-706 | a compacted mount makes the same calls with the same flags, and every path in it, with its target and a source that is looked up, leads where it led before if and only if those conditions hold |
| OverlayMount.UpperMoves | crates/shim/src/mount_linux.rs:620-660 | a list that the mount compacts and that has a relative upper directory, which is then looked for below the lower ones, from anywhere but there |
| MountInfo.ParseLine | crates/shim/src/mount_linux.rs:955-1006 | the scan finds what the recursive definition says: the last lone dash before the last four words, or the fourth from the end whatever it is; and each way to skip a line or panic |
| MountInfo.SeparatorBefore | crates/shim/src/mount_linux.rs:961-978 | no lone dash that the scan looks at lies behind its answer |
| MountInfo.ParsedRightIff | crates/shim/src/mount_linux.rs:980-999 | a printed record is read back exactly if the separator is found where it is |
| MountInfo.RoundTripIff | crates/shim/src/mount_linux.rs:955-1006 | print then parse gives the record back if and only if none of the fields before the separator is a lone dash, for all numbers, fields and tags |
| MountInfo.ExtraWordsIff | crates/shim/src/mount_linux.rs:962-978 | with further words at the end it is read back if and only if none between the separator and the last four is a lone dash |
| MountInfo.PanicsOnRoot | crates/shim/src/mount_linux.rs:962-990 | a lone dash as the root makes the parser panic |
| MountInfo.DashAsType | crates/shim/src/mount_linux.rs:962-1000 | a lone dash among the optional fields makes it take the separator for the filesystem |
| MountInfo.ShowParses | crates/shim/src/mount_linux.rs:981-982 | u32 numbers survive printing and parsing |
| MountInfo.ParsesIffFits | crates/shim/src/mount_linux.rs:981-982 | a number parses, with or without a sign, exactly if it fits 32 bits |
| MountInfo.WordsOfJoin | crates/shim/src/mount_linux.rs:955-955 | splitting on whitespace undoes joining words |
| Umount.MountTable.UmountRecursive | crates/shim/src/mount_linux.rs:886-895 | afterwards what the filter selects is gone and every other mount is as it was, in order; for a plain target that always succeeds and is exactly what the target means, in whatever working directory; the one failure is the root with other mounts below it that the listing leaves out, and it changes nothing |
| Umount.PlainIff | crates/shim/src/mount_linux.rs:919-921 | in any working directory, the filter takes exactly the mounts at or below the place that the target leads to, whatever is mounted, if and only if the target is absolute and each of its components is a name, not empty, "." or ".." |
| Umount.PlainMeans | crates/shim/src/mount_linux.rs:919-921 | for such a target one mount is selected exactly if its place begins with the target's |
| Umount.MountTable.UmountAll | crates/shim/src/mount_linux.rs:897-917 | all mounts stacked on the point are taken off, exactly unless something is mounted below it |
| Umount.MountTable.Umount2 | crates/shim/src/mount_linux.rs:905-908 | the assumed kernel: the topmost mount of a point goes, unless there is none or something is mounted below |
| Umount.FilterIsComponentwise | crates/shim/src/mount_linux.rs:919-921 | the string prefix filter selects exactly the mounts whose path components begin with the target's |
| Umount.BelowIsLonger | crates/shim/src/mount_linux.rs:889-889 | a mount below another has a longer path in bytes |
| Umount.LongestFirstSorts | crates/shim/src/mount_linux.rs:889-889 | the order is by length, and of the same mounts |
| Umount.NotBusy | crates/shim/src/mount_linux.rs:889-892 | whatever is below the next mount to take has been taken before |
| Umount.OnlyTheRoot | crates/shim/src/mount_linux.rs:889-892 | a busy mount is met only on the root |
| CgroupMemory.SwapForV2 | crates/shim/src/cgroup.rs:412-424 | for positive requests the conversion succeeds exactly if the memory limit is positive and fits, what it gives added to the limit is the request, and every result fits an i64 |
| CgroupMemory.ChosenOrder | crates/shim/src/cgroup.rs:480-493 | on version 1 the chosen order carries out exactly the requests with limit at most memory plus swap that the memory in use allows, from every legal state, and reports an invalid argument for no other request |
| CgroupMemory.ChosenOrderIsBest | crates/shim/src/cgroup.rs:480-493 | whatever either order could do the chosen one does, with the same result |
| CgroupMemory.EachFixedOrderFails | crates/shim/src/cgroup.rs:480-493 | each fixed order fails on some sensible request exactly if the limit in its way is one that can be crossed |
| CgroupMemory.OrderedV1 | crates/shim/src/cgroup.rs:484-493 | the two writes in the chosen order on version 1, by which limits are given: when they succeed and what they leave |
| CgroupMemory.OrderedV2 | crates/shim/src/cgroup.rs:484-493 | the same on version 2, where swap goes first |
| CgroupMemory.Cgroup.SetSwap | crates/shim/src/cgroup.rs:464-479 | swap is written, refused or not wanted, where a missing file is no obstacle to no swap or unlimited swap |
| CgroupMemory.Cgroup.WriteLimits | crates/shim/src/cgroup.rs:484-493 | both writes: outcome and new limits on either version, all intermediate states legal |
| CgroupMemory.Cgroup.UpdateMemory | crates/shim/src/cgroup.rs:439-495 | the whole update: on version 2 success with a positive swap request leaves memory.max and memory.swap.max adding up to it, what -1 does, and exactly which requests are refused with nothing changed |
| CgroupMemory.ZeroIsUnset | crates/shim/src/cgroup.rs:439-458 | a limit of zero, for memory or for swap, has exactly the outcome of no limit, on both versions |
| CgroupMemory.ZeroLeavesLimit | crates/shim/src/cgroup.rs:441-467 | and leaves the limit in place |
| CgroupMemory.SwapAgainstInPlace | crates/shim/src/cgroup.rs:447-454 | on version 2 a swap request with a zero memory limit is converted against the memory limit in place, with success exactly if that is positive and fits |
| Publisher.NothingLostOrDoubled | crates/shim/src/asynchronous/publisher.rs:83-123 | in every state of every run each accepted event is delivered once, or given up, or alive in exactly one copy, after at most six attempts |
| Publisher.FirstAttemptsInOrder | crates/shim/src/asynchronous/publisher.rs:83-123 | first attempts are in the order of publishing, whatever fails |
| Publisher.DeliveryInOrder | crates/shim/src/asynchronous/publisher.rs:83-123 | without failures delivery is in the order of publishing and nothing is dropped |
| Publisher.EveryRunEnds | crates/shim/src/asynchronous/publisher.rs:83-123 | a run has at most nineteen further steps for each event accepted |
| Publisher.ClientCounts | crates/shim/src/asynchronous/publisher.rs:99-108 | over any run the connection has been replaced exactly as often as a forward found it closed and another could be had |
| Publisher.QueueBounded | crates/shim/src/asynchronous/publisher.rs:158-171 | over any run the queue holds at most 1024 events, and publishing is refused exactly when it is full |
| Publisher.StuckIsDone | crates/shim/src/asynchronous/publisher.rs:83-123 | and stops only when no event is alive |
| Publisher.SixAttempts | crates/shim/src/asynchronous/publisher.rs:36-43 | a run in which an event is forwarded six times before it is dropped |
| Publisher.StepInv | crates/shim/src/asynchronous/publisher.rs:83-123 | conservation, attempt counts and order are kept by every step |
| Publisher.RemotePublisher.Publish | crates/shim/src/asynchronous/publisher.rs:158-171 | accepted into the queue with count 0, or an error to the caller when there is no room in time |
| Publisher.RemotePublisher.ReceiveNext | crates/shim/src/asynchronous/publisher.rs:83-88 | the next event is taken in hand, or dropped if it has been tried too often |
| Publisher.RemotePublisher.ForwardHeld | crates/shim/src/asynchronous/publisher.rs:89-123 | delivered, or left to a waiting task with its count raised; a closed connection is replaced if that succeeds |
| Publisher.RemotePublisher.Resend | crates/shim/src/asynchronous/publisher.rs:114-122 | a waiting event goes back to the queue, or is let go of |

## Left out

- LifecycleTheorems.DeletedIsGone: does not say that delete removes only the instance it deleted, which is false; `LifecycleRecords.RemovesOwnIff` says when it does.
- LifecycleTheorems.EventOrder: at most one TaskExit is stated per kernel process, not per exec, because an exec that is started again exits again.
- LifecycleTheorems.NoEarlyWakeup: speaks only of processes that have never exited, because a restarted exec keeps its old exit time; `LifecycleRecords.WaiterHeldIff` has no such limit.
- LifecycleTheorems.RightAnswer: ties the recorded code to the process's exit only while its state is STOPPED, because a restarted exec keeps the code of its earlier start; `LifecycleRecords.AnswerIsOwnIff` has no such limit.
- LifecycleProgress.AlwaysSettles: that a runtime command itself ends is not claimed, only that the shim never waits for anything else.
- StdinCopy.DeliveredExactly: what the process does with its end of the pipe is not modelled; a copy may fail to write at any time.
- CgroupMemory.Cgroup.UpdateMemory: version 2 files hold the bytes written, so the kernel's rounding of them to whole pages is not modelled; what a non-numeric memory.max reads as in cgroups-rs is a parameter.
- Umount.MountTable.UmountRecursive: unmount flags, failing lookups of mounted paths, mounts hidden under later mounts on an ancestor, and octal-escaped mountpoints are not modelled.
- Publisher.RemotePublisher.Publish: a sender that waits its turn for room is an accepted or a refused publish, without the waiting itself.
- Monitor.Monitor.Subscribe: `seq_id` is unbounded, without the width of an i64.
- IoShutdown.ReturnsClean: the descriptors that a copy opens before its hold is in place count from then on.
- Executor.ReturnsOwnCode: reading the command's output to its end, which `execute` waits for as well, is not modelled.
- The Pids call holds the containers lock for reading while the runtime runs; it and the state, stats, connect, resize, update and shutdown handlers are not steps of the protocol, and kill of an exec is `kill(2)` without one. Spawning a runtime command that fails to spawn is no step either.
- Two readers of the containers lock at once: every section is taken as exclusive.
- Which container's processes are killed when an init exits, and when its spec asks for it: the pump may or may not run the runtime's kill first.
- Octal escapes, loop devices, ioctls, ptys, eventfds, prctl and real system calls.
- ttrpc and gRPC servers and clients, generated protobuf code, logging, `crates/client`, `crates/snapshots`, `crates/shim-protos`.
- OOM monitoring, console sockets, cgroup path discovery, metrics collection, Windows code, bootstrap parameters, argument building for runc: easy members or library behaviour.
- The synchronous twins of the asynchronous modules, which would only repeat proofs.
