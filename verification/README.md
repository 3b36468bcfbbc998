# core0: the process manager and the boot planner, in Dafny

core0 is an init system. It weighs the configured startup services, boots them in three stages that are meant
to put dependencies first, runs commands that arrive from sinks (directly or through serial queues), builds a
job result from what each process prints, and sends results of containers back through two redis hops.
This project models these parts and proves what they promise, for every configuration, every input and
every interleaving. `dafny verify dfyconfig.toml` checks it.

| file | models |
|---|---|
| Settings.dfy, Dependencies.dfy | service weights; what a weight says about the dependency graph |
| Tree.dfy, Stages.dfy | the sorted service list and its cut into boot stages |
| Slice.dfy, Progress.dfy, Hooks.dfy, Bootstrap.dfy | `RunSlice` over the wait machine, deadlock freedom, hooks, the three-stage boot |
| Manager.dfy | serial queues, command loop with its condition variable, runner table: the state machine |
| Tokens.dfy, Fifo.dfy, Serial.dfy | one command of a queue at a time, in the order of arrival |
| QueueLoss.dfy, QueueStuck.dfy, QueueStop.dfy | when a queued command is lost, when a queue stops |
| Submissions.dfy, Answers.dfy | one result per submission, the limit on jobs, what goes back to a sink |
| Stream.dfy, Printed.dfy | output parser, and what it makes of printed text |
| Runner.dfy, JobResults.dfy, Restart.dfy | message loop and job result, message by message; restart policy |
| Process.dfy, Outputs.dfy | a system process, its two consumers, its runner and the statsd daemon together |
| Routing.dfy, Dispatches.dfy, Fates.dfy | dispatched commands and their results, over core0, every coreX, the forwarder and redis |
| Stats.dfy, Reports.dfy | the statsd aggregator, and what it reports by type |

Goroutines are modelled as interleaved atomic steps: an `Action` datatype, a predicate `Enabled`, a function
`Do`, and `Exec`, which runs a list of actions. An unbuffered channel is a rendezvous. Where the code gives
up a lock between two accesses, writes a state before it closes a channel, or tests before it waits, the model
takes two steps. Fields called history only record; no step reads them. Sequential code with loops or updated
fields is a method or a class. External calls are parameters: the events that a `select` sees, the outcome of
each execution, the number parser.

Where the code falls short of what its comments say, the model follows the code, gives an input and proves
exactly when the comment holds:

- A service is promised to wait until its dependencies are running (base/pm/pm.go:275-279). In a boot that can
  complete, that holds for a dependency exactly if it is in the same stage
  (`Bootstrap.RunningFirstIffSameStage`); one that failed in an earlier stage does not stop its dependents
  (`Bootstrap.FailureDoesNotCrossStages`).
- A service does not even start after a dependency exactly if that is in no stage up to its own
  (`Bootstrap.AfterIffNotLater`). Without `"----"` there is no such dependency (`Bootstrap.BootOrder`); with it
  there is (`Bootstrap.DependencyCanBeLater`).
- The boot can complete exactly if in no stage services wait in a circle (`Bootstrap.BootCompletesIff`).
  Weighed services do not, unless one is named like a milestone: `Weight` takes the name for the milestone,
  `Wait` for the service (`Bootstrap.NetLoopNeverBoots`).
- A service whose weight is below 1, as with `After = ["----"]`, is in no stage (`Stages.ToTheEndNeverBoots`).
- A queued command is promised to run when the others of its queue are over (base/pm/pm.go:120-125). It is lost
  exactly if its queue is deleted between the dispatcher's lookup and its push
  (`QueueLoss.LostExactlyWhenDoomed`, `QueueLoss.NextCommandCanBeLost`).
- A queue stops for good, unless somebody outside calls `RunCmd`, exactly if there is no room for jobs at all,
  `RunCmd` refuses one of its commands, or the command loop sleeps and nobody can reach the broadcast that
  would wake it (`QueueStop.StopsIff`). `QueueStop.UnknownStops`, `TwoQueuesJam` and `WakeUpLost` are such runs.
- What a process prints is promised not to decide its exit state (base/pm/process/systemprocess.go:209-213). It
  does not, but it can keep the runner from ever noticing the exit. Output is safe exactly if its messages to
  statsd have known types, one per key, that agree with those of the meter and of former executions
  (`Process.SafeIffLawful`). Three printed lines hang the runner at once (`Process.LiarHangs`), two lines or one
  hang it at a tick of the meter (`Process.TwoTypesAreUnsafe`, `Process.MeterNameIsUnsafe`), and one ends the
  program (`Process.OneMessageCrashes`).
- A command that cannot be spawned is promised not to be restarted (base/pm/runner.go:133-135). It is
  (`Restart.SpawnFailureIsRetried`), exactly unless its trials are used up or it is killed in its sleep
  (`Restart.RunCommand`).

## Model

| member | source | states |
|---|---|---|
| Settings.ComputeWeight | base/settings/startup.go:27-55 | For any settings and chain the loop terminates and returns the mathematical weight reduced to a signed 64-bit number, or the error of the first entry that fails. |
| Settings.WrapsAround | base/settings/startup.go:33-52 | That reduction is to the signed 64-bit number that differs by a multiple of 2^64. |
| Dependencies.WeightIsTotal | base/settings/startup.go:33-54 | On any chain a service without After weighs 1000000; any other weighs the total of its entries: 1, 1000, 1000000 and -1 for the four milestones, and what it weighs for a service. |
| Dependencies.ErrorIsReal | base/settings/startup.go:27-52 | An unknown-dependency error names something that is neither service nor milestone and is asked for on a walk from the service; a cyclic-dependency error comes with a walk that meets a service twice. |
| Dependencies.WeightSucceedsIff | base/settings/startup.go:27-55 | A service can be weighed iff no walk along its dependencies repeats a service or meets an unknown name. |
| Dependencies.WeightIgnoresChain | base/settings/startup.go:27-32 | The chain only detects cycles: on any two chains where the weight exists it is the same. |
| Dependencies.DependencyWeighed | base/settings/startup.go:42-48 | Dependencies of a weighed service can be weighed on their own, and contribute exactly that weight. |
| Dependencies.WeightMonotone | base/settings/startup.go:39-54 | Without "----" a service weighs at least 1 and at least as much as each dependency. |
| Dependencies.NoOverflow | base/settings/startup.go:33-54 | If the bound `Cap` for n services with at most k entries each is below 2^63, the 64-bit weight is the true one. |
| Dependencies.CapIsPower | base/settings/startup.go:33-54 | That bound is 10^6·k^n. |
| Tree.StartupTree.Swap | base/settings/tree.go:37-40 | Swapping exchanges two services together with their weights and nothing else. |
| Tree.SwapsKeepPairs | base/settings/tree.go:33-40 | After any sequence of swaps the tree holds the same services, each with its own weight. |
| Tree.AnySortMakesAPlan | base/settings/tree.go:66-81 | Any sequence of swaps that ends in weight order makes a plan: exactly the weighed services, with their weights, sorted. |
| Tree.StartupTree.Sort | base/settings/tree.go:33-40 | Finds such a sequence with nothing but Less and Swap. |
| Tree.StartupTree.Slice | base/settings/tree.go:42-57 | Returns, in order, exactly the services with a weight in [s, e[, where -1 is no upper end. |
| Tree.GetStartupTree | base/settings/tree.go:59-82 | For any map order: the sorted tree holds each service that can be weighed once, with its weight, and the errors are those of all others. |
| Stages.BootSlices | core0/bootstrap/bootstrap.go:60-65 | The three slices that boot takes from the tree are the stages, in this order. |
| Stages.StagesCoverInOrder | core0/bootstrap/bootstrap.go:151-171 | The three stages one after the other are all services of weight at least 1, in weight order. |
| Stages.PlanMembers | base/settings/tree.go:66-77 | A tree holds a service with a weight iff that is the service's computed weight. |
| Stages.PlanKeysDistinct | base/settings/tree.go:66-77 | No service is in the tree twice. |
| Stages.StageMembers | core0/bootstrap/bootstrap.go:60-65 | A stage consists of exactly the weighed services whose weight belongs to it. |
| Stages.StageByWeight | core0/bootstrap/bootstrap.go:60-65 | A weighed service is in the first stage iff it weighs from 1 to 999, in the second iff from 1000 to 999999, in the third iff 1000000 or more. |
| Stages.NoAfterBootsLast | base/settings/startup.go:34-36 | A service without After is in the third stage. |
| Stages.SliceContains | base/settings/tree.go:42-57 | A slice has exactly the services with a weight from s to below e, or from s on if e is -1. |
| Stages.FailureMembers | base/settings/tree.go:66-77 | The errors are those of exactly the services that cannot be weighed, each its own. |
| Stages.BootedExactlyIfPositive | base/settings/tree.go:42-57 | A weighed service is in exactly one stage if it weighs at least 1 and in none otherwise. |
| Stages.ToTheEndNeverBoots | base/settings/include.go:36-42 | A service that asks only for "----", in a list of any length that a number can count, is weighed without error and never started. |
| Stages.DependencyNotLater | core0/bootstrap/bootstrap.go:144-172 | A dependency of a booted service is booted too, in the same or an earlier stage. |
| Slice.StepInv | base/pm/waitmachine.go:46-74 | Every step of every goroutine, hook and release keeps the slice invariant: who was waited for, who was released first. |
| Slice.StartedAfterDependencies | base/pm/pm.go:299-337 | In every run, a started service's dependencies in the slice have been released as running before. |
| Slice.FailurePropagates | base/pm/pm.go:299-343 | If a service was never released as running, none that depends on it in the slice, at any distance, is started. |
| Slice.ReleasedIffSaid | base/pm/pm.go:307-335 | Over every run, a key was released as running iff its own match or delay hook fired or its command exited successfully. |
| Slice.SilenceStopsDependents | base/pm/pm.go:299-343 | If no hook ever says that a service is running, nothing that depends on it in the slice, at any distance, is started. |
| Hooks.RunsOnIffAsked | base/pm/pm.go:307-329 | For slices without circles: some run has a service signalled as running before it ends iff it has a match text or a delay that is not negative. |
| Hooks.WaitsForExit | base/pm/pm.go:316-335 | What depends on a service with neither is started only after a successful exit of that service. |
| Hooks.HookLetsStart | base/pm/pm.go:322-328 | A service with one lets its dependent start although its own command never ends. |
| Hooks.StateIsLastWord | base/pm/waitmachine.go:60-74 | Over every run, the state of a key is true iff the last thing said about it was that it is running. |
| Hooks.LastWordStops | base/pm/waitmachine.go:46-58 | A service that reads the state of a dependency when the last word was not that it is running is never started. |
| Hooks.LateFailureRefuses | base/pm/waitmachine.go:60-74 | A failure after the signal and before the read refuses a dependent although the key was released as running. |
| Hooks.RejectionBlocks | base/pm/pm.go:337 | Once RunCmd has rejected a service, WaitAll returns in no continuation. |
| Slice.RunsAreFinite | base/pm/waitmachine.go:46-74 | No run of a slice takes more steps than a number that depends on the slice alone. |
| Progress.WeighedIsAcyclic | base/settings/startup.go:27-55 | Weighed services without milestone names do not wait for each other in a circle. |
| Progress.NoDeadlock | base/pm/pm.go:286-348 | While a key is not released and nothing was rejected, a step is possible, whichever service is going to fail. |
| Progress.CompletesUnlessRejected | base/pm/pm.go:337-348 | When nothing can happen any more, WaitAll returns iff RunCmd accepted every service. |
| Progress.CircleNeverReleased | base/pm/waitmachine.go:46-58 | Members of a circle are released in no run. |
| Progress.CompletesIffAcyclic | base/pm/pm.go:280-349 | Some run of a slice completes iff its services do not wait in a circle. |
| Progress.NetLoopIsWeighed | base/settings/startup.go:40-41 | Two services that wait for each other are weighed when one is named "net". |
| Progress.MilestoneNameDeadlocks | base/pm/waitmachine.go:46-58 | Their slice has no possible step and no key released. |
| Bootstrap.NetLoopNeverBoots | core0/bootstrap/bootstrap.go:151-171 | That slice is the second stage of a plan of their settings, and no run of that boot reaches its end. |
| Bootstrap.BootCompletesIff | core0/bootstrap/bootstrap.go:144-172 | Whatever services are called, some run of the boot completes iff in no stage services wait in a circle. |
| Bootstrap.DependenciesWaitedFor | core0/bootstrap/bootstrap.go:144-172 | For any settings, in every run of the boot: of the dependencies of a started service, those in the same stage were released as running and those in an earlier stage were released. |
| Bootstrap.BootOrder | core0/bootstrap/bootstrap.go:144-172 | For settings without "----" whose weights fit, every dependency of a started service is in the same or an earlier stage, and so was released. |
| Bootstrap.EarlierStagesGoOn | base/pm/pm.go:286-348 | Goroutines and hooks of a stage keep moving while later stages are under way and after the boot. |
| Bootstrap.BootNeverStuck | core0/bootstrap/bootstrap.go:144-172 | Until the last stage is over, the current stage can move or the next one can begin, unless RunCmd rejected a service. |
| Bootstrap.BootIsFinite | core0/bootstrap/bootstrap.go:144-172 | No run of the boot is longer than a number that depends on the plan alone. |
| Bootstrap.BootCompletes | core0/bootstrap/bootstrap.go:144-172 | Without milestone names, every run that has come to its end without a rejection has completed all three stages. |
| Bootstrap.RunStages | core0/bootstrap/bootstrap.go:151-171 | For any one failing service there is a run that completes every stage and never releases that service as running. |
| Bootstrap.RunningFirstIffSameStage | base/pm/pm.go:275-279 | For any plan whose stages are free of circles: some run starts a service although an entry of its list is not running iff that entry is no service of the same stage. |
| Bootstrap.AfterIffNotLater | core0/bootstrap/bootstrap.go:151-171 | Likewise: some run starts a service although an entry of its list was not released at all iff that is no service of the same or an earlier stage. |
| Bootstrap.DependencyCanBeLater | base/settings/include.go:36-42 | With an entry "----" a service weighs 999, its dependency 1000, and it can be started a stage before it. |
| Bootstrap.FailureDoesNotCrossStages | core0/bootstrap/bootstrap.go:151-171 | A configuration in which a service is started in the last stage although its dependency in the first one was never released as running. |
| Tokens.OneAtATime | base/pm/queue.go:40-114 | In every reachable state at most one command of a queue is between hand-out and notification, and then nobody is about to hand out another. |
| Fifo.FirstInFirstOut | base/pm/queue.go:40-101 | Over every run, through deletions and re-creations: handed out followed by waiting is what was pushed and not lost, in order. |
| Fifo.RunAsHanded | base/pm/pm.go:211-216 | RunCmd is called for queued commands in the order of the hand-out. |
| Serial.SerialInOrder | base/pm/pm.go:120-128 | Of two commands of a queue that were run, the first to run arrived first and was over before the other was started. |
| QueueLoss.LostExactlyWhenDoomed | base/pm/queue.go:52-61 | A command is lost iff the producer deletes its queue between lookup and push. |
| QueueLoss.CoarseLosesNothing | base/pm/queue.go:52-61 | If lookup and push are one step, handed out followed by waiting is everything that was pushed. |
| QueueLoss.NextCommandCanBeLost | base/pm/queue.go:74-94 | From every reachable state in which the last command of an empty queue is about to notify, four steps lose the next command. |
| QueueLoss.RunOne | base/pm/queue.go:40-101 | Such a state is reached by running a single command. |
| QueueStuck.StuckForGood | base/pm/queue.go:74-114 | Once a queue has no token, nothing of it is handed out in any continuation. |
| QueueStuck.StuckIffRefused | base/pm/pm.go:167-195 | Over every run, a queue has no token iff RunCmd refused one of its commands. |
| QueueStop.StopsIff | base/pm/pm.go:197-218 | Over every run: no continuation without outside calls runs a command of the queue iff maxJobs is not positive, a command of the queue was refused or is unknown, or the command loop sleeps and no job can reach its broadcast. |
| QueueStop.UnknownStops | base/pm/pm.go:167-175 | One unknown command stops its queue for good. |
| QueueStop.TwoQueuesJam | base/pm/pm.go:351-358 | With maxJobs 1, two commands of two queues, neither refused, stop every queue: Notify waits for the producer, the producer for the loop, the loop for the broadcast after Notify. |
| QueueStop.WakeUpLost | base/pm/pm.go:201-203 | So does one command without a queue whose broadcast comes between the loop's test and its sleep. |
| QueueStop.OutsideCallHelps | base/pm/pm.go:351-358 | After any known command that somebody else runs, a queue with nothing refused can go on. |
| Submissions.OneResultPerSubmission | base/pm/pm.go:150-195 | Each RunCmd call has at most one result, exactly one once refused or ended, and an accepted id is taken by it alone until after the report. |
| Submissions.AnsweredRight | base/pm/pm.go:167-195 | Over every run, an unknown command is answered as unknown, a refused known one as duplicate, and one that ended with the state of its own report. |
| Submissions.EndsInAnyState | base/pm/runner.go:220-232 | A running command may end in any state, which is then its only result. |
| Submissions.DuplicateAnswered | base/pm/pm.go:177-185 | While an id is taken, a known command with that id is answered as a duplicate and the table stays as it is. |
| Submissions.AdmissionBound | base/pm/pm.go:197-218 | Runners admitted by the command loop never outnumber maxJobs, or 0 if that is not positive, whatever other callers start. |
| Answers.AnsweredOnce | base/pm/pm.go:395-406 | When a job that came through the command loop reports, its command was not answered and not lost before, and is answered afterwards. |
| Stream.Consume | base/pm/stream/input.go:39-107 | For any input and either way of ending, the read loop emits the messages of the line-by-line parser. |
| Stream.RoundTrip | base/pm/stream/input.go:39-107 | Printing any list of well-formed lines, messages and blocks and parsing it gives back their levels and texts in order. |
| Stream.RoundTripIff | base/pm/stream/input.go:14-107 | An item comes back as itself iff it is well-formed: the conditions are exact. |
| Stream.UnfinishedBlockDropped | base/pm/stream/input.go:85-99 | A block that is never ended is dropped and everything before it is kept. |
| Printed.PlainLine | base/pm/stream/input.go:60-68 | A line that does not begin with digits and two colons is a message of the default level with that text; an empty line is none. |
| Printed.TaggedLine | base/pm/stream/input.go:70-82 | Digits, two colons and a text are one message of that decimal level, or of 9223372036854775807 if that is less. |
| Printed.WholeBlock | base/pm/stream/input.go:74-99 | A block is one message: the rest of its first line and then every line that is not empty, each after a newline. |
| Printed.ItemsFirst | base/pm/stream/input.go:50-106 | Well-formed items followed by any text give the messages of the items and then those of the text. |
| Printed.LastLine | base/pm/stream/input.go:50-56 | If reading fails, what follows the last newline is dropped; if not, it counts as if a newline followed. |
| Runner.LineBuffer.Append | base/pm/stream/buffer.go:35-41 | The buffer holds the last lines of everything appended. |
| Runner.LineBuffer.String | base/pm/stream/buffer.go:25-33 | The text is these lines, each followed by a newline. |
| Runner.Collector.Take | base/pm/runner.go:170-184 | After each message, buffers, result and critical are those of all messages so far. |
| Runner.RunLoop | base/pm/runner.go:140-214 | The loop gets to its end iff statsd takes all that the events before the end feed to it; then the job result has the last 1000 lines of both streams, the last result and the last critical message, and all messages were forwarded. Otherwise it hangs or crashes. |
| JobResults.OneMoreMessage | base/pm/runner.go:170-212 | Of two results of the loop, the second after one message more: level 1 adds its line to stdout, level 2 to stderr, dropping the first of 1000; level 9 is critical; levels 20 to 23 and 30 are data and level; nothing else changes. |
| JobResults.OneMoreTick | base/pm/runner.go:163-169 | Ticks change nothing in the result. |
| JobResults.NoMessage | base/pm/runner.go:121-161 | Without messages all is empty; a kill gives KILLED, a timeout TIMEOUT, an exit message its own state. |
| JobResults.WhatIsFed | base/pm/runner.go:99-112 | Only level 10 is fed to statsd, and the meter feeds four gauges, each its own value. |
| Process.ChannelCarries | base/pm/process/systemprocess.go:208-256 | In every run, what the runner has received is the beginning of both outputs, intercepted and interleaved, followed by one exit message; once the channel is closed it is all of that. |
| Process.ExitStateIsTheStatus | base/pm/runner.go:152-193 | Whatever is printed, in any interleaving, a loop that ends without kill and timeout ends as SUCCESS if the exit status is 0 and as ERROR otherwise, after all output. |
| Outputs.OneMorePrinted | base/pm/process/systemprocess.go:208-221 | Message by message: level 50 becomes 2, levels above 100 stay behind, everything else is passed on as it is. |
| Outputs.AllPrintedAreTaken | base/pm/process/systemprocess.go:223-256 | When a run without kill and timeout ends, the loop has taken each passed message as often as it was printed. |
| Outputs.EndTellsWhy | base/pm/runner.go:155-176 | Over every run: the loop ends as KILLED by a kill, as TIMEOUT by a timeout, else by the exit as SUCCESS or ERROR. |
| Process.SelectTakes | base/pm/runner.go:154-169 | In its select the runner takes a kill, a timeout and any tick; the first two end the loop. |
| Process.EndsIffDeliverable | base/pm/runner.go:163-184 | A run without kill and timeout in which nothing but clocks can move is over iff all that was fed to statsd before the last message was lawful and that one had no new key with an unknown type; if not, the runner hangs in a send or the program has crashed. |
| Process.SafeIffLawful | base/pm/runner.go:163-184 | For any two outputs: no run without kill and timeout ever hangs or crashes iff the messages to statsd of both outputs, of the meter and of former executions have known types, one per key. |
| Process.SafeEnds | base/pm/runner.go:152-193 | Then every such run that has only clocks left is over, with the state of the exit status. |
| Process.TwoTypesAreUnsafe | base/stats/stats.go:200-202 | Two messages with one key and two types are not safe. |
| Process.MeterNameIsUnsafe | base/pm/runner.go:99-112 | Nor is one message that uses the name `_cpu_` with another type than the meter. |
| Process.HungForGood | base/stats/stats.go:70-77 | In every continuation of a run in which the runner hangs it still does; it takes nothing any more, not even a kill. |
| Process.StepsAreBounded | base/pm/runner.go:152-200 | Between ticks only boundedly many steps are possible, so every run gets to such a point. |
| Process.LiarHangs | base/stats/stats.go:200-202 | Printing `10::a:1` as counter, then twice as gauge, can hang the runner, whatever the exit status. |
| Process.OneMessageCrashes | base/stats/stats.go:183-203 | A process whose first message to statsd has a type that is not known ends the program. |
| Restart.RunCommand | base/pm/runner.go:217-280 | Round by round: one after which the command sleeps is followed by another round, or by KILLED if a kill comes in that sleep; any other is the last and its own state is reported. So: exactly min(first SUCCESS or KILLED, max(1, MaxRestart)) executions without recurrence and kills in sleep; a recurring command ends iff killed, as KILLED; nothing after a kill; a process that cannot be spawned is tried again iff trials are left, or it recurs, and no kill ends the sleep. |
| Restart.SpawnFailureIsRetried | base/pm/runner.go:132-138 | With MaxRestart 2 a command that cannot be spawned is executed twice. |
| Routing.ResultsGoHome | core0/containers/manager.go:216-240 | In every run, a result for a dispatched id is only in the list of the sink it was dispatched through, once. |
| Routing.NothingVanishes | core0/containers/manager.go:304-333 | A dispatched id is in exactly one of seven states: on its way, inside the container's process manager, lost by its queue manager, on its way back, at home, dropped by a failed delivery, or expired in a list. |
| Routing.LostOnlyInside | base/sinkclient.go:77-117 | Without redis failures no result is dropped, and an id is gone iff its result expired, which needs an expiry, or its container's queue manager lost it, by deleting the queue between lookup and push. |
| Dispatches.ArrivesAsDispatched | core0/containers/manager.go:318-330 | Over every run, the only command with its id in the container, in the list and in the process manager, is the dispatched one with its queue, and with the sink as tags. |
| Dispatches.SerialOverBothHops | base/sink.go:53-80 | Over every run, two commands dispatched to one container with one queue run in the order of the dispatches, the second not before the first is over. |
| Fates.ContainerDoes | base/sink.go:53-80 | Every run of a process manager fed by a sink is what a container does in some run of the whole. |
| Fates.CanBeLostInside | base/pm/queue.go:52-61 | Of two dispatches for one queue the second can be lost by the container's queue manager. |
| Fates.EveryFate | core0/containers/manager.go:216-240 | Any known dispatch, with or without a queue, can come home, be dropped, or expire in either list. |
| Fates.AnswerMayFail | base/sinkclient.go:94-107 | Any answer of a container can fail to be delivered, and is then lost. |
| Fates.OwnResult | base/sinkclient.go:85-107 | A result of core0 itself goes to the list of its sink, behind what is there, and changes no other list. |
| Stats.Statsd.Serve | base/stats/stats.go:171-213 | For any messages and ticks, the daemon ends in the state, and reports the series, that the theorems below are about. |
| Stats.Statsd.DoFlush | base/stats/stats.go:134-169 | Reports the value of every buffer and resets it, or does nothing without data or with an interval below one second. |
| Reports.KindsByName | base/stats/stats.go:16-27 | Each of "g", "kv", "c", "s" and "ms" stands for its own kind of buffer, and no other name for any. |
| Reports.FedKind | base/stats/stats.go:83-107 | A text `key:value` with a type after a bar is fed with that key and value and the kind that the name stands for. |
| Reports.NotFed | base/stats/stats.go:83-99 | Without a bar, or without exactly one colon before it, nothing is fed. |
| Reports.FlagIgnored | base/stats/stats.go:91-104 | A third part does not matter; the key is trimmed and the value is not. |
| Reports.GaugeReport | base/stats/buffer.go:25-60 | One more value before a flush: a signed number is added or subtracted, any other replaces, and no number changes nothing. |
| Reports.KeyValueReport | base/stats/buffer.go:79-90 | One more number replaces the last. |
| Reports.CounterReport | base/stats/buffer.go:112-123 | One more number is added. |
| Reports.SetReport | base/stats/buffer.go:147-162 | One more value adds 1 unless it was fed since the last flush. |
| Reports.TimerReport | base/stats/buffer.go:177-202 | With one more number the report is the mean of one number more. |
| Reports.FlushReport | base/stats/buffer.go:62-65 | A flush leaves a gauge and sets all else to 0. |
| Reports.TimerTexts | base/stats/buffer.go:164-202 | From texts to the report: after `key:v` with "ms" a flush reports the mean of the numbers. |
| Reports.CounterTexts | base/stats/buffer.go:100-131 | With "c" it reports their sum. |
| Reports.LastTexts | base/stats/buffer.go:67-98 | With "kv" it reports the last number, and so with "g" if that has no sign. |
| Reports.SetTexts | base/stats/buffer.go:133-162 | With "s" it reports how many different values there are. |
| Stats.BuffersHold | base/stats/buffer.go:13-202 | While the loop lives, each buffer holds the aggregate of exactly what was fed since the last flush, a gauge that of everything fed. |
| Stats.AliveIffLawful | base/stats/stats.go:183-203 | The loop is alive iff every type was known and every key kept its own. |
| Stats.CrashedIffStrange | base/stats/stats.go:183-203 | It has crashed the program iff the first message that breaks this has a new key and an unknown type. |
| Stats.Conservation | base/stats/stats.go:134-213 | For any interleaving of messages and flushes: what a counter or timer flushed plus what is pending is the sum of all that was fed. |
| Stats.FlushReports | base/stats/buffer.go:13-202 | What a flush reports for each type, in terms of the values fed. |

## Left out

- base/pm/queue.go, base/pm/pm.go, base/pm/waitmachine.go, base/pm/process/systemprocess.go and core0/containers/manager.go are modelled on values, as state machines, because their methods block and interleave; aliasing is kept where it matters, as list identities in Manager.dfy.
- QueueStop.StopsIff: says whether a queue can go on, not that it does; that needs fair scheduling.
- The progress of the boot assumes that a started command ends or is signalled; network setup between the first two stages is a step without effect.
- Tree.StartupTree.Sort: the library's sorting algorithm is replaced by insertion sort on the same `Less` and `Swap`; `Tree.AnySortMakesAPlan` covers any other.
- Runner.RunLoop: start and running times are not modelled; hooks and message handlers are taken to return. It returns when the loop ends; that the source then drains the channel until it is closed, and so does not return from a kill of a process that goes on, is in Process.dfy.
- Restart.RunCommand: the wall clock; a sleep either passes or is interrupted by a kill.
- The hooks of base/pm/runnerhook.go appear as steps of a slice that happen at most once; the text matched and the delay do not.
- Routing.ResultsGoHome: assumes fresh ids, and that no client names an id drawn by a dispatch; the check that the container runs is not modelled, and an expiry may come at any time. Containers do not end.
- Stats.BuffersHold: arithmetic is over the reals; the race between `Stop` and the loop is not modelled.
- base/local.go, which runs queued commands around the queue manager and starts a runner twice, and PID reaping: the exit status is taken as given.
- Decoding of settings, commands and results (TOML, JSON), log levels, network and container setup, the redis logger and the bolt store.
