# boogieman: a verified model

boogieman runs *scripts*: lists of tasks, each with one probe (ping, web, cmd, openvpn, ...), cut into concurrent
groups. Groups run one after the other, the tasks of a group at the same time; a probe may leave a background process
that is brought down when the script has ended. A scheduler runs scripts as jobs, and readers sample their results at
any moment, as JSON or as Prometheus metrics. This project models the parts of that in which order, sharing and hidden
state decide the outcome, and proves what they guarantee.

`dafny verify dfyconfig.toml` checks everything.

## How it is built

**The run engine.** `Records` (run records and the status machine), `Probe` (the life of one probe and the exit paths
of its runner) and `Handler` (the same as objects whose fields are updated in place) are the parts. `Engine` puts them
together as a step system: any number of calls of `Run`, one goroutine per task and call, background readers, and
observers that read finished results piece by piece. Every critical section and every other shared access is a step,
the unlocked creation of the queue included. `EngineInvariant` and `EngineSteps` hold one invariant of all reachable
states. The conclusions are drawn in `EngineTheorems` (order, exclusivity, counters, verdicts, snapshots),
`EngineEnds` (termination, no deadlock), `EngineResults` (what a reader of one probe sees), `EngineGroups` (what a
group records), `EngineSlots` (who answers for a living process, overlapping calls included) and `EngineSerial`
(process slot and queue, for runs that do not overlap). `EngineDriver` brings a call forward from any reached state;
with it `EngineOverlap`, `EngineReaders` and `EngineLost` say exactly when an overlap does harm. `EngineWitness` has
concrete schedules. `Handler.StepsAreStart` ties the object methods to the goroutine steps.

**The script builder.** `Grouping` is `AddTask` on values, with the meaning of its groups; `Script` is the object;
`BuiltScripts` joins builder and engine.

**The runners.** `CmdRunner` and `OpenVpnRunner` are the event loops of the two probes that keep a process
(`Processes`: what they hear), proved to take exactly one of the exit paths that the engine reasons about. `FanOut` is
the scheme of a runner that starts one worker per target and waits for all, in any interleaving; `Web` and `Ping`
instantiate it. `TextChecks` are the pattern checks that web and cmd make.

**Overriding configuration.** `Tokenizer` is the stateful scanner with its look-ahead rune, refined against a
recursive split; `TokenizerLaws` says what that split means. `Values` parses a text into a place of any kind, through
pointers and structs; `Override` has the setters that write fields in place and the loop over an unordered map;
`StructLists` says what scanner and setters make of lists of structs. `Texts` joins and splits texts.

**Metrics.** `Flatten` turns probe data into metrics in loops over sorted map keys (`Sorting`); `FlattenLaws` says
what tells the metrics apart, `FlattenValues` which number and labels each value shows up with. `Slices` are Go slices
that share backing arrays. `Metrics` defines requests, keys and descriptors; `Collector` is the collecting object;
`MetricsKeys`, `MetricsCache`, `MetricsData` and `MetricsUnique` prove what the descriptor cache and the emitted
samples guarantee, and `MetricsValues` spells out what each sample says.

## What the proofs found

- The success that a *group* records is not that of its tasks: it folds over all tasks of the script, so for every
  group but the last it mixes this run's verdicts with the previous run's (`EngineTheorems.GroupsRecord`). It is right
  in every schedule only if the script has no task outside that group (`EngineGroups.RecordIsOwnOnlyAlone`).
- The queue of probes to bring down is created without a lock. If two calls arrive before it exists, both can return
  and leave any probe that can stay alive unfinished (`EngineLost.LostExactly`, an if and only if;
  `EngineWitness.ReplacedQueueLosesProbe` is a schedule). With one such call at most nothing is lost, however later
  calls overlap (`EngineLost.OneEarlyCallLeavesNothing`).
- The script is recorded as finished before it drains the probes that stayed alive. The runner of a call that is
  accepted in between can find its slot taken if and only if a process is in the slot at that moment
  (`EngineOverlap.TakenExactly`; `EngineWitness.OverlapFindsSlotTaken` is a schedule).
- The background reader of a kept process finishes whatever process the slot holds. `EngineReaders.LateExactly` says
  when a run's process can be brought down by the reader of an older one: if and only if a reader waits when the run
  is accepted, and the slot is empty then, or a drain or another reader is going to empty it
  (`EngineWitness.LateReaderStopsTheNextProcess` is a schedule).
- A start-up error of a probe is never cleared. From then on a run that keeps its process reports it as finished, and
  only the slot still shows that it is alive (`Probe.SlotAfterStart`).
- A cmd process whose status has a zero runtime decides nothing: the runner waits on, and a probe that should stay in
  the background then counts the elapsed time as success (`CmdRunner.SuccessMeans`, `CmdRunner.ZeroRuntimeExample`).
- An explicit group name that equals a generated one makes a later task run before earlier ones
  (`Grouping.ClashReordersTasks`).
- `a,,b` is read as `a` and `,b`, and a brace that opens a later token does not protect its commas
  (`TokenizerLaws.DoubledExample`, `TokenizerLaws.BraceProtects`). So a list of two structs or more, with two fields
  or more each, is never accepted (`StructLists.TwoStructsNeverTaken`, `StructLists.ListReadsBackExactly`).
- An override can panic instead of being refused: on a struct's text of fewer than two runes, an empty list of structs
  among them, and where an unexported field would be written. `Values.OutcomeExactly` and `Override.AssignedExactly`
  say for every kind and text which of the three it is; `Values.PanicExamples` and `Override.CrashExamples` are
  instances.
- A run whose runtime is zero shows its result without its data (`EngineResults.ReadShowsOneRun`).
- A `|` in a job or script name can give a task's metrics the constant labels of another task
  (`MetricsCache.BarClashes`); everything else about the descriptor stays right (`MetricsCache.RightButConsts`).

## Model

| member | source | states |
|---|---|---|
| `Records.Worker.EStatusRun` | src/model/worker.go:25-34 | a worker accepts a start exactly when it is not running; a refusal changes nothing, an acceptance opens a new record with the next counter |
| `Records.Worker.EStatusFinish` | src/model/worker.go:36-46 | a worker accepts an end exactly when it is running, and then its finished record is the current one with the given verdict |
| `Records.CountersBalance` | src/model/worker.go:25-46 | over every sequence of calls the finished record's counter trails the current one by one while running and equals it otherwise |
| `Probe.SlotAfterStart` | src/model/probeHandler.go:57-68 | for every exit path: whether the process slot is left filled, with which run's process, and that a probe left running is seen as alive |
| `Probe.StartDelivers` | src/model/probeHandler.go:38-68 | for every way out, spelled out: which verdict and data a start records, and when the error is set; a plain probe's are those that its runner returned |
| `Probe.WorkerAfterStart` | src/model/probeHandler.go:57-65 | what the probe's own worker records of a start, on every way out |
| `Probe.FinishTwice` | src/model/probeHandler.go:71-77 | finishing twice is finishing once; a finished probe is not alive; finishing touches no result; a running worker records success |
| `Handler.ProbeHandler.Start` | src/model/probeHandler.go:24-68 | the whole new state of a handler after a start, with the times of its start and its end, on every exit path of its runner, and the verdict returned; without a runner nothing changes |
| `Handler.ProbeHandler.Finish` | src/model/probeHandler.go:71-77 | the slot is empty and the worker not running, the rest is kept |
| `Handler.Task.Start` | src/model/task.go:20-27 | accepted exactly when the task is not running; then task and probe carry the probe's verdict; a refusal changes neither |
| `Handler.StartOutcome` | src/model/probeHandler.go:38-57 | after a start the finished record is the current one, with its two times, the next counter and the verdict that the way out must deliver, also after a panic or on a taken slot; the error is sticky; a reader then gets that record, with the data exactly if the times differ |
| `Handler.StepsAreStart` | src/model/task.go:20-27 | eight goroutine steps without interference, four at the start's time and four at the end's, do what one call of the object's `Start` does |
| `EngineSteps.StepInv` | src/model/script.go:41-76 | every step of the engine keeps the global invariant |
| `EngineSteps.ReachedInv` | src/model/script.go:41-76 | every state of every schedule satisfies the invariant |
| `EngineTheorems.HappensBefore` | src/model/script.go:51-57 | while a task's goroutine is alive, every task of an earlier group has returned, is recorded and checked in this very run, and no goroutine of another call is alive |
| `BuiltScripts.TasksRunInListOrder` | src/model/script.go:51-57 | a script built by adding tasks, none misled by a name: while a task runs, the earlier tasks of other groups have returned and are recorded in this very run, and the later ones have not started |
| `EngineTheorems.AliveTogether` | src/model/script.go:147-165 | goroutines that are alive together belong to one call and one group |
| `EngineTheorems.AtMostOneRun` | src/model/script.go:46-66 | at most one call is between its accepted start and its recorded end |
| `EngineTheorems.RejectedIsHarmless` | src/model/script.go:46-49 | a call is rejected exactly while another is active, and the rejection changes no status, result, counter or queue |
| `EngineTheorems.InnerGuardsAccept` | src/model/script.go:142-145 | the status guards of groups and tasks inside a run never reject |
| `EngineTheorems.CountersAgree` | src/model/script.go:46-66 | whenever no call is active, all counters of script, groups, tasks and probes equal the number of accepted calls |
| `EngineTheorems.RunTimes` | src/model/worker.go:25-46 | the records of script and groups bear the times at which their runs were accepted and ended, and the verdict folded |
| `EngineTheorems.VerdictSource` | src/model/probeHandler.go:57 | a verdict enters the history once, by the return of that task's runner in that run, and is the one that the way out must deliver: for a plain probe what its runner returned |
| `EngineTheorems.ReaderSource` | src/probes/cmd/cmd.go:109-127 | a background reader is left behind exactly by a runner that returns with its process running and meant to stay, and waits for that run's process |
| `EngineTheorems.VerdictsAgree` | src/model/script.go:59-66 | the script's recorded success is the conjunction of the verdicts returned in that same run; each task's and probe's record carries its own, with its data |
| `EngineTheorems.GroupsRecord` | src/model/script.go:166-172 | what a group's recorded success really is: the conjunction of this run's verdicts of the tasks up to its own and of the previous run's verdicts of all later tasks |
| `EngineGroups.RecordIsOwnExactly` | src/model/script.go:166-172 | in every schedule: a group's record is the conjunction of its own tasks' verdicts if and only if that conjunction implies the success of the other tasks, of earlier groups in this run, of later ones in the run before |
| `EngineGroups.OutsiderSpoilsRecord` | src/model/script.go:166-172 | for every plan and every group with a task outside it, a schedule in which the group's own tasks succeed and it records failure |
| `EngineGroups.RecordIsOwnOnlyAlone` | src/model/script.go:166-172 | a group records its own tasks' success in every schedule if and only if no task lies outside it |
| `EngineResults.ReadShowsOneRun` | src/model/probeHandler.go:121-134 | at every moment of every schedule a reader gets either the open record of the run in progress, without data, or the last finished record with the verdict returned in the run of its number, and the data of that same run, left out if the run took no time |
| `EngineTheorems.SnapshotOrder` | src/model/script.go:111-123 | in every interleaved read, script counter <= task counter <= probe counter, and each record and datum is that of the run whose number it bears |
| `EngineTheorems.EvenSnapshotIsOneRun` | src/model/script.go:111-123 | a read whose probe counters all equal the script's is the result of one run |
| `EngineEnds.EveryScheduleEnds` | src/model/script.go:51-76 | without new arrivals every schedule is bounded by one measure over groups, task phases and queue |
| `EngineEnds.NoDeadlock` | src/model/script.go:147-165 | a call that is not at its end, or a goroutine it waits for, can always step |
| `EngineEnds.StoppedMeansDone` | src/model/script.go:41-76 | where nothing can step, every call is at its end, every accepted run recorded, and whatever queue is then in place is empty |
| `EngineOverlap.TakenExactly` | src/probes/cmd/cmd.go:56-60 | in every schedule, overlapping or not: when a call is accepted, some continuation inside that run has a runner find its slot taken if and only if a process is in the slot at that moment |
| `EngineReaders.LateExactly` | src/probes/cmd/cmd.go:124-126 | in every schedule: when a call is accepted, the slot can come to hold the new run's process while the reader of an older one waits if and only if a reader waits at that moment and the slot is empty, or the probe is queued or in the hand of a drain, or a second reader waits |
| `EngineLost.LostExactly` | src/model/script.go:42-44 | before the queue exists: the calls that have arrived can all return, no reader left, and leave a probe alive if and only if they are two or more and its options let some way out of the runner keep it alive |
| `EngineLost.OneEarlyCallLosesNothing` | src/model/script.go:42-44 | in every schedule in which at most one call arrives before the queue exists, no queue that holds a probe is replaced, whatever overlaps later |
| `EngineLost.OneEarlyCallLeavesNothing` | src/model/script.go:68-75 | in such a schedule no probe is alive once every call has returned and no reader is left |
| `EngineLost.TakenMeansPending` | src/probes/cmd/cmd.go:56-60 | in such a schedule, at any moment, a runner that is about to find its slot taken finds a probe that is queued or in the hand of a drain |
| `EngineSerial.EveryRunStartsClean` | src/model/script.go:68-75 | serialized runs start with an empty queue, empty slots and no running probe, whichever exit paths came before |
| `EngineSerial.SlotNeverTaken` | src/probes/cmd/cmd.go:56-60 | in serialized runs "another cmd is still running" is unreachable |
| `EngineSerial.ReaderStopsItsOwn` | src/probes/cmd/cmd.go:112-126 | in serialized runs a background reader finishes its own process or none |
| `EngineSerial.DrainConserves` | src/model/script.go:69-75 | the probes found alive are those queued, each once; the drain finishes them in queue order; nothing is left alive |
| `EngineSerial.QueueAtEveryMoment` | src/model/script.go:160-162 | queued = finished, then the one in hand, then the queue, in that order, at every moment |
| `EngineSerial.NothingDropped` | src/model/script.go:42-44 | serialized runs never replace a queue that holds a probe |
| `EngineWitness.OverlapFindsSlotTaken` | src/model/script.go:66-75 | a schedule of two overlapping calls in which the second finds the slot taken |
| `EngineWitness.LateReaderStopsTheNextProcess` | src/probes/cmd/cmd.go:124-126 | a schedule of two calls in which the first run's reader brings down the second run's process |
| `EngineWitness.ReplacedQueueLosesProbe` | src/model/script.go:42-44 | a schedule of two first calls in which one replaces the queue that the other has filled, and the process stays alive after the drain |
| `Grouping.GroupsAreMaximalRuns` | src/model/script.go:78-98 | the groups are the maximal runs of the task list (none empty, in order, neighbours together exactly when both anonymous or of one name) if and only if no generated name met an equal neighbour |
| `Grouping.DistinctNamesSuffice` | src/model/script.go:125-139 | generated names that differ from all explicit ones suffice |
| `Grouping.ClashReordersTasks` | src/model/script.go:84-88 | a concrete list in which a task joins an earlier group |
| `Grouping.PlanIsOrdered` | src/model/script.go:78-98 | group numbers grow along the task list, so the plan that the engine runs respects the list |
| `Script.Script.AddTask` | src/model/script.go:78-98 | the script object holds exactly the layout that `Grouping` computes, linked to the task objects; once a run was accepted nothing changes |
| `Script.Script.NewCGroup` | src/model/script.go:125-139 | a new empty group, last in the list, with the given name or a generated one |
| `Script.CGroup.AddTask` | src/model/cgroup.go:9-11 | the task is appended |
| `CmdRunner.CmdProbe.Await` | src/probes/cmd/cmd.go:66-90 | the loop ends at the first event that decides, with the status heard last and the cause |
| `CmdRunner.CmdProbe.Judge` | src/probes/cmd/cmd.go:138-175 | success exactly when code and output are as configured (or, if failure is expected, are not); an error exactly when they are not; the data report the exit code, the match, the group's text and its match |
| `CmdRunner.CmdProbe.Runner` | src/probes/cmd/cmd.go:41-161 | on every stream of events the runner has the effect on verdict, data, error, slot and reader of one exit path of the engine |
| `CmdRunner.SuccessMeans` | src/probes/cmd/cmd.go:92-158 | success in terms of the first deciding event alone |
| `CmdRunner.DataMeans` | src/probes/cmd/cmd.go:92-175 | the delivered data in terms of the events: the exit code of the status heard last and, as far as configured, whether the output matched, the text of the group, and whether that matched |
| `CmdRunner.EffectsMean` | src/probes/cmd/cmd.go:92-158 | when the error is set, when the runner ends the process itself, and when it leaves a reader |
| `CmdRunner.OutputIsLines` | src/probes/cmd/cmd.go:190 | the text that is checked is the output's lines with line breaks between them |
| `Processes.LastStatusMeans` | src/probes/cmd/cmd.go:68-72 | the status heard last is that of the last end of a process, or empty |
| `CmdRunner.ZeroRuntimeExample` | src/probes/cmd/cmd.go:66-90 | an instance: an ended process with a zero runtime, then the elapsed time, is a success exactly for a probe that should stay |
| `CmdRunner.WayOutAllowed` | src/probes/cmd/cmd.go:92-136 | that exit path is one the engine allows for the probe |
| `OpenVpnRunner.OpenVpnProbe.AwaitUp` | src/probes/openvpn/openvpnConnect.go:148-205 | the start fails unless the first deciding event is the line that reports the connection |
| `OpenVpnRunner.OpenVpnProbe.Runner` | src/probes/openvpn/openvpnConnect.go:55-130 | the slot is filled however the start went; a client that should not stay is finished at once |
| `OpenVpnRunner.SuccessMeans` | src/probes/openvpn/openvpnConnect.go:148-205 | success, error, slot, end of the client and reader in terms of the first deciding event |
| `OpenVpnRunner.DecidesMeans` | src/probes/openvpn/openvpnConnect.go:156-176 | which events decide |
| `Processes.ContainsMeans` | src/probes/openvpn/openvpnConnect.go:169-173 | a line contains a text if and only if it is found at some place of it |
| `TextChecks.CompileRegex` | src/probes/web/constructor.go:55-94 | exactly which pattern settings are refused; accepted ones become the checks with both patterns compiled and the other settings as they are |
| `TextChecks.ChecksMean` | src/probes/web/web.go:183-223 | the web and the cmd probe ask the same of a text: both verdicts equal one plain condition on pattern and capture |
| `TextChecks.OutputMeans` | src/probes/cmd/cmd.go:177-203 | what the cmd probe's check reports: whether the pattern matched, the text of the group, whether the second pattern matched that |
| `FanOut.EveryInterleaving` | src/probes/web/web.go:83-176 | in every interleaving of starting loop and workers: the counter verdict, the exact key set, and the value of every key that one worker alone writes |
| `FanOut.EveryRunEnds` | src/probes/web/web.go:158 | no interleaving has more moves than there is work |
| `FanOut.NeverStuck` | src/probes/web/web.go:158 | until the runner is back some step is possible |
| `FanOut.ComesBack` | src/probes/web/web.go:158 | some interleaving of every plan comes to its end |
| `Web.VerdictOfWeb` | src/probes/web/web.go:84-159 | an unparsable address fails the run; otherwise success exactly when every address's outcome equals the expectation |
| `Web.KeysOfWeb` | src/probes/web/web.go:131-150 | a result map has a key exactly when an answer for that address contributes it |
| `Web.Values` | src/probes/web/web.go:131-150 | for distinct normalized addresses every entry is what its own answer contributes |
| `Web.SchemeAdded` | src/probes/web/web.go:85-90 | results of an address without a scheme are found under it with `https://` in front, all others under the address as it is |
| `Web.ResultColumns` | src/probes/web/web.go:161-173 | timings and statuses for exactly the addresses that responded, pattern results, where configured, for all |
| `Web.WebReturns` | src/probes/web/web.go:83-159 | no web probe counts an address twice, so that the general results hold of it, and it comes back |
| `Ping.VerdictAndTimings` | src/probes/ping/ping.go:49-114 | success exactly when every host answered (or, if failure is expected, timed out); timings for exactly the hosts that answered |
| `Ping.OwnTimings` | src/probes/ping/ping.go:56-79 | for distinct hosts the timing of each is that of its own answer, and there is none without one |
| `Ping.OtherFailuresNeverSucceed` | src/probes/ping/ping.go:58-68 | a failure other than a timeout, or a panic, fails the probe whatever is expected |
| `Ping.PingReturns` | src/probes/ping/ping.go:49-114 | so does every ping probe |
| `Tokenizer.SliceTokenizer.Scan` | src/configuration/reflectStruct.go:235-278 | a call delivers the first of the tokens still to come and keeps the others to come, or says that there is none |
| `Tokenizer.SliceTokenizer.Text` | src/configuration/reflectStruct.go:289-294 | the token is taken and the buffer emptied |
| `Tokenizer.ScanAll` | src/configuration/reflectStruct.go:79-89 | for every input, scanning to the end delivers exactly the recursive split, and ends |
| `TokenizerLaws.TokenCount` | src/configuration/reflectStruct.go:235-278 | between one token and one more than there are runes |
| `TokenizerLaws.TokensKeep` | src/configuration/reflectStruct.go:235-278 | the joined tokens are the input without NUL runes, token-ending separators and the spaces skipped after them |
| `TokenizerLaws.FatesMean` | src/configuration/reflectStruct.go:252-270 | exactly which runes those are, for each of the three kinds if and only if: a separator is dropped exactly where it opens no token and the last brace that the scanner looked at before it is not an opening one |
| `TokenizerLaws.BraceProtects` | src/configuration/reflectStruct.go:252-270 | on every input: a separator behind an opening brace, no brace between, ends a token exactly when it opens none itself and the brace opened a later token |
| `TokenizerLaws.RoundTrip` | src/configuration/reflectStruct.go:235-294 | a rendered list of plain tokens is read back as it was, with any spaces after commas and an optional trailing comma |
| `TokenizerLaws.TokensAreFieldsUnlessMisread` | src/configuration/reflectStruct.go:237-270 | on every input the tokens are the comma-separated fields, commas in braces protected, if and only if there is no NUL rune and no comma that ends a field is followed, after spaces only, by another comma or by a brace with a comma before the next brace |
| `TokenizerLaws.DoubledExample` | src/configuration/reflectStruct.go:238-241 | `a,,b` gives `a` and `,b` |
| `TokenizerLaws.LaterBraceExample` | src/configuration/reflectStruct.go:252-263 | an instance: the brace in `x,{a,b}` protects nothing |
| `Override.Config.SetSliceField` | src/configuration/reflectStruct.go:71-94 | the field is written only if every token parses, with all of them in order |
| `Values.Parse` | src/configuration/reflectStruct.go:96-165 | what a place of any kind holds after a text was taken, refused or made the parser panic |
| `Values.TakenStandsFor` | src/configuration/reflectStruct.go:96-165 | a taken text leaves the value that it stands for: a text itself, another scalar as parsed, behind pointers the target's, a struct part by part |
| `Values.StandsForOne` | src/configuration/reflectStruct.go:96-165 | a text stands for one value at most |
| `Values.FailureLeaves` | src/configuration/reflectStruct.go:96-165 | what a refusal or a panic leaves: a new empty map, a new pointer to what its target was left as, a struct whose first parts are taken, otherwise what was there |
| `Values.ListStandsFor` | src/configuration/reflectStruct.go:79-91 | a taken list holds what each token stands for, in order |
| `Values.DeniedExactly` | src/configuration/reflectStruct.go:96-165 | a text for an unexported field panics if and only if an empty exported one would not refuse it and stay empty |
| `Values.OutcomeExactly` | src/configuration/reflectStruct.go:96-165 | for every kind and text, whatever the place held: taken if and only if it fits, a panic if and only if struct braces are missing or an unexported field would be written before anything is refused, refused if and only if the first misfit is |
| `Values.PartsKept` | src/configuration/reflectStruct.go:155-162 | a struct that fails half way: the parts before the first misfit hold what their pieces stand for, that one what its own failure left, those behind what they held |
| `Values.ElementsExactly` | src/configuration/reflectStruct.go:79-89 | a list of tokens panics, or is refused, if and only if its first token that does not fit does |
| `Values.PanicExamples` | src/configuration/reflectStruct.go:147-150 | instances: the empty text for a struct, one rune for a pointer to one, any text for an unexported string |
| `Values.TakenAlike` | src/configuration/reflectStruct.go:96-165 | a text that is taken leaves the same value whatever the place held before |
| `Values.ElementsTaken` | src/configuration/reflectStruct.go:79-89 | a list of tokens is taken exactly if each of them is on its own |
| `Values.StructTaken` | src/configuration/reflectStruct.go:147-165 | a struct takes a text exactly when the text between its first and last rune has as many pieces as there are fields and each field takes its own; then each holds what its piece stands for |
| `Texts.SplitJoins` | src/configuration/reflectStruct.go:150 | the pieces of a text, joined by the separator, are that text |
| `Texts.JoinSplits` | src/configuration/reflectStruct.go:150 | pieces without a separator are found again in their joined text |
| `Override.AssignedAlike` | src/configuration/reflectStruct.go:54-94 | whether a field takes a text, and what it then holds, does not depend on what it held |
| `Override.AssignedExactly` | src/configuration/reflectStruct.go:54-94 | for every kind of field, slices and unexported fields included: exactly which texts it takes, and on which it panics |
| `Override.CrashExamples` | src/configuration/reflectStruct.go:71-94 | instances: an empty list of structs panics, and so does every text for an unexported pointer |
| `Override.Config.SetFieldValue` | src/configuration/reflectStruct.go:54-133 | for every kind: accepted, refused or a panic exactly as the text decides; an accepted field holds what the text stands for; the other fields are as before |
| `Override.AssignedHolds` | src/configuration/reflectStruct.go:54-94 | an accepted field holds decoded bytes, a list of what its tokens stand for, or what the text stands for |
| `Override.AssignedKeeps` | src/configuration/reflectStruct.go:54-94 | after a refusal or a panic lists, bytes and unexported fields are as before, others as the failure leaves them |
| `Override.Config.SetStructField` | src/configuration/reflectStruct.go:35-52 | the first field whose folded name matches is set, exported or not: accepted, it holds what the text stands for, otherwise what the failure leaves; no other changes; an unknown name is accepted and changes nothing; exactly when it panics |
| `StructLists.OneStruct` | src/configuration/reflectStruct.go:71-94 | a list of one struct is taken exactly if the struct is: its braces protect its commas |
| `StructLists.StructReadsBack` | src/configuration/reflectStruct.go:71-165 | a struct rendered from its fields' texts in braces is read back through scanner, splitting and setters: taken exactly if each field takes its text, with the value of each |
| `StructLists.TwoStructsNeverTaken` | src/configuration/reflectStruct.go:147-165 | a list of two structs or more, of two fields or more, is never taken, whatever its parts and gaps |
| `StructLists.ListReadsBackExactly` | src/configuration/reflectStruct.go:235-278 | a rendered list of structs comes back as it was, with any gaps, if and only if no struct but the first holds a comma |
| `Override.Config.OverrideAll` | src/configuration/script.go:61-68 | the loop over the map succeeds exactly when each entry is acceptable on its own, and leaves what the entries leave in one of their orders |
| `Override.FieldAfter` | src/configuration/script.go:61-68 | after accepted overrides a field holds what the last one that hits it stands for; one that none hits is as it was |
| `Override.FailAlike` | src/configuration/script.go:61-68 | every order fails or succeeds alike |
| `Override.OrderMattersUnlessAgreeing` | src/configuration/script.go:61-68 | all orders give the same configuration if and only if some entry is refused or all entries that hit one field agree |
| `Override.DistinctNamesCommute` | src/configuration/script.go:61-68 | names distinct under case folding give the same outcome in every order |
| `Flatten.ProbeMetrics` | src/services/scheduler/prometheus.go:233-330 | the metrics of any probe data, whatever order its maps are walked in |
| `Flatten.MapMetrics` | src/services/scheduler/prometheus.go:259-306 | the same for a top-level map: the walk that stops at the first unsupported entry delivers all or nothing |
| `Flatten.FieldMapMetrics` | src/services/scheduler/prometheus.go:366-406 | the same for a map in a struct field, where unsupported entries are skipped |
| `Flatten.RecordMetrics` | src/services/scheduler/prometheus.go:333-364 | the metrics of a struct are those of its shown fields, in order |
| `Flatten.AnyListing` | src/services/scheduler/prometheus.go:261-264 | any sorted listing of a map's keys gives the same metrics |
| `Flatten.PrintedKeysDiffer` | src/services/scheduler/prometheus.go:438-447 | keys of one supported kind never print alike, negative integers included |
| `FlattenLaws.MapMeaning` | src/services/scheduler/prometheus.go:265-304 | the metrics of a map are exactly those of its supported entries |
| `FlattenLaws.MapOrder` | src/services/scheduler/prometheus.go:372-374 | they come strictly in the order of the printed keys |
| `FlattenLaws.DataApart` | src/services/scheduler/prometheus.go:233-429 | any two metrics of one data value differ in field or item |
| `FlattenValues.MapValues` | src/services/scheduler/prometheus.go:259-306 | every integer, float and text entry of a top-level map has its metric, and there are no others: the number itself, or 0 for the empty text and 1 for others; labelled with the printed key and, for a text, the text |
| `FlattenValues.FieldMapValues` | src/services/scheduler/prometheus.go:366-406 | the same for a map in a struct field, with booleans as 1 and 0, behind pointers too, labelled with field and key |
| `FlattenValues.FieldValues` | src/services/scheduler/prometheus.go:333-364 | what one struct field gives: nothing if unexported, hidden, nil or unsupported, one metric with its number for a plain value, a map's metrics; under the json tag's name or its own |
| `FlattenValues.FieldsInOrder` | src/services/scheduler/prometheus.go:337-364 | the metrics of a struct are those of its fields, one field after the other |
| `FlattenValues.SimpleValues` | src/services/scheduler/prometheus.go:308-330 | the one metric of a simple value, for each kind |
| `FlattenValues.AnyData` | src/services/scheduler/prometheus.go:233-256 | nil pointers give nothing, other pointers what they point to |
| `FlattenValues.KeysReadBack` | src/services/scheduler/prometheus.go:438-447 | integer keys are printed in decimal, with a minus sign and without leading zeros |
| `FlattenValues.LessMeans` | src/services/scheduler/prometheus.go:261-264 | printed keys are compared by their first difference |
| `MetricsData.FlatSquare` | src/services/scheduler/prometheus.go:233-429 | every metric has as many labels as label names, of one of seven shapes |
| `Slices.Append` | src/services/scheduler/prometheus.go:111-136 | Go's append with any growth: in place exactly if there is room; the slice's own view never changes |
| `Collector.Registry.SendMetric` | src/services/scheduler/prometheus.go:163-208 | the cached descriptor or the one built on every branch is used, and the new one is cached; an unknown base name emits nothing |
| `Collector.Registry.CollectMetric` | src/services/scheduler/prometheus.go:115-148 | although appends overwrite one shared array, the sample carries the task's labels, the probe's name and its own labels, and the shared prefix stays |
| `Collector.Registry.CollectData` | src/services/scheduler/prometheus.go:108-150 | so do all samples of a data value, value-mapped |
| `Collector.Registry.MapItem` | src/services/scheduler/prometheus.go:124-135 | the value map replaces the first label named item and no other |
| `Collector.Registry.Collect` | src/services/scheduler/prometheus.go:78-153 | a collection makes exactly the requests of its jobs, in order; samples and cache are those of the whole history; no sample is refused; the returned samples are, job by job and task by task: 1 or 0 for the script's success, 1 or 0 for the task's, its runtime, its number of runs as the only counter, and each metric of its data with its value, under the right metric names, help texts and labels |
| `MetricsValues.ScriptReported` | src/services/scheduler/prometheus.go:84-86 | the sample of a script |
| `MetricsValues.GaugesReported` | src/services/scheduler/prometheus.go:98-107 | the three samples of a task |
| `MetricsValues.MetricReported` | src/services/scheduler/prometheus.go:115-148 | the sample of a metric: its value, and its labels behind those of job, script, task and probe, the item mapped |
| `MetricsValues.OwnConstants` | src/services/scheduler/prometheus.go:90-107 | after any history over tasks that do not clash, each sample of a collection carries the constant labels configured for its own task, a script's none |
| `MetricsValues.FirstConfig` | src/services/scheduler/prometheus.go:90-97 | labels and value map are those of the first task in the job's list with that name |
| `Collector.SendStep` | src/services/scheduler/prometheus.go:181-207 | one request finds or builds what it means, label values match the descriptor's variable labels |
| `MetricsKeys.KeysTell` | src/services/scheduler/prometheus.go:170-179 | equal joined keys mean equal descriptors up to constant labels, for all key shapes and all names |
| `MetricsKeys.BuiltIsMeant` | src/services/scheduler/prometheus.go:183-201 | with nothing cached, the branches build the descriptor that the request means |
| `MetricsCache.RightButConsts` | src/services/scheduler/prometheus.go:181-207 | after every history a request gets the right name, help and variable labels, as many as it has values |
| `MetricsCache.CoherentExactlyWithoutClash` | src/services/scheduler/prometheus.go:98-142 | every history over a set of tasks is served coherently if and only if no two labelled tasks with different labels join to one text |
| `MetricsCache.NoBarNoClash` | src/services/scheduler/prometheus.go:177-179 | no bar in names and one set of labels per task suffice |
| `MetricsCache.BarClashes` | src/services/scheduler/prometheus.go:177-179 | two tasks whose joined names coincide |
| `MetricsUnique.OneCollectionDistinct` | src/services/scheduler/prometheus.go:81-151 | two samples of one collection never have the same name and label set, whatever was collected before |

## Left out

- The wrap-around of the unsigned run counter, and the rounding of large integers to 64-bit floats in metric values:
  counters are natural numbers, values are reals.
- Data races on fields that the program reads or writes without a lock: `ProbeHandler.Finish` is one atomic step, so
  are the test for a missing queue, its creation and each use of it, and the handler's records are read under its lock
  only. Go's memory model is not part of this model.
- `Run` itself as a method: it starts goroutines, so it is a step system; the methods it calls are objects' methods.
  The goroutines of a group are created in one step; one that has been created need not move.
- The engine gives every probe a runner and every task a probe of its own; a missing runner is modelled in `Handler`
  only.
- `EngineSerial` assumes what the scheduler sets up: no call starts before the earlier one has drained and the
  background readers of its processes are done. `EngineWitness` shows both assumptions to be needed; exclusivity,
  verdict, counter, snapshot and termination results need neither.
- Name generation: a generated group name is any nonempty text, as the generator's format demands.
- The task construction around the override loop (YAML and JSON decoding, the probe registry).
- The scalar parsers, base64 and case folding are parameters, so the truncation of a parsed number to a narrower field
  and the renewal of an existing value by an equal one are not visible. A struct's braces are cut off as runes, not as
  bytes; embedded structs of an unexported type are not modelled.
- Input that is not valid UTF-8: the tokenizer works on runes.
- Reflection: probe data are kinds of values, maps are typed; a value behind an interface is an unsupported value.
- Constant labels that reuse the name of a variable label: the metrics library refuses them, so
  `MetricsUnique.OneCollectionDistinct` asks that there are none. It also asks for distinct jobs, task names and shown
  fields, and for a value map that keeps the items of one field apart.
- What happens to workers that are still busy when an unparsable address makes the web probe return at once.
- HTTP, ping, DNS and traceroute themselves, process control, temporary files, `hostFromConfigData`, regular
  expressions: events, given answers or parameters.
- The wall clock: times are numbers that are passed in, and may stand still; `Duration` and the millisecond runtime
  are read-only views of the records.
- `Script.Result`, the scheduler's job list, the HTTP handlers, logging, flags, the file watcher: plumbing.
