# Scheduler, profiler and credential hooks: a verified model

This project models the three kernel modules of the repository that keep state over
time, and proves what they promise over whole runs.

**The rate-monotonic scheduler** (`rms_scheduler/`). `Scheduler.dfy` is the module as a
state machine: the task list with its READY/RUNNING/SLEEPING states, one-shot timers,
absolute deadlines and `current_running`, with one atomic step per `/proc` message, timer
expiry, dispatcher wake-up and clock tick. Every step exists in two variants. *As written*
is the code. *Guarded* puts the context switch of `rms_scheduler/mp2.c:374-391` under the
verdict that line 360 computes, and the clearing of `current_running` at line 241 under
the check that deregistration makes at line 263. `Mp2.dfy` is the code itself, with
mutable records, pointers and loops, proved to take exactly the as-written steps.

The main result is the Liu-Layland guarantee for the test as it is computed, end to end.
A run is *patient* if a registration that the test accepts also fits beside the departed
tasks whose next release is still ahead; a run from which nobody departs
is patient (`Departures.StayingIsPatient`).
`AdmissionLimit.SafeForIff` says that in patient runs of the guarded scheduler in which at
most n tasks count at a time, whatever their periods and release phases and however they
register and deregister, no yield ever finds its deadline passed, and no job has work left
when its task's next release has come, if and only if n is at most 49. It is about
processing times up to 429496 and jobs that keep to theirs. The chain is

1. 32-bit arithmetic: nothing wraps for processing times up to 429496
   (`Guarantee.AdmittedTotal`), and beyond that the verdict goes wrong (`Admission.VerdictIff`);
2. truncated division hides less than 1/10000 per task (`Admission.TruncationOfSum`);
3. a sum of at most 0.693, or of at most 0.6979 over at most 50 terms, gives a product of
   (1 + u) below 2 (`UtilizationBound`; no logarithm is needed: for the first, the
   utilisations are halved eleven times, where a product of (1 + u) is easily bounded by
   the sum, and the result is squared as often; for the second, the inequality of the means);
4. a product below 2 gives a window within any period that holds all the work that can be
   asked for in it, beside a share of the processor that is used up evenly
   (`TimeDemand.SomeWindowFitsBeside`);
5. a busy window of the dispatcher never gets that long. For a fixed set of tasks that
   come and go at will the account is that of `Schedulability.NoDeadlineMissed`, and there
   such windows are necessary too (`ExactTest.RoomyIff`); for patient runs, in which ever new
   tasks arrive, every window charges whoever follows a departed task to an evenly used
   share (`Churn.PatientRunsAreOnTime`);
6. conversely, when no window fits, the run in which all tasks are released at once leaves
   a job with work to do at its next release (`Overload.CriticalInstant`), and fifty
   concrete tasks, or any larger number, pass the test although no window fits them
   (`AdmissionLimit.SteepIsAccepted`, `SteepNeverFits`, `BurdenExists`).

Patience is needed: the test forgets a task the moment it is deregistered, and
`Impatience.ImpatienceMisses` is a run with four tasks registered at a time, each admitted,
in which a job is late because the three others are replaced as soon as their first job ends.

`Progress.TimeGoesOn` and `Churn.PatientRunsGoOn` show that none of this holds for want of
runs: every such run can be continued until the clock may tick.

**The profiler** (`vm_profiler/`). `Profiler.dfy` is the producer's circular buffer, a
refinement of the sequence of samples taken; `Monitor.dfy` the program that finds, prints
and erases records around a smaller circle; `Pipeline.dfy` both on one buffer in any
order; `Sampler.dfy` the registered list, the delayed work and the kernel's counters.
The producer's capacity is 4 * `slots` words and the reader's 4 * `m`, with `m < slots`;
configured are 16384 slots (65536 words, `vm_profiler/mp3.c:11`) and m = 12000 (48000
words, `vm_profiler/monitor.c:13`).

**Smaller parts.** `Protocol.dfy`: the texts exchanged between `rms_scheduler/userapp.h`
and the scheduler. `Credentials.dfy`: the credential hooks of `security_policy/mp4.c`, on
label and credential objects, over a memory in which labels are allocated and freed.

## Where the code departs from its intent

- The dispatcher switches to the task the scan found even when the current one is the more
  prioritized (`rms_scheduler/mp2.c:374-391` against line 360), and a yield by any task
  clears `current_running` (line 241). `SchedulerInvariants.AsWrittenExclusiveIff` says
  exactly which steps of the code as written therefore leave a second RUNNING task or lose
  the running one, `AsWrittenExclusiveAlongIff` says it of whole runs, and `TwoRunning`
  exhibits such a run. A run in which these guards never matter is a guarded run
  (`AsWrittenRunIsGuarded`), so all guarantees hold for it. Otherwise none does: however
  little two tasks use, the code as written can switch from the one of the shorter period to
  the other at their common release, and the first is late without having run at all
  (`Unguarded.LateAtAnyUtilization`).
- Deregistration takes a task out of the sum at once (`rms_scheduler/mp2.c:94-96`), although
  the job it has just had was admitted for a whole period. A caller who registers another in
  its place before that period is over can make a third task late
  (`Impatience.ImpatienceMisses`); waiting for it is enough (`Departures.NobodyPending`).
- The admission test multiplies and adds in 32 bits. Above a processing time of 429496 the
  product wraps, and there is always a period at which a task beyond the bound is admitted
  (`Admission.WrappedProductIsAdmitted`, `VerdictIff`).
- The comment at `vm_profiler/monitor.c:13` calls the reader's capacity a number of
  samples; it is a number of words.
- When its own circle holds nothing, the reader starts at the word just beyond it. If the
  producer has written there, it prints that word with three empty ones and erases it;
  otherwise it prints only whole records (`Monitor.PrintsWholeRecordsIff`). Samples in the
  slots between the two capacities are never printed whole.
- `is_pid_registered` reads 1000 characters. It finds exactly the registered pids if and only
  if the text up to the last pid fits (`Protocol.StatusRoundTrip`); of 1001 tasks it misses
  one (`LongStatusMisleads`), and a pid cut short is taken for a smaller one
  (`CutPidIsSmaller`; `MentionsIffSeen` says what it answers for any length). That is so if
  the text is all there is; but the function never terminates the buffer it has allocated.
  Whatever follows in memory, a pid whose line was read whole is found, and beyond those
  lines the answer depends on what follows (`AnswerWithTail`, `TailDecides`).

## Assumptions

- Handlers, timer callbacks, dispatches and drains are atomic. The code is not quite: the
  admission check and the insertion are two critical sections (`rms_scheduler/mp2.c:93-97`
  and `189-191`), the timer is armed before the state is SLEEPING (`238-239`), and the
  sampler requeues itself after it has released the lock (`vm_profiler/mp3.c:305-306`).
- A registered pid is registered once, handlers are called for registered pids, periods
  are at least 1, allocation in the scheduler and profiler succeeds, `jiffies` does not
  wrap, and a timer goes off at its expiry before the clock moves past it.
- For deadlines: one jiffy per millisecond, between two ticks the process that
  `current_running` names is the one that runs, a job uses at most its processing time (the
  code does not enforce it), a task that sleeps until its release sends no yield, and the
  dispatcher runs before the clock moves on. Elsewhere the conversion from milliseconds to
  jiffies is an arbitrary function.
- No recorded word equals -1, and the buffer the reader has mapped is longer than its circle.

## Model

| member | source | states |
|---|---|---|
| Mp2.Module.GetTask | rms_scheduler/mp2.c:76-85 | the first record with the pid, NULL exactly if there is none |
| Mp2.Module.PassAdmissionControl | rms_scheduler/mp2.c:89-106 | the loop's verdict is that of the 32-bit test |
| Mp2.Module.GetMostPrioritizedReadyTask | rms_scheduler/mp2.c:124-145 | the scan returns the record the selection specification picks, NULL exactly if nothing is READY |
| Mp2.Module.OnRegister | rms_scheduler/mp2.c:161-194 | on the heap, exactly the register step: a SLEEPING record without deadline goes to the front if the test passes, else nothing changes |
| Mp2.Module.TimerCallback | rms_scheduler/mp2.c:148-158 | on the heap, exactly the expiry step and nothing else changes |
| Mp2.Module.SetDeadline | rms_scheduler/mp2.c:213-228 | the deadline moves to one period after now or after the last one; tells whether it has passed |
| Mp2.Module.OnYield | rms_scheduler/mp2.c:197-248 | on the heap, exactly the as-written yield step, skipped yields included |
| Mp2.Module.OnDeregister | rms_scheduler/mp2.c:251-274 | on the heap, exactly the deregister step, by removal while iterating |
| Mp2.Module.SwitchTo | rms_scheduler/mp2.c:359-391 | preemption under the check, then the switch without it |
| Mp2.Module.Dispatch | rms_scheduler/mp2.c:353-399 | on the heap, exactly the as-written dispatch step |
| Tasks.BestReady | rms_scheduler/mp2.c:124-145 | a READY task of least period, the last such in list order; none exactly if no task is READY |
| Releases.ListIsInArrivalOrder | rms_scheduler/mp2.c:189-191 | over every run the list is the arrival order reversed |
| Releases.FirstComeFirstServed | rms_scheduler/mp2.c:116-145 | over every run the selected task has least period and, among equals, was registered first |
| SchedulerInvariants.StepConsistent | rms_scheduler/mp2.c:148-274 | every as-written or guarded step keeps: current_running is listed and RUNNING; a pending timer belongs to a SLEEPING task and expires at its deadline, not passed; a SLEEPING task with a deadline has its timer pending |
| SchedulerInvariants.RunConsistent | rms_scheduler/mp2.c:148-391 | that invariant holds in every state of every run, of either variant |
| SchedulerInvariants.GuardedStep | rms_scheduler/mp2.c:353-398 | every guarded step keeps: the RUNNING tasks are exactly the current one, and without an outstanding wake-up nothing READY should run instead |
| SchedulerInvariants.GuardedRun | rms_scheduler/mp2.c:353-398 | that holds in every state a guarded run reaches |
| SchedulerInvariants.RightAfterDispatch | rms_scheduler/mp2.c:353-398 | after each dispatch current_running has least period among the READY tasks, and is NULL only if none is READY |
| SchedulerInvariants.AsWrittenExclusiveIff | rms_scheduler/mp2.c:359-391 | a step of the code as written keeps the RUNNING tasks to the current one if and only if the missing guards would have changed nothing |
| SchedulerInvariants.AsWrittenExclusiveAlongIff | rms_scheduler/mp2.c:359-391 | a run of the code as written has the current task alone RUNNING in all its states if and only if the missing guards would never have changed anything |
| SchedulerInvariants.AsWrittenRunIsGuarded | rms_scheduler/mp2.c:359-391 | a run as written along which the guards never matter is a guarded run |
| SchedulerInvariants.TwoRunning | rms_scheduler/mp2.c:374-391 | a run of the code as written ends with two RUNNING tasks |
| Unguarded.AgreeingRunsMeetDeadlines | rms_scheduler/mp2.c:341-400 | a run as written along which the guards never matter meets the deadlines of NoDeadlineMissed |
| Unguarded.SwitchMakesLate | rms_scheduler/mp2.c:359-391 | a run of the code as written with any two admitted tasks of periods p <= q and times 1 and p: at its next release the first has not run at all |
| Unguarded.LateAtAnyUtilization | rms_scheduler/mp2.c:359-391 | so for every m from 2 to 214748 two tasks of exact utilisation 1/m are enough for a late job |
| Releases.FirstYieldArms | rms_scheduler/mp2.c:213-240 | over every run and for every conversion to jiffies, the first yield of a task makes it sleep until one period, converted, after now |
| Releases.ReleasesStayOnGrid | rms_scheduler/mp2.c:148-239 | over every run the releases of a task lie on the grid that starts one converted period after its first yield, at least a period apart, and an armed deadline is on it, after the last release and not before now |
| Releases.LateTaskSkips | rms_scheduler/mp2.c:219-232 | a late task yielding again and again at one time skips max(0, ceil((now - d)/P) - 1) times, only moving its deadline |
| Releases.LateTaskArms | rms_scheduler/mp2.c:219-239 | and then sleeps until the first grid point not before now |
| Admission.TotalsAgree | rms_scheduler/mp2.c:94-96 | below that the 32-bit running sum is the unbounded one |
| Admission.AdmitsIffTotal | rms_scheduler/mp2.c:89-106 | and the 32-bit verdict is the unbounded verdict |
| Admission.AdmitsIffWide | rms_scheduler/mp2.c:89-106 | for any list and any task: the verdict is whether the quotients of the 32-bit products, summed up and taken to 32 bits, are at most 6930 |
| Admission.WrappedProductIsAdmitted | rms_scheduler/mp2.c:99-105 | above 429496 there is always a 32-bit period at which a first task beyond the bound is admitted |
| Admission.VerdictIff | rms_scheduler/mp2.c:89-106 | for a 32-bit time the verdict is the unbounded one at every 32-bit period and whatever tasks have been admitted, if and only if the time is at most 429496 |
| Admission.TruncationOfSum | rms_scheduler/mp2.c:94-105 | the exact utilisation of n tasks is below the truncated total plus n/10000 |
| Admission.TinyTasksAreFree | rms_scheduler/mp2.c:94-105 | any number of tasks can show the test a total of 0 |
| Admission.TinyTasksAddUp | rms_scheduler/mp2.c:94-105 | while their exact utilisation is n/10001, so exceeds any bound |
| Guarantee.StepKeepsTotal | rms_scheduler/mp2.c:161-274 | every step keeps the truncated total within 6930 |
| Guarantee.AdmittedTotal | rms_scheduler/mp2.c:89-106 | over every run with times up to 429496 the total stays within 6930 and the 32-bit sum never wraps |
| UtilizationBound.SumToProduct | rms_scheduler/mp2.c:13-14 | utilisations summing to at most 0.693 have a product of (1 + u) below 2 |
| UtilizationBound.EqualSharesAreWorst | rms_scheduler/mp2.c:13-14 | the product is largest for equal shares (inequality of the means) |
| UtilizationBound.SumToProductFor50 | rms_scheduler/mp2.c:13-14 | for at most 50 terms a sum of 0.6979 still gives a product below 2 |
| TimeDemand.SomeWindowFits | rms_scheduler/mp2.c:94-105 | a product below 2 gives a window within the longest period that holds the demand of all tasks, with time left |
| TimeDemand.SomeWindowFitsBeside | rms_scheduler/mp2.c:94-105 | the same beside a steady share f, when the product with (1 + f) is below 2 |
| Schedulability.KeepsTrack | rms_scheduler/mp2.c:148-247 | every event keeps a task's releases at least a period apart, and its credit in a window grows by at least the ticks it has just run |
| Schedulability.BusyIsShort | rms_scheduler/mp2.c:353-398 | while a level's window is busy, an active job of that level is before its task's next release |
| Schedulability.NoDeadlineMissed | rms_scheduler/mp2.c:341-400 | over every guarded run whose tasks each have a window within their period that holds the demand of their level with time left, and keep to their times, every job ends before the next release and no yield finds its deadline passed |
| Schedulability.NoDeadlineMissedByUtilization | rms_scheduler/mp2.c:13-14 | in particular for a product below 2, or an exact utilisation of at most 0.693 |
| ExactTest.RoomyIff | rms_scheduler/mp2.c:341-400 | of tasks accepted together every job ends before the next release in all runs that register only them, if and only if each has such a window |
| Departures.StepCharged | rms_scheduler/mp2.c:161-274 | every event of a patient run keeps the truncated total of the registered tasks and of the departed ones that still count within 6930 |
| Departures.NobodyPending | rms_scheduler/mp2.c:89-106 | once every departed task's next release has come, whatever the test accepts is patient |
| Departures.StayingIsPatient | rms_scheduler/mp2.c:89-106 | runs from which nobody departs are patient |
| Churn.BusyFarewell | rms_scheduler/mp2.c:251-274 | a window's account survives the departure of any task |
| Churn.BusyLater | rms_scheduler/mp2.c:341-400 | and the next tick, as long as the level has work |
| Churn.WindowIsShort | rms_scheduler/mp2.c:353-398 | so an active job is before its task's next release |
| Churn.PatientRunsAreOnTime | rms_scheduler/mp2.c:341-400 | over every patient run, deregistration included, with at most 49 tasks counting at a time, every job ends before its task's next release |
| Churn.PatientRunsGoOn | rms_scheduler/mp2.c:346-400 | every patient run can be continued until the clock ticks |
| Progress.NextStep | rms_scheduler/mp2.c:346-400 | as long as no job is past its next release, either the clock may tick or an event can happen that brings it closer |
| Progress.TimeGoesOn | rms_scheduler/mp2.c:346-400 | every well-behaved run over a fixed set of tasks can be continued until the clock ticks |
| Overload.LastNeverDone | rms_scheduler/mp2.c:341-400 | after a common release of overloaded tasks the last of the longest-period jobs has not done its work up to and including the time of its next release |
| Overload.CriticalInstant | rms_scheduler/mp2.c:341-400 | accepted tasks whose demand fits no window: in some run in which all behave a job has work left when its next release has come, and the clock moves on |
| Overload.MissSkips | rms_scheduler/mp2.c:220-232 | after which its yield takes the branch for a passed deadline |
| AdmissionLimit.StairsExist | rms_scheduler/mp2.c:94-105 | fifty periods whose differences show the test just what is allowed |
| AdmissionLimit.SteepIsAccepted | rms_scheduler/mp2.c:89-106 | the fifty tasks built on them pass the test |
| AdmissionLimit.SteepNeverFits | rms_scheduler/mp2.c:94-105 | at no time up to the longest period have they had all the time they ask for |
| AdmissionLimit.BurdenExists | rms_scheduler/mp2.c:89-106 | for every n from 50 on, n tasks the test accepts although no window up to the longest period fits them |
| AdmissionLimit.MissWith | rms_scheduler/mp2.c:89-106 | so for every n from 50 on, a run with exactly n admitted tasks in which a job is late, and after one more tick its yield finds its deadline passed |
| AdmissionLimit.AdmittedTasksMeetDeadlines | rms_scheduler/mp2.c:89-106 | up to 49 tasks at a time, admitted by the test as computed in a patient run, miss no deadline |
| AdmissionLimit.SafeForIff | rms_scheduler/mp2.c:89-106 | in patient runs with at most n tasks at a time no yield finds its deadline passed if and only if n is at most 49; and no job has work left at its next release if and only if n is at most 49 |
| Impatience.ImpatienceMisses | rms_scheduler/mp2.c:251-274 | without patience four tasks at a time, each admitted, are enough: a job is late, and a yield finds its deadline passed |
| Protocol.DigitsOfPrint | rms_scheduler/userapp.h:12-33 | scanning the digits of a printed number gives the number, whatever follows |
| Protocol.RequestRoundTrip | rms_scheduler/mp2.c:277-303 | the handler recovers exactly the 32-bit pid, period and time, or pid, that the client prints |
| Protocol.ScanWraps | rms_scheduler/mp2.c:166-168 | larger numbers are taken modulo 2^32 |
| Protocol.LetterSelects | rms_scheduler/mp2.c:284-299 | the first character alone selects the handler, and other messages are ignored |
| Protocol.RequestTexts | rms_scheduler/userapp.h:12-33 | what the client writes, to the character, at one example each |
| Protocol.StatusReadsBack | rms_scheduler/mp2.c:321-333 | for every list of 32-bit tasks, splitting the lines at the colon and the commas and scanning the pieces gives pid, period, processing time and state of each, in list order |
| Protocol.LineText | rms_scheduler/mp2.c:324-331 | a line of it, to the character, at one example |
| Protocol.Status | rms_scheduler/mp2.c:321-333 | the loop produces the status text, one line a task in list order, which reads back |
| Protocol.IsPidRegistered | rms_scheduler/userapp.h:36-64 | the tokenising loop answers 1 exactly if some line of what it has read and of what follows it in memory gives the pid |
| Protocol.BlankLineIsSkipped | rms_scheduler/userapp.h:50-63 | blank lines make no difference |
| Protocol.LineWithoutNumber | rms_scheduler/userapp.h:50-63 | a line that starts with no number is compared with what the variable held before |
| Protocol.AnswerWithTail | rms_scheduler/userapp.h:43-63 | whatever follows the text in memory, every pid whose line was read whole is found; beyond those lines the answer is what the rest of the text and what follows it mention |
| Protocol.TailDecides | rms_scheduler/userapp.h:43-63 | so of a status that fits the buffer exactly the registered pids and those that what follows mentions are reported |
| Protocol.MentionsIffSeen | rms_scheduler/userapp.h:50-63 | exactly what it answers from any number of characters of a status text and nothing else |
| Protocol.StatusRoundTrip | rms_scheduler/userapp.h:50-63 | for every list and nothing behind the text, the answer is right for every pid, whatever the variable held, if and only if the text up to the last pid fits the buffer |
| Protocol.LongStatusMisleads | rms_scheduler/userapp.h:46-63 | of 1001 registered tasks one is not found |
| Protocol.CutPidIsSmaller | rms_scheduler/userapp.h:50-63 | a pid cut short reads as a smaller one |
| Profiler.Buffer.constructor | vm_profiler/mp3.c:353-354 | every word empty, writing starts at 0 |
| Profiler.Buffer.Record | vm_profiler/mp3.c:295-303 | four words written where the index stood and no other, the index a multiple of 4 below the capacity |
| Profiler.IndexIsSampleCount | vm_profiler/mp3.c:295-303 | the index is 4 * (n mod slots) after n samples |
| Profiler.BufferRefinesHistory | vm_profiler/mp3.c:295-303 | each slot holds exactly the newest sample with its number modulo the slots, or only empty words |
| Profiler.NewestIsLast | vm_profiler/mp3.c:295-303 | the newest sample of a slot is the one of greatest number |
| Profiler.NoneIsNewest | vm_profiler/mp3.c:353-354 | and there is none before the first |
| Monitor.FirstInUse | vm_profiler/monitor.c:60-61 | the scan loop finds the first word in use below the capacity, or the capacity |
| Monitor.PrintRecord | vm_profiler/monitor.c:65-83 | one turn prints and erases four words with the reader's wrap after each |
| Monitor.PrintAll | vm_profiler/monitor.c:60-85 | scan and drain together produce the drain's lines and leave its buffer |
| Monitor.TurnErases | vm_profiler/monitor.c:64-85 | every turn lowers the number of words in use, so the loop ends on any buffer |
| Monitor.DrainConserves | vm_profiler/monitor.c:60-85 | a drain prints whole records in slot order; printed then remaining is what there was; four words go per line; nothing beyond the circle changes |
| Monitor.DrainsRun | vm_profiler/monitor.c:64-85 | exactly which: the run of records from the first one, and exactly that is erased |
| Monitor.DrainOfNothing | vm_profiler/monitor.c:60-85 | what it does when its circle is empty |
| Monitor.PrintsWholeRecordsIff | vm_profiler/monitor.c:60-85 | it prints only whole records if and only if its circle holds one or the word beyond is empty |
| Monitor.DrainsEmptyTheCircle | vm_profiler/monitor.c:60-85 | repeated drains, no more than there are records, print each record once and leave none |
| Monitor.FirstDrain | vm_profiler/monitor.c:60-85 | after samples in a fresh buffer the first drain prints those that fit, in order, and erases exactly them |
| Monitor.SampleThenDrain | vm_profiler/monitor.c:60-85 | samples that fit, a full circle included, are printed in order and every word is left empty |
| Monitor.ConfiguredSampleThenDrain | vm_profiler/monitor.c:13-85 | as configured, up to 12000 samples |
| Monitor.SamplesBeyondTheCircle | vm_profiler/monitor.c:60-85 | with more samples than fit, the second drain prints one mutilated record |
| Pipeline.DrainMoves | vm_profiler/monitor.c:60-85 | any drain moves whole records from the buffer to the output and keeps the circle aligned |
| Pipeline.CirclesStayAligned | vm_profiler/mp3.c:295-303 | over every run of samples and drains each slot of the circle is a whole record or empty |
| Pipeline.NothingPrintedTwice | vm_profiler/monitor.c:60-85 | over every run of samples and drains each sample was printed whole exactly once, is still stored, or was overwritten or out of reach |
| Sampler.Module.GetCpuUse | vm_profiler/mp3_given.h:22-45 | -1 and no change if the process is gone, else its counters, which become zero |
| Sampler.Module.SumUp | vm_profiler/mp3.c:278-293 | the pass over the list sums in 64 bits what the list reads, and resets it |
| Sampler.Module.UpdateProfiler | vm_profiler/mp3.c:272-307 | one such pass, its record written at the index, and the work requeued |
| Sampler.Module.Register | vm_profiler/mp3.c:115-123 | prepends; queues the work if the list was empty |
| Sampler.Module.Deregister | vm_profiler/mp3.c:129-155 | removes every entry of the pid; cancels the work if nothing is left |
| Sampler.ListIsArrivals | vm_profiler/mp3.c:100-155 | over every run the list holds the registrations not followed by a deregistration of their pid, newest first |
| Sampler.RegisteredIff | vm_profiler/mp3.c:100-155 | so a pid is on it exactly if it has been registered and not deregistered since |
| Sampler.ReadingIsHeld | vm_profiler/mp3.c:284-293 | a sample records the minor and the major faults and the user and system time of each live registered process exactly once, however often registered |
| Sampler.ReadingResets | vm_profiler/mp3_given.h:29-40 | and leaves exactly those counters at zero, all four |
| Sampler.SampleConserves | vm_profiler/mp3.c:284-297 | a sample moves faults and cpu time from counters to record |
| Sampler.CountersAreConserved | vm_profiler/mp3.c:284-297 | over every run, for minor faults, major faults and cpu time: recorded plus held plus lost at exit is initial plus generated, less what wrapped around in a record, and nothing wraps below 2^64 in all |
| Sampler.SamplerIsArmedIff | vm_profiler/mp3.c:118-151 | over every run the work is queued exactly while some process is registered |
| Credentials.Kernel.CredAllocBlank | security_policy/mp4.c:172-201 | 0 and a label of 0, or -22 for NULL or -12 for want of memory and no change |
| Credentials.AllocBlankCodes | security_policy/mp4.c:172-201 | each of the three codes exactly in its case, and what it leaves |
| Credentials.Kernel.CredPrepare | security_policy/mp4.c:245-270 | 0 and a copy of the label, or a blank one if there is none to copy; -12 and no change exactly if a copy finds no memory |
| Credentials.PrepareCodes | security_policy/mp4.c:245-270 | both codes exactly in their cases, and what they leave |
| Credentials.Kernel.CredFree | security_policy/mp4.c:210-235 | the label is freed and the credential forgets it |
| Credentials.FreeForgets | security_policy/mp4.c:210-235 | exactly that label goes, no other credential changes, and freeing twice is freeing once |
| Credentials.Kernel.BprmSetCreds | security_policy/mp4.c:100-163 | a target-labelled file makes the label the target's, nothing else changes anything |
| Credentials.StepOneToOne | security_policy/mp4.c:172-270 | every hook keeps labels in use and credentials holding one in one-to-one correspondence |
| Credentials.Run | security_policy/mp4.c:172-270 | so after every run nothing dangles, is shared or has leaked |
| Credentials.OthersKeepTheirLabel | security_policy/mp4.c:100-270 | freeing, copying or relabelling one credential changes no other |
| Credentials.SubjectLabel | security_policy/mp4.c:100-270 | what each hook makes of the label of its own credential |
| Credentials.TargetIff | security_policy/mp4.c:157-160 | over every run a label is the target's exactly if an exec of a target-labelled file is on its chain of copies |

## Left out

- NoDeadlineMissed: is about the guarded variant; for the code as written it holds of runs along which the guards do not matter.
- LateAtAnyUtilization: takes the process that current_running names to be the one that runs; which of two RUNNING ones the kernel runs is not part of this model.
- NoDeadlineMissed: takes one jiffy per millisecond; how the kernel rounds milliseconds to jiffies is not part of this model.
- SafeForIff: is about patient runs and processing times up to 429496; without patience the guarantee fails (ImpatienceMisses), and above that time the verdict does (VerdictIff).
- ImpatienceMisses: does not say how few tasks are enough; four are.
- RoomyIff: is about jobs that are over before their next release; a yield is skipped only after one more tick, which it does not characterise.
- RequestRoundTrip: takes period and processing time as decimals; the client passes on any text it is given, and the handler's buffer ends only where the message's newline does.
- Scan: wraps numbers beyond 32 bits; what the two libraries make of numbers beyond 64 bits is not modelled.
- UpdateProfiler: the conversion of cpu time to milliseconds is a parameter; a process's own counters do not wrap around in the model.
- PrintAll: needs the mapped buffer to be longer than the reader's circle, as configured; with equal lengths an empty buffer would be read past its end.
- Linux scheduling policy (`sched_setscheduler`, `wake_up_process`, `schedule`, `set_task_state`): library calls; the branch at `rms_scheduler/mp2.c:392-398` only changes policy and leaves the task as it is.
- Locks and interleavings finer than the steps above.
- Module load and unload, procfs, the character device, page mapping and slab caches.
- `cputime_logger/`: a filter-and-update pass over a list, which would only add easy members.
- Permission decisions, label names and path skipping in `security_policy/`: finite tables settled by reading their branches; `mp4_inode_permission` and `get_inode_sid` enter as the label of the executed file.
- `vm_profiler/work.c`, plots, menus and build scripts.
