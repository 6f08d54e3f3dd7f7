# procguard: supervision, protocols and parsers in Dafny

procguard runs a command under a time limit and, on request, under limits on memory,
processor share and stdin idleness. This project models the logic that makes it
trustworthy and proves properties of that model for all inputs, all schedules and all
behaviours of the operating system. `dafny verify dfyconfig.toml` checks everything.

## What is modelled

**The supervisor.** `Kernel.dfy` is the operating system as the supervisor sees it: one
child, a monotone 64-bit clock, kqueue descriptors, and a trace of every system call. The
environment is a finite script of choices; each call takes the next one, so a theorem
about all scripts covers every order of exits, timers, input, signals and errors. When the
script is used up the world goes quiet: time passes and armed timers fire. `Discipline.dfy`
states the rules for a trace by position and shows that a running counter of breaches is
zero exactly if they hold. `Child`, `Throttle`, `Watch`, `WaitLoop`, `Wait`, `Monitor` and
`Hook` are the program's own code as classes and methods over that world: the reaping
state, the stop/continue controller, the five watchdogs on one timer, the event loop, the
escalation, the hook's wait. `Retry` is the loop around it, `Delay` the waits before it.

**The throttle as a controller.** Every reading of the processor time is an entry in the
trace. `Convergence.dfy` reads a run off these entries, shows that sampling through the
controller's own `Update` makes a regular one, and bounds the distance between the share
used and the share configured, from both sides and over runs of any length.

**Two protocols.** `AtomicOnce` and `SignalPipe` are interleaved steps of any number of
threads. `Linearization` adds the moments of calls and answers to the first and decides
which of its runs are linearizable.

**Transformations.** `Template` (the hook's three replacements), `DurationText`,
`MemLimit`, `Json` and `CommandLine`. Each is proved against an independent
meaning: a left-to-right scan, exact rational arithmetic, the string grammar of section 7
of RFC 8259, and the one-by-one expansion of a cluster of options.

## Assumptions about the environment

They are built into the methods of `Kernel.dfy` and `Delay.dfy`, one method a system call.

- The clock never goes back. Reading it can fail only until the timebase has been cached.
- No time passes between reading the clock and arming the timer from it; a timer event is
  never early. A timer filter reports no error.
- A queue that watches the child reports the exit of one that is dead already before any
  timer. A queue that watches no process reports none.
- `proc_pid_rusage` gives no answer only once the process is gone; SIGCONT fails only then.
- An exit event, ESRCH from kevent, and a successful wait4 mean that the child has died. A
  child is reaped once; nobody else reaps, stops or continues it.
- A read event comes from a registered filter, or is the answer to an entry submitted.
- A held or dead child burns no processor time, a running one no more than its processors
  allow in the time that passes.
- A file that is waited for without a limit is there once the script is used up; with a
  limit it may never come.
- A pipe gets two descriptors that were not open. Cleanup starts when no setup or handler
  is inside and, after it has reset the handlers, waits for those that still started.

## Where the code and its documentation differ

The model follows the code.

- The number of active kevent entries is submitted as a prefix, so without a signal pipe
  the stdin entry never reaches the kernel (`StdinSubmittedIffPipePresent`), and consumed
  input is then never seen (last clause of `WaitWithKqueue`).
- The throttle's comment says that its 128-bit intermediate prevents overflow; the cast
  back to 64 bits wraps (`BudgetTestIsExactIffItFits`, `WrappedBudgetStopsALightChild`).
- `set` is documented to fail if the cell is initialized; it also fails while another
  thread is initializing, when a later `get` can still find nothing. That is the one way
  a run of the cell is not linearizable: it is exactly if no set that failed so had been
  answered before such a get was called (`LinearizableIffNoBetrayal`), and there is a run
  that is not (`SomeRunIsNotLinearizable`).
- Once the handlers are reset, a comment (src/runner.rs:187) says, no handler will write to
  the descriptors; one that has already loaded the write end still does
  (`PassingAHandlerLosesItsSignal`, `AHandlerCanBePassed`).
- The cap on durations is 64 bits of nanoseconds, not seconds (`RoundTrip`), and what
  follows the ninth fraction digit is not looked at (`ReadIffHeadIsNumeral`, `JunkIsRead`).
- The replacement through a placeholder is the documented expansion exactly for commands
  that do not spell out the placeholder (`ReplacingExpandsIffClean`).
- The first `--` is dropped even after COMMAND (`RestIsForwarded`). After DURATION a
  cluster, and `-r` by itself, is COMMAND (`ClusterAfterDurationIsCommand`).
- The five-minute cap on retry delays applies only with a backoff above 1
  (`CapNeedsBackoff`).
- A signal that arrives in the grace period of the memory path is not forwarded; the child
  is killed (`OnMemoryLimit`, and a run of it in `ASignalInTheGracePeriodKills`).

## Model

| member | source | states |
|---|---|---|
| Discipline.DigestCountsBreaches | src/runner.rs:956-1296 | the rules of supervision, stated by positions in a trace (nothing is signalled or waited for after the reap; no stop and no hook after the first terminating signal; no terminating signal and no blocking wait while the child is held; kqueue descriptors opened and closed once) hold exactly if the running counter is zero |
| Discipline.VainMeans | src/runner.rs:1022-1295 | a second counter is zero exactly if every blocking wait comes after the child's death or a terminating signal: nobody waits without limit for a child that was not told to end |
| Discipline.HeldMeans | src/throttle.rs:98-149 | the running flag "held" is true exactly if an effective stop has been followed by neither a continue nor the child's death |
| Discipline.AttemptsMean | src/runner.rs:2189-2231 | the recorded attempts are empty exactly if the trace holds no terminating signal |
| Discipline.AttemptsAreInTheTrace | src/runner.rs:2189-2231 | the latest recorded attempt is the last terminating signal in the trace, and what was recorded before it are those before it |
| Discipline.SamplesAreInTheTrace | src/throttle.rs:98-149 | the latest recorded sample of the processor time is the last such reading in the trace, with the flag "held" of that moment, and those recorded before it are those before it |
| Discipline.LooksAreInTheTrace | src/wait.rs:303-344 | the same of the looks at a file, each with the sleep asked for since the one before |
| Discipline.NapIsInTheTrace | src/wait.rs:318-342 | the sleep recorded is the first one asked for since the last look |
| Discipline.ReadsAreInTheTrace | src/runner.rs:218-229 | if more bytes, or more memory samples, have been read than at an earlier position, the last of them is an entry after it |
| Discipline.QueuesMean | src/runner.rs:1512-1520 | the set of open queues is what the opens and closes of the trace leave |
| Monitor.MonitorWithTimeout | src/runner.rs:956-1296 | for every environment: the rules are kept and no wait is in vain, no queue is left open, on every return the child is not left stopped, a result other than a forwarded signal means it has been reaped, the result agrees with the signals, hook, samples, bytes and reap in the trace, an error has its cause there, the hook runs at most once, without a grace period no timer runs past the time limit, and a child that had exited before the wait is sent nothing if the wait sees that at once |
| Monitor.RunCommand | src/runner.rs:795-822 | the rules, the result's agreement with the trace, causes of errors, at most one hook and the bound on timers, and with a limit of zero no timer, signal or hook at all and no result but completion |
| Monitor.FailedStill | src/runner.rs:2189-2231 | the cause of an error (no clock, trouble with the queue, a failed wait, a refused signal) stays one in a longer run |
| Monitor.Supervise | src/runner.rs:1004-1160 | the first wait and the branch its result calls for: no breach, no descriptor left, the throttle settled if the child is reaped, the result agrees with the trace, an error has its cause in it, at most one hook; a child that is gone is reported completed or was not to be waited for, and sent nothing, if the wait sees it at once |
| Monitor.OnTimeout | src/runner.rs:1162-1295 | the hook once if configured, else never, whatever the result, and before the signal; the configured signal first; `killed` exactly if SIGKILL followed; the reason is the one given |
| Monitor.Escalate | src/runner.rs:1186-1243 | after the signal the child exits, or a received signal is passed on, or it is killed, and then no sooner than the grace period after the first signal (but for the two fallbacks of the wait) |
| Monitor.OnMemoryLimit | src/runner.rs:1055-1149 | the memory path: the configured signal, then SIGKILL exactly if killed, which needs a grace period configured and either that it has passed or that a signal read in it or a fallback cut it short; a signal read in the grace period does mean that the child was killed; the sample reported is the one taken, above the limit; no hook |
| Monitor.ASignalInTheGracePeriodKills | src/runner.rs:1055-1149 | a run in which a SIGTERM is read in the grace period of the memory path and the child gets SIGKILL |
| Monitor.Forward | src/runner.rs:1030-1054 | a received signal goes to the child once, after it has been let go, and the status is reported if it could be had |
| Monitor.KillAndReap | src/runner.rs:1245-1274 | SIGKILL after letting go, one attempt, then the reap with the status reported |
| Monitor.ResumeAndSend | src/runner.rs:1176-1183 | the child is not held when the signal is attempted, and exactly one attempt is recorded |
| Monitor.SendSignal | src/runner.rs:2189-2231 | the process group or, in the foreground, the process; one attempt whatever the fallback does; success exactly if the last kill needed is answered with none or ESRCH, and else that errno |
| Monitor.Grace | src/runner.rs:1187-1198 | the grace wait has no watchdog but the clock, sends nothing, and reaps exactly if it says so |
| Wait.WaitWithKqueue | src/runner.rs:1418-1935 | what each result means (deadline passed; idle for the limit with monitoring never switched off; sample above the limit, taken in this wait; the byte read from the pipe in this wait; reaped), the queue closed once on every path, no timer armed past the deadline, timer events bounded by the time divided by the intervals, without a pipe consumed input never seen, an error only for a cause, and a first wake-up by the pipe, or by timer or exit for a child already dead, ends it accordingly |
| Wait.TickIsPaidFor | src/runner.rs:1756-1842 | a timer event that does not end the wait moves a due watchdog strictly later or switches stdin off: the loop does not spin |
| Wait.MovesAreBounded | src/runner.rs:1606-1653 | the watchdogs can move at most as often as their intervals fit before the deadline |
| Wait.Loop | src/runner.rs:1606-1935 | the loop ends, for every environment, with its result explained, its timers within the deadline and its timer events paid for |
| Wait.PrepareStdin | src/runner.rs:1469-1510 | a closed stdin or, in passthrough mode, one at its end is not watched; waiting input counts as activity |
| WaitLoop.Turn | src/runner.rs:1606-1883 | one turn returns a justified result with the queue closed, or goes on as before with time or script used up; past the deadline it returns |
| WaitLoop.OnTimer | src/runner.rs:1756-1842 | every due watchdog is served, the throttle and memory by a sample; a result is reported only if its cause holds at that moment |
| WaitLoop.CheckThrottle | src/runner.rs:1759-1765 | a due throttle is updated, and then its flag is the comparison of the totals |
| WaitLoop.CheckMemory | src/runner.rs:1767-1782 | a due sample is taken, and one above the limit is reported at once |
| WaitLoop.CheckInput | src/runner.rs:1784-1810 | stdin is reported idle exactly if the limit has passed since the last activity, which in passthrough mode is looked for first |
| WaitLoop.OnOther | src/runner.rs:1844-1934 | registration errors, process exit, signal byte and the spurious wake-ups, each with its queue closed and at most one reap; an exit is never reported as anything else, unless the child cannot be waited for |
| WaitLoop.OnError | src/runner.rs:1684-1715 | EINTR goes on; ESRCH reaps, and the first call it makes does not block; exactly a wait answered ECHILD then reads as a timeout; the rest is an error; the queue is closed |
| WaitLoop.OnStdin | src/runner.rs:1717-1753 | data restarts the idle time, the end of input switches the watch off |
| WaitLoop.TakeSignal | src/runner.rs:218-229 | the signal reported is the byte read, or SIGTERM if that is no signal; without a byte, a timeout |
| Watch.NextWakeIsTheNearest | src/runner.rs:1633-1653 | the timer is set for the first pending moment: never past any of them and exactly on one |
| Watch.StdinSubmittedIffPipePresent | src/runner.rs:1655-1677 | the stdin entry reaches the kernel exactly if the signal pipe is present |
| Watch.PacedMove | src/runner.rs:1764 | moving a due watchdog keeps it a whole interval further on for every move made |
| Child.RawChild.Wait | src/process.rs:258-284 | interrupted waits are retried; success marks the child reaped with the status reported; a reaped child is not waited for again |
| Child.RawChild.TryWait | src/process.rs:287-312 | reaps without blocking, or says that the child still runs |
| Child.RawChild.Kill | src/process.rs:315-333 | a reaped child is never signalled; otherwise one SIGKILL, and success exactly if it is answered with none or ESRCH |
| Child.Drive | src/process.rs:250-334 | any sequence of the three operations keeps the rules; up to the one that reaps, each kill sends one signal, each non-blocking wait asks once and each blocking wait calls at least once; those after it make no call |
| Child.StatusDecodesOneWay | src/process.rs:190-220 | every status is read as an exit code or as a signal, never as both or neither; the byte reported is the code, or 128 plus the signal, and fits |
| Throttle.BudgetTestIsExactIffItFits | src/throttle.rs:121-129 | the 64-bit test answers "more than its share" for every processor time exactly if the budget fits 64 bits (or wraps to the largest word) |
| Throttle.WrappedBudgetStopsALightChild | src/throttle.rs:121-129 | seven minutes into a run under the largest percentage the wrapped budget is 43 ms: a child far below its share counts as over it |
| Throttle.FittingBudgetDecides | src/throttle.rs:121-129 | a budget that fits decides the comparison 100*cpu > percent*wall exactly |
| Throttle.CpuThrottleState.Update | src/throttle.rs:98-149 | unless the child is gone, the last kill was refused or no wall time has passed, the flag left behind is exactly cpu > budget for the budget as cast to 64 bits, and so exactly 100*cpu > percent*wall if that budget fits; the processor time compared is the one sample the trace gains; the flag keeps agreeing with the child |
| Throttle.CpuThrottleState.Resume | src/throttle.rs:70-80 | afterwards the child is not held, whatever the kernel said; nothing is sent if there was nothing to do |
| Throttle.CpuThrottleState.MarkProcessExited | src/throttle.rs:84-87 | afterwards, for a child held or not, the state will not signal it again |
| Throttle.CpuThrottleState.Drop | src/throttle.rs:152-158 | dropping lets go of a held child and sends nothing otherwise |
| Throttle.Attach | src/throttle.rs:51-65 | attaching starts and ends its totals at one sample of the present processor time, which the trace gains, and fails only if the child is dead |
| Convergence.DebtBoundedAbove | src/throttle.rs:89-149 | at every sample 100*cpu - percent*wall is at most 100*(cores*(gap + lag) + cores*lag), where samples are at most gap apart and over within lag of their clock reading |
| Convergence.DebtBoundedBelow | src/throttle.rs:89-149 | if the child uses at least its share while running, it is at least -percent*gap |
| Convergence.ShareConverges | src/throttle.rs:91-97 | so cpu/wall tends to percent/100: within 1/n of a percent point once the wall time is n times the slack, at every later sample |
| Convergence.Regulate | src/throttle.rs:98-149 | sampling through `Update` at any moments leaves a trace whose samples are a run of as many readings: flag exactly if over budget, nothing burned while held, no more burned than the processors allow; cut short only by a sample that is not clean |
| Hook.RunSpawnedHook | src/runner.rs:1990-2037 | a hook that overstays its limit is killed once, no sooner than the limit; otherwise nothing is sent and its exit code is reported; in the end it has been reaped, unless the queue or the wait failed |
| Hook.WaitForHook | src/runner.rs:2050-2175 | the hook's wait closes its queue on every path, reaps exactly if it says so, reports a timeout only at or after the deadline, and plans no wake after it |
| Hook.BlockForHook | src/runner.rs:2099-2147 | interrupted waits are repeated with what is left, for any number of interruptions |
| Template.ReplacingExpandsIffClean | src/runner.rs:1953-1957 | the three replacements are the left-to-right expansion of %% and %p exactly for commands that nowhere look like the placeholder |
| Template.CommandsWithoutNulAreClean | src/runner.rs:1953-1957 | a command without a NUL is such a command |
| Template.ReplacingExpandsEveryCommandLine | src/runner.rs:1953-1957 | so every command a program can be started with is expanded as documented, for every pid |
| Template.AnUncleanCommandGoesWrong | src/runner.rs:1953-1957 | a command with NULs for which the replacements go wrong |
| Retry.RunWithRetry | src/runner.rs:829-950 | at most min(retries, 31) + 1 runs, each but the last timed out and its delay ran out; every run that returned is recorded in order; the safety and trailing errors never occur; a signal in a delay starts no further run; the delays started come to the sum of the delays after each of those attempts, with backoff at most 31 * 300000 ms |
| Retry.BackoffIsExactThenCapped | src/runner.rs:889-900 | the saturating power, product and minimum are min(delay * backoff^attempt, 300000) over unbounded integers |
| Retry.BackoffNeverShrinks | src/runner.rs:889-900 | later attempts never wait less |
| Retry.DelayIsBackoff | src/runner.rs:893-900 | the delay used is the backoff in milliseconds |
| Retry.CapNeedsBackoff | src/runner.rs:891-900 | every delay is within the five-minute cap exactly if there is a backoff above 1 or the configured delay is within it |
| Retry.TotalIsCapped | src/runner.rs:889-900 | with backoff the first n delays come to at most n caps |
| Retry.Attempts.Push | src/runner.rs:400-405 | an entry is appended, or dropped if there are 32 |
| AtomicOnce.EveryRunRefines | src/sync.rs:64-159 | in every interleaving of any number of threads the operations take effect one at a time, in the order of their deciding steps, on an atomic write-once register, passing over a set that failed early; in that order an early failure is never the register's answer |
| AtomicOnce.StepKeepsInv | src/sync.rs:78-159 | each step keeps one writer at most, reads of initialized cells only, and moves the state only forward |
| AtomicOnce.VisibleForGood | src/sync.rs:65-75 | once a value is visible it is the value ever after |
| AtomicOnce.ReadersAgreeAndOneWins | src/sync.rs:78-159 | all successful reads of a run agree, and at most one set or initializer wins |
| AtomicOnce.AFailedSetCanBeFollowedByAnEmptyGet | src/sync.rs:77-101 | a run in which a set fails and a get after it finds nothing |
| Linearization.LinearizableIffNoBetrayal | src/sync.rs:64-159 | in every interleaving the answered calls, with some of those under way, can be put in an order that respects real time and that an atomic write-once register accepts, exactly if no set that failed early had been answered before a get was called that found nothing |
| Linearization.TickKeepsInv | src/sync.rs:78-159 | each step keeps every answer on its side of the claim and the publication: empty gets before the publication, failed sets after the claim, reads after the publication, one winner |
| Linearization.SomeRunIsNotLinearizable | src/sync.rs:77-101 | a run for which there is no such order |
| SignalPipe.ExactlyOnePipeSurvives | src/runner.rs:72-215 | in every interleaving of setups, handlers and cleanups that keep the rule: when nobody is inside, either nothing is open or exactly the claimed pair; setups of one epoch that made their pipe all answer the claimed read end; every handler's byte reached the claimed pipe's open write end and decodes to its signal |
| SignalPipe.StepKeepsInv | src/runner.rs:72-215 | each move keeps descriptors, globals, threads, answers and writes in step |
| SignalPipe.PassingAHandlerLosesItsSignal | src/runner.rs:161-199 | if cleanup passes a handler, its write goes to a closed descriptor, or its signal is dropped |
| SignalPipe.AHandlerCanBePassed | src/runner.rs:161-199 | one schedule, a SIGTERM caught as cleanup starts: with the rule its byte reaches the pipe's write end, without it the write goes to a closed descriptor |
| DurationText.AcceptedIffItFits | src/duration.rs:34-81 | white space, a numeral, a unit and white space are accepted exactly if the length, rounded down to billionths of the unit and then to nanoseconds, is at most 2^64 - 1, and read as that; no intermediate check rejects more |
| DurationText.ShortByLittle | src/duration.rs:67-80 | never above the true value, and short of it by less than a nanosecond plus a billionth of the unit |
| DurationText.Monotone | src/duration.rs:34-81 | in one unit a larger numeral is never a shorter duration, and whatever is below an accepted one is accepted |
| DurationText.RoundTrip | src/duration.rs:34-81 | seconds with nine fraction digits are read back as the same duration exactly if its nanoseconds fit 64 bits, and refused otherwise |
| DurationText.ReadFraction | src/duration.rs:112-131 | the buffer loop gives the number of the first nine characters, zero-filled, or an error if one is no digit |
| DurationText.NineDigitsRoundDown | src/duration.rs:112-138 | the nine-character buffer is the fraction in billionths, rounded down |
| DurationText.ReadIffHeadIsNumeral | src/duration.rs:85-138 | a number that is not negative is read as n exactly if its part up to the ninth fraction character is a numeral worth n billionths that fit 128 bits |
| DurationText.JunkIsRead | src/duration.rs:118 | a text that is no numeral and is read, as a number and as a duration |
| MemLimit.AcceptedIffItMeans | src/rlimit.rs:30-67 | a limit is read as n bytes exactly if it is white space, digits, a unit and white space that mean n, and n fits 64 bits |
| MemLimit.ReadU64 | src/rlimit.rs:149-162 | the checked digit loop gives the number exactly if all are digits and it fits 64 bits |
| MemLimit.FindSuffix | src/rlimit.rs:132-146 | the search from the right stops where the trailing letters start |
| Json.MessageReadsBack | src/main.rs:590-606 | for every message and whatever follows, an RFC 8259 reader gets the message back and resumes exactly behind the closing quotation mark, so the contents can neither end the literal early nor hold a raw control character |
| Json.EscapeJsonString | src/main.rs:590-606 | the loop writes the escapes of the characters in order |
| Json.CharReadsBack | src/main.rs:592-604 | each escape is read as its character, to its end and no further |
| Json.WritingIsOneToOne | src/main.rs:590-606 | different messages are written differently |
| CommandLine.ParseFromSlice | src/args.rs:287-770 | the two index loops compute the word-by-word meaning of the command line |
| CommandLine.WalkCluster | src/args.rs:599-743 | the walk over a cluster ends with its letters' meaning and uses at most one following word |
| CommandLine.ClusterIsItsExpansion | src/args.rs:585-745 | before DURATION a cluster of known letters, its value embedded or following, does what its options do one by one, errors included up to wording |
| CommandLine.ClusterAfterDurationIsCommand | src/args.rs:586-598 | after DURATION the same word is COMMAND and the rest goes to it |
| CommandLine.RestIsForwarded | src/args.rs:300-323 | once COMMAND is known every word goes to it in order and unread, less the first separator if none came before |
| CommandLine.CommandIsForwarded | src/args.rs:297-323 | in every command line accepted with a COMMAND, that is one of the words and its arguments are the words after it, less at most one separator |
| Delay.KqueueDelay | src/wait.rs:132-235 | for any number of interruptions nothing is planned to end after the original deadline, the queue is closed once, false exactly if a read event came from the signal pipe, and true no sooner than the deadline or the end of the longest timer, to the millisecond, unless the kernel refused both the queue and the sleep |
| Delay.SleepMs | src/wait.rs:95-115 | interruptions neither stretch the sleep nor cut it short; only a refusal does |
| Delay.Block | src/wait.rs:164-223 | no timer is armed past the deadline, however often the wait is interrupted |
| Delay.WaitForFile | src/wait.rs:303-344 | of the looks in the trace: every one but the last found nothing, each but the first follows the sleep planned for it, and the answer is the last one's (found, its error, or a timeout if it found nothing and the deadline is past); with a limit it ends though the file never comes, after at most limit / 1 ms + 2 looks and one for each sleep the kernel refuses |
| Delay.SleepAndLook | src/wait.rs:318-342 | a turn asks for its interval's sleep, cut to what is left, then looks once, and reports what that look was answered; past the deadline it does neither; no wake is planned a millisecond or more past it |
| Delay.IntervalDoublesThenStays | src/wait.rs:313-342 | the k-th interval is min(10 * 2^k, 1000) ms |
| Delay.FileExists | src/wait.rs:238-264 | there exactly if stat succeeds, missing exactly if it answers ENOENT or ENOTDIR, otherwise its error; a path that does not fit is refused unasked |
| TimeMath.DurationToNsIsClamped | src/runner.rs:342-347 | the saturating conversion is the exact length cut off at the longest timer |

## Left out

- Spawning (`posix_spawn`, `fork`), limits set by `setrlimit`, and every foreign-function
  body: they are the environment.
- The allocator, the panic handler, output routines, the build script.
- Weak memory: the steps of `AtomicOnce` are sequentially consistent, so the choice of
  Acquire and Release orderings is not checked. A closure that panics is not modelled.
- SignalPipe.ExactlyOnePipeSurvives: the six `sigaction` calls are one step, and a handler
  runs as a thread of its own rather than on top of another; a full pipe is not modelled.
- Monitor.MonitorWithTimeout: in the monitor's world the on-timeout hook is one step of
  arbitrary length; its own wait is `Hook`, in the hook's world. Rusage figures, messages
  and the elapsed time of results are not modelled.
- Hook.RunSpawnedHook: spawning the hook's shell and the elapsed time it reports.
- Retry.RunWithRetry: each run, its duration and whether its delay ended are parameters;
  that a delay keeps its deadline is `Delay`.
- Convergence.DebtBoundedAbove: that samples are at most `gap` apart is a premise about the
  run, as is, for the bound from below, that the child uses its share while it may; the
  rest is proved of the code.
- Delay.WaitForFile: without a limit the wait lasts until the file comes, which is presumed.
- CommandLine.ParseFromSlice: the wording of errors, the texts of the help and version
  pages, and the fallbacks to environment variables. Borrowed and owned values are one.
- Delay.FileExists: a path is its length; a NUL inside it is not modelled.
- Exit codes of results, heartbeat text, signal name tables, JSON field layout, shell
  completions, `resolve_args` and `RunConfig::from_args`: case tables.
- `rusage_info` offsets and alignment.
