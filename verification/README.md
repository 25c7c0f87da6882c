# Verified models of the POSIX.4 examples

Dafny models of the concurrent programs in this repository, with proofs about every
schedule. Each protocol is a step machine: a `State`, an `Action` that says which process or
which part of the kernel moves, `Enabled`, `Apply`, and runs as sequences of actions, so a
theorem about all runs is a theorem about all interleavings. Beside each machine a
`...Program` module (or a class in the same module) holds the program in its own form,
fields and buffers updated in place by one method per C function or statement, each proved
to perform exactly the machine's step, and a driver that runs it under an arbitrary
scheduler.

| file | models |
|---|---|
| `AioPipe`, `AioPipeInvariant`, `AioPipeProgress`, `AioPipeCorrect`, `AioPipeHolding`, `AioPipeAsWritten`, `AioPipeProgram` | the asynchronous double-buffered copy |
| `SignalKernel`, `SignalProcess` | masks, pending bits, queues, handler frames and `sigsuspend`, as functions and as a process object |
| `PingPong`, `PingPongInvariant`, `PingPongResults`, `PingPongExit`, `PingPongRefinement`, `PingPongProgram` | the signal ping-pong, ordinary and queued, as one machine with a flag |
| `OneWay`, `OneWayExit`, `OneWayProgram` | signals without replies, counted or blocked |
| `SelfSend` | a process signalling itself |
| `Fifo`, `FifoProgram` | the pipe ping-pong |
| `ShmMutex`, `ShmMutexProgram` | the lock / fill / unlock loop under three locks |
| `Switch` | `sched_yield` round robin |
| `VSched`, `VSchedProgram` | virtual priorities and `atprio` |
| `Jitter`, `JitterProgram` | the jitter recorder |

`dafny verify dfyconfig.toml` checks everything.

## Where the code and its intent differ

The machines follow the code. Where the code does not do what it is for, the machine has a
flag, the repaired form is proved right on all inputs, and the form as written gets the exact
condition under which it is right.

- `aiopipe.c:42` and `aiopipe.c:66` use `buf1` for both blocks although each has its own
  `buffer`, and `aiopipe.c:65` re-reads standard output. `AioPipe.Variant` has a flag for each.
  With both repaired every input is copied on every schedule (`RepairedAlwaysCopies`); with
  one buffer for both blocks, exactly when the re-read reaches the whole input and each byte
  past the first block is zero along with the byte one block before it
  (`SharedBufferCopiesIff`), which for the file as written means at most two blocks
  (`AsWrittenCopiesIff`) and with only the re-read repaired means a long input must be all
  zeros (`SharedBufferAlone`); with only the buffers repaired, exactly when the input has at
  most two blocks (`StdoutRereadCopiesIff`). `flags` is undeclared there and `SA_SIGACTION`
  is read as `SA_SIGINFO`.
- `jitter.p4.c:202-205` advances `prev` and `this` only inside the test of `prev`
  (`jitter.p4.c:178`), so as written no slot but the first is used and nothing is ever
  recorded: the handler's state is right only before the first signal, the report exactly when
  no gap of the history is flagged (`AsWrittenRecordsNothing`), and the ring exactly when its
  first slot is enough (`AsWrittenRingIff`), with nonzero times for one timestamp.
- `vsched_initialized` (`vsched.c:18`) is never set, so the limits are read at every call; with
  constant limits this changes nothing.
- `fifo.c` accepts any message size; the mismatch exits are unreachable exactly when the size
  is at most PIPE_BUF (`NeverShortIff`).
- The shared-memory loops never check that the region fits the page; no store leaves the page
  exactly when it does (`NeverFaultsIff`).
- `sending_recving_sigs_self.c:29` says SIGUSR1 is blocked; the code does not block it, and the
  model follows the code.
- The default period of `jitter.p4.c:97` is rounded down to a multiple of HZ
  (`DefaultNsecsIs`); at 60 Hz it no longer
  divides a second, so even a perfect clock is flagged (`DefaultPeriods`,
  `CommonRates`).

## Assumptions

- Counters, offsets and priorities are mathematical integers.
- Input is seekable, reads are short only at end of file, writes are complete, output is
  initially empty, and I/O does not fail (except that reading an unreadable standard output
  gives -1). Completion signals may be delivered in any order across the two numbers.
- A signal handler delivered inside `sigsuspend` may be followed by another before
  `sigsuspend` returns; a model step is one C statement, and other processes and the kernel
  may act between any two.
- After SIGALRM only delivery to the process that set the alarm is prompt: it takes no further
  statement while SIGALRM is deliverable to it. The child's deliveries may be as late as the
  kernel likes.
- `kill` to oneself does not return while the signal can still be delivered.
- A process killed by a store beyond the page loses its record lock; nobody posts a semaphore
  for it.
- A read from a pipe returns what is available, up to the size asked for; writes of at most
  PIPE_BUF bytes are indivisible, longer ones arrive in pieces of any size.
- One processor and one SCHED_FIFO priority for the yield benchmark; constant priority limits.

## Model

| member | source | states |
|---|---|---|
| AioPipeInvariant.StepInv | aiopipe.c:31-75 | every step of either handler, of main and of the kernel keeps the block, frontier, count and control invariant, in every variant |
| AioPipeInvariant.InitInv | aiopipe.c:105-137 | the state main sets up satisfies it |
| AioPipeInvariant.RunInv | aiopipe.c:141-144 | so does every state of every run |
| AioPipeProgress.FlagCountsTurns | aiopipe.c:28-53 | aio_to_go is the number of blocks with a turn, each in exactly one of: not started, in flight, queued, being handled; handlers never overlap; main never sleeps with nothing outstanding, some action is always possible before exit, and exit means no turn is left |
| AioPipeProgress.StepDecreases | aiopipe.c:39-74 | each action decreases one measure over remaining bytes, block phases and signals |
| AioPipeProgress.RunsAreBounded | aiopipe.c:141-146 | every schedule is finite, with a bound linear in the number of blocks |
| AioPipeProgress.ExitReachable | aiopipe.c:141-146 | from every state of the invariant main can exit |
| AioPipeProgress.CompletionsInOrder | aiopipe.c:82-103 | over every run each completion starts one handler of its signal, in order of completion, except those still pending: none is lost or merged |
| AioPipeProgress.LastReads | aiopipe.c:41-52 | at exit each block's last read was past its data, and returned 0, or -1 for a standard output that cannot be read |
| AioPipeProgress.CompletionCounts | aiopipe.c:39-74 | with standard input re-read, a complete run handles ceil(L/BUFSIZE) writes and two more reads, and leaves no hole |
| AioPipeProgress.StdoutRereadCounts | aiopipe.c:65-74 | with standard output re-read, it handles min(ceil(L/BUFSIZE), 2) writes and two more reads, and writes the first two blocks without a hole |
| AioPipeProgress.StoresFreshByte | aiopipe.c:44-49 | a byte about to be written has not been written before, in every variant |
| AioPipeProgress.NeverWrittenTwice | aiopipe.c:44-69 | over every schedule each offset is stored into at most once, and exactly once below L on a complete run that re-reads the input |
| AioPipeCorrect.OutputIsAlwaysFaithful | aiopipe.c:31-75 | at every moment each byte written is the input byte there, the written offsets are exactly those below the two marks, and the two curr_offset values keep their residues modulo 2*BUFSIZE |
| AioPipeCorrect.RepairedAlwaysCopies | aiopipe.c:119-146 | with own buffers and standard input re-read, every complete run of every input is an exact copy |
| AioPipeAsWritten.SharedBufferCopiesIff | aiopipe.c:42-66 | with one buffer for both blocks an input is copied on all schedules exactly when the re-read reaches all of it and the overlapping bytes are zero |
| AioPipeAsWritten.AsWrittenCopiesIff | aiopipe.c:42-66 | so the file as written copies exactly the inputs of at most two blocks with the overlapping bytes zero |
| AioPipeAsWritten.SharedBufferAlone | aiopipe.c:42-66 | with only the re-read repaired, inputs of two blocks or more are copied exactly when they are all zeros |
| AioPipeAsWritten.StdoutRereadCopiesIff | aiopipe.c:65-65 | with only the buffers repaired, exactly when the input has at most two blocks |
| AioPipeAsWritten.AsWrittenLosesOnes | aiopipe.c:42-66 | 4097 bytes of ones are not always copied through one buffer |
| AioPipeAsWritten.CopiesWrongly | aiopipe.c:42-49 | each offending byte, at any offset the re-read reaches, gives a complete run that is no copy |
| AioPipeHolding.DriveToRead | aiopipe.c:42-66 | while one block's read is held, the other can bring any byte it reads, in any lap, into buf1 |
| AioPipeHolding.DriveToWrite | aiopipe.c:39-49 | and can write what buf1 holds now at any offset of the lap it is in |
| AioPipeAsWritten.TruncatesLongInput | aiopipe.c:65-69 | longer inputs are truncated |
| AioPipeAsWritten.RunHarmless | aiopipe.c:42-66 | with overlapping bytes zero, sharing buf1 never writes a wrong byte, at any input length |
| AioPipeProgram.Process.constructor | aiopipe.c:105-112 | the program starts in the machine's initial state |
| AioPipeProgram.Process.SetUp | aiopipe.c:119-137 | set-up of one control block performs the machine's set-up step |
| AioPipeProgram.Process.AioreadDone | aiopipe.c:31-53 | the read handler on the control block's own fields is the machine's |
| AioPipeProgram.Process.AiowriteDone | aiopipe.c:56-75 | the write handler likewise |
| AioPipeProgram.Process.Mainline | aiopipe.c:139-146 | the loop test and the return of sigsuspend |
| AioPipeProgram.Process.Deliver | aiopipe.c:82-103 | a handler starts with both completion signals blocked |
| AioPipeProgram.CopyFile | aiopipe.c:77-147 | under any scheduler the whole program terminates; as repaired its output is its input |
| PingPongInvariant.StepInv | sigs_sent_swtch.c:63-114 | every statement, delivery, handler step and the alarm keep the joint invariant of both processes |
| PingPongInvariant.SendFindsRoom | sigs_sent_swtch.p4.c:77-104 | a sender finds the peer's box empty and its value is the next of the sequence |
| PingPongResults.OneToken | sigs_sent_swtch.c:63-97 | before the alarm there is exactly one token, no send is merged, and the four counters stay within one of each other in order |
| PingPongResults.HandlerDepth | sigs_sent_swtch.c:21-38 | handlers nest one deep, two in the queued form, and only the terminating one interrupts |
| PingPongResults.ValuesInOrder | sigs_sent_swtch.p4.c:70-117 | the queue never exceeds one and the values delivered each way are 0, 1, 2, ... |
| PingPongResults.NoDeadlock | sigs_sent_swtch.c:63-91 | before the alarm some process can always step |
| PingPongResults.StepsAreTimed | sigs_sent_swtch.c:63-91 | the positions and counters of the two processes tell exactly how many steps have been taken since fork |
| PingPongResults.SteadyProgress | sigs_sent_swtch.c:63-91 | under any schedule 3*lap - 5 steps (lap 7, or 8 queued) include another completed round trip |
| PingPongExit.StepRank | sigs_sent_swtch.c:99-114 | after the alarm every prompt step decreases a measure over counters, pending signals and frames |
| PingPongExit.AlarmCanCome | sigs_sent_swtch.c:77-80 | once the parent has called alarm it can come in every reachable state, and it comes once |
| PingPongExit.FailedKillEnds | sigs_sent_swtch.c:63-75 | a child about to send to a parent that has exited may see kill fail, exits, and nothing more can happen |
| PingPongExit.ExitsAfterAlarm | sigs_sent_swtch.c:99-114 | wherever the alarm arrives, at most 23 further steps are possible and no run stops before both processes have exited |
| PingPongRefinement.QueuedRefinesOrdinary | sigs_sent_swtch.p4.c:70-105 | every pre-alarm schedule of the queued form, its value statements dropped, is one of the ordinary form with the same counters and positions |
| PingPongRefinement.OrdinaryRefinesQueued | sigs_sent_swtch.p4.c:70-105 | and every schedule of the ordinary form arises so |
| PingPongProgram.Experiment.BeTheParent | sigs_sent_swtch.c:77-91 | the parent's statements are the machine's |
| PingPongProgram.Experiment.BeAChild | sigs_sent_swtch.p4.c:70-86 | the child's statements are the machine's |
| PingPongProgram.Experiment.Terminate | sigs_sent_swtch.c:99-114 | alarm_handler and child_terminate are the machine's |
| PingPongProgram.RunExperiment | sigs_sent_swtch.c:10-61 | under any schedule it ends where the schedule's possible choices lead, and the counts before the alarm agree to within one |
| SignalProcess.Process.NullHandler | sigs_sent_swtch.c:93-97 | the counting handler counts once and returns |
| SignalProcess.Process.EnterHandler | sigs_sent_swtch.c:21-38 | delivery blocks the current mask, sa_mask and the signal |
| SignalProcess.Process.SigSuspend | sigs_sent_swtch.c:68-68 | sigsuspend swaps the mask and waits in one step |
| OneWay.StepInv | sigs_sent_noswtch.c:57-97 | every step keeps the one-way invariant |
| OneWay.SendsAreConserved | sigs_sent_noswtch.c:57-82 | sends are handler increments, handlers not yet counted, the pending bit and merged sends, in every state |
| OneWay.ParentIsTimed | sigs_sent_noswtch.c:66-76 | before the alarm the parent is never blocked and its count is known from the number of its own statements, whatever the child does |
| OneWay.ChildLap | sigs_sent_noswtch.c:57-64 | a child about to sleep with a signal pending can go round its loop and is then as before, mask included, but for the signal and the count |
| OneWay.CountsPossible | sigs_sent_noswtch.c:66-82 | after n sends have been dealt with the child can have counted m exactly when m is between 1 and n |
| OneWay.BlockedSignalNeverHandled | sending_sigs.c:44-79 | SIGUSR1 is blocked in both processes at every moment, panic_handler never runs, the child sleeps with all but SIGUSR2 blocked and never wakes for SIGUSR1, and every send after the first is merged |
| OneWay.HandlerDepth | sigs_sent_noswtch.c:15-35 | handlers nest at most two deep in the counting form and one in the blocking form |
| OneWayExit.StepRank | sigs_sent_noswtch.c:84-97 | after the alarm every prompt step, of either process, decreases a measure over frames, the pending bit and the child's sleep |
| OneWayExit.AlarmCanCome | sigs_sent_noswtch.c:66-69 | once the parent has called alarm it can come in every reachable state, and it comes once |
| OneWayExit.ExitsAfterAlarm | sigs_sent_noswtch.c:84-97 | wherever the alarm arrives, counted or blocked, at most 16 further steps are possible and no run stops before both processes have exited |
| OneWayProgram.Experiment.BeTheParent | sending_sigs.c:81-91 | the parent's statements are the machine's |
| OneWayProgram.Experiment.BeAChild | sending_sigs.c:71-79 | the child's sigsuspend loop is the machine's |
| OneWayProgram.RunExperiment | sigs_sent_noswtch.c:10-55 | under any schedule it ends where the schedule's possible choices lead, and the printed totals differ only by the conserved terms |
| SelfSend.SentWithinReceived | sending_recving_sigs_self.c:43-61 | sent is at most received plus what is on its way, which is at most sent + 1; a send never finds the signal pending, so nothing is merged |
| SelfSend.SteadyProgress | sending_recving_sigs_self.c:43-61 | before the alarm a step is always possible, and after n steps received is exactly (n + 1) / 5 and sent (n - 1) / 5 |
| SelfSend.StepCounts | sending_recving_sigs_self.c:47-61 | every pre-alarm step advances the position in the lap of kill, delivery, count, return, count by exactly one |
| SelfSend.AlarmCanCome | sending_recving_sigs_self.c:47-47 | once the alarm is set it can come in every reachable state, and it comes once |
| SelfSend.ExitsAfterAlarm | sending_recving_sigs_self.c:57-69 | wherever the alarm arrives, inside a handler or not, at most 5 further steps are possible and no run stops before the process has exited |
| SelfSend.Experiment.SendSigsSelf | sending_recving_sigs_self.c:43-55 | the loop's statements are the machine's |
| SelfSend.RunExperiment | sending_recving_sigs_self.c:14-41 | under any schedule it ends where the schedule's possible choices lead, and between handler runs sent <= received <= sent + 1 |
| Fifo.StepInv | fifo.c:94-128 | every read, write and count keeps the one-message invariant |
| Fifo.OneMessage | fifo.c:94-128 | pipes and the message held total nbytes, each pipe is empty or the whole message, the parent's buffer never changes, and the counters stay in step |
| Fifo.EchoIsFaithful | fifo.c:94-128 | for a message of any size, in whatever pieces, both buffers are the message in every reachable state, and until a process fails the pipe being written is exactly what has been written of it |
| Fifo.ArrivesWhole | fifo.c:99-121 | a message over PIPE_BUF that fits the pipe may be written in any pieces and arrives whole when all are there before the read |
| Fifo.ShortReadRun | fifo.c:99-103 | a message over PIPE_BUF can come short at every length the pipe can hold, and the read fails |
| Fifo.PipesAreBounded | fifo.c:62-70 | no pipe ever holds more than its capacity |
| Fifo.EmptyNeverBlocks | fifo.c:94-128 | with empty messages each process can always step |
| Fifo.NoDeadlock | fifo.c:94-128 | some process can always step |
| Fifo.SteadyProgress | fifo.c:94-128 | under any schedule 11 steps include another round trip |
| Fifo.NeverShortIff | fifo.c:99-103 | the mismatch exits are unreachable exactly when a message fits PIPE_BUF |
| FifoProgram.Pipes.Read | fifo.c:99-103 | the read fills the buffer in place and checks its length |
| FifoProgram.Pipes.Write | fifo.c:105-108 | the write appends the buffer's next bytes to the pipe, the step for which EchoIsFaithful is proved |
| FifoProgram.RunExperiment | fifo.c:31-92 | under any schedule it ends where the schedule's possible choices lead, with both buffers still the message, and no short read if it fits |
| ShmMutex.StepRefines | shmmutex_semembed.c:76-86 | each statement under each lock is a legal step of one abstract mutex, and keeps the region's marking |
| ShmMutex.MutualExclusion | shmmutex_sem.c:71-80 | lock value plus holders is one in every state of every run, events (deaths included) are a legal mutex history, and a free lock after a critical section means a uniform region |
| ShmMutex.LocksInterchangeable | shmmutex_flock.c:69-93 | under any of the three locks the same schedules are possible and leave the same positions, counts, region bytes and mutex history |
| ShmMutex.FillKeepsSemaphore | shmmutex_semembed.c:46-82 | the embedded fill leaves the semaphore's bytes unchanged |
| ShmMutex.TailUntouched | shmmutex_semembed.c:80-81 | no run touches a byte of the page past the region |
| ShmMutex.IterationsAreTurns | shmmutex_semembed.c:76-86 | while the region fits, a process's position and iteration count are exactly those its own number of statements gives, however the others are interleaved |
| ShmMutex.NeverFaultsIff | shmmutex_semembed.c:76-82 | no store leaves the page exactly when the region fits after the semaphore |
| ShmMutex.NoDeadlock | shmmutex_sem.c:71-80 | while the region fits some process can always step |
| ShmMutex.DecodeEncode | shmmutex_semembed.c:46-50 | any value that fits the semaphore's bytes is read back |
| ShmMutexProgram.Shared.AcquireLock | shmmutex_flock.c:79-83 | taking the lock, each kind, is the machine's step and gives the abstract mutex |
| ShmMutexProgram.Shared.ReleaseLock | shmmutex_semembed.c:83-84 | releasing it likewise |
| ShmMutexProgram.Shared.FillRegion | shmmutex_sem.c:74-76 | the fill loop is the machine's statements by one process, leaves the region marked and every other byte as it was |
| ShmMutexProgram.RunAlone | shmmutex_sem.c:70-82 | the program as it stands counts its iterations, leaves the lock free and the region uniform |
| Switch.StepIsExpected | switch.c:56-62 | one statement of the running process takes the closed form of the run queue, positions and counts to its successor |
| Switch.RunIsRoundRobin | switch.c:36-62 | every reachable state is the closed form for its number of statements |
| Switch.CountsWithinOne | switch.c:56-62 | nswitch counts of any two copies differ by at most one in every reachable state |
| Switch.PhaseIsTimed | switch.c:56-62 | the round, and so each count, is determined by the number of statements executed |
| Switch.Processor.SchedYield | switch.c:59-59 | a yield moves the caller to the tail |
| Switch.Processor.Fork | switch.c:37-48 | a fork puts the child at the tail with a zero count and both fall through to the switcher |
| Switch.RunBenchmark | switch.c:15-53 | stopped anywhere, the printed counts agree to within one |
| VSched.CallRefines | vsched.c:30-106 | each call answers and acts as on a scheduler whose priorities really start at 0 |
| VSched.RunRefines | vsched.c:30-106 | so does any sequence of calls, atprio's included |
| VSched.SetThenGet | vsched.c:30-53 | under every policy a set is accepted exactly in range, read back by the next query, touches no other process, and changes nothing if rejected |
| VSched.MinusOneIsError | vsched.c:92-105 | -1 is returned exactly for a missing process or another policy |
| VSched.DeltasAddUp | atprio.3.c:49-61 | differences are all accepted exactly when every partial sum stays in range, and then add up |
| VSched.OrdersAgreeIff | vsched.c:10-13 | virtual and real order agree on all pairs exactly when the two minima are equal |
| VSchedProgram.VirtualScheduler.Setscheduler | vsched.c:30-53 | the adjusted sched_param gives the specified result |
| VSchedProgram.VirtualScheduler.Setprio | vsched.c:56-79 | likewise under the process's own policy |
| VSchedProgram.VirtualScheduler.Getprio | vsched.c:82-106 | likewise for the query |
| VSchedProgram.VirtualScheduler.Atprio | atprio.3.c:35-61 | absolute and relative adjustment |
| VSchedProgram.Serve | vsched.c:20-106 | a served sequence of calls answers as the ideal scheduler does |
| Jitter.FlaggedIff | jitter.p4.c:179-189 | the test passes exactly the gaps of one period within a second and those that land on the next second, in elapsed nanoseconds |
| Jitter.QuietIff | jitter.p4.c:179-189 | the same for a period below a second |
| Jitter.GapIsElapsed | jitter.p4.c:192-195 | the amount recorded is the elapsed time, field by field |
| Jitter.GapsExplained | jitter.p4.c:178-199 | for every history of normalised times the list has one entry, the time elapsed, for each consecutive pair neither on time nor a click-over, in order, and no other |
| Jitter.ReportExplained | jitter.p4.c:172-206 | so the report is those faults, up to the first hundred |
| Jitter.ExpireFaithful | jitter.p4.c:172-206 | one signal keeps the buffers equal to the pure function of the history |
| Jitter.RecordIsFaithful | jitter.p4.c:172-206 | until the list fills, the ring holds the last 200 timestamps and the list exactly the flagged gaps |
| Jitter.FillsAndExits | jitter.p4.c:196-199 | the signal that fills the list ends the program with all gaps recorded |
| Jitter.ReportIsGaps | jitter.p4.c:172-206 | on every history the list is the flagged gaps, up to the first hundred |
| Jitter.AsWrittenRecordsNothing | jitter.p4.c:178-206 | as written the state is right exactly before the first signal, the report is empty, and it is the repaired one exactly when no gap of the history is flagged |
| Jitter.AsWrittenRingIff | jitter.p4.c:177-206 | as written the ring is right exactly when each of the last 200 timestamps is zero or is the newest and falls in the first slot |
| Jitter.AsWrittenRingOfOne | jitter.p4.c:177-206 | so with nonzero times it is right exactly up to the first signal |
| Jitter.TickFlagged | jitter.p4.c:179-189 | a tick of a perfect clock is flagged exactly when it crosses a second without landing on it |
| Jitter.NeverFlaggedIff | jitter.p4.c:179-189 | a perfect clock is never flagged exactly when its grid divides one second |
| Jitter.DefaultNsecsIs | jitter.p4.c:94-97 | the default period is the largest multiple of HZ not above the exact one |
| Jitter.DefaultPeriods | jitter.p4.c:94-97 | at any clock rate the default period is quiet from some start exactly when it divides a second, and then from exactly the starts on its grid |
| Jitter.CommonRates | jitter.p4.c:94-97 | it is quiet at 100 Hz on the grid and never at 60 Hz |
| JitterProgram.Recorder.TimerExpiration | jitter.p4.c:172-207 | the handler on its arrays is the specified step |
| JitterProgram.Measure | jitter.p4.c:172-207 | over any history it reports exactly the flagged gaps, up to the first hundred, or none as written |

## Left out

- Printing, `perror`, argument parsing, `execvp`, memory locking, shared-memory set-up and rates: no state worth proving.
- `msg.c`, `shm.c`, `mksem.c`, `rmsem.c`, `iobound.c`, `cpubound.c`, `cpubench.c`, `iopipe.c`: linear scripts, trivial loops, or copies of `fifo.c`.
- `periodic_timer.c`, `periodic_timer.p4.c`, `sending_sigs_self.c`, `noswitch.c`, `atprio.1.c`, `atprio.2.c`: special cases of what is modelled.
- `ctrlc` of `jitter.p4.c`: a floating-point summary; the model stops where it is called.
- The alarm of `fifo.c`, `switch.c` and the shared-memory loops: the benchmarks are modelled up to it.
- Failure of `aio_write`, `fcntl`, `sem_wait` and `fork`, and interruption of `sem_wait` or `fcntl` by a signal: success is assumed.
