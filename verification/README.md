# The kernel's process control, terminals and timers

A Dafny model of a small teaching kernel: the scheduler, the process table, blocking mutexes and
semaphores with their system calls, the terminals down to VGA memory, and the table of timer
callbacks. One step of the machine is one interrupt. `kernel_context_enter` saves the interrupted
process, serves the timer, the keyboard or a system call, and picks what runs next; interrupts are off
meanwhile (src/interrupts.c:100), so steps are atomic and a run is a sequence of them.

The kernel is modelled twice. `Queue`, `RingBuf`, `Vga`, `TtyTable`, `TimerTable` and `Kernel` are
classes that update tables, queues and buffers in place, loop by loop, as the C code does. Each of
their methods is proved against a function on values (`Machine`, `Screen`, `Timers`), and those
functions carry the theorems about every reachable state and every run:

- `Preservation`, `Runs`, `Safety`, `States`: the invariant of the whole kernel, kept by every
  interrupt from boot on. Every live process is in exactly one place and in the state that place calls
  for, no queue overflows, the allocators are exact, pids are never used twice, and scheduler_run
  always finds somebody to run.
- `BoundedDispatch`, `Sleepers`, `SleepBounds`: who runs next, and how long a ready process and a
  sleeper can be made to wait, whatever the other processes do.
- `Locks`, `Semaphores`: order of service, mutual exclusion, conservation of units.
- `SystemCalls`, `Routing`: what every system call answers, told from the states before and after it,
  and that registers and answers reach the process they belong to.
- `Streams`: bytes between processes, terminals and the readers' memory are neither lost nor reordered.
- `Lifetimes`: what a process keeps from its creation to its end, its run time, and the time.
- `Tapes`, `Terminals`: an 80x25 buffer is a window on an unbounded tape, and the screen mirrors the
  selected terminal.
- `Timers`: the exact number of calls of a registered callback, and that the timer interrupt of the
  kernel model is what the table calls.
- `Scenarios`: two runs from boot that show a foreign unlock and a sleeper passed over.

Time, pids, ticks and registers are unbounded integers; a `char` is a signed byte. A pointer into a
table is an object reference in the classes and an index, with -1 for NULL, in the values.

Where the code differs from its comments the model follows the code: the loop over the sleepers stops
early, because its bound shrinks (src/scheduler.c:39), so a tick charges every sleeper if and only if
nobody but the last in the queue wakes; a woken sleeper stays SLEEPING until dispatched; `kmutex_unlock`
does not ask who calls it; `ksem_destroy` returns -1 in any case (src/ksem.c:106); `ksem_init` takes
negative values; a write reports its size even when refused (src/ksyscall.c:154-155);
`timer_callback_unregister` does not ask whether the id is in use.

Assumptions, each a precondition in the model: idle, the kernel's own endless loop (src/main.c:71),
makes no system call; a call number is one of the seventeen; an input/output index is in range (4 is
let through by src/ksyscall.c:147 and reads past the table) and a size is between 0 and the length of
the caller's buffer; a timer interval is not zero.

## Model

| member | source | states |
|---|---|---|
| Queues.Queue.Init | src/queue.c:17-31 | afterwards the queue is empty and every slot is zero |
| Queues.Queue.In | src/queue.c:39-64 | the item is last; a full queue refuses with -1 and stays as it was |
| Queues.Queue.Out | src/queue.c:71-99 | the oldest item leaves; an empty queue answers -1 and leaves the caller's variable alone |
| Queues.Queue.IsEmpty | src/queue.c:106-108 | true exactly when nothing is queued |
| Queues.Queue.IsFull | src/queue.c:115-117 | true exactly when all 32 slots are taken |
| RingBufs.RingBuf.Zero | src/ringbuf.c:26 | the memset empties the buffer and clears all but the last twelve data bytes |
| RingBufs.RingBuf.Write | src/ringbuf.c:37-57 | the byte is last, or -1 and no change when 2048 are held |
| RingBufs.RingBuf.Read | src/ringbuf.c:65-85 | the oldest byte leaves, or -1 and no change |
| RingBufs.RingBuf.WriteMem | src/ringbuf.c:96-110 | all n bytes go in, in order, or none |
| RingBufs.RingBuf.ReadMem | src/ringbuf.c:120-133 | the min(n, size) oldest bytes land in the caller's memory in order; the rest of it and of the buffer stays |
| RingBufs.RingBuf.Flush | src/ringbuf.c:140-147 | afterwards the buffer is empty |
| Kernels.Kernel.PidToProc | src/kproc.c:32-67 | the search loop returns the first entry with the pid if it is in use, and otherwise NULL |
| Kernels.Kernel.ProcToEntry | src/kproc.c:69-87 | the search loop finds the slot of a record of the table, and answers -1 for any other |
| Kernels.Kernel.SchedulerTimer | src/scheduler.c:29-52 | the active process is charged and the sleepers are gone through |
| Kernels.Kernel.WakeSleepers | src/scheduler.c:39-51 | the loop over the shrinking queue leaves the unvisited sleepers in front of the visited ones still asleep and moves the expired to the run queue in order; no queue_in in it is refused |
| Kernels.Kernel.RemoveItemFromQueue | src/scheduler.c:118-132 | the rotation loop leaves what was behind the item in front of what was ahead of it, or the queue unchanged; both panics are unreachable |
| Kernels.WithoutAt | src/scheduler.c:121-130 | an item met first at index i leaves the items behind it followed by those ahead of it |
| Kernels.Kernel.SchedulerRemove | src/scheduler.c:134-147 | the process leaves both queues and, if active, the processor |
| Kernels.Kernel.SchedulerSleep | src/scheduler.c:170-197 | all four branches, with the resulting queues, state and sleep time |
| Kernels.Kernel.SchedulerRun | src/scheduler.c:54-105 | preemption and dispatch, given that there is somebody to run |
| Kernels.RunFindsSomebody | src/scheduler.c:97-100 | under the invariant the branch for a missing process is never taken |
| Kernels.Kernel.KprocCreate | src/kproc.c:138-204 | the new entry, its pid and frame, the allocator and the run queue, or -1 with no change |
| Kernels.Kernel.KprocDestroy | src/kproc.c:206-231 | the entry is cleared and its slot returned; idle is refused |
| Kernels.Kernel.KprocAttachTty | src/kproc.c:312-332 | the process with the pid reads buffer 2n and writes buffer 2n + 1 of terminal n, and nothing else changes; -1 and no change at all without such a process or terminal |
| Kernels.Kernel.KmutexInit | src/kmutex.c:51-79 | the oldest free id, its record reset, or -1 |
| Kernels.Kernel.KmutexDestroy | src/kmutex.c:87-112 | a free mutex returns its id; the owner read for the error message exists |
| Kernels.Kernel.KmutexLock | src/kmutex.c:120-152 | take or wait, with the count returned |
| Kernels.Kernel.KmutexUnlock | src/kmutex.c:159-201 | release or hand over, with the count returned; the failed queue read is unreachable |
| Kernels.Kernel.KsemInit | src/ksem.c:47-71 | the oldest free id with the value given, or -1 |
| Kernels.Kernel.KsemDestroy | src/ksem.c:78-107 | a semaphore with a nonzero count is cleared and its id returned; the answer is always -1 |
| Kernels.Kernel.KsemWait | src/ksem.c:114-147 | take a unit or wait, with the count returned |
| Kernels.Kernel.KsemPost | src/ksem.c:154-187 | add a unit or hand it to the longest waiter; the failed queue read is unreachable |
| Kernels.Kernel.IoWrite | src/ksyscall.c:141-159 | the buffer takes all bytes or none, and the size is returned either way |
| Kernels.Kernel.IoRead | src/ksyscall.c:168-180 | the oldest bytes move to the caller's memory, the rest of which stays, and their number is returned |
| Kernels.Kernel.IoFlush | src/ksyscall.c:187-201 | the buffer is emptied |
| Kernels.Kernel.SyscallIrq | src/ksyscall.c:24-124 | dispatch by number; the result goes into the caller's saved eax even when the call blocked it; exit and sleep write none |
| Kernels.Kernel.ContextEnter | src/kernel.c:149-170 | from any state that satisfies the invariant, one interrupt is exactly the step of the value model, keeps the invariant, resumes the frame of the process then active, and puts into the caller's memory what a read takes out of its buffer and nothing else |
| Kernels.Kernel.Boot | src/main.c:22-52 | the initialisation loops end in the boot state, which satisfies the invariant |
| Preservation.StepKeeps | src/kernel.c:149-170 | every interrupt keeps the whole invariant |
| Runs.Run | src/kernel.c:149-170 | so does every run |
| Runs.Boot | src/kproc.c:260-310 | and it holds at boot |
| Runs.BootIs | src/kproc.c:260-310 | at boot idle runs, processes 1 to 10 are ready in the order of their creation, entries 11 to 19 are free in that order, no lock is in use and no tick has passed |
| Runs.BootIdentifiers | src/kmutex.c:26-44 | every mutex and semaphore is unused, and identifier 0 is handed out first |
| Runs.BootProcess | src/kproc.c:284-308 | pids 1 to 4 are shells on terminals 1 to 4, 5 to 7 pings and 8 to 10 pongs on terminal 9 or, for odd pids, 8: entry point, the two buffers of that terminal, times zero |
| Safety.OnePlace | src/scheduler.c:54-197 | a pid above 0 is live exactly if it is active or in one of the 34 process queues, and it is never in two places or twice in one |
| Safety.IdleNowhere | src/scheduler.c:69-72 | idle is never in a queue |
| Safety.NoOverflow | src/queue.c:44-47 | every process queue holds fewer than 20 of its 32 entries and every allocator fits, so no unchecked queue_in loses anything |
| Safety.AllocatorsExact | src/kproc.c:151-159 | each of the three allocators lists exactly the identifiers not in use, each once |
| Safety.DestroyStrandsNobody | src/ksem.c:94-107 | a mutex or semaphore that is destroyed had no waiter |
| Safety.LookupExact | src/kproc.c:47-67 | a lookup yields the one live entry with the pid and nothing for any other pid, although every free entry carries pid 0 |
| Safety.DeadStaysDead | src/kproc.c:172-173 | over every run a pid that named a process before never names another one |
| Preservation.ActiveLeaves | src/scheduler.c:139-146 | removing the active process leaves both queues as they are, order included |
| Preservation.SleepPlaces | src/scheduler.c:170-197 | any live process put to sleep is then last in the sleep queue and in no other, unless it waits for a lock; nobody else changes queue |
| Preservation.RemovePlaces | src/scheduler.c:134-147 | removing any process takes its pid out of both queues and off the processor, and nobody else's |
| States.StatesAlways | src/scheduler.c:104 | over every run the state field fits the place: active ACTIVE, waiting WAITING, asleep SLEEPING, ready IDLE or, if woken, SLEEPING |
| States.BootStates | src/kproc.c:260-310 | the state fields fit at boot |
| Effects.RunPicks | src/scheduler.c:63-94 | with time left the active process stays; otherwise the head of the run queue runs, the preempted process lines up last, and idle runs only when nobody is ready |
| BoundedDispatch.StepPatience | src/scheduler.c:54-105 | no interrupt raises the measure of a queued process, every tick lowers it, and the process advances or runs |
| BoundedDispatch.DispatchBound | src/scheduler.c:54-105 | index k of the run queue runs within (k + 1) * 10 ticks in every run |
| BoundedDispatch.NoStarvation | src/scheduler.c:54-105 | every ready process runs within 190 ticks in every run |
| BoundedDispatch.StepProcessor | src/scheduler.c:54-105 | who runs after any interrupt: the active process unless it exits, sleeps, blocks or has used its ten ticks, and else the head of the run queue or idle; a preempted process starts anew at the tail |
| BoundedDispatch.KeepsProcessor | src/scheduler.c:63-71 | in a run in which the active process does not leave by itself it keeps the processor for the rest of its slice |
| Sleepers.PassLength | src/scheduler.c:39-51 | the loop stops at the first position that, with those woken before it, covers the queue |
| Sleepers.PassHalf | src/scheduler.c:39-51 | a pass looks at least at half of the sleepers, and if it skips anyone it wakes someone |
| Sleepers.VisitedExactly | src/scheduler.c:39-51 | index k is looked at if and only if k plus the number of those in front of it who wake is below the length of the queue |
| Sleepers.EveryoneVisited | src/scheduler.c:39-51 | everyone is looked at if and only if nobody but the last in the queue wakes |
| Sleepers.EveryoneCharged | src/scheduler.c:39-51 | a whole tick takes one off every sleeper's time if and only if nobody but the last in the queue wakes |
| Scenarios.SleeperPassedOver | src/scheduler.c:39-51 | a run from boot after which a tick leaves the time of a sleeper as it was |
| Sleepers.QuietPass | src/scheduler.c:39-51 | if nobody expires everyone is looked at and both queues keep their order |
| Sleepers.TickPass | src/scheduler.c:29-52 | a tick takes one off every sleeper looked at and nothing off anyone else, and the two queues are the ones the pass leaves |
| Sleepers.StepTick | src/scheduler.c:39-51 | after a tick index k is at most at (k - 1) / 2 with the same time, or has one tick less, or is awake and ready |
| SleepBounds.SleepsAtLeast | src/scheduler.c:29-52 | before max(s, 1) ticks a sleeper is still asleep, neither ready nor running |
| SleepBounds.WakesAlone | src/scheduler.c:39-51 | if nobody else goes to sleep, one of n sleepers is ready or running by max(s, 1) + n - 1 ticks |
| SleepBounds.AdvancesWithin | src/scheduler.c:39-51 | index k loses a tick within floor(log2(k + 1)) + 1 ticks, even while new sleepers keep arriving |
| SleepBounds.Log2IsLog | src/scheduler.c:39-51 | the logarithm in that bound is the integer logarithm |
| SleepBounds.SleepsAtMost | src/scheduler.c:39-51 | in every run a sleeper is ready or running within 5 * max(s, 1) ticks |
| SleepBounds.SleepRoundTrip | src/scheduler.c:170-189 | a process that sleeps for t seconds does not run before max(100t, 1) ticks and runs again within 5 * max(100t, 1) + 190, in every run |
| Locks.StepMutex | src/kmutex.c:51-201 | what any interrupt makes of a mutex, from the mutex before and the call made |
| Locks.WaitsInLine | src/kmutex.c:171-192 | over every run a waiter at index k is at k minus the number of unlocks and does not run, until k unlocks have been made |
| Locks.GrantedInTurn | src/kmutex.c:181-187 | the next unlock after those makes exactly that waiter the owner, ready or running |
| Locks.ExclusionStep | src/kmutex.c:159-176 | an interrupt keeps "the processes holding the mutex are its live owner alone" if and only if it is neither an unlock by another process than the owner nor the owner's exit |
| Locks.MutualExclusion | src/kmutex.c:120-201 | in every run whose callers keep to that, at most one process holds the mutex and it is the owner |
| Scenarios.ForeignUnlock | src/kmutex.c:159-179 | a run from boot in which process 2 frees the mutex process 1 still holds, and no owner is left |
| Semaphores.StepSem | src/ksem.c:47-187 | what any interrupt makes of a semaphore, from the semaphore before and the call made |
| Semaphores.Conservation | src/ksem.c:114-187 | over every run initial value + posts = count + granted waits and waits = granted + waiting; waiters only at count 0; a non-negative start stays non-negative |
| Semaphores.WaitsForPosts | src/ksem.c:130-139 | a waiter at index k is at k minus the number of posts and does not run, until k posts have been made |
| Semaphores.ReleasedInTurn | src/ksem.c:173-184 | the next post makes exactly that waiter ready and leaves the count at 0 |
| Guarantees.AfterBoot | src/main.c:22-70 | without the display callbacks of test_init, the invariant, the state law, the mirror and the windows hold after every run from boot |
| Guarantees.LocksAfterBoot | src/main.c:50-52 | so do exclusion (in disciplined runs) and conservation |
| Routing.ResumesWithResult | src/ksyscall.c:42-107 | whatever ran meanwhile, a process resumes with the frame of its last interrupt and, in eax alone, the answer to its own call as SystemCalls.StepAnswers states it |
| SystemCalls.StepAnswers | src/ksyscall.c:42-123 | every call leaves in its caller's eax, and nowhere else in its registers: the length of what a read takes; the size of a write; 0 for a flush; -1 for these without a buffer; the seconds t with 100t <= ticks < 100(t + 1); the caller's pid; 0 for a name into a pointer that is not null; an identifier that was nobody's and is now a free lock, the others unchanged, or -1 if there was none; the number of locks, or the count, there is after the call |
| SystemCalls.AnswersUnique | src/ksyscall.c:42-123 | for no call and state does that description admit two answers |
| SystemCalls.StepAllocators | src/kmutex.c:51-112 | over any interrupt the two lock allocators hand out the identifier free longest, into eax, and a destroyed one lines up last |
| Lifetimes.StepTable | src/kproc.c:150-173 | so does the process table with its entries, and every creation takes the next pid |
| Lifetimes.StepClears | src/kproc.c:206-231 | nothing of a process that exits is left in its entry: no pid, no state, no buffers, times zero |
| Lifetimes.LifeStory | src/scheduler.c:34-37 | over every run, while a process lives it keeps its table entry, its buffers and its start time, and its run time grows by exactly the ticks that found it running |
| Lifetimes.SecondsSinceBoot | src/ksyscall.c:207-208 | after any run from boot sys_get_time answers the whole seconds, in ticks of the run, since boot |
| Lifetimes.BootTerminal | src/kproc.c:288-308 | in every run from boot each of the ten processes has the buffers of its own terminal as long as it lives |
| Routing.FirstResume | src/kproc.c:186-197 | a new process starts at the entry point it was created with |
| Routing.FirstResumeFromBoot | src/kproc.c:290-308 | so do the ten processes the kernel boots with |
| Streams.StreamConserved | src/ringbuf.c:37-133 | over every run of the machine, for each of the 20 ring buffers: contents before + bytes accepted = bytes taken out + contents after, as sequences |
| Streams.ReadersReceive | src/ksyscall.c:168-180 | over every run without a flush or drain of a buffer: what its readers find in their memory, one after the other, and what is left in it are what it held and what was put in since |
| Streams.DeliveredIsReceived | src/ringbuf.c:120-133 | the bytes the read handler hands over are those the stream law counts as taken out |
| Streams.TakenIsDrained | src/tty.c:130-137 | if nobody reads or flushes a terminal's output buffer, what leaves it over a run is what is drained to the terminal |
| Streams.ShowsAllWritten | src/tty.c:125-137 | then, with its output drained, a terminal shows the window on the tape of everything written to it, in every run |
| VgaDriver.Vga.Clear | src/vga.c:76-84 | every cell blank in the current colours, position at the top left |
| VgaDriver.Vga.Putc | src/vga.c:196-256 | the in-place driver, its scroll loops included |
| VgaDriver.Vga.PutcAt | src/vga.c:288-324 | with scrolling off a plain character changes one cell; position and colours come back |
| Screen.DriversAgree | src/vga.c:196-256 | vga_putc with scrolling on and tty_update keep screen and buffer in step for a character if and only if it is not backspace |
| Screen.CellReadsBack | include/vga.h:9 | a 7-bit character and its colours can be read back from its cell |
| Screen.CellLayout | include/vga.h:8-9 | the character is the low byte of its cell, the foreground the next four bits and the background the top four; for a negative char these eight are all ones |
| Screen.BackspaceAgrees | src/vga.c:196-256 | on backspace the two drivers move alike and leave the same cells but one, where vga_putc writes NUL and tty_update a space |
| Consoles.Terminal.Update | src/tty.c:65-116 | the in-place update with its nested scroll loops; the cursor stays on screen and no control character is stored |
| Consoles.Terminal.Drain | src/tty.c:130-137 | the drain loop applies every byte of the output buffer, oldest first, and leaves it empty |
| Consoles.Terminal.Paint | src/tty.c:139-147 | the repaint loops, through the VGA driver, leave every cell rendering the buffer |
| Consoles.TtyTable.Select | src/tty.c:50-60 | the terminal is selected and due for a repaint, or nothing happens for a number out of range |
| Consoles.TtyTable.Input | src/tty.c:169-181 | the character goes to the selected terminal's input and, with echo, its output |
| Consoles.TtyTable.Refresh | src/tty.c:125-149 | drain and repaint of the selected terminal, and of no other |
| Tapes.WindowRefinement | src/tty.c:65-116 | for every byte stream, backspace included, the buffer stays the window on the unbounded tape and the position stays its cursor |
| Tapes.TopFollowsRow | src/tty.c:101-113 | without backspace the window's top row is max(0, row - 24) |
| Tapes.PlainTextOnScreen | src/tty.c:90-99 | a fresh terminal shows the last rows of a plain text, character for character |
| Terminals.MirrorsAlways | src/tty.c:125-149 | over every run, unless a repaint is due every VGA cell renders the selected terminal |
| Terminals.StepMirrors | src/tty.c:125-149 | and after a refresh its output is empty and no repaint is due |
| Terminals.RefreshRests | src/tty.c:125-149 | a refresh with no output and no repaint due changes nothing, whatever is on the screen |
| Terminals.StepSelect | src/tty.c:50-60 | selecting n in range makes terminal n the active one and due for repaint and changes nothing else; no other interrupt changes which is active |
| Terminals.SelectedAfter | src/tty.c:50-60 | after any run the active terminal is the last one selected in it |
| Terminals.SelectedOnScreen | src/tty.c:125-149 | at the next refresh each of its 7-bit characters is on the screen, in its place and its colours |
| Terminals.SettingsKept | src/tty.c:31-34 | no run changes a terminal's colours or echo, or of the display anything but its cells |
| Terminals.BootConsole | src/tty.c:20-44 | at boot terminal 0 is selected; all ten are blank, light grey on black, without echo, their buffers empty |
| Terminals.TerminalsShow | src/tty.c:125-137 | over every run each terminal shows the window on the tape of all bytes drained to it |
| Timers.TimerTable.Register | src/timer.c:46-68 | the slot handed out holds the registration, or -1 |
| Timers.TimerTable.Unregister | src/timer.c:76-93 | the slot is cleared and its id queued, in use or not |
| Timers.TimerTable.IrqHandler | src/timer.c:113-135 | the loop serves every slot and calls the due callbacks in slot order |
| Timers.UnregisterKeeps | src/timer.c:76-93 | unregistering keeps the allocator exact if and only if the id is out of range or in use, or all ids are already free |
| Timers.UnregisterAnswers | src/timer.c:76-93 | the answer is 0 if and only if the id is in range and the allocator has room, and else -1 |
| Timers.RegisterUnregister | src/timer.c:46-93 | registering and unregistering the id answered leaves the table as it was, but for that id being the last to be handed out again |
| Timers.UnusedIdBreaks | src/timer.c:84-90 | a table on which unregistering an unused id succeeds and puts it into the allocator twice |
| Timers.FiringCount | src/timer.c:113-135 | a callback with interval k is called exactly min(r, (t0 + T) / k - t0 / k) times in T ticks, once for r = 0 and without limit for r < 0, whatever others register; after its last call its slot is free |
| Timers.BootTable | src/main.c:29-55 | the five registrations of boot take slots 0 to 4 in order: the terminal's callback every 50 ticks in slot 0, the scheduler's on every tick in slot 1 |
| Timers.KernelCallbacks | src/timer.c:113-135 | whatever the other slots hold, an interrupt calls these two first and at no other point, the terminal's only on every 50th tick, and keeps their slots |
| Timers.KernelCallbacksAlways | src/timer.c:113-135 | so does the interrupt after any run from boot in which nobody takes the two out |
| Timers.TimerIrqCalls | src/timer.c:113-135 | the timer interrupt of the kernel model does what running the table's calls in order does |

## Left out

- Assembly entry and exit, segment registers, eflags and stack memory (src/context.S): a trapframe is a value; what a new process finds in its slot's stack is a parameter.
- Interrupt controller, port input/output and cursor registers (src/interrupts.c, src/vga.c:379-412).
- Keyboard decoding (src/keyboard.c): its effects are events, a superset of what the decoder produces; the log level keys and the exit on three escapes end or do not touch the model.
- Logging, breakpoints and panics: the panics of the process core are shown unreachable; an unknown call number, which stops the kernel, is excluded from runs.
- Kernels.Kernel.KprocCreate: does not record the name, type, flags and segment registers of a process; nothing in the scheduler, the locks or the terminals reads them.
- Kernels.Kernel.SyscallIrq: does not copy a name into the caller's memory for the two name calls, of which only the results are modelled, and takes no unknown call number, which stops the kernel.
- Kernels.Kernel.Boot: does not set up the timer table (Timers.BootTable does, as a table of its own) or print the welcome text.
- User programs (src/prog_user.c): processes issue any calls.
- Guarantees.AfterBoot: does not cover the display callbacks of include/test.h, which src/main.c:55 registers; they write VGA memory directly and would break the mirror. They are in the timer table (Timers.BootTable) and touch nothing else of the model.
- The welcome text of src/main.c:58-62, cleared before interrupts are enabled; printing of strings (src/vga.c:263-273, src/vga.c:338-377).
- tty_putc and the scroll stubs (src/tty.c:183-216, src/tty.c:226-285): unused or empty.
- Boot order: the lock tables are set up before the processes instead of after; the two touch nothing in common. The ten programs are created from one list.
- The timer table is a class of its own; in the kernel's step its two callbacks run directly, as Timers.TimerIrqCalls justifies.
- Kernels.Kernel.SchedulerRun: requires that a process can be found, where the code breaks into the debugger; Kernels.RunFindsSomebody discharges it under the invariant.
- Timers.FiringCount: for intervals above 0, and callbacks that leave the timer table alone.
- Integer width: ticks, times, pids, counts and registers do not wrap around.
