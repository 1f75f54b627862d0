/** A process in the run queue gets the processor within a bounded number of timer ticks. */
module BoundedDispatch {
  import opened Screen
  import opened Machine
  import opened Invariant
  import opened Preservation
  import opened Runs
  import opened Effects

  // Some moment of the run, the first and the last included, finds pid active.
  ghost predicate GetsCpu(s: State, es: seq<Event>, pid: int)
    requires Between(s) && CanRun(s, es)
    decreases |es|
  {
    ActivePid(s) == pid || (es != [] && (StepKeeps(s, es[0]); GetsCpu(Step(s, es[0]), es[1..], pid)))
  }

  // Ticks that index k of the run queue may still have to wait: a full slice for each process
  // in front and the rest of the active one's slice.
  ghost function Patience(s: State, k: nat): int
    requires Between(s)
  {
    k * SCHEDULER_TIMESLICE + SCHEDULER_TIMESLICE - s.procs[s.active].cpuTime
  }

  // Index k of the run queue runs, stays where it is behind the same process, or moves up.
  lemma RunAdvances(h: State, k: nat)
    requires Inv(h) && k < |h.runQ|
    ensures Between(SchedulerRun(h))
    ensures var s' := SchedulerRun(h);
      || ActivePid(s') == h.runQ[k]
      || (h.active != NULL && s'.active == h.active && s'.runQ == h.runQ &&
          s'.procs[h.active].cpuTime == h.procs[h.active].cpuTime)
      || (0 < k <= |s'.runQ| && s'.runQ[k - 1] == h.runQ[k])
  {
    hide TableOk, Located, SlotsOk, CpuOk, MutexesOk, SemsOk, ConsoleOk, IoOk;
    RunKeeps(h);
    RunPicks(h);
    hide SchedulerRun;
    assert Line(h)[k] == h.runQ[k];
    hide Line;
  }

  lemma SliceLeft(s: State)
    requires Between(s)
    ensures 0 <= s.procs[s.active].cpuTime < SCHEDULER_TIMESLICE
  {
    hide TableOk, Located, SlotsOk, MutexesOk, SemsOk, ConsoleOk, IoOk;
  }

  // Whatever the interrupt, the measure does not rise, and a tick lowers it.
  lemma StepPatience(s: State, ev: Event, k: nat)
    requires Between(s) && Enabled(s, ev) && k < |s.runQ|
    ensures Between(Step(s, ev))
    ensures var s' := Step(s, ev); var left := Patience(s, k) - (if ev.Tick? then 1 else 0);
      || ActivePid(s') == s.runQ[k]
      || (k < |s'.runQ| && s'.runQ[k] == s.runQ[k] && Patience(s', k) <= left)
      || (0 < k <= |s'.runQ| && s'.runQ[k - 1] == s.runQ[k] && Patience(s', k - 1) <= left)
  {
    hide TableOk, Located, SlotsOk, CpuOk, MutexesOk, SemsOk, CallOk, ConsoleOk, IoOk;
    HandleKeeps(s, ev);
    HandleRunQ(s, ev);
    var h := Handle(s, ev);
    hide Handle, SchedulerRun;
    RunAdvances(h, k);
    SliceLeft(s);
    SliceLeft(Step(s, ev));
    hide Inv;
  }

  lemma {:induction false} WithinPatience(s: State, es: seq<Event>, k: nat)
    requires Between(s) && CanRun(s, es) && k < |s.runQ|
    requires TickCount(es) >= Patience(s, k)
    ensures GetsCpu(s, es, s.runQ[k])
    decreases |es|
  {
    hide TableOk, Located, SlotsOk, MutexesOk, SemsOk, CallOk, Step;
    if es != [] {
      StepPatience(s, es[0], k);
      var s' := Step(s, es[0]);
      if ActivePid(s') != s.runQ[k] {
        if k < |s'.runQ| && s'.runQ[k] == s.runQ[k] && Patience(s', k) <= TickCount(es[1..]) {
          WithinPatience(s', es[1..], k);
        } else {
          WithinPatience(s', es[1..], k - 1);
        }
      }
    }
  }

  // Index k waits at most k + 1 time slices, whatever else happens meanwhile.
  lemma DispatchBound(s: State, es: seq<Event>, k: nat)
    requires Between(s) && CanRun(s, es) && k < |s.runQ|
    requires TickCount(es) >= (k + 1) * SCHEDULER_TIMESLICE
    ensures GetsCpu(s, es, s.runQ[k])
  {
    WithinPatience(s, es, k);
  }

  // Hence no ready process waits longer than all the others' slices together.
  lemma NoStarvation(s: State, es: seq<Event>, pid: int)
    requires Between(s) && CanRun(s, es) && pid in s.runQ
    requires TickCount(es) >= (PROC_MAX - 1) * SCHEDULER_TIMESLICE
    ensures GetsCpu(s, es, pid)
  {
    var k :| 0 <= k < |s.runQ| && s.runQ[k] == pid;
    RunQueueFits(s);
    DispatchBound(s, es, k);
  }

  // ---- Who has the processor ----

  // The interrupt takes the active process off the processor before its slice is over.
  ghost predicate Leaves(s: State, ev: Event)
    requires Shaped(s) && s.active != NULL
  {
    var id := ev.frame.ebx;
    || Exits(s, ev)
    || (ev.Syscall? && ev.frame.eax == SYS_SLEEP)
    || (ev.Syscall? && ev.frame.eax == SYS_MUTEX_LOCK && MutexReady(s, id) && s.mutexes[id].locks > 0)
    || (ev.Syscall? && ev.frame.eax == SYS_SEM_WAIT && SemReady(s, id) && s.sems[id].count == 0)
  }

  lemma CallLeaves(s: State, ev: Event)
    requires Between(s) && Enabled(s, ev) && ev.Syscall? && ev.frame.eax != SYS_EXIT && ev.frame.eax != SYS_SLEEP
    ensures var s' := Call(s, ev.frame, ev.mem).0;
      if Leaves(s, ev) then s'.active == NULL && s'.runQ == s.runQ else s'.active == s.active
  {
    hide TableOk, Located, SlotsOk, CpuOk, MutexesOk, SemsOk, ConsoleOk, IoOk, PidToProc, Enqueue, Without, SetBuffer;
    var id := ev.frame.ebx;
    if ev.frame.eax == SYS_MUTEX_LOCK && Leaves(s, ev) { LockBlocks(s, id); }
    if ev.frame.eax == SYS_SEM_WAIT && Leaves(s, ev) { WaitBlocks(s, id); }
  }

  lemma HandleLeaves(s: State, ev: Event)
    requires Between(s) && Enabled(s, ev)
    ensures var h := Handle(s, ev);
      if Leaves(s, ev) then h.active == NULL && h.runQ == s.runQ else h.active == s.active
  {
    hide TableOk, Located, SlotsOk, CpuOk, MutexesOk, SemsOk, ConsoleOk, IoOk, Without, Refresh, Visited, Call, PidToProc;
    FrameKeeps(s, s.active, ev.frame);
    var s1 := SaveFrame(s, ev.frame);
    if ev.Syscall? {
      if ev.frame.eax == SYS_EXIT {
        DestroyIs(s1);
      } else if ev.frame.eax == SYS_SLEEP {
        SleepIs(s1, ev.frame.ebx);
      } else {
        CallLeaves(s1, ev);
      }
    } else if ev.Keyboard? && ev.key.NewProcess? && s1.procFree != [] {
      CreateIs(s1, ev.key.entry, ev.key.stack);
    } else if Exits(s, ev) {
      DestroyIs(s1);
    }
  }

  lemma RunTurns(h: State)
    requires Inv(h) && h.active != NULL && h.procs[h.active].cpuTime >= SCHEDULER_TIMESLICE
    ensures Between(SchedulerRun(h))
    ensures var s' := SchedulerRun(h);
      && s'.procs[h.active].cpuTime == 0
      && (h.runQ != [] ==> ActivePid(s') == h.runQ[0])
      && (ActivePid(h) != 0 && s'.active != h.active ==> s'.runQ != [] && s'.runQ[|s'.runQ| - 1] == ActivePid(h))
  {
    hide TableOk, Located, SlotsOk, CpuOk, MutexesOk, SemsOk, PidToProc, ConsoleOk, IoOk;
    RunKeeps(h);
    RunPicks(h);
    RunRests(h);
    var s' := SchedulerRun(h);
    if h.runQ == [] && ActivePid(h) != 0 {
      RunOthers(h);
      hide SchedulerRun;
      assert Rescheduled(h.procs[h.active], s'.procs[h.active]);
      SameEntry(s', h.active);
    }
    hide SchedulerRun, Inv, Between;
  }

  lemma RunRests(h: State)
    requires Inv(h) && h.active != NULL && h.procs[h.active].cpuTime >= SCHEDULER_TIMESLICE
    ensures SchedulerRun(h).procs[h.active].cpuTime == 0
  {
    hide TableOk, Located, SlotsOk, CpuOk, MutexesOk, SemsOk, PidToProc, ConsoleOk, IoOk;
  }

  // A process keeps the processor until it leaves it or its slice is over. Then the head of the run
  // queue has it, or idle; and a process whose slice is over lines up behind all others.
  lemma StepProcessor(s: State, ev: Event)
    requires Between(s) && Enabled(s, ev)
    ensures Between(Step(s, ev))
    ensures var s' := Step(s, ev); var used := s.procs[s.active].cpuTime + (if ev.Tick? then 1 else 0);
      if Leaves(s, ev) then
        if s.runQ == [] then s'.active == 0 && s'.runQ == []
        else ActivePid(s') == s.runQ[0] && s'.runQ == s.runQ[1..]
      else if used < SCHEDULER_TIMESLICE then
        s'.active == s.active && s.runQ <= s'.runQ && s'.procs[s.active].cpuTime == used
      else
        && s'.procs[s.active].cpuTime == 0
        && (s.runQ != [] ==> ActivePid(s') == s.runQ[0])
        && (ActivePid(s) != 0 && s'.active != s.active ==> s'.runQ != [] && s'.runQ[|s'.runQ| - 1] == ActivePid(s))
  {
    hide TableOk, Located, SlotsOk, MutexesOk, SemsOk, CallOk, ConsoleOk, IoOk;
    StepKeeps(s, ev);
    HandleKeeps(s, ev);
    HandleRunQ(s, ev);
    HandleLeaves(s, ev);
    var h := Handle(s, ev);
    hide Handle, Leaves, CpuOk;
    RunPicks(h);
    if h.active != NULL && h.procs[h.active].cpuTime >= SCHEDULER_TIMESLICE { RunTurns(h); }
    hide SchedulerRun, Inv;
  }

  ghost predicate StaysOn(s: State, es: seq<Event>)
    requires Between(s) && CanRun(s, es)
    decreases |es|
  {
    es != [] ==> !Leaves(s, es[0]) && (StepKeeps(s, es[0]); StaysOn(Step(s, es[0]), es[1..]))
  }

  // Nobody is preempted within its slice, whoever else is created, woken or released meanwhile.
  lemma {:induction false} KeepsProcessor(s: State, es: seq<Event>)
    requires Between(s) && CanRun(s, es) && StaysOn(s, es)
    requires s.procs[s.active].cpuTime + TickCount(es) < SCHEDULER_TIMESLICE
    ensures var s' := Run(s, es);
      s'.active == s.active && s'.procs[s.active].cpuTime == s.procs[s.active].cpuTime + TickCount(es)
    decreases |es|
  {
    hide TableOk, Located, SlotsOk, CpuOk, MutexesOk, SemsOk, CallOk, Step, Leaves;
    if es != [] {
      StepProcessor(s, es[0]);
      KeepsProcessor(Step(s, es[0]), es[1..]);
    }
  }
}
