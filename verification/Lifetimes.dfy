/** A process from its creation to its end: what stays its own, how long it has run, and the time. */
module Lifetimes {
  import opened Screen
  import opened Machine
  import opened Invariant
  import opened Preservation
  import opened Runs
  import opened Effects
  import opened BoundedDispatch
  import opened Locks
  import opened Safety
  import opened SystemCalls

  // The ticks of the run that interrupt pid.
  ghost function TicksOf(s: State, es: seq<Event>, pid: int): (n: nat)
    requires Between(s) && CanRun(s, es)
    decreases |es|
  {
    if es == [] then 0
    else
      StepKeeps(s, es[0]);
      (if es[0].Tick? && ActivePid(s) == pid then 1 else 0) + TicksOf(Step(s, es[0]), es[1..], pid)
  }

  lemma ExitHandled(s: State, ev: Event)
    requires Between(s) && Enabled(s, ev) && Exits(s, ev)
    ensures Handle(s, ev) == KprocDestroy(SaveFrame(s, ev.frame), s.active).0
  {
    hide TableOk, Located, SlotsOk, CpuOk, MutexesOk, SemsOk, KprocDestroy, ConsoleOk, IoOk;
  }

  lemma EndsHandle(s: State, ev: Event)
    requires Between(s) && Enabled(s, ev) && Exits(s, ev)
    ensures ActivePid(s) != 0 && LivePids(Handle(s, ev).procs) == LivePids(s.procs) - {ActivePid(s)}
  {
    var s1 := SaveFrame(s, ev.frame);
    SavedBetween(s, ev);
    SamePidsKeep(s.procs, s1.procs, s.nextPid);
    ExitHandled(s, ev);
    DestroyIs(s1);
    assert s1.procs[s.active].state != NONE && s1.procs[s.active].pid > 0;
    LivePidsDrop(s1.procs, s.active);
    hide TableOk, Located, SlotsOk, CpuOk, MutexesOk, SemsOk, LivePids, KprocDestroy, Handle, ConsoleOk, IoOk;
  }

  lemma RunSamePids(h: State)
    requires Inv(h)
    ensures SamePids(h.procs, SchedulerRun(h).procs) && SchedulerRun(h).nextPid == h.nextPid
  {
    RunOthers(h);
    hide SchedulerRun, Inv;
    forall e | 0 <= e < PROC_MAX ensures Rescheduled(h.procs[e], SchedulerRun(h).procs[e]) {}
  }

  // Who exits is nobody's pid from then on.
  lemma EndsHere(s: State, ev: Event)
    requires Between(s) && Enabled(s, ev) && Exits(s, ev)
    ensures Between(Step(s, ev))
    ensures ActivePid(s) != 0 && ActivePid(s) !in LivePids(Step(s, ev).procs) && ActivePid(s) < Step(s, ev).nextPid
  {
    var h := Handle(s, ev);
    StepPids(s, ev);
    HandleKeeps(s, ev);
    EndsHandle(s, ev);
    RunSamePids(h);
    assert 0 < ActivePid(s) < s.nextPid;
    hide Inv, Handle, SchedulerRun;
    SamePidsKeep(h.procs, Step(s, ev).procs, h.nextPid);
  }

  // As long as a process lives it keeps its table entry, its buffers and its start time, and its run
  // time counts the ticks that found it running.
  lemma {:induction false} LifeStory(s: State, es: seq<Event>, e: int)
    requires Between(s) && CanRun(s, es) && 0 <= e < PROC_MAX && s.procs[e].state != NONE
    requires e != 0 ==> s.procs[e].pid in LivePids(Run(s, es).procs)
    ensures var p, p' := s.procs[e], Run(s, es).procs[e];
      && p'.pid == p.pid && p'.state != NONE && p'.io == p.io && p'.startTime == p.startTime
      && p'.runTime == p.runTime + TicksOf(s, es, p.pid)
    decreases |es|
  {
    hide TableOk, Located, SlotsOk, CpuOk, MutexesOk, SemsOk, CallOk, Step, LivePids;
    if es != [] {
      StepEntry(s, es[0], e);
      OnlyOnePid(s, e);
      if e == s.active && Exits(s, es[0]) {
        EndsHere(s, es[0]);
        DeadStaysDead(Step(s, es[0]), es[1..], s.procs[e].pid);
      } else {
        LifeStory(Step(s, es[0]), es[1..], e);
      }
    }
  }

  lemma OnlyOnePid(s: State, e: int)
    requires Between(s) && 0 <= e < PROC_MAX && s.procs[e].state != NONE
    ensures ActivePid(s) == s.procs[e].pid <==> s.active == e
    ensures e == 0 <==> s.procs[e].pid == 0
  {
  }

  // ---- Table entries ----

  ghost predicate Creates(s: State, ev: Event) {
    ev.Keyboard? && ev.key.NewProcess? && s.procFree != []
  }

  lemma HandleTable(s: State, ev: Event)
    requires Between(s) && Enabled(s, ev)
    ensures var h := Handle(s, ev);
      && h.procFree == FreeAfter(s.procFree, Creates(s, ev), Exits(s, ev), s.active)
      && h.nextPid == s.nextPid + (if Creates(s, ev) then 1 else 0)
  {
    hide TableOk, Located, SlotsOk, CpuOk, MutexesOk, SemsOk, ConsoleOk, IoOk, Without, Enqueue, PidToProc;
    hide Refresh, Select, Input, Visited, Decrement, Expired, StillAsleep, SetBuffer, Buffer;
    FrameKeeps(s, s.active, ev.frame);
    var s1 := SaveFrame(s, ev.frame);
    if Creates(s, ev) { CreateIs(s1, ev.key.entry, ev.key.stack); }
    if Exits(s, ev) { DestroyIs(s1); }
  }

  // A new process takes the entry that has been free longest and the next pid, an entry given up waits
  // behind all other free ones, and no other interrupt touches the table's allocation.
  lemma StepTable(s: State, ev: Event)
    requires Between(s) && Enabled(s, ev)
    ensures Between(Step(s, ev))
    ensures var s' := Step(s, ev);
      && s'.procFree == FreeAfter(s.procFree, Creates(s, ev), Exits(s, ev), s.active)
      && s'.nextPid == s.nextPid + (if Creates(s, ev) then 1 else 0)
  {
    hide TableOk, Located, SlotsOk, CpuOk, MutexesOk, SemsOk, ConsoleOk, IoOk, Creates, Exits, FreeAfter;
    StepKeeps(s, ev);
    HandleKeeps(s, ev);
    RunOthers(Handle(s, ev));
    HandleTable(s, ev);
    hide Handle, SchedulerRun;
  }

  // Nothing of a process that exits is left in its entry.
  lemma StepClears(s: State, ev: Event)
    requires Between(s) && Enabled(s, ev) && Exits(s, ev)
    ensures Between(Step(s, ev))
    ensures var p := Step(s, ev).procs[s.active];
      && p.pid == 0 && p.state == NONE && p.io == [NULL, NULL, NULL, NULL]
      && p.startTime == 0 && p.runTime == 0 && p.cpuTime == 0 && p.sleepTime == 0
  {
    hide TableOk, Located, SlotsOk, CpuOk, MutexesOk, SemsOk, ConsoleOk, IoOk;
    StepKeeps(s, ev);
    HandleKeeps(s, ev);
    HandleCaller(s, ev);
    HandleLeaves(s, ev);
    var h := Handle(s, ev);
    hide Handle;
    RunSpares(h, s.active);
  }

  lemma RunSpares(h: State, e: int)
    requires Inv(h) && h.active == NULL && 0 <= e < PROC_MAX && h.procs[e].state == NONE
    ensures SchedulerRun(h).procs[e] == h.procs[e]
  {
    hide TableOk, Located, SlotsOk, CpuOk, MutexesOk, SemsOk, ConsoleOk, IoOk;
    RunOthers(h);
    RunKeeps(h);
    hide PidToProc;
  }

  // ---- Time ----

  lemma StepTicks(s: State, ev: Event)
    requires Between(s) && Enabled(s, ev)
    ensures Between(Step(s, ev)) && Step(s, ev).ticks == s.ticks + (if ev.Tick? then 1 else 0)
  {
    hide TableOk, Located, SlotsOk, CpuOk, MutexesOk, SemsOk, ConsoleOk, IoOk, PidToProc, Without, Enqueue, Refresh, Visited;
    StepKeeps(s, ev);
    HandleKeeps(s, ev);
    RunOthers(Handle(s, ev));
    HandleTicks(s, ev);
    hide Handle, SchedulerRun;
  }

  lemma HandleTicks(s: State, ev: Event)
    requires Between(s) && Enabled(s, ev)
    ensures Handle(s, ev).ticks == s.ticks + (if ev.Tick? then 1 else 0)
  {
    hide TableOk, Located, SlotsOk, CpuOk, MutexesOk, SemsOk, ConsoleOk, IoOk, PidToProc, Without, Enqueue;
    hide Refresh, Select, Input, Visited, Decrement, Expired, StillAsleep, SetBuffer, Buffer;
  }

  lemma {:induction false} RunTicks(s: State, es: seq<Event>)
    requires Between(s) && CanRun(s, es)
    ensures Run(s, es).ticks == s.ticks + TickCount(es)
    decreases |es|
  {
    hide TableOk, Located, SlotsOk, CpuOk, MutexesOk, SemsOk, CallOk, Step;
    if es != [] {
      StepTicks(s, es[0]);
      RunTicks(Step(s, es[0]), es[1..]);
    }
  }

  lemma TimeAnswer(s: State, ev: Event)
    requires Between(s) && Enabled(s, ev) && ev.Syscall? && ev.frame.eax == SYS_GET_TIME
    ensures var rc := Step(s, ev).procs[s.active].frame.eax;
      TICKS_PER_SECOND * rc <= s.ticks < TICKS_PER_SECOND * (rc + 1)
  {
    hide TableOk, Located, SlotsOk, CpuOk, MutexesOk, SemsOk, ConsoleOk, IoOk, Step, MutexAnswer, SemAnswer;
    StepAnswers(s, ev);
  }

  // At boot the ticks are at zero, so from then on get_time answers the whole seconds since boot.
  lemma SecondsSinceBoot(progs: Programs, es: seq<Event>, ev: Event)
    requires CanRun(Boot(progs), es) && Enabled(Run(Boot(progs), es), ev)
    requires ev.Syscall? && ev.frame.eax == SYS_GET_TIME
    ensures var s := Run(Boot(progs), es); var seconds := Step(s, ev).procs[s.active].frame.eax;
      TICKS_PER_SECOND * seconds <= TickCount(es) < TICKS_PER_SECOND * (seconds + 1)
  {
    BootIs(progs);
    hide *;
    RunTicks(Boot(progs), es);
    TimeAnswer(Run(Boot(progs), es), ev);
  }

  // A process of boot reads and writes its terminal as long as it lives.
  lemma BootTerminal(progs: Programs, es: seq<Event>, pid: nat)
    requires CanRun(Boot(progs), es) && 1 <= pid <= 10 && pid in LivePids(Run(Boot(progs), es).procs)
    ensures var tty := if pid <= 4 then pid else 9 - pid % 2; var p := Run(Boot(progs), es).procs[pid];
      p.pid == pid && p.io == [2 * tty, 2 * tty + 1, NULL, NULL] && p.startTime == 0 &&
      p.runTime == TicksOf(Boot(progs), es, pid)
  {
    BootProcess(progs, pid);
    hide Boot, Run, Inv, LivePids;
    LifeStory(Boot(progs), es, pid);
  }
}
