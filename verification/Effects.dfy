/** What one interrupt leaves alone: the facts that the theorems about runs are built from. */
module Effects {
  import opened Screen
  import opened Machine
  import opened Invariant
  import opened Preservation

  ghost function ActivePid(s: State): int
    requires Shaped(s) && s.active != NULL
  {
    s.procs[s.active].pid
  }

  lemma SameEntry(s: State, e: int)
    requires Between(s) && 0 <= e < PROC_MAX && s.procs[e].state != NONE && s.procs[e].pid == ActivePid(s)
    ensures s.active == e
  {
  }

  // ---- Processes other than the interrupted one ----

  ghost predicate Untouched(p: Proc, q: Proc, tick: bool) {
    && q.pid == p.pid && q.state != NONE && q.frame == p.frame && q.io == p.io
    && q.startTime == p.startTime && q.cpuTime == p.cpuTime && q.runTime == p.runTime
    && (tick || q.sleepTime == p.sleepTime)
  }

  ghost predicate OthersUntouched(a: seq<Proc>, b: seq<Proc>, except: int, tick: bool) {
    && |a| == |b|
    && forall e :: 0 <= e < |a| && e != except && a[e].state != NONE ==> Untouched(a[e], b[e], tick)
  }

  lemma CallOthers(s: State, f: Frame, mem: seq<Char>)
    requires Shaped(s) && 0 <= s.active && CallOk(f, mem)
    requires f.eax != SYS_EXIT && f.eax != SYS_SLEEP
    ensures OthersUntouched(s.procs, Call(s, f, mem).0.procs, s.active, false)
    ensures var p' := Call(s, f, mem).0.procs[s.active]; p' == s.procs[s.active].(state := p'.state)
    ensures s.procs[s.active].state != NONE ==> Call(s, f, mem).0.procs[s.active].state != NONE
  {
    hide Without, SetBuffer;
  }

  lemma HandleOthers(s: State, ev: Event)
    requires Between(s) && Enabled(s, ev)
    ensures OthersUntouched(s.procs, Handle(s, ev).procs, s.active, ev.Tick?)
  {
    hide TableOk, Located, SlotsOk, CpuOk, MutexesOk, SemsOk, Without, Refresh, SetBuffer, Visited, Call, CallOk, PidToProc;
    var s1 := SaveFrame(s, ev.frame);
    if ev.Syscall? {
      if ev.frame.eax != SYS_EXIT && ev.frame.eax != SYS_SLEEP {
        CallOthers(s1, ev.frame, ev.mem);
      }
    } else if ev.Keyboard? && ev.key.NewProcess? && s1.procFree != [] {
      FrameKeeps(s, s.active, ev.frame);
      CreateIs(s1, ev.key.entry, ev.key.stack);
    }
  }

  ghost predicate Exits(s: State, ev: Event)
    requires Shaped(s) && s.active != NULL
  {
    (ev.Syscall? && ev.frame.eax == SYS_EXIT) || (ev.Keyboard? && ev.key.Quit? && ActivePid(s) != 0)
  }

  // What the interrupted process resumes with: its own registers, and in eax the result of its call.
  ghost function SavedFrame(s: State, ev: Event): Frame
    requires Between(s) && Enabled(s, ev)
  {
    if ev.Syscall? && ev.frame.eax != SYS_EXIT && ev.frame.eax != SYS_SLEEP then
      ev.frame.(eax := Call(SaveFrame(s, ev.frame), ev.frame, ev.mem).1)
    else
      ev.frame
  }

  lemma HandleCaller(s: State, ev: Event)
    requires Between(s) && Enabled(s, ev)
    ensures var p, p' := s.procs[s.active], Handle(s, ev).procs[s.active];
      if Exits(s, ev) then p' == FREE_PROC
      else p'.pid == p.pid && p'.state != NONE && p'.io == p.io && p'.frame == SavedFrame(s, ev)
           && p'.startTime == p.startTime && p'.runTime == p.runTime + (if ev.Tick? then 1 else 0)
  {
    hide TableOk, Located, SlotsOk, CpuOk, MutexesOk, SemsOk, Without, Refresh, SetBuffer, Visited, Call, CallOk, PidToProc;
    FrameKeeps(s, s.active, ev.frame);
    var s1 := SaveFrame(s, ev.frame);
    if ev.Syscall? {
      if ev.frame.eax == SYS_EXIT {
        DestroyIs(s1);
      } else if ev.frame.eax != SYS_SLEEP {
        CallOthers(s1, ev.frame, ev.mem);
      }
    } else if ev.Keyboard? && ev.key.NewProcess? && s1.procFree != [] {
      CreateIs(s1, ev.key.entry, ev.key.stack);
    } else if Exits(s, ev) {
      DestroyIs(s1);
    }
  }

  // What scheduler_run may change of a process: its state and its time slice.
  ghost predicate Rescheduled(p: Proc, q: Proc) {
    q == p.(state := q.state, cpuTime := q.cpuTime) && (q.state == NONE <==> p.state == NONE)
  }

  lemma RunOthers(s: State)
    requires Inv(s)
    ensures forall e :: 0 <= e < PROC_MAX ==> Rescheduled(s.procs[e], SchedulerRun(s).procs[e])
    ensures var s' := SchedulerRun(s);
      s' == s.(procs := s'.procs, active := s'.active, runQ := s'.runQ)
  {
    hide TableOk, Located, SlotsOk, CpuOk, MutexesOk, SemsOk, PidToProc;
    PreemptKeeps(s);
    if Preempt(s).active == NULL { DispatchHead(Preempt(s)); }
  }

  // What an interrupt makes of any one process: it is gone if it was the caller and exits, and else it
  // has its pid, its registers, changed only in the caller's result, its buffers and its start time, and has
  // run one tick longer if it was the one a tick interrupted.
  lemma StepEntry(s: State, ev: Event, e: int)
    requires Between(s) && Enabled(s, ev) && 0 <= e < PROC_MAX && s.procs[e].state != NONE
    ensures Between(Step(s, ev))
    ensures var p' := Step(s, ev).procs[e];
      if e == s.active && Exits(s, ev) then p'.state == NONE
      else
        && p'.pid == s.procs[e].pid && p'.state != NONE
        && p'.frame == (if e == s.active then SavedFrame(s, ev) else s.procs[e].frame)
        && p'.io == s.procs[e].io && p'.startTime == s.procs[e].startTime
        && p'.runTime == s.procs[e].runTime + (if e == s.active && ev.Tick? then 1 else 0)
  {
    hide TableOk, Located, SlotsOk, CpuOk, MutexesOk, SemsOk, SavedFrame, CallOk;
    StepKeeps(s, ev);
    HandleKeeps(s, ev);
    HandleOthers(s, ev);
    HandleCaller(s, ev);
    RunOthers(Handle(s, ev));
    hide Handle, SchedulerRun;
    assert Rescheduled(Handle(s, ev).procs[e], Step(s, ev).procs[e]);
  }

  // ---- The processor ----

  // Handlers only add at the tail of the run queue, and the active process stays or leaves.
  lemma HandleRunQ(s: State, ev: Event)
    requires Between(s) && Enabled(s, ev)
    ensures s.runQ <= Handle(s, ev).runQ
    ensures var h := Handle(s, ev);
      h.active == NULL ||
      (h.active == s.active && h.procs[s.active].pid == ActivePid(s) &&
       h.procs[s.active].cpuTime == s.procs[s.active].cpuTime + (if ev.Tick? then 1 else 0))
    ensures ev.Tick? ==> Handle(s, ev).active == s.active
  {
    hide TableOk, Located, SlotsOk, CpuOk, MutexesOk, SemsOk, Without, Refresh, SetBuffer, Visited, Call, CallOk, PidToProc;
    FrameKeeps(s, s.active, ev.frame);
    var s1 := SaveFrame(s, ev.frame);
    if ev.Syscall? {
      if ev.frame.eax == SYS_EXIT {
        DestroyIs(s1);
      } else if ev.frame.eax == SYS_SLEEP {
        SleepIs(s1, ev.frame.ebx);
      } else {
        CallOthers(s1, ev.frame, ev.mem);
        CallRunQ(s1, ev.frame, ev.mem);
      }
    } else if ev.Keyboard? && ev.key.NewProcess? && s1.procFree != [] {
      CreateIs(s1, ev.key.entry, ev.key.stack);
    } else if ev.Keyboard? && ev.key.Quit? && ActivePid(s1) != 0 {
      DestroyIs(s1);
    }
  }

  lemma BlockRunQ(s: State, id: int)
    requires Between(s) && ActivePid(s) != 0
    ensures var s' := KmutexLock(s, id).0;
      s'.runQ == s.runQ && (s'.active == s.active || s'.active == NULL) && s'.sleepQ == s.sleepQ
    ensures var s' := KsemWait(s, id).0;
      s'.runQ == s.runQ && (s'.active == s.active || s'.active == NULL) && s'.sleepQ == s.sleepQ
  {
    hide TableOk, Located, SlotsOk, CpuOk, MutexesOk, SemsOk, Without, ConsoleOk, IoOk;
    if MutexReady(s, id) && s.mutexes[id].locks > 0 { LockBlocks(s, id); }
    if SemReady(s, id) && s.sems[id].count == 0 { WaitBlocks(s, id); }
  }

  lemma ReleaseRunQ(s: State, id: int)
    requires Between(s)
    ensures var s' := KmutexUnlock(s, id).0; s.runQ <= s'.runQ && s'.active == s.active && s'.sleepQ == s.sleepQ
    ensures var s' := KsemPost(s, id).0; s.runQ <= s'.runQ && s'.active == s.active && s'.sleepQ == s.sleepQ
  {
    hide TableOk, Located, SlotsOk, CpuOk, MutexesOk, SemsOk, PidToProc, ConsoleOk, IoOk;
    if MutexReady(s, id) && s.mutexes[id].locks > 1 { UnlockHandsOver(s, id); }
    if SemReady(s, id) && s.sems[id].wait != [] { PostHandsOver(s, id); }
  }

  lemma CallRunQ(s: State, f: Frame, mem: seq<Char>)
    requires Between(s) && ActivePid(s) != 0 && CallOk(f, mem)
    requires f.eax != SYS_EXIT && f.eax != SYS_SLEEP
    ensures var s' := Call(s, f, mem).0;
      s.runQ <= s'.runQ && (s'.active == s.active || s'.active == NULL) && s'.sleepQ == s.sleepQ
  {
    hide TableOk, Located, SlotsOk, CpuOk, MutexesOk, SemsOk, SetBuffer, PidToProc, ConsoleOk, IoOk;
    if f.eax == SYS_MUTEX_LOCK || f.eax == SYS_SEM_WAIT {
      BlockRunQ(s, f.ebx);
      hide KmutexLock, KsemWait;
    } else if f.eax == SYS_MUTEX_UNLOCK || f.eax == SYS_SEM_POST {
      ReleaseRunQ(s, f.ebx);
      hide KmutexUnlock, KsemPost;
    }
  }

  // Only a sleep call lengthens the sleep queue, and only a tick takes anyone out of it.
  lemma HandleSleepQ(s: State, ev: Event)
    requires Between(s) && Enabled(s, ev) && !ev.Tick?
    ensures Handle(s, ev).sleepQ ==
      if ev.Syscall? && ev.frame.eax == SYS_SLEEP then s.sleepQ + [ActivePid(s)] else s.sleepQ
  {
    hide TableOk, Located, SlotsOk, CpuOk, MutexesOk, SemsOk, Without, SetBuffer, Call, CallOk, PidToProc;
    FrameKeeps(s, s.active, ev.frame);
    var s1 := SaveFrame(s, ev.frame);
    if ev.Syscall? {
      if ev.frame.eax == SYS_EXIT {
        DestroyIs(s1);
      } else if ev.frame.eax == SYS_SLEEP {
        SleepIs(s1, ev.frame.ebx);
      } else {
        CallRunQ(s1, ev.frame, ev.mem);
      }
    } else if ev.key.NewProcess? && s1.procFree != [] {
      CreateIs(s1, ev.key.entry, ev.key.stack);
    } else if ev.key.Quit? && ActivePid(s1) != 0 {
      DestroyIs(s1);
    }
  }

  // Who is next: the head of the run queue, behind which a preempted process lines up.
  ghost function Line(s: State): seq<int>
    requires Shaped(s)
  {
    if s.active != NULL && s.procs[s.active].pid != 0 then s.runQ + [s.procs[s.active].pid] else s.runQ
  }

  lemma RunPicks(s: State)
    requires Inv(s)
    ensures var s' := SchedulerRun(s);
      if s.active != NULL && s.procs[s.active].cpuTime < SCHEDULER_TIMESLICE then
        s'.active == s.active && s'.runQ == s.runQ && s'.procs[s.active].cpuTime == s.procs[s.active].cpuTime
      else if Line(s) == [] then
        s'.active == 0 && s'.runQ == []
      else
        s'.active > 0 && ActivePid(s') == Line(s)[0] && s'.runQ == Line(s)[1..]
  {
    hide TableOk, Located, SlotsOk, CpuOk, MutexesOk, SemsOk, PidToProc;
    PreemptKeeps(s);
    var p := Preempt(s);
    if s.active == NULL || s.procs[s.active].cpuTime >= SCHEDULER_TIMESLICE {
      RunQueueFits(s);
      assert p.runQ == Line(s);
      DispatchHead(p);
    }
  }

  // Whoever a handler made ready is running or in the run queue when it is over.
  lemma ReadyIsPlaced(h: State, pid: int)
    requires Inv(h) && pid in h.runQ
    ensures Between(SchedulerRun(h))
    ensures var s' := SchedulerRun(h); ActivePid(s') == pid || pid in s'.runQ
  {
    hide TableOk, Located, SlotsOk, CpuOk, MutexesOk, SemsOk;
    RunKeeps(h);
    RunPicks(h);
    hide SchedulerRun;
    assert pid in Line(h);
    assert Line(h) == [Line(h)[0]] + Line(h)[1..];
  }
}
