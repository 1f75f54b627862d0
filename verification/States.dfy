/** What a process's state field says about where the process is. */
module States {
  import opened Screen
  import opened Machine
  import opened Invariant
  import opened Preservation
  import opened Runs
  import opened Effects
  import opened Sleepers

  datatype Where = Running | Ready | Asleep | Blocked | Nowhere

  ghost function WhereIs(s: State, e: int): Where
    requires Shaped(s) && 0 <= e < PROC_MAX
  {
    var pid := s.procs[e].pid;
    if s.active == e then Running
    else if pid in s.runQ then Ready
    else if pid in s.sleepQ then Asleep
    else if pid in Waiting(s.mutexes, s.sems) then Blocked
    else Nowhere
  }

  // A woken sleeper stays SLEEPING in the run queue until it is dispatched.
  predicate Suits(w: Where, st: ProcState) {
    match w
    case Running => st == ACTIVE
    case Ready => st == IDLE || st == SLEEPING
    case Asleep => st == SLEEPING
    case Blocked => st == WAITING
    case Nowhere => st == IDLE
  }

  ghost predicate StatesOk(s: State)
    requires Shaped(s)
  {
    forall e :: 0 <= e < PROC_MAX && s.procs[e].state != NONE ==> Suits(WhereIs(s, e), s.procs[e].state)
  }

  // ---- One process moves, the others stay ----

  ghost predicate Stays(s: State, s': State, e: int)
    requires Shaped(s) && Shaped(s') && 0 <= e < PROC_MAX
  {
    && s'.procs[e].state == s.procs[e].state
    && (s.procs[e].state != NONE ==> WhereIs(s', e) == WhereIs(s, e))
  }

  lemma OneMoves(s: State, s': State, m: int)
    requires Shaped(s) && Shaped(s') && StatesOk(s)
    requires forall e :: 0 <= e < PROC_MAX && e != m ==> Stays(s, s', e)
    requires 0 <= m < PROC_MAX && s'.procs[m].state != NONE ==> Suits(WhereIs(s', m), s'.procs[m].state)
    ensures StatesOk(s')
  {
    forall e | 0 <= e < PROC_MAX && s'.procs[e].state != NONE ensures Suits(WhereIs(s', e), s'.procs[e].state) {
      if e != m { assert Stays(s, s', e); }
    }
  }

  lemma SleepStates(s: State, seconds: int)
    requires Inv(s) && StatesOk(s) && s.active != NULL && s.procs[s.active].pid != 0
    ensures StatesOk(SchedulerSleep(s, s.active, seconds))
  {
    SleepIs(s, seconds);
    ActiveElsewhereNot(s);
    OneMoves(s, SchedulerSleep(s, s.active, seconds), s.active);
  }

  // The caller blocks on a lock whose wait queue it joins.
  lemma BlockStates(s: State, ms: seq<Mutex>, sems: seq<Sem>)
    requires Inv(s) && StatesOk(s) && s.active != NULL && s.procs[s.active].pid != 0
    requires |ms| == MUTEX_MAX && |sems| == SEM_MAX
    requires Waiting(ms, sems) == Waiting(s.mutexes, s.sems) + multiset{s.procs[s.active].pid}
    ensures StatesOk(s.(mutexes := ms, sems := sems, procs := SetState(s.procs, s.active, WAITING), active := NULL))
  {
    ActiveElsewhereNot(s);
    hide Waiting;
    OneMoves(s, s.(mutexes := ms, sems := sems, procs := SetState(s.procs, s.active, WAITING), active := NULL), s.active);
  }

  // Who is in the same places by every list stays.
  lemma SamePlaceStays(s: State, s': State, e: int)
    requires Shaped(s) && Shaped(s') && 0 <= e < PROC_MAX
    requires s'.procs[e].state == s.procs[e].state && s'.procs[e].pid == s.procs[e].pid
    requires var pid := s.procs[e].pid; s.procs[e].state != NONE ==>
      && (s'.active == e <==> s.active == e)
      && (pid in s'.runQ <==> pid in s.runQ) && (pid in s'.sleepQ <==> pid in s.sleepQ)
      && (pid in Waiting(s'.mutexes, s'.sems) <==> pid in Waiting(s.mutexes, s.sems))
    ensures Stays(s, s', e)
  {
    hide Waiting, ConsoleOk, IoOk;
  }

  lemma ReleaseOther(s: State, pid: int, ms: seq<Mutex>, sems: seq<Sem>, d: int)
    requires Inv(s) && |ms| == MUTEX_MAX && |sems| == SEM_MAX
    requires 0 < PidToProc(s.procs, pid) && s.procs[PidToProc(s.procs, pid)].pid == pid
    requires s.procs[PidToProc(s.procs, pid)].state != NONE
    requires Waiting(ms, sems) == Waiting(s.mutexes, s.sems) - multiset{pid}
    requires 0 <= d < PROC_MAX && d != PidToProc(s.procs, pid)
    ensures Stays(s, Released(s, pid, ms, sems), d)
  {
    if s.procs[d].state != NONE { DifferentPids(s, PidToProc(s.procs, pid), d); }
    hide Inv, PidToProc, Waiting, ConsoleOk, IoOk;
    SamePlaceStays(s, Released(s, pid, ms, sems), d);
  }

  lemma DifferentPids(s: State, d: int, e: int)
    requires Inv(s) && 0 <= d < PROC_MAX && 0 <= e < PROC_MAX && d != e
    requires s.procs[d].state != NONE && s.procs[e].state != NONE
    ensures s.procs[d].pid != s.procs[e].pid
  {
  }

  lemma WaiterEntry(s: State, pid: int)
    requires Inv(s) && pid in Waiting(s.mutexes, s.sems)
    ensures var e := PidToProc(s.procs, pid);
      0 < e && e != s.active && s.procs[e].pid == pid && s.procs[e].state != NONE
  {
    hide SlotsOk, CpuOk, MutexesOk, SemsOk, Waiting;
    PlaceOnce(s, pid);
    LookupPid(s.procs, s.nextPid, pid);
    ActiveBagCount(s.procs, s.active, pid);
  }

  lemma ReleaseStates(s: State, pid: int, ms: seq<Mutex>, sems: seq<Sem>)
    requires Inv(s) && StatesOk(s) && pid in Waiting(s.mutexes, s.sems)
    requires |ms| == MUTEX_MAX && |sems| == SEM_MAX
    requires Waiting(ms, sems) == Waiting(s.mutexes, s.sems) - multiset{pid}
    ensures 0 < PidToProc(s.procs, pid) && StatesOk(Released(s, pid, ms, sems))
  {
    WaiterEntry(s, pid);
    hide TableOk, Located, SlotsOk, CpuOk, MutexesOk, SemsOk, Waiting, PidToProc;
    var e, s' := PidToProc(s.procs, pid), Released(s, pid, ms, sems);
    forall d | 0 <= d < PROC_MAX && d != e ensures Stays(s, s', d) {
      ReleaseOther(s, pid, ms, sems, d);
    }
    assert s'.runQ[|s.runQ|] == pid && WhereIs(s', e) == Ready;
    hide StatesOk, Stays, WhereIs;
    OneMoves(s, s', e);
  }

  lemma SameStates(s: State, s': State)
    requires Shaped(s) && Shaped(s') && StatesOk(s)
    requires s'.active == s.active && s'.runQ == s.runQ && s'.sleepQ == s.sleepQ
    requires Waiting(s'.mutexes, s'.sems) == Waiting(s.mutexes, s.sems)
    requires forall e :: 0 <= e < PROC_MAX ==> s'.procs[e].state == s.procs[e].state && s'.procs[e].pid == s.procs[e].pid
    ensures StatesOk(s')
  {
    hide Waiting;
    OneMoves(s, s', NULL);
  }

  lemma CreateStates(s: State, entry: int, stack: Frame)
    requires Inv(s) && StatesOk(s)
    ensures StatesOk(KprocCreate(s, entry, stack).0)
  {
    if s.procFree != [] {
      CreateIs(s, entry, stack);
      hide Waiting;
      OneMoves(s, KprocCreate(s, entry, stack).0, s.procFree[0]);
    }
  }

  lemma DestroyStates(s: State)
    requires Inv(s) && StatesOk(s) && s.active != NULL
    ensures StatesOk(KprocDestroy(s, s.active).0)
  {
    if s.procs[s.active].pid != 0 {
      DestroyIs(s);
      hide Waiting;
      OneMoves(s, KprocDestroy(s, s.active).0, s.active);
    }
  }

  // ---- The locks ----

  lemma LockStates(s: State, id: int)
    requires Inv(s) && StatesOk(s) && s.active != NULL && s.procs[s.active].pid != 0
    ensures StatesOk(KmutexLock(s, id).0)
  {
    hide TableOk, Located, SlotsOk, CpuOk, SemsOk, StatesOk, MutexBag, SemBag;
    if MutexReady(s, id) {
      var m, pid := s.mutexes[id], s.procs[s.active].pid;
      if m.locks > 0 {
        var m' := m.(locks := m.locks + 1, wait := m.wait + [pid]);
        LockBlocks(s, id);
        MutexBagPush(s.mutexes, id, m', pid);
        BlockStates(s, s.mutexes[id := m'], s.sems);
      } else {
        MutexBagSame(s.mutexes, id, m.(locks := m.locks + 1, owner := s.active));
        SameStates(s, KmutexLock(s, id).0);
      }
    }
  }

  lemma UnlockStates(s: State, id: int)
    requires Inv(s) && StatesOk(s)
    ensures StatesOk(KmutexUnlock(s, id).0)
  {
    hide TableOk, Located, SlotsOk, CpuOk, SemsOk, StatesOk, MutexBag, SemBag, PidToProc, SchedulerAdd;
    if MutexReady(s, id) && s.mutexes[id].locks > 0 {
      var m := s.mutexes[id];
      assert MutexLaw(m);
      if m.locks > 1 {
        UnlockHandsOver(s, id);
        var m' := Mutex(true, m.locks - 1, PidToProc(s.procs, m.wait[0]), m.wait[1..]);
        MutexBagPop(s.mutexes, id, m');
        ReleaseStates(s, m.wait[0], s.mutexes[id := m'], s.sems);
      } else {
        MutexBagSame(s.mutexes, id, m.(locks := 0, owner := NULL));
        SameStates(s, KmutexUnlock(s, id).0);
      }
    }
  }

  lemma MutexTableStates(s: State, id: int)
    requires Inv(s) && StatesOk(s)
    ensures StatesOk(KmutexInit(s).0) && StatesOk(KmutexDestroy(s, id).0)
  {
    hide StatesOk, MutexBag, SemBag;
    if s.mutexFree != [] {
      MutexesTake(s.mutexes, s.mutexFree, Mutex(true, 0, NULL, []));
      assert MutexLaw(s.mutexes[s.mutexFree[0]]);
      MutexBagSame(s.mutexes, s.mutexFree[0], Mutex(true, 0, NULL, []));
      SameStates(s, KmutexInit(s).0);
    }
    if MutexReady(s, id) {
      MutexBagSame(s.mutexes, id, s.mutexes[id].(isAllocated := false));
      SameStates(s, KmutexDestroy(s, id).0);
    }
  }

  lemma WaitStates(s: State, id: int)
    requires Inv(s) && StatesOk(s) && s.active != NULL && s.procs[s.active].pid != 0
    ensures StatesOk(KsemWait(s, id).0)
  {
    hide TableOk, Located, SlotsOk, CpuOk, MutexesOk, StatesOk, MutexBag, SemBag;
    if SemReady(s, id) {
      var m, pid := s.sems[id], s.procs[s.active].pid;
      if m.count == 0 {
        var m' := m.(wait := m.wait + [pid]);
        WaitBlocks(s, id);
        SemBagPush(s.sems, id, m', pid);
        BlockStates(s, s.mutexes, s.sems[id := m']);
      } else {
        SemBagSame(s.sems, id, m.(count := m.count - 1));
        SameStates(s, KsemWait(s, id).0);
      }
    }
  }

  lemma PostStates(s: State, id: int)
    requires Inv(s) && StatesOk(s)
    ensures StatesOk(KsemPost(s, id).0)
  {
    hide TableOk, Located, SlotsOk, CpuOk, MutexesOk, StatesOk, MutexBag, SemBag, PidToProc, SchedulerAdd;
    if SemReady(s, id) {
      var m := s.sems[id];
      if m.wait != [] {
        PostHandsOver(s, id);
        SemBagPop(s.sems, id, m.(wait := m.wait[1..]));
        ReleaseStates(s, m.wait[0], s.mutexes, s.sems[id := m.(wait := m.wait[1..])]);
      } else {
        SemBagSame(s.sems, id, m.(count := m.count + 1));
        SameStates(s, KsemPost(s, id).0);
      }
    }
  }

  lemma SemTableStates(s: State, id: int, value: int)
    requires Inv(s) && StatesOk(s)
    ensures StatesOk(KsemInit(s, value).0) && StatesOk(KsemDestroy(s, id).0)
  {
    hide StatesOk, MutexBag, SemBag;
    if s.semFree != [] {
      SemsTake(s.sems, s.semFree, Sem(true, value, []));
      assert SemLaw(s.sems[s.semFree[0]]);
      SemBagSame(s.sems, s.semFree[0], Sem(true, value, []));
      SameStates(s, KsemInit(s, value).0);
    }
    if SemReady(s, id) && s.sems[id].count != 0 {
      assert SemLaw(s.sems[id]);
      SemBagSame(s.sems, id, Sem(false, 0, []));
      SameStates(s, KsemDestroy(s, id).0);
    }
  }

  // ---- The scheduler ----

  // A visited sleeper whose time is up is in the run queue, and nobody else moves.
  lemma WakePlace(s: State, pid: int)
    requires Shaped(s)
    ensures var s' := WakeSleepers(s);
      && (pid in s'.runQ <==> pid in s.runQ || pid in Expired(s.procs, s.sleepQ[..Visited(s)]))
      && (pid in s'.sleepQ ==> pid in s.sleepQ)
      && (pid in s.sleepQ ==> pid in s'.sleepQ || pid in s'.runQ)
      && (pid in Expired(s.procs, s.sleepQ[..Visited(s)]) ==> pid in s.sleepQ)
  {
    var q, v := s.sleepQ, Visited(s);
    ExpiredMembers(s.procs, q[..v], pid);
    assert q == q[..v] + q[v..];
    hide Expired, StillAsleep, Expires, Visited, ConsoleOk, IoOk;
  }

  lemma WakeStates(s: State)
    requires Inv(s) && StatesOk(s)
    ensures StatesOk(WakeSleepers(s))
  {
    hide TableOk, Located, SlotsOk, CpuOk, MutexesOk, SemsOk;
    var s' := WakeSleepers(s);
    forall e | 0 <= e < PROC_MAX && s'.procs[e].state != NONE ensures Suits(WhereIs(s', e), s'.procs[e].state) {
      assert s'.procs[e].state == s.procs[e].state && s'.procs[e].pid == s.procs[e].pid && s'.active == s.active;
      assert Suits(WhereIs(s, e), s.procs[e].state);
      WakePlace(s, s.procs[e].pid);
      hide Waiting, WakeSleepers, Visited, Expired;
    }
  }

  lemma RunStatesOf(s: State)
    requires Inv(s)
    ensures forall e :: 0 <= e < PROC_MAX ==>
      SchedulerRun(s).procs[e].state == if e == SchedulerRun(s).active then ACTIVE
                                        else if e == s.active then IDLE else s.procs[e].state
  {
    hide TableOk, Located, SlotsOk, CpuOk, MutexesOk, SemsOk, PidToProc;
    PreemptKeeps(s);
    if Preempt(s).active == NULL { DispatchHead(Preempt(s)); }
  }

  // Everyone in line before is in line after, except who was at the head.
  lemma LineMoves(q: seq<int>, pid: int)
    requires q != [] && pid != q[0]
    ensures pid in q <==> pid in q[1..]
  {
    assert q == [q[0]] + q[1..];
  }

  lemma RunStates(s: State)
    requires Inv(s) && StatesOk(s)
    ensures StatesOk(SchedulerRun(s))
  {
    hide TableOk, Located, SlotsOk, CpuOk, MutexesOk, SemsOk, Waiting;
    RunKeeps(s);
    RunPicks(s);
    RunStatesOf(s);
    RunOthers(s);
    var s' := SchedulerRun(s);
    hide SchedulerRun;
    forall e | 0 <= e < PROC_MAX && s'.procs[e].state != NONE ensures Suits(WhereIs(s', e), s'.procs[e].state) {
      assert Rescheduled(s.procs[e], s'.procs[e]);
      assert Suits(WhereIs(s, e), s.procs[e].state);
      if e != s'.active {
        DifferentPids(s', s'.active, e);
        if s.active != NULL {
          ActiveSleepsNot(s);
          if e != s.active { DifferentPids(s, s.active, e); }
        }
        if Line(s) != [] && Line(s)[0] != s.procs[e].pid { LineMoves(Line(s), s.procs[e].pid); }
      }
    }
  }

  lemma ActiveSleepsNot(s: State)
    requires Inv(s) && s.active != NULL
    ensures var pid := s.procs[s.active].pid;
      pid !in s.runQ && pid !in s.sleepQ && pid !in Waiting(s.mutexes, s.sems)
  {
    var pid := s.procs[s.active].pid;
    PlaceOnce(s, pid);
    if pid != 0 { ActiveBagCount(s.procs, s.active, pid); }
  }

  // ---- One interrupt, and runs ----

  lemma CallStates(s: State, f: Frame, mem: seq<Char>)
    requires Between(s) && StatesOk(s) && s.procs[s.active].pid != 0 && CallOk(f, mem)
    requires f.eax != SYS_EXIT && f.eax != SYS_SLEEP
    ensures StatesOk(Call(s, f, mem).0)
  {
    hide TableOk, Located, SlotsOk, CpuOk, MutexesOk, SemsOk, StatesOk, Waiting;
    hide KmutexInit, KmutexDestroy, KmutexLock, KmutexUnlock, KsemInit, KsemDestroy, KsemWait, KsemPost;
    match f.eax
    case 1 | 2 | 3 => SameStates(s, Call(s, f, mem).0);
    case 10 => MutexTableStates(s, 0);
    case 11 => MutexTableStates(s, f.ebx);
    case 12 => LockStates(s, f.ebx);
    case 13 => UnlockStates(s, f.ebx);
    case 14 => SemTableStates(s, 0, f.ebx);
    case 15 => SemTableStates(s, f.ebx, 0);
    case 16 => WaitStates(s, f.ebx);
    case 17 => PostStates(s, f.ebx);
    case _ =>
  }

  lemma SyscallStates(s: State, mem: seq<Char>)
    requires Between(s) && StatesOk(s) && s.procs[s.active].pid != 0 && CallOk(s.procs[s.active].frame, mem)
    ensures StatesOk(SyscallIrq(s, mem))
  {
    hide TableOk, Located, SlotsOk, CpuOk, MutexesOk, SemsOk, StatesOk, Waiting, Call, KprocDestroy, SchedulerSleep, CallOk;
    var f := s.procs[s.active].frame;
    if f.eax == SYS_EXIT {
      DestroyStates(s);
    } else if f.eax == SYS_SLEEP {
      SleepStates(s, f.ebx);
    } else {
      CallStates(s, f, mem);
      SameStates(Call(s, f, mem).0, SyscallIrq(s, mem));
    }
  }

  lemma HandleStates(s: State, ev: Event)
    requires Between(s) && StatesOk(s) && Enabled(s, ev)
    ensures StatesOk(Handle(s, ev))
  {
    hide TableOk, Located, SlotsOk, CpuOk, MutexesOk, SemsOk, StatesOk, Waiting, CallOk;
    hide SyscallIrq, KprocCreate, KprocDestroy, WakeSleepers, Refresh, Select, Input;
    FrameKeeps(s, s.active, ev.frame);
    var s1 := SaveFrame(s, ev.frame);
    SameStates(s, s1);
    match ev
    case Tick(_) =>
      AtPassInv(s, ev.frame);
      SameStates(s, AtPass(s, ev.frame));
      WakeStates(AtPass(s, ev.frame));
    case Keyboard(_, key) =>
      match key {
        case NewProcess(entry, stack) => CreateStates(s1, entry, stack);
        case Quit => DestroyStates(s1);
        case _ => SameStates(s1, KeyboardIrq(s1, key));
      }
    case Syscall(_, mem) => SyscallStates(s1, mem);
  }

  // In every run each live process is in the state its place calls for.
  lemma {:induction false} StatesAlways(s: State, es: seq<Event>)
    requires Between(s) && CanRun(s, es) && StatesOk(s)
    ensures StatesOk(Run(s, es))
    decreases |es|
  {
    hide TableOk, Located, SlotsOk, CpuOk, MutexesOk, SemsOk, StatesOk, CallOk, Handle, SchedulerRun;
    if es != [] {
      StepKeeps(s, es[0]);
      HandleKeeps(s, es[0]);
      HandleStates(s, es[0]);
      RunStates(Handle(s, es[0]));
      StatesAlways(Step(s, es[0]), es[1..]);
    }
  }

  lemma {:induction false} SpawnStates(s: State, jobs: seq<(int, int)>)
    requires Between(s) && StatesOk(s)
    ensures StatesOk(SpawnAll(s, jobs))
    decreases |jobs|
  {
    hide TableOk, Located, SlotsOk, CpuOk, MutexesOk, SemsOk, StatesOk, KprocCreate, PidToProc, Waiting;
    if jobs != [] {
      var (s', pid) := KprocCreate(s, jobs[0].0, EMPTY_FRAME);
      var n := if jobs[0].1 == BY_PARITY then TTY_MAX - 1 - pid % 2 else jobs[0].1;
      CreateStates(s, jobs[0].0, EMPTY_FRAME);
      CreateKeeps(s, jobs[0].0, EMPTY_FRAME);
      SameStates(s', AttachTty(s', pid, n));
      AttachKeeps(s', pid, n);
      SpawnStates(Spawn(s, jobs[0].0, jobs[0].1), jobs[1..]);
    }
  }

  lemma BootStates(progs: Programs)
    ensures StatesOk(Boot(progs))
  {
    IdleIs(progs);
    IdleBetween(progs);
    assert StatesOk(Idle(progs));
    SpawnStates(Idle(progs), Jobs(progs));
  }
}
