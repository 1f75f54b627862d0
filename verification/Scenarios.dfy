/** Two runs from boot that show where the code falls short of what one might expect of it: a process
    that unlocks another's mutex, and a tick that passes over a sleeper. */
module Scenarios {
  import opened Screen
  import opened Machine
  import opened Invariant
  import opened Preservation
  import opened Runs
  import opened Effects
  import opened Sleepers
  import opened SleepBounds
  import opened Locks
  import opened Semaphores
  import opened Guarantees

  // ---- Holders, over one run after another ----

  lemma {:induction false} HoldersJoin(s: State, a: seq<Event>, b: seq<Event>, id: int, holders: multiset<int>)
    requires Between(s) && CanRun(s, a) && CanRun(Run(s, a), b) && CanRun(s, a + b) && 0 <= id < MUTEX_MAX
    ensures HoldersRun(s, a + b, id, holders) == HoldersRun(Run(s, a), b, id, HoldersRun(s, a, id, holders))
    decreases |a|
  {
    hide TableOk, Located, SlotsOk, CpuOk, MutexesOk, SemsOk, CallOk, Step, HoldersAfter;
    if a == [] {
      assert a + b == b;
    } else {
      StepKeeps(s, a[0]);
      assert (a + b)[0] == a[0] && (a + b)[1..] == a[1..] + b;
      HoldersJoin(Step(s, a[0]), a[1..], b, id, HoldersAfter(s, a[0], id, holders));
    }
  }

  lemma RunOne(s: State, ev: Event, id: int, holders: multiset<int>)
    requires Between(s) && Enabled(s, ev) && 0 <= id < MUTEX_MAX
    ensures CanRun(s, [ev]) && Run(s, [ev]) == Step(s, ev)
    ensures HoldersRun(s, [ev], id, holders) == HoldersAfter(s, ev, id, holders)
  {
    hide TableOk, Located, SlotsOk, CpuOk, MutexesOk, SemsOk, CallOk, Step, HoldersAfter;
    StepKeeps(s, ev);
    assert [ev][1..] == [];
  }

  // ---- A time slice in which nothing but ticks happens ----

  const TICK := Tick(EMPTY_FRAME)

  function Ticks(n: nat): seq<Event> {
    if n == 0 then [] else [TICK] + Ticks(n - 1)
  }

  // Nobody sleeps, and who is not running has used nothing of a slice.
  ghost predicate Calm(s: State) {
    Between(s) && s.sleepQ == [] && Rested(s.procs, s.active)
  }

  ghost function Used(s: State): int
    requires Between(s)
  {
    s.procs[s.active].cpuTime
  }

  lemma RunCpu(s: State, e: int)
    requires Inv(s) && 0 <= e < PROC_MAX
    ensures var over := e == s.active && s.procs[e].cpuTime >= SCHEDULER_TIMESLICE;
      SchedulerRun(s).procs[e].cpuTime == if over then 0 else s.procs[e].cpuTime
  {
    hide TableOk, Located, SlotsOk, CpuOk, MutexesOk, SemsOk, PidToProc, Enqueue;
    PreemptKeeps(s);
    if Preempt(s).active == NULL { DispatchHead(Preempt(s)); }
  }

  lemma TickSamePids(s: State)
    requires Between(s)
    ensures SamePids(s.procs, Handle(s, TICK).procs)
  {
    hide TableOk, Located, SlotsOk, MutexesOk, SemsOk, Visited;
    AtPassSame(s, EMPTY_FRAME);
    TickHandled(s, TICK);
    AtPassInv(s, EMPTY_FRAME);
    var p := AtPass(s, EMPTY_FRAME);
    DecrementKeeps(p.procs, p.sleepQ[..Visited(p)], s.active);
    hide AtPass, Decrement, Handle;
  }

  lemma TickHandle(s: State)
    requires Calm(s)
    ensures var h := Handle(s, TICK);
      && Inv(h) && SamePids(s.procs, h.procs) && h.active == s.active && h.sleepQ == [] && h.runQ == s.runQ
      && h.procs[s.active].cpuTime == Used(s) + 1
      && Rested(h.procs, h.active)
  {
    HandleKeeps(s, TICK);
    HandleRunQ(s, TICK);
    HandleOthers(s, TICK);
    TickPass(s, TICK);
    TickSamePids(s);
    QuietPass(s);
    hide TableOk, Located, SlotsOk, CpuOk, MutexesOk, SemsOk, Handle, QueuesAfterPass, Visited;
    forall e | 0 <= e < PROC_MAX && e != s.active && Handle(s, TICK).procs[e].state != NONE
      ensures Handle(s, TICK).procs[e].cpuTime == 0
    {
      assert Untouched(s.procs[e], Handle(s, TICK).procs[e], true);
    }
  }

  ghost predicate Rested(procs: seq<Proc>, active: int) {
    forall e :: 0 <= e < |procs| && e != active && procs[e].state != NONE ==> procs[e].cpuTime == 0
  }

  lemma RunRested(h: State)
    requires Inv(h) && h.active != NULL && Rested(h.procs, h.active)
    ensures var s' := SchedulerRun(h);
      && Between(s') && SamePids(h.procs, s'.procs) && s'.sleepQ == h.sleepQ && Rested(s'.procs, s'.active)
      && (h.procs[h.active].cpuTime >= SCHEDULER_TIMESLICE ==> Used(s') == 0)
  {
    hide TableOk, Located, SlotsOk, CpuOk, MutexesOk, SemsOk, ConsoleOk, IoOk;
    RunKeeps(h);
    RunOthers(h);
    RunPicks(h);
    hide SchedulerRun, Inv;
    var s' := SchedulerRun(h);
    forall e | 0 <= e < PROC_MAX
      ensures Rescheduled(h.procs[e], s'.procs[e])
      ensures s'.procs[e].state != NONE && (e != s'.active || h.procs[h.active].cpuTime >= SCHEDULER_TIMESLICE) ==>
        s'.procs[e].cpuTime == 0
    {
      RunCpu(h, e);
    }
  }

  lemma SamePidsTwice(a: seq<Proc>, b: seq<Proc>, c: seq<Proc>)
    requires SamePids(a, b) && SamePids(b, c)
    ensures SamePids(a, c)
  {
  }

  lemma SameLine(s: State, h: State)
    requires Shaped(s) && Shaped(h) && h.active == s.active && h.runQ == s.runQ && SamePids(s.procs, h.procs)
    ensures Line(h) == Line(s)
  {
  }

  // A tick of a calm kernel: the running process uses one more tick of its slice, and at the tenth
  // whoever is first in line runs.
  lemma CalmTick(s: State)
    requires Calm(s) && Line(s) != []
    ensures var s' := Step(s, TICK);
      && Calm(s') && SamePids(s.procs, s'.procs)
      && if Used(s) + 1 < SCHEDULER_TIMESLICE then
           s'.active == s.active && s'.runQ == s.runQ && Used(s') == Used(s) + 1
         else
           ActivePid(s') == Line(s)[0] && s'.runQ == Line(s)[1..] && Used(s') == 0
  {
    var h := Handle(s, TICK);
    TickHandle(s);
    SameLine(s, h);
    RunRested(h);
    RunPicks(h);
    hide Inv, Handle, SchedulerRun, Line, Rested;
    SamePidsTwice(s.procs, h.procs, Step(s, TICK).procs);
    hide SamePids;
  }

  lemma TicksRun(s: State, n: nat)
    requires Between(s) && Between(Step(s, TICK)) && CanRun(Step(s, TICK), Ticks(n))
    ensures CanRun(s, Ticks(n + 1)) && Run(s, Ticks(n + 1)) == Run(Step(s, TICK), Ticks(n))
  {
    hide TableOk, Located, SlotsOk, CpuOk, MutexesOk, SemsOk, Step;
    assert Ticks(n + 1)[0] == TICK && Ticks(n + 1)[1..] == Ticks(n);
  }

  // The rest of a slice: then whoever is first in line runs.
  lemma {:induction false} SliceEnds(s: State, n: nat)
    requires Calm(s) && Line(s) != [] && n > 0 && Used(s) + n == SCHEDULER_TIMESLICE
    ensures CanRun(s, Ticks(n))
    ensures var r := Run(s, Ticks(n));
      Calm(r) && SamePids(s.procs, r.procs) && ActivePid(r) == Line(s)[0] && r.runQ == Line(s)[1..] && Used(r) == 0
    decreases n
  {
    var s' := Step(s, TICK);
    CalmTick(s);
    if n > 1 {
      SameLine(s, s');
      hide Inv, Step, Line, Rested, Run, CanRun;
      SliceEnds(s', n - 1);
      TicksRun(s, n - 1);
      SamePidsTwice(s.procs, s'.procs, Run(s', Ticks(n - 1)).procs);
      hide SamePids;
    } else {
      hide Inv, Step, Line, Rested, SamePids;
      assert Run(s', Ticks(0)) == s' && CanRun(s', Ticks(0));
      TicksRun(s, 0);
    }
  }

  // Ticks are no calls: they leave the locks, and who holds them, as they are.
  lemma {:induction false} TicksLeaveLocks(s: State, n: nat, id: int, holders: multiset<int>)
    requires Between(s) && CanRun(s, Ticks(n)) && 0 <= id < MUTEX_MAX && Exclusive(s, id, holders)
    ensures var r := Run(s, Ticks(n));
      r.mutexes == s.mutexes && r.mutexFree == s.mutexFree &&
      HoldersRun(s, Ticks(n), id, holders) == holders && Exclusive(r, id, holders)
    decreases n
  {
    hide TableOk, Located, SlotsOk, CpuOk, MutexesOk, SemsOk, CallOk, Step, Exclusive;
    if n > 0 {
      assert Ticks(n)[0] == TICK && Ticks(n)[1..] == Ticks(n - 1);
      StepLocks(s, TICK);
      ExclusionStep(s, TICK, id, holders);
      assert HoldersAfter(s, TICK, id, holders) == holders;
      hide HoldersAfter, Disciplined;
      TicksLeaveLocks(Step(s, TICK), n - 1, id, holders);
    }
  }

  lemma Slice(s: State, holders: multiset<int>)
    requires Calm(s) && Line(s) != [] && Used(s) == 0 && Exclusive(s, 0, holders)
    ensures CanRun(s, Ticks(10))
    ensures var r := Run(s, Ticks(10));
      && Calm(r) && ActivePid(r) == Line(s)[0] && r.runQ == Line(s)[1..] && Used(r) == 0
      && r.mutexes == s.mutexes && r.mutexFree == s.mutexFree
      && HoldersRun(s, Ticks(10), 0, holders) == holders && Exclusive(r, 0, holders)
  {
    hide Inv, Line, Rested, Exclusive, Run, CanRun, HoldersRun, SamePids;
    SliceEnds(s, 10);
    hide Calm;
    TicksLeaveLocks(s, 10, 0, holders);
  }

  lemma BootCalm(progs: Programs)
    ensures var b := Boot(progs);
      && Calm(b) && Used(b) == 0 && Exclusive(b, 0, multiset{})
      && |Line(b)| == 10 && forall k :: 0 <= k < 10 ==> Line(b)[k] == k + 1
    ensures Boot(progs).mutexFree != [] && Boot(progs).mutexFree[0] == 0
  {
    BootIs(progs);
    BootLocks(progs, 0, Log(0, 0, 0, 0));
    forall e | 0 <= e < PROC_MAX ensures Boot(progs).procs[e].cpuTime == 0 { BootRested(progs, e); }
    hide Boot, Jobs, Exclusive, TableOk, Located, SlotsOk, CpuOk, MutexesOk, SemsOk, ConsoleOk, IoOk;
  }

  // ---- A process that unlocks another's mutex ----

  const INIT := Syscall(Frame(SYS_MUTEX_INIT, 0, 0, 0, 0, 0), [])
  const LOCK := Syscall(Frame(SYS_MUTEX_LOCK, 0, 0, 0, 0, 0), [])
  const UNLOCK := Syscall(Frame(SYS_MUTEX_UNLOCK, 0, 0, 0, 0, 0), [])

  // Taking a new mutex, or one that is free, blocks nobody.
  ghost predicate Grants(s: State, ev: Event)
    requires Shaped(s)
  {
    ev == INIT || (ev == LOCK && s.mutexes[0].isAllocated && s.mutexes[0].locks == 0)
  }

  lemma GrantCall(s: State, ev: Event)
    requires Shaped(s) && 0 <= s.active && Grants(s, ev)
    ensures var c := Call(s, ev.frame, ev.mem).0;
      c.procs == s.procs && c.active == s.active && c.runQ == s.runQ && c.sleepQ == s.sleepQ
  {
    hide ConsoleOk, IoOk, Enqueue, Without, SchedulerRemove;
  }

  lemma GrantHandle(s: State, ev: Event)
    requires Between(s) && Enabled(s, ev) && Grants(s, ev)
    ensures var h := Handle(s, ev);
      && Inv(h) && h.active == s.active && h.runQ == s.runQ && h.sleepQ == s.sleepQ
      && h.procs == s.procs[s.active := s.procs[s.active].(frame := h.procs[s.active].frame)]
  {
    var s1 := SaveFrame(s, ev.frame);
    HandleKeeps(s, ev);
    GrantCall(s1, ev);
    hide TableOk, Located, SlotsOk, CpuOk, MutexesOk, SemsOk, ConsoleOk, IoOk, Call;
    var rc := Call(s1, ev.frame, ev.mem).1;
    var p := s.procs[s.active];
    assert s.procs[s.active := p.(frame := ev.frame)][s.active := p.(frame := ev.frame.(eax := rc))]
        == s.procs[s.active := p.(frame := ev.frame.(eax := rc))];
    assert Handle(s, ev).procs == SetEax(s1.procs, s.active, rc);
  }

  lemma GrantStep(s: State, ev: Event)
    requires Calm(s) && Enabled(s, ev) && Grants(s, ev)
    ensures var s' := Step(s, ev); Calm(s') && ActivePid(s') == ActivePid(s) && s'.runQ == s.runQ && Used(s') == Used(s)
  {
    var h := Handle(s, ev);
    GrantHandle(s, ev);
    assert Rested(h.procs, h.active);
    RunRested(h);
    RunPicks(h);
    hide TableOk, Located, SlotsOk, CpuOk, MutexesOk, SemsOk, Handle, SchedulerRun, Line, Rested, ConsoleOk, IoOk;
  }

  lemma InitStep(s: State)
    requires Calm(s) && ActivePid(s) == 1 && Exclusive(s, 0, multiset{}) && s.mutexFree != [] && s.mutexFree[0] == 0
    ensures var s' := Step(s, INIT);
      && Calm(s') && ActivePid(s') == 1 && s'.runQ == s.runQ && Used(s') == Used(s)
      && s'.mutexes[0] == Mutex(true, 0, NULL, [])
      && HoldersAfter(s, INIT, 0, multiset{}) == multiset{} && Exclusive(s', 0, multiset{})
  {
    hide Inv, Rested, Step, Exclusive;
    GrantStep(s, INIT);
    StepMutex(s, INIT, 0);
    ExclusionStep(s, INIT, 0, multiset{});
  }

  lemma LockStep(s: State)
    requires Calm(s) && ActivePid(s) == 1 && Exclusive(s, 0, multiset{}) && s.mutexes[0] == Mutex(true, 0, NULL, [])
    ensures var s' := Step(s, LOCK);
      && Calm(s') && ActivePid(s') == 1 && s'.runQ == s.runQ && Used(s') == Used(s)
      && s'.mutexes[0].owner != NULL && s'.mutexes[0].wait == []
      && HoldersAfter(s, LOCK, 0, multiset{}) == multiset{1} && Exclusive(s', 0, multiset{1})
  {
    hide Inv, Rested, Step, Exclusive;
    GrantStep(s, LOCK);
    StepMutex(s, LOCK, 0);
    ExclusionStep(s, LOCK, 0, multiset{});
  }

  // An unlock by somebody else than the one holder.
  lemma ForeignStep(s: State)
    requires Between(s) && ActivePid(s) == 2 && s.mutexes[0].owner != NULL && s.mutexes[0].wait == []
    requires Exclusive(s, 0, multiset{1})
    ensures Between(Step(s, UNLOCK)) && Step(s, UNLOCK).mutexes[0].owner == NULL
    ensures HoldersAfter(s, UNLOCK, 0, multiset{1}) == multiset{1}
  {
    UnlockOwned(s, UNLOCK, 0, multiset{1});
    assert multiset{1} - multiset{2} == multiset{1};
  }

  // A run that has come from b to s, and who holds mutex 0 by then.
  ghost predicate Reaches(b: State, es: seq<Event>, s: State, holders: multiset<int>) {
    Between(b) && CanRun(b, es) && Run(b, es) == s && HoldersRun(b, es, 0, multiset{}) == holders
  }

  lemma ReachesOn(b: State, a: seq<Event>, s: State, holders: multiset<int>, es: seq<Event>)
    requires Reaches(b, a, s, holders) && CanRun(s, es)
    ensures Reaches(b, a + es, Run(s, es), HoldersRun(s, es, 0, holders))
  {
    RunJoin(b, a, es);
    HoldersJoin(b, a, es, 0, multiset{});
    hide CanRun, Run, HoldersRun, Inv;
  }

  lemma ReachesNext(b: State, a: seq<Event>, s: State, holders: multiset<int>, ev: Event)
    requires Reaches(b, a, s, holders) && Enabled(s, ev)
    ensures Between(s) && Reaches(b, a + [ev], Step(s, ev), HoldersAfter(s, ev, 0, holders))
  {
    RunOne(s, ev, 0, holders);
    ReachesOn(b, a, s, holders, [ev]);
    hide CanRun, Run, HoldersRun, HoldersAfter, Step, Inv, Reaches;
  }

  // Process 1 makes a mutex and locks it; process 2 unlocks it.
  function ForeignRun(): seq<Event> {
    Ticks(10) + [INIT] + [LOCK] + Ticks(10) + [UNLOCK]
  }

  // Process 2 is about to run, and process 1 alone holds mutex 0.
  ghost predicate HeldByOne(s: State) {
    && Calm(s) && Line(s) != [] && Line(s)[0] == 2 && Used(s) == 0
    && s.mutexes[0].owner != NULL && s.mutexes[0].wait == [] && Exclusive(s, 0, multiset{1})
  }

  lemma OneLocks(b: State) returns (s: State)
    requires Calm(b) && Used(b) == 0 && Exclusive(b, 0, multiset{}) && b.mutexFree != [] && b.mutexFree[0] == 0
    requires |Line(b)| >= 2 && Line(b)[0] == 1 && Line(b)[1] == 2
    ensures Reaches(b, Ticks(10) + [INIT] + [LOCK], s, multiset{1}) && HeldByOne(s)
  {
    hide TableOk, Located, SlotsOk, CpuOk, MutexesOk, SemsOk, ConsoleOk, IoOk;
    hide Rested, Step, Exclusive, HoldersAfter, Run, CanRun, HoldersRun;
    Slice(b, multiset{});
    var s1 := Run(b, Ticks(10));
    assert Reaches(b, Ticks(10), s1, multiset{});
    hide Reaches;
    InitStep(s1);
    ReachesNext(b, Ticks(10), s1, multiset{}, INIT);
    var s2 := Step(s1, INIT);
    LockStep(s2);
    ReachesNext(b, Ticks(10) + [INIT], s2, multiset{}, LOCK);
    s := Step(s2, LOCK);
  }

  lemma TwoUnlocks(b: State, es: seq<Event>, s: State) returns (r: State)
    requires Reaches(b, es, s, multiset{1}) && HeldByOne(s)
    ensures Reaches(b, es + Ticks(10) + [UNLOCK], r, multiset{1}) && Between(r) && r.mutexes[0].owner == NULL
  {
    hide TableOk, Located, SlotsOk, CpuOk, MutexesOk, SemsOk, ConsoleOk, IoOk;
    hide Reaches, Rested, Step, Exclusive, HoldersAfter, Run, CanRun, HoldersRun, Line;
    Slice(s, multiset{1});
    ReachesOn(b, es, s, multiset{1}, Ticks(10));
    var s' := Run(s, Ticks(10));
    ForeignStep(s');
    ReachesNext(b, es + Ticks(10), s', multiset{1}, UNLOCK);
    r := Step(s', UNLOCK);
  }

  // The code does not check who unlocks. In this run from boot process 2 frees the mutex process 1
  // holds, and nobody is its owner while process 1 still holds its lock.
  lemma ForeignUnlock(progs: Programs)
    ensures var b := Boot(progs);
      && CanRun(b, ForeignRun()) && Run(b, ForeignRun()).mutexes[0].owner == NULL
      && HoldersRun(b, ForeignRun(), 0, multiset{}) == multiset{1}
      && !Exclusive(Run(b, ForeignRun()), 0, HoldersRun(b, ForeignRun(), 0, multiset{}))
  {
    hide Boot, Inv, Run, CanRun, HoldersRun, HeldByOne, Calm, Line;
    BootCalm(progs);
    var s := OneLocks(Boot(progs));
    var r := TwoUnlocks(Boot(progs), Ticks(10) + [INIT] + [LOCK], s);
  }

  // ---- A tick that passes over a sleeper ----

  function Sleep(seconds: int): Event {
    Syscall(Frame(SYS_SLEEP, seconds, 0, 0, 0, 0), [])
  }

  // The caller lines up behind the other sleepers, and whoever is ready first runs.
  lemma SleepStep(s: State, seconds: int)
    requires Between(s) && ActivePid(s) != 0 && s.runQ != []
    ensures var s' := Step(s, Sleep(seconds));
      && Between(s') && s'.sleepQ == s.sleepQ + [ActivePid(s)]
      && SleepTime(s', ActivePid(s)) == TICKS_PER_SECOND * seconds
      && ActivePid(s') == s.runQ[0] && s'.runQ == s.runQ[1..]
  {
    var ev := Sleep(seconds);
    var h := Handle(s, ev);
    SleepCall(s, ev);
    HandleKeeps(s, ev);
    HandleSleepQ(s, ev);
    SleepHandle(s, ev);
    hide TableOk, Located, SlotsOk, CpuOk, MutexesOk, SemsOk, ConsoleOk, IoOk, Handle;
    RunOthers(h);
    RunPicks(h);
    hide SchedulerRun;
  }

  lemma SleepHandle(s: State, ev: Event)
    requires Between(s) && Enabled(s, ev) && ev.Syscall? && ev.frame.eax == SYS_SLEEP
    ensures Handle(s, ev).active == NULL && Handle(s, ev).runQ == s.runQ
  {
    FrameKeeps(s, s.active, ev.frame);
    SleepIs(SaveFrame(s, ev.frame), ev.frame.ebx);
    hide TableOk, Located, SlotsOk, CpuOk, MutexesOk, SemsOk, SchedulerSleep;
  }

  // Behind one who wakes, one who has yet to sleep is not looked at, and its time stays.
  lemma SkippingTick(s: State, a: int, b: int)
    requires Between(s) && s.sleepQ == [a, b] && SleepTime(s, a) <= 1
    ensures var s' := Step(s, TICK); Between(s') && b in s'.sleepQ && SleepTime(s', b) == SleepTime(s, b)
  {
    SleeperEntry(s, a);
    assert s.sleepQ[..1] == [a] && s.sleepQ[0] == a && s.sleepQ[1] == b;
    assert Expired(s.procs, [a]) == [a] by { assert [a][1..] == []; }
    VisitedExactly(s, 1);
    hide TableOk, Located, SlotsOk, CpuOk, MutexesOk, SemsOk, Step, Visited, Expired;
    StepTick(s, TICK, 1);
  }

  // Process 1 sleeps for no time, process 2 for a second.
  function SleepRun(): seq<Event> {
    Ticks(10) + [Sleep(0)] + [Sleep(1)]
  }

  // In this run from boot the next tick wakes process 1, and takes nothing off process 2's time.
  lemma SleeperPassedOver(progs: Programs)
    ensures var b := Boot(progs);
      && CanRun(b, SleepRun())
      && var s := Run(b, SleepRun()); var s' := Step(s, TICK);
         && s.sleepQ == [1, 2] && SleepTime(s, 2) == 100
         && Between(s') && 2 in s'.sleepQ && SleepTime(s', 2) == 100
  {
    hide Boot, Line, TableOk, Located, SlotsOk, CpuOk, MutexesOk, SemsOk, ConsoleOk, IoOk;
    hide Rested, Step, Exclusive, HoldersAfter, Run, CanRun, HoldersRun;
    var b := Boot(progs);
    BootCalm(progs);
    Slice(b, multiset{});
    var s1 := Run(b, Ticks(10));
    SleepStep(s1, 0);
    var s2 := Step(s1, Sleep(0));
    SleepStep(s2, 1);
    var s3 := Step(s2, Sleep(1));
    StepAsleep(s2, Sleep(1), 0);
    assert Reaches(b, Ticks(10), s1, multiset{});
    ReachesNext(b, Ticks(10), s1, multiset{}, Sleep(0));
    ReachesNext(b, Ticks(10) + [Sleep(0)], s2, HoldersAfter(s1, Sleep(0), 0, multiset{}), Sleep(1));
    SkippingTick(s3, 1, 2);
  }
}
