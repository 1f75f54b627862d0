/** Semaphores over whole runs: conservation of units and order of service. */
module Semaphores {
  import opened Machine
  import opened Invariant
  import opened Preservation
  import opened Runs
  import opened Effects
  import opened Locks

  // ---- What one interrupt does to one semaphore ----

  ghost function SemAfter(s: State, ev: Event, id: int): Sem
    requires Shaped(s) && s.active != NULL && 0 <= id < SEM_MAX
  {
    var m := s.sems[id];
    if ev.Syscall? && ev.frame.eax == SYS_SEM_INIT && s.semFree != [] && s.semFree[0] == id then
      Sem(true, ev.frame.ebx, [])
    else if Calls(ev, SYS_SEM_DESTROY, id) && m.isAllocated && m.count != 0 then
      Sem(false, 0, [])
    else if Calls(ev, SYS_SEM_WAIT, id) && m.isAllocated && m.count == 0 then
      m.(wait := m.wait + [ActivePid(s)])
    else if Calls(ev, SYS_SEM_WAIT, id) && m.isAllocated then
      m.(count := m.count - 1)
    else if Calls(ev, SYS_SEM_POST, id) && m.isAllocated && m.wait != [] then
      m.(wait := m.wait[1..])
    else if Calls(ev, SYS_SEM_POST, id) && m.isAllocated then
      m.(count := m.count + 1)
    else
      m
  }

  lemma CallSem(s: State, ev: Event, id: int)
    requires Between(s) && Enabled(s, ev) && 0 <= id < SEM_MAX
    requires ev.Syscall? && SYS_SEM_INIT <= ev.frame.eax <= SYS_SEM_POST
    ensures Call(s, ev.frame, ev.mem).0.sems[id] == SemAfter(s, ev, id)
  {
    hide TableOk, Located, SlotsOk, CpuOk, MutexesOk, PidToProc, Without, Enqueue;
    var other := ev.frame.ebx;
    if ev.frame.eax == SYS_SEM_INIT {
      if s.semFree != [] { SemsTake(s.sems, s.semFree, Sem(true, other, [])); }
    } else if ev.frame.eax == SYS_SEM_WAIT {
      if SemReady(s, other) && s.sems[other].count == 0 { WaitBlocks(s, other); }
    } else if ev.frame.eax == SYS_SEM_POST {
      if SemReady(s, other) && s.sems[other].wait != [] { PostHandsOver(s, other); }
    }
  }

  lemma MutexCallSem(s: State, ev: Event)
    requires Shaped(s) && 0 <= s.active && ev.Syscall? && SYS_MUTEX_INIT <= ev.frame.eax <= SYS_MUTEX_UNLOCK
    ensures Call(s, ev.frame, ev.mem).0.sems == s.sems
  {
    hide PidToProc, Without, Enqueue;
  }

  lemma StepSem(s: State, ev: Event, id: int)
    requires Between(s) && Enabled(s, ev) && 0 <= id < SEM_MAX
    ensures Between(Step(s, ev)) && Step(s, ev).sems[id] == SemAfter(s, ev, id)
  {
    hide TableOk, Located, SlotsOk, CpuOk, MutexesOk, SemsOk, Call, Step;
    SavedBetween(s, ev);
    StepLocks(s, ev);
    var s1 := SaveFrame(s, ev.frame);
    if ev.Syscall? && SYS_SEM_INIT <= ev.frame.eax <= SYS_SEM_POST {
      CallSem(s1, ev, id);
    } else if ev.Syscall? && SYS_MUTEX_INIT <= ev.frame.eax <= SYS_MUTEX_UNLOCK {
      MutexCallSem(s1, ev);
    }
  }

  // ---- Conservation of units ----

  // What an observer notes down about one semaphore since it was allocated. A wait is granted
  // when it does not leave its caller in the queue, or when a post takes its process off it.
  datatype Log = Log(value: int, waits: int, posts: int, grants: int)

  ghost function LogAfter(s: State, ev: Event, id: int, l: Log): Log
    requires Between(s) && Enabled(s, ev) && 0 <= id < SEM_MAX
  {
    StepKeeps(s, ev);
    var before, after := s.sems[id], Step(s, ev).sems[id];
    if ev.Syscall? && ev.frame.eax == SYS_SEM_INIT && s.semFree != [] && s.semFree[0] == id then
      Log(ev.frame.ebx, 0, 0, 0)
    else if Calls(ev, SYS_SEM_WAIT, id) && before.isAllocated then
      l.(waits := l.waits + 1, grants := l.grants + (if |after.wait| == |before.wait| then 1 else 0))
    else if Calls(ev, SYS_SEM_POST, id) && before.isAllocated then
      l.(posts := l.posts + 1, grants := l.grants + (if |after.wait| < |before.wait| then 1 else 0))
    else
      l
  }

  // Units in are units out, requests are grants and waiters, and waiters find the count at zero.
  ghost predicate Conserved(s: State, id: int, l: Log)
    requires Between(s) && 0 <= id < SEM_MAX
  {
    var m := s.sems[id];
    m.isAllocated ==>
      && l.value + l.posts == m.count + l.grants
      && l.waits == l.grants + |m.wait|
      && (m.wait != [] ==> m.count == 0)
      && (l.value >= 0 ==> m.count >= 0)
  }

  lemma ConservedStep(s: State, ev: Event, id: int, l: Log)
    requires Between(s) && Enabled(s, ev) && 0 <= id < SEM_MAX && Conserved(s, id, l)
    ensures Between(Step(s, ev)) && Conserved(Step(s, ev), id, LogAfter(s, ev, id, l))
  {
    hide TableOk, Located, SlotsOk, CpuOk, MutexesOk, SemsOk, CallOk, Step;
    StepSem(s, ev, id);
  }

  ghost function LogRun(s: State, es: seq<Event>, id: int, l: Log): Log
    requires Between(s) && CanRun(s, es) && 0 <= id < SEM_MAX
    decreases |es|
  {
    if es == [] then l
    else
      StepKeeps(s, es[0]);
      LogRun(Step(s, es[0]), es[1..], id, LogAfter(s, es[0], id, l))
  }

  lemma {:induction false} Conservation(s: State, es: seq<Event>, id: int, l: Log)
    requires Between(s) && CanRun(s, es) && 0 <= id < SEM_MAX && Conserved(s, id, l)
    ensures Conserved(Run(s, es), id, LogRun(s, es, id, l))
    decreases |es|
  {
    hide TableOk, Located, SlotsOk, CpuOk, MutexesOk, SemsOk, CallOk, Step, Conserved, LogAfter;
    if es != [] {
      ConservedStep(s, es[0], id, l);
      Conservation(Step(s, es[0]), es[1..], id, LogAfter(s, es[0], id, l));
    }
  }

  // ---- First come, first served ----

  lemma WaitedOnIsAllocated(s: State, id: int)
    requires Between(s) && 0 <= id < SEM_MAX && s.sems[id].wait != []
    ensures s.sems[id].isAllocated && s.sems[id].count == 0
    ensures s.semFree != [] ==> s.semFree[0] != id
  {
    assert SemLaw(s.sems[id]);
    if s.semFree != [] { SemsTake(s.sems, s.semFree, Sem(true, 0, [])); }
  }

  // A post moves everyone up by one; nothing else moves anyone.
  lemma PostMoves(s: State, ev: Event, id: int, k: nat)
    requires Between(s) && Enabled(s, ev) && 0 <= id < SEM_MAX && k < |s.sems[id].wait|
    requires Calls(ev, SYS_SEM_POST, id) ==> k > 0
    ensures Between(Step(s, ev))
    ensures var k' := if Calls(ev, SYS_SEM_POST, id) then k - 1 else k; var q := Step(s, ev).sems[id].wait;
      k' < |q| && q[k'] == s.sems[id].wait[k]
  {
    hide TableOk, Located, SlotsOk, CpuOk, MutexesOk, SemsOk, CallOk, Step;
    StepSem(s, ev, id);
    WaitedOnIsAllocated(s, id);
  }

  // Index k of a wait queue moves up by one with every post, and does not run meanwhile.
  lemma {:induction false} WaitsForPosts(s: State, es: seq<Event>, id: int, k: nat)
    requires Between(s) && CanRun(s, es) && 0 <= id < SEM_MAX && k < |s.sems[id].wait|
    requires CallCount(es, SYS_SEM_POST, id) <= k
    ensures var s' := Run(s, es); var k' := k - CallCount(es, SYS_SEM_POST, id); var pid := s.sems[id].wait[k];
      && k' < |s'.sems[id].wait| && s'.sems[id].wait[k'] == pid
      && ActivePid(s') != pid && pid !in s'.runQ && pid !in s'.sleepQ
    decreases |es|
  {
    hide TableOk, Located, SlotsOk, CpuOk, MutexesOk, SemsOk, CallOk, Step;
    if es == [] {
      SemBagUpdate(s.sems, id, s.sems[id]);
      WaitersIdle(s, s.sems[id].wait, k);
    } else {
      PostMoves(s, es[0], id, k);
      WaitsForPosts(Step(s, es[0]), es[1..], id, if Calls(es[0], SYS_SEM_POST, id) then k - 1 else k);
    }
  }

  lemma PostReady(s: State, ev: Event, id: int)
    requires Between(s) && Enabled(s, ev) && Calls(ev, SYS_SEM_POST, id)
    requires 0 <= id < SEM_MAX && s.sems[id].wait != []
    ensures Between(Step(s, ev))
    ensures var s' := Step(s, ev); var pid := s.sems[id].wait[0]; ActivePid(s') == pid || pid in s'.runQ
  {
    hide TableOk, Located, SlotsOk, CpuOk, MutexesOk, SemsOk, PidToProc;
    SavedBetween(s, ev);
    HandleKeeps(s, ev);
    WaitedOnIsAllocated(s, id);
    PostHandsOver(SaveFrame(s, ev.frame), id);
    assert s.sems[id].wait[0] in Handle(s, ev).runQ;
    hide Handle;
    ReadyIsPlaced(Handle(s, ev), s.sems[id].wait[0]);
  }

  lemma PostReleases(s: State, ev: Event, id: int)
    requires Between(s) && Enabled(s, ev) && Calls(ev, SYS_SEM_POST, id)
    requires 0 <= id < SEM_MAX && s.sems[id].wait != []
    ensures var s' := Step(s, ev); var pid := s.sems[id].wait[0];
      Between(s') && s'.sems[id].count == 0 && (ActivePid(s') == pid || pid in s'.runQ)
  {
    hide TableOk, Located, SlotsOk, CpuOk, MutexesOk, SemsOk, CallOk;
    StepSem(s, ev, id);
    WaitedOnIsAllocated(s, id);
    PostReady(s, ev, id);
    hide Step;
  }

  // The post after k others makes whoever was at index k ready, and leaves the count at zero.
  lemma ReleasedInTurn(s: State, es: seq<Event>, ev: Event, id: int, k: nat)
    requires Between(s) && CanRun(s, es) && 0 <= id < SEM_MAX && k < |s.sems[id].wait|
    requires CallCount(es, SYS_SEM_POST, id) == k
    requires Enabled(Run(s, es), ev) && Calls(ev, SYS_SEM_POST, id)
    ensures var s' := Step(Run(s, es), ev); var pid := s.sems[id].wait[k];
      Between(s') && s'.sems[id].count == 0 && (ActivePid(s') == pid || pid in s'.runQ)
  {
    hide TableOk, Located, SlotsOk, CpuOk, MutexesOk, SemsOk, CallOk, Step;
    WaitsForPosts(s, es, id, k);
    PostReleases(Run(s, es), ev, id);
  }
}
