/** Mutexes and semaphores over whole runs: order of service, mutual exclusion, conservation. */
module Locks {
  import opened Screen
  import opened Machine
  import opened Invariant
  import opened Preservation
  import opened Runs
  import opened Effects

  ghost predicate Calls(ev: Event, number: int, id: int) {
    ev.Syscall? && ev.frame.eax == number && ev.frame.ebx == id
  }

  // Only the calls themselves touch the lock tables, and they act at the interrupted state.
  lemma StepLocks(s: State, ev: Event)
    requires Between(s) && Enabled(s, ev)
    ensures Between(Step(s, ev))
    ensures var s1 := SaveFrame(s, ev.frame); var s' := Step(s, ev);
      if ev.Syscall? && SYS_MUTEX_INIT <= ev.frame.eax <= SYS_SEM_POST then
        var c := Call(s1, ev.frame, ev.mem).0;
        s'.mutexes == c.mutexes && s'.mutexFree == c.mutexFree && s'.sems == c.sems && s'.semFree == c.semFree
      else
        s'.mutexes == s.mutexes && s'.mutexFree == s.mutexFree && s'.sems == s.sems && s'.semFree == s.semFree
  {
    StepKeeps(s, ev);
    HandleKeeps(s, ev);
    HandleLocks(s, ev);
    hide Handle;
    RunOthers(Handle(s, ev));
  }

  lemma HandleLocks(s: State, ev: Event)
    requires Between(s) && Enabled(s, ev)
    ensures var s1 := SaveFrame(s, ev.frame); var h := Handle(s, ev);
      if ev.Syscall? && SYS_MUTEX_INIT <= ev.frame.eax <= SYS_SEM_POST then
        var c := Call(s1, ev.frame, ev.mem).0;
        h.mutexes == c.mutexes && h.mutexFree == c.mutexFree && h.sems == c.sems && h.semFree == c.semFree
      else
        h.mutexes == s.mutexes && h.mutexFree == s.mutexFree && h.sems == s.sems && h.semFree == s.semFree
  {
    hide TableOk, Located, SlotsOk, CpuOk, MutexesOk, SemsOk, Without, Refresh, SetBuffer, Visited, PidToProc, Enqueue;
    hide KmutexInit, KmutexDestroy, KmutexLock, KmutexUnlock, KsemInit, KsemDestroy, KsemWait, KsemPost;
  }

  lemma SavedBetween(s: State, ev: Event)
    requires Between(s)
    ensures var s1 := SaveFrame(s, ev.frame);
      Between(s1) && s1 == s.(procs := s1.procs) && SamePids(s.procs, s1.procs)
  {
    hide TableOk, Located, SlotsOk, CpuOk, MutexesOk, SemsOk;
    FrameKeeps(s, s.active, ev.frame);
  }

  // ---- What one interrupt does to one mutex ----

  // The mutex after the interrupt, from the mutex before it and who called what.
  ghost function MutexAfter(s: State, ev: Event, id: int): Mutex
    requires Shaped(s) && s.active != NULL && 0 <= id < MUTEX_MAX
  {
    var m := s.mutexes[id];
    if ev.Syscall? && ev.frame.eax == SYS_MUTEX_INIT && s.mutexFree != [] && s.mutexFree[0] == id then
      Mutex(true, 0, NULL, [])
    else if Calls(ev, SYS_MUTEX_DESTROY, id) && m.locks == 0 then
      m.(isAllocated := false)
    else if Calls(ev, SYS_MUTEX_LOCK, id) && m.isAllocated && m.locks > 0 then
      m.(locks := m.locks + 1, wait := m.wait + [ActivePid(s)])
    else if Calls(ev, SYS_MUTEX_LOCK, id) && m.isAllocated then
      m.(locks := 1, owner := s.active)
    else if Calls(ev, SYS_MUTEX_UNLOCK, id) && m.locks == 1 then
      Mutex(true, 0, NULL, [])
    else if Calls(ev, SYS_MUTEX_UNLOCK, id) && m.locks > 1 && m.wait != [] then
      Mutex(true, m.locks - 1, PidToProc(s.procs, m.wait[0]), m.wait[1..])
    else
      m
  }

  lemma LockMutex(s: State, ev: Event, id: int)
    requires Between(s) && Enabled(s, ev) && 0 <= id < MUTEX_MAX && ev.Syscall? && ev.frame.eax == SYS_MUTEX_LOCK
    ensures KmutexLock(s, ev.frame.ebx).0.mutexes[id] == MutexAfter(s, ev, id)
  {
    hide TableOk, Located, SlotsOk, CpuOk, SemsOk, Without, Enqueue;
    var other := ev.frame.ebx;
    if MutexReady(s, other) {
      assert MutexLaw(s.mutexes[other]);
      if s.mutexes[other].locks > 0 { LockBlocks(s, other); }
    }
  }

  lemma UnlockMutex(s: State, ev: Event, id: int)
    requires Between(s) && Enabled(s, ev) && 0 <= id < MUTEX_MAX && ev.Syscall? && ev.frame.eax == SYS_MUTEX_UNLOCK
    ensures KmutexUnlock(s, ev.frame.ebx).0.mutexes[id] == MutexAfter(s, ev, id)
  {
    hide TableOk, Located, SlotsOk, CpuOk, SemsOk, PidToProc, Enqueue;
    assert MutexLaw(s.mutexes[id]);
    var other := ev.frame.ebx;
    if MutexReady(s, other) && s.mutexes[other].locks > 1 { UnlockHandsOver(s, other); }
  }

  lemma CallMutex(s: State, ev: Event, id: int)
    requires Between(s) && Enabled(s, ev) && 0 <= id < MUTEX_MAX
    requires ev.Syscall? && SYS_MUTEX_INIT <= ev.frame.eax <= SYS_SEM_POST
    ensures Call(s, ev.frame, ev.mem).0.mutexes[id] == MutexAfter(s, ev, id)
  {
    if ev.frame.eax == SYS_MUTEX_LOCK {
      hide TableOk, Located, SlotsOk, CpuOk, MutexesOk, SemsOk, KmutexLock, MutexAfter;
      LockMutex(s, ev, id);
    } else if ev.frame.eax == SYS_MUTEX_UNLOCK {
      hide TableOk, Located, SlotsOk, CpuOk, MutexesOk, SemsOk, KmutexUnlock, MutexAfter;
      UnlockMutex(s, ev, id);
    } else if ev.frame.eax >= SYS_SEM_INIT {
      hide TableOk, Located, SlotsOk, CpuOk, MutexesOk, SemsOk, Call;
      SemCallMutex(s, ev);
    } else {
      hide TableOk, Located, SlotsOk, CpuOk, SemsOk, Enqueue;
      assert MutexLaw(s.mutexes[id]);
      if s.mutexFree != [] { MutexesTake(s.mutexes, s.mutexFree, Mutex(true, 0, NULL, [])); }
    }
  }

  lemma SemCallMutex(s: State, ev: Event)
    requires Shaped(s) && 0 <= s.active && ev.Syscall? && SYS_SEM_INIT <= ev.frame.eax <= SYS_SEM_POST
    ensures Call(s, ev.frame, ev.mem).0.mutexes == s.mutexes
  {
    hide PidToProc, Without, Enqueue;
  }

  lemma StepMutex(s: State, ev: Event, id: int)
    requires Between(s) && Enabled(s, ev) && 0 <= id < MUTEX_MAX
    ensures Between(Step(s, ev)) && Step(s, ev).mutexes[id] == MutexAfter(s, ev, id)
  {
    hide TableOk, Located, SlotsOk, CpuOk, MutexesOk, SemsOk, PidToProc, Call, Step;
    SavedBetween(s, ev);
    StepLocks(s, ev);
    if ev.Syscall? && SYS_MUTEX_INIT <= ev.frame.eax <= SYS_SEM_POST {
      var s1 := SaveFrame(s, ev.frame);
      CallMutex(s1, ev, id);
      if s.mutexes[id].wait != [] { SamePidToProc(s.procs, s1.procs, s.mutexes[id].wait[0]); }
    }
  }

  // ---- First come, first served ----

  ghost function CallCount(es: seq<Event>, number: int, id: int): (n: nat)
    decreases |es|
  {
    if es == [] then 0 else (if Calls(es[0], number, id) then 1 else 0) + CallCount(es[1..], number, id)
  }

  lemma WaitersIdle(s: State, q: seq<int>, k: nat)
    requires Between(s) && k < |q| && multiset(q) <= Waiting(s.mutexes, s.sems)
    ensures ActivePid(s) != q[k] && q[k] !in s.runQ && q[k] !in s.sleepQ
  {
    PlaceOnce(s, q[k]);
    assert q[k] in multiset(q);
    ActiveBagCount(s.procs, s.active, q[k]);
  }

  // An unlock moves everyone up by one; nothing else moves anyone.
  lemma UnlockMoves(s: State, ev: Event, id: int, k: nat)
    requires Between(s) && Enabled(s, ev) && 0 <= id < MUTEX_MAX && k < |s.mutexes[id].wait|
    requires Calls(ev, SYS_MUTEX_UNLOCK, id) ==> k > 0
    ensures Between(Step(s, ev))
    ensures var k' := if Calls(ev, SYS_MUTEX_UNLOCK, id) then k - 1 else k; var q := Step(s, ev).mutexes[id].wait;
      k' < |q| && q[k'] == s.mutexes[id].wait[k]
  {
    hide TableOk, Located, SlotsOk, CpuOk, MutexesOk, SemsOk, CallOk, Step, PidToProc;
    StepMutex(s, ev, id);
    WaitingIsAllocated(s, id);
  }

  // Index k of a wait queue moves up by one with every unlock, and does not run meanwhile.
  lemma {:induction false} WaitsInLine(s: State, es: seq<Event>, id: int, k: nat)
    requires Between(s) && CanRun(s, es) && 0 <= id < MUTEX_MAX && k < |s.mutexes[id].wait|
    requires CallCount(es, SYS_MUTEX_UNLOCK, id) <= k
    ensures var s' := Run(s, es); var k' := k - CallCount(es, SYS_MUTEX_UNLOCK, id); var pid := s.mutexes[id].wait[k];
      && k' < |s'.mutexes[id].wait| && s'.mutexes[id].wait[k'] == pid
      && ActivePid(s') != pid && pid !in s'.runQ && pid !in s'.sleepQ
    decreases |es|
  {
    hide TableOk, Located, SlotsOk, CpuOk, SemsOk, CallOk, Step;
    if es == [] {
      MutexBagUpdate(s.mutexes, id, s.mutexes[id]);
      WaitersIdle(s, s.mutexes[id].wait, k);
    } else {
      UnlockMoves(s, es[0], id, k);
      hide MutexesOk;
      WaitsInLine(Step(s, es[0]), es[1..], id, if Calls(es[0], SYS_MUTEX_UNLOCK, id) then k - 1 else k);
    }
  }

  lemma WaitingIsAllocated(s: State, id: int)
    requires Between(s) && 0 <= id < MUTEX_MAX && s.mutexes[id].wait != []
    ensures var m := s.mutexes[id]; m.isAllocated && m.locks == 1 + |m.wait|
    ensures s.mutexFree != [] ==> s.mutexFree[0] != id
  {
    assert MutexLaw(s.mutexes[id]);
    if s.mutexFree != [] { MutexesTake(s.mutexes, s.mutexFree, Mutex(true, 0, NULL, [])); }
  }

  // The unlock after k others hands the mutex to whoever was at index k, and makes it ready.
  lemma GrantedInTurn(s: State, es: seq<Event>, ev: Event, id: int, k: nat)
    requires Between(s) && CanRun(s, es) && 0 <= id < MUTEX_MAX && k < |s.mutexes[id].wait|
    requires CallCount(es, SYS_MUTEX_UNLOCK, id) == k
    requires Enabled(Run(s, es), ev) && Calls(ev, SYS_MUTEX_UNLOCK, id)
    ensures var r := Run(s, es); var s' := Step(r, ev); var pid := s.mutexes[id].wait[k];
      && Between(s') && s'.mutexes[id].owner > 0 && s'.procs[s'.mutexes[id].owner].pid == pid
      && (ActivePid(s') == pid || pid in s'.runQ)
  {
    hide TableOk, Located, SlotsOk, CpuOk, MutexesOk, SemsOk, CallOk, Step;
    WaitsInLine(s, es, id, k);
    HandOver(Run(s, es), ev, id);
  }

  lemma HandOverReady(s: State, ev: Event, id: int)
    requires Between(s) && Enabled(s, ev) && Calls(ev, SYS_MUTEX_UNLOCK, id)
    requires 0 <= id < MUTEX_MAX && s.mutexes[id].wait != []
    ensures Between(Step(s, ev))
    ensures var s' := Step(s, ev); var pid := s.mutexes[id].wait[0]; ActivePid(s') == pid || pid in s'.runQ
  {
    hide TableOk, Located, SlotsOk, CpuOk, MutexesOk, SemsOk, PidToProc;
    SavedBetween(s, ev);
    HandleKeeps(s, ev);
    WaitingIsAllocated(s, id);
    UnlockHandsOver(SaveFrame(s, ev.frame), id);
    assert s.mutexes[id].wait[0] in Handle(s, ev).runQ;
    hide Handle;
    ReadyIsPlaced(Handle(s, ev), s.mutexes[id].wait[0]);
  }

  lemma HandOver(s: State, ev: Event, id: int)
    requires Between(s) && Enabled(s, ev) && Calls(ev, SYS_MUTEX_UNLOCK, id)
    requires 0 <= id < MUTEX_MAX && s.mutexes[id].wait != []
    ensures var s' := Step(s, ev); var pid := s.mutexes[id].wait[0];
      && Between(s') && s'.mutexes[id].owner > 0 && s'.procs[s'.mutexes[id].owner].pid == pid
      && (ActivePid(s') == pid || pid in s'.runQ)
  {
    hide TableOk, Located, SlotsOk, CpuOk, MutexesOk, SemsOk, PidToProc, CallOk;
    StepMutex(s, ev, id);
    WaitingIsAllocated(s, id);
    MutexWaiter(s, id);
    HandOverReady(s, ev, id);
    StepEntry(s, ev, PidToProc(s.procs, s.mutexes[id].wait[0]));
    hide Step;
  }

  // ---- Mutual exclusion ----

  // The processes whose granted locks on the mutex exceed their unlocks. A lock is granted when
  // the call does not leave its caller waiting, or when an unlock takes its process off the queue.
  ghost function Regrant(before: Mutex, after: Mutex, ev: Event, id: int, caller: int,
                         holders: multiset<int>): multiset<int>
  {
    if Calls(ev, SYS_MUTEX_LOCK, id) && before.isAllocated && |after.wait| == |before.wait| then
      holders + multiset{caller}
    else if Calls(ev, SYS_MUTEX_UNLOCK, id) && before.isAllocated then
      holders - multiset{caller} + (if |after.wait| < |before.wait| then multiset{before.wait[0]} else multiset{})
    else
      holders
  }

  ghost function HoldersAfter(s: State, ev: Event, id: int, holders: multiset<int>): multiset<int>
    requires Between(s) && Enabled(s, ev) && 0 <= id < MUTEX_MAX
  {
    StepKeeps(s, ev);
    if ev.Syscall? && ev.frame.eax == SYS_MUTEX_INIT && s.mutexFree != [] && s.mutexFree[0] == id then multiset{}
    else Regrant(s.mutexes[id], Step(s, ev).mutexes[id], ev, id, ActivePid(s), holders)
  }

  // Nobody holds a mutex without an owner, and the owner alone, alive, holds one that has it.
  ghost predicate Exclusive(s: State, id: int, holders: multiset<int>)
    requires Between(s) && 0 <= id < MUTEX_MAX
  {
    var m := s.mutexes[id];
    if m.owner == NULL then holders == multiset{}
    else s.procs[m.owner].state != NONE && holders == multiset{s.procs[m.owner].pid}
  }

  // What a caller must keep to: unlock only what it owns, and do not exit owning it.
  ghost predicate Disciplined(s: State, ev: Event, id: int)
    requires Between(s) && 0 <= id < MUTEX_MAX
  {
    && (Calls(ev, SYS_MUTEX_UNLOCK, id) && s.mutexes[id].owner != NULL ==> s.mutexes[id].owner == s.active)
    && (Exits(s, ev) ==> s.mutexes[id].owner != s.active)
  }

  lemma UnlockedMutex(s: State, ev: Event, id: int, holders: multiset<int>)
    requires Between(s) && 0 <= id < MUTEX_MAX && Calls(ev, SYS_MUTEX_UNLOCK, id) && s.mutexes[id].owner != NULL
    ensures var m, m' := s.mutexes[id], MutexAfter(s, ev, id);
      var left := Regrant(m, m', ev, id, ActivePid(s), holders);
      if m.wait == [] then m'.owner == NULL && left == holders - multiset{ActivePid(s)}
      else m'.owner == PidToProc(s.procs, m.wait[0]) && left == holders - multiset{ActivePid(s)} + multiset{m.wait[0]}
  {
    HolderLaw(s, id);
    hide Inv, PidToProc, ConsoleOk, IoOk;
  }

  // What an unlock of an owned mutex comes to.
  lemma UnlockOwned(s: State, ev: Event, id: int, holders: multiset<int>)
    requires Between(s) && Enabled(s, ev) && 0 <= id < MUTEX_MAX
    requires Calls(ev, SYS_MUTEX_UNLOCK, id) && s.mutexes[id].owner != NULL
    ensures Between(Step(s, ev))
    ensures var m, m' := s.mutexes[id], Step(s, ev).mutexes[id];
      if m.wait == [] then m'.owner == NULL && HoldersAfter(s, ev, id, holders) == holders - multiset{ActivePid(s)}
      else
        m'.owner == PidToProc(s.procs, m.wait[0]) &&
        HoldersAfter(s, ev, id, holders) == holders - multiset{ActivePid(s)} + multiset{m.wait[0]}
  {
    UnlockedMutex(s, ev, id, holders);
    hide TableOk, Located, SlotsOk, CpuOk, MutexesOk, SemsOk, CallOk, Step, PidToProc, MutexAfter, Regrant;
    StepMutex(s, ev, id);
  }

  // One holder p, taken off as a: nobody is left exactly if p is a.
  lemma HolderLeaves(p: int, a: int, next: int)
    ensures multiset{p} - multiset{a} == multiset{} <==> p == a
    ensures multiset{p} - multiset{a} + multiset{next} == multiset{next} <==> p == a
  {
    if p != a {
      assert multiset{p} - multiset{a} == multiset{p};
      assert |multiset{p} + multiset{next}| == 2;
    }
  }

  lemma ExclusionUnlock(s: State, ev: Event, id: int, holders: multiset<int>)
    requires Between(s) && Enabled(s, ev) && 0 <= id < MUTEX_MAX
    requires Exclusive(s, id, holders) && Calls(ev, SYS_MUTEX_UNLOCK, id) && s.mutexes[id].owner != NULL
    ensures Between(Step(s, ev))
    ensures Exclusive(Step(s, ev), id, HoldersAfter(s, ev, id, holders)) <==> s.mutexes[id].owner == s.active
  {
    var m := s.mutexes[id];
    HolderLaw(s, id);
    HolderPids(s, id);
    UnlockOwned(s, ev, id, holders);
    HolderLeaves(s.procs[m.owner].pid, ActivePid(s), if m.wait == [] then 0 else m.wait[0]);
    if m.wait != [] {
      MutexWaiter(s, id);
      StepEntry(s, ev, PidToProc(s.procs, m.wait[0]));
    }
    hide TableOk, Located, SlotsOk, CpuOk, MutexesOk, SemsOk, CallOk, Step, HoldersAfter, PidToProc, LivePids, Waiting;
  }

  lemma HolderPids(s: State, id: int)
    requires Between(s) && 0 <= id < MUTEX_MAX && 0 <= s.mutexes[id].owner < PROC_MAX
    requires s.procs[s.mutexes[id].owner].state != NONE
    ensures s.procs[s.mutexes[id].owner].pid == ActivePid(s) <==> s.mutexes[id].owner == s.active
  {
  }

  lemma HolderLaw(s: State, id: int)
    requires Between(s) && 0 <= id < MUTEX_MAX
    ensures var m := s.mutexes[id];
      if m.owner == NULL then m.locks == 0 && m.wait == []
      else m.isAllocated && m.locks == 1 + |m.wait| && 0 <= m.owner < PROC_MAX
    ensures s.mutexes[id].owner != NULL ==> s.mutexFree == [] || s.mutexFree[0] != id
  {
    assert MutexLaw(s.mutexes[id]);
    if s.mutexFree != [] { MutexesTake(s.mutexes, s.mutexFree, Mutex(true, 0, NULL, [])); }
  }

  lemma OtherOwned(s: State, ev: Event, id: int, holders: multiset<int>)
    requires Between(s) && 0 <= id < MUTEX_MAX && s.mutexes[id].owner != NULL && !Calls(ev, SYS_MUTEX_UNLOCK, id)
    ensures s.mutexFree == [] || s.mutexFree[0] != id
    ensures MutexAfter(s, ev, id).owner == s.mutexes[id].owner
    ensures Regrant(s.mutexes[id], MutexAfter(s, ev, id), ev, id, ActivePid(s), holders) == holders
  {
    HolderLaw(s, id);
    hide Inv, PidToProc, ConsoleOk, IoOk;
  }

  lemma OtherFree(s: State, ev: Event, id: int)
    requires Between(s) && 0 <= id < MUTEX_MAX && s.mutexes[id].owner == NULL
    requires !(ev.Syscall? && ev.frame.eax == SYS_MUTEX_INIT && s.mutexFree != [] && s.mutexFree[0] == id)
    ensures var m, m' := s.mutexes[id], MutexAfter(s, ev, id);
      var left := Regrant(m, m', ev, id, ActivePid(s), multiset{});
      (m'.owner == NULL && left == multiset{}) || (m'.owner == s.active && left == multiset{ActivePid(s)})
  {
    HolderLaw(s, id);
    var none: multiset<int> := multiset{};
    assert none - multiset{ActivePid(s)} + none == none && none + multiset{ActivePid(s)} == multiset{ActivePid(s)};
    hide Inv, PidToProc, ConsoleOk, IoOk;
  }

  // Anything else keeps owner and holders, or makes the caller both.
  lemma HeldOrTaken(s: State, ev: Event, id: int, holders: multiset<int>)
    requires Between(s) && Enabled(s, ev) && 0 <= id < MUTEX_MAX
    requires Exclusive(s, id, holders) && !(Calls(ev, SYS_MUTEX_UNLOCK, id) && s.mutexes[id].owner != NULL)
    ensures Between(Step(s, ev))
    ensures var owner, owner' := s.mutexes[id].owner, Step(s, ev).mutexes[id].owner;
      || (owner' == owner && HoldersAfter(s, ev, id, holders) == holders)
      || (owner == NULL && owner' == s.active && !Exits(s, ev) && HoldersAfter(s, ev, id, holders) == multiset{ActivePid(s)})
    ensures NULL <= s.mutexes[id].owner < PROC_MAX
  {
    HolderLaw(s, id);
    hide TableOk, Located, SlotsOk, CpuOk, MutexesOk, SemsOk, CallOk, Step, Regrant, MutexLaw;
    var init := ev.Syscall? && ev.frame.eax == SYS_MUTEX_INIT && s.mutexFree != [] && s.mutexFree[0] == id;
    if s.mutexes[id].owner != NULL {
      OtherOwned(s, ev, id, holders);
    } else if init {
      assert MutexAfter(s, ev, id).owner == NULL;
    } else {
      OtherFree(s, ev, id);
    }
    hide Exclusive;
    StepMutex(s, ev, id);
    if Exits(s, ev) { ExitsNoLock(s, ev, id); }
    hide MutexAfter;
  }

  lemma ExitsNoLock(s: State, ev: Event, id: int)
    requires Between(s) && 0 <= id < MUTEX_MAX && Exits(s, ev)
    ensures MutexAfter(s, ev, id) == s.mutexes[id]
  {
  }

  lemma ExclusionOther(s: State, ev: Event, id: int, holders: multiset<int>)
    requires Between(s) && Enabled(s, ev) && 0 <= id < MUTEX_MAX
    requires Exclusive(s, id, holders) && !(Calls(ev, SYS_MUTEX_UNLOCK, id) && s.mutexes[id].owner != NULL)
    ensures Between(Step(s, ev))
    ensures Exclusive(Step(s, ev), id, HoldersAfter(s, ev, id, holders))
      <==> !(Exits(s, ev) && s.mutexes[id].owner == s.active)
  {
    HeldOrTaken(s, ev, id, holders);
    StepEntry(s, ev, s.active);
    if s.mutexes[id].owner != NULL { StepEntry(s, ev, s.mutexes[id].owner); }
    hide TableOk, Located, SlotsOk, CpuOk, MutexesOk, SemsOk, CallOk, Step, HoldersAfter, ConsoleOk, IoOk;
  }

  // One interrupt keeps mutual exclusion exactly when its caller is disciplined.
  lemma ExclusionStep(s: State, ev: Event, id: int, holders: multiset<int>)
    requires Between(s) && Enabled(s, ev) && 0 <= id < MUTEX_MAX
    requires Exclusive(s, id, holders)
    ensures Between(Step(s, ev))
    ensures Exclusive(Step(s, ev), id, HoldersAfter(s, ev, id, holders)) <==> Disciplined(s, ev, id)
  {
    hide TableOk, Located, SlotsOk, CpuOk, MutexesOk, SemsOk, CallOk, Step, HoldersAfter;
    if Calls(ev, SYS_MUTEX_UNLOCK, id) && s.mutexes[id].owner != NULL {
      ExclusionUnlock(s, ev, id, holders);
    } else {
      ExclusionOther(s, ev, id, holders);
    }
  }

  ghost predicate DisciplinedRun(s: State, es: seq<Event>, id: int)
    requires Between(s) && CanRun(s, es) && 0 <= id < MUTEX_MAX
    decreases |es|
  {
    es != [] ==> Disciplined(s, es[0], id) && (StepKeeps(s, es[0]); DisciplinedRun(Step(s, es[0]), es[1..], id))
  }

  ghost function HoldersRun(s: State, es: seq<Event>, id: int, holders: multiset<int>): multiset<int>
    requires Between(s) && CanRun(s, es) && 0 <= id < MUTEX_MAX
    decreases |es|
  {
    if es == [] then holders
    else
      StepKeeps(s, es[0]);
      HoldersRun(Step(s, es[0]), es[1..], id, HoldersAfter(s, es[0], id, holders))
  }

  // In every disciplined run at most one process holds the mutex, and it is the recorded owner.
  lemma {:induction false} MutualExclusion(s: State, es: seq<Event>, id: int, holders: multiset<int>)
    requires Between(s) && CanRun(s, es) && 0 <= id < MUTEX_MAX
    requires Exclusive(s, id, holders) && DisciplinedRun(s, es, id)
    ensures Exclusive(Run(s, es), id, HoldersRun(s, es, id, holders))
    decreases |es|
  {
    hide TableOk, Located, SlotsOk, CpuOk, MutexesOk, SemsOk, CallOk, Step, Exclusive, Disciplined, HoldersAfter;
    if es != [] {
      ExclusionStep(s, es[0], id, holders);
      MutualExclusion(Step(s, es[0]), es[1..], id, HoldersAfter(s, es[0], id, holders));
    }
  }
}
