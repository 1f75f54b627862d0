/** Every handler keeps the invariant, hence so does every interrupt and every run of them. */
module Preservation {
  import opened Screen
  import opened Machine
  import opened Invariant

  // ---- Scheduler ----

  // The active process steps out of the processor and into one of the sleep or wait queues.
  lemma ActiveLeaves(s: State)
    requires Inv(s) && s.active != NULL && s.procs[s.active].pid != 0
    ensures SchedulerRemove(s, s.active) == s.(active := NULL)
  {
    ActiveElsewhereNot(s);
    WithoutAbsent(s.runQ, s.procs[s.active].pid);
    WithoutAbsent(s.sleepQ, s.procs[s.active].pid);
  }

  lemma SleepIs(s: State, seconds: int)
    requires Inv(s) && s.active != NULL && s.procs[s.active].pid != 0
    ensures |s.sleepQ| < PROC_MAX
    ensures var p := s.procs[s.active];
      SchedulerSleep(s, s.active, seconds) == s.(
        procs := s.procs[s.active := p.(sleepTime := TICKS_PER_SECOND * seconds, state := SLEEPING)],
        sleepQ := s.sleepQ + [p.pid], active := NULL)
  {
    ActiveElsewhereNot(s);
    QueueFits(s, s.sleepQ);
  }

  lemma SleepKeeps(s: State, seconds: int)
    requires Between(s) && s.procs[s.active].pid != 0
    ensures Inv(SchedulerSleep(s, s.active, seconds))
  {
    SleepIs(s, seconds);
    Reassemble(s, SchedulerSleep(s, s.active, seconds));
  }

  lemma WithoutBag(q: seq<int>, item: int)
    requires item in q
    ensures multiset(Without(q, item)) == multiset(q) - multiset{item}
  {
    var k := IndexOf(q, item);
    assert q == q[..k] + [item] + q[k + 1..];
  }

  // Any live process can be put to sleep. Ready, running or asleep before, it is last in the sleep queue
  // then and in no other place; one that waits for a lock stays where it is.
  lemma SleepPlaces(s: State, e: int, seconds: int)
    requires Inv(s) && 0 <= e < PROC_MAX && s.procs[e].state != NONE && s.procs[e].pid != 0
    ensures var s' := SchedulerSleep(s, e, seconds); var pid := s.procs[e].pid;
      && pid !in s'.runQ && multiset(s'.runQ) == multiset(s.runQ) - multiset{pid}
      && (if pid in s.runQ || pid in s.sleepQ || e == s.active then
            multiset(s'.sleepQ) == multiset(s.sleepQ) - multiset{pid} + multiset{pid} && PutLast(s'.sleepQ, pid)
          else s'.sleepQ == s.sleepQ)
      && s'.active == if e == s.active then NULL else s.active
  {
    var pid := s.procs[e].pid;
    QueueFits(s, s.sleepQ);
    PlaceOnce(s, pid);
    if e == s.active { ActiveElsewhereNot(s); }
    OneOfThree(s, e);
    hide Inv, PutLast;
    SleepMoves(s, e, seconds);
    hide SchedulerSleep;
  }

  predicate PutLast(q: seq<int>, pid: int) {
    q != [] && q[|q| - 1] == pid
  }

  lemma OneOfThree(s: State, e: int)
    requires Inv(s) && 0 <= e < PROC_MAX && s.procs[e].state != NONE && s.procs[e].pid != 0
    ensures var pid := s.procs[e].pid;
      multiset(s.runQ)[pid] + multiset(s.sleepQ)[pid] + (if e == s.active then 1 else 0) <= 1
  {
    PlaceOnce(s, s.procs[e].pid);
    hide TableOk, SlotsOk, CpuOk, MutexesOk, SemsOk, ConsoleOk, IoOk, Located, LivePids, Waiting;
  }

  lemma SleepMoves(s: State, e: int, seconds: int)
    requires Shaped(s) && 0 <= e < PROC_MAX && |s.sleepQ| < PROC_MAX
    requires var pid := s.procs[e].pid;
      multiset(s.runQ)[pid] + multiset(s.sleepQ)[pid] + (if e == s.active then 1 else 0) <= 1
    ensures var s' := SchedulerSleep(s, e, seconds); var pid := s.procs[e].pid;
      && multiset(s'.runQ) == multiset(s.runQ) - multiset{pid}
      && (if pid in s.runQ || pid in s.sleepQ || e == s.active then
            multiset(s'.sleepQ) == multiset(s.sleepQ) - multiset{pid} + multiset{pid} && PutLast(s'.sleepQ, pid)
          else s'.sleepQ == s.sleepQ)
      && s'.active == if e == s.active then NULL else s.active
  {
    hide ConsoleOk, IoOk, Without;
    var pid := s.procs[e].pid;
    if pid in s.runQ {
      WithoutBag(s.runQ, pid);
      EnqueueLast(s.sleepQ, pid);
    } else if e == s.active {
      EnqueueLast(s.sleepQ, pid);
    } else if pid in s.sleepQ {
      WithoutBag(s.sleepQ, pid);
      assert |Without(s.sleepQ, pid)| == |multiset(Without(s.sleepQ, pid))|;
      EnqueueLast(Without(s.sleepQ, pid), pid);
    }
    hide Enqueue, PutLast;
    assert pid !in s.runQ ==> multiset(s.runQ) - multiset{pid} == multiset(s.runQ);
    assert pid !in s.sleepQ ==> multiset(s.sleepQ) - multiset{pid} == multiset(s.sleepQ);
  }

  lemma EnqueueLast(q: seq<int>, pid: int)
    requires |q| < PROC_MAX
    ensures multiset(Enqueue(q, pid)) == multiset(q) + multiset{pid} && PutLast(Enqueue(q, pid), pid)
  {
  }

  // Removing a process takes its pid out of both queues, and off the processor.
  lemma RemovePlaces(s: State, e: int)
    requires Shaped(s) && 0 <= e < PROC_MAX
    ensures var s' := SchedulerRemove(s, e); var pid := s.procs[e].pid;
      && multiset(s'.runQ) == multiset(s.runQ) - multiset{pid}
      && multiset(s'.sleepQ) == multiset(s.sleepQ) - multiset{pid}
      && (s'.active == NULL <==> s.active == NULL || s.procs[s.active].pid == pid)
      && (s'.active != NULL ==> s'.active == s.active)
      && s' == s.(runQ := s'.runQ, sleepQ := s'.sleepQ, active := s'.active)
  {
    hide ConsoleOk, IoOk, Without;
    var pid := s.procs[e].pid;
    if pid in s.runQ { WithoutBag(s.runQ, pid); } else { WithoutAbsent(s.runQ, pid); }
    if pid in s.sleepQ { WithoutBag(s.sleepQ, pid); } else { WithoutAbsent(s.sleepQ, pid); }
    assert pid !in s.runQ ==> multiset(s.runQ) - multiset{pid} == multiset(s.runQ);
    assert pid !in s.sleepQ ==> multiset(s.sleepQ) - multiset{pid} == multiset(s.sleepQ);
  }

  lemma {:induction false} ExpiredSplit(procs: seq<Proc>, q: seq<int>)
    ensures multiset(q) == multiset(Expired(procs, q)) + multiset(StillAsleep(procs, q))
  {
    if q != [] {
      ExpiredSplit(procs, q[1..]);
      assert q == [q[0]] + q[1..];
    }
  }

  lemma WakeBag(s: State)
    requires Shaped(s)
    ensures var s' := WakeSleepers(s);
      multiset(s'.runQ) + multiset(s'.sleepQ) == multiset(s.runQ) + multiset(s.sleepQ)
  {
    var q := s.sleepQ;
    var v := Visited(s);
    ExpiredSplit(s.procs, q[..v]);
    assert q == q[..v] + q[v..];
  }

  lemma DecrementKeeps(procs: seq<Proc>, q: seq<int>, active: int)
    requires CpuOk(procs, active)
    ensures SamePids(procs, Decrement(procs, q)) && CpuOk(Decrement(procs, q), active)
  {
  }

  lemma WakeKeeps(s: State)
    requires Inv(s)
    ensures Inv(WakeSleepers(s))
  {
    var s' := WakeSleepers(s);
    WakeBag(s);
    DecrementKeeps(s.procs, s.sleepQ[..Visited(s)], s.active);
    assert ActiveBag(s'.procs, s'.active) == ActiveBag(s.procs, s.active);
    Reassemble(s, s');
  }

  lemma ChargeKeeps(s: State)
    requires Between(s)
    ensures Inv(ChargeActive(s))
  {
    Reassemble(s, ChargeActive(s));
  }

  lemma PreemptPlaces(s: State)
    requires Inv(s) && s.active != NULL
    ensures Places(Preempt(s)) == Places(s)
  {
    hide SlotsOk, CpuOk, MutexesOk, SemsOk, Waiting;
    QueueFits(s, s.runQ);
  }

  lemma PreemptKeeps(s: State)
    requires Inv(s)
    ensures Inv(Preempt(s))
    ensures var s' := Preempt(s); s'.active != NULL ==> Between(s')
  {
    if s.active != NULL && s.procs[s.active].cpuTime >= SCHEDULER_TIMESLICE {
      PreemptPlaces(s);
      hide Places, Located, SlotsOk, MutexesOk, SemsOk, Enqueue;
      Reassemble(s, Preempt(s));
    }
  }

  lemma DispatchHead(s: State)
    requires Inv(s) && s.active == NULL
    ensures s.runQ == [] ==> Dispatch(s).active == 0
    ensures s.runQ != [] ==>
      var s' := Dispatch(s); s'.active > 0 && s'.procs[s'.active].pid == s.runQ[0] > 0 && s'.runQ == s.runQ[1..]
    ensures var s' := Dispatch(s); s'.procs[s'.active].state != NONE
  {
    if s.runQ == [] {
      LookupEntry(s.procs, s.nextPid, 0);
    } else {
      PlaceOnce(s, s.runQ[0]);
      LookupPid(s.procs, s.nextPid, s.runQ[0]);
    }
  }

  lemma DispatchKeeps(s: State)
    requires Inv(s) && (s.active != NULL ==> Between(s))
    ensures Between(Dispatch(s))
  {
    if s.active == NULL {
      DispatchHead(s);
      if s.runQ != [] {
        assert s.runQ == [s.runQ[0]] + s.runQ[1..];
      }
      Reassemble(s, Dispatch(s));
    }
  }

  lemma ActivateKeeps(s: State)
    requires Between(s)
    ensures Between(s.(procs := SetState(s.procs, s.active, ACTIVE)))
  {
    Reassemble(s, s.(procs := SetState(s.procs, s.active, ACTIVE)));
  }

  lemma RunKeeps(s: State)
    requires Inv(s)
    ensures Between(SchedulerRun(s))
  {
    PreemptKeeps(s);
    DispatchKeeps(Preempt(s));
    ActivateKeeps(Dispatch(Preempt(s)));
  }

  // ---- Processes ----

  lemma BagAdd(ids: set<int>, x: int)
    requires x !in ids
    ensures multiset(ids + {x}) == multiset(ids) + multiset{x}
  {
  }

  lemma BagDrop(ids: set<int>, x: int)
    requires x in ids
    ensures multiset(ids - {x}) == multiset(ids) - multiset{x}
  {
  }

  lemma FreeSlot(s: State)
    requires Inv(s) && s.procFree != []
    ensures 0 < s.procFree[0] < PROC_MAX && s.procs[s.procFree[0]].state == NONE
    ensures multiset(s.procFree[1..]) == multiset(s.procFree) - multiset{s.procFree[0]}
  {
    assert s.procFree[0] in multiset(s.procFree);
    assert s.procFree == [s.procFree[0]] + s.procFree[1..];
  }

  function NewProc(s: State, entry: int, stack: Frame): Proc {
    Proc(s.nextPid, IDLE, s.ticks, 0, 0, 0, NO_IO, stack.(eip := entry))
  }

  lemma CreateIs(s: State, entry: int, stack: Frame)
    requires Inv(s) && s.procFree != []
    ensures |s.runQ| < PROC_MAX
    ensures var e := s.procFree[0];
      0 < e < PROC_MAX && s.procs[e].state == NONE && e != s.active &&
      KprocCreate(s, entry, stack) == (s.(
        procs := s.procs[e := NewProc(s, entry, stack)],
        procFree := s.procFree[1..], nextPid := s.nextPid + 1, runQ := s.runQ + [s.nextPid]), s.nextPid)
  {
    hide SlotsOk, CpuOk, MutexesOk, SemsOk;
    FreeSlot(s);
    RunQueueFits(s);
    hide Inv, TableOk, Located, ConsoleOk, IoOk;
    var e := s.procFree[0];
    var procs := s.procs[e := NewProc(s, entry, stack)];
    assert SetState(procs, e, IDLE) == procs;
  }

  lemma LivePidsAdd(procs: seq<Proc>, e: int, p: Proc)
    requires 0 <= e < |procs| && procs[e].state == NONE && p.state != NONE && p.pid > 0
    ensures LivePids(procs[e := p]) == LivePids(procs) + {p.pid}
    ensures FreeSlots(procs[e := p]) == FreeSlots(procs) - {e}
  {
    var procs' := procs[e := p];
    assert procs'[e].pid in LivePids(procs');
    forall pid | pid in LivePids(procs) ensures pid in LivePids(procs') {
      var d :| 0 <= d < |procs| && procs[d].state != NONE && procs[d].pid > 0 && procs[d].pid == pid;
      assert procs'[d] == procs[d];
    }
  }

  lemma TableAdd(procs: seq<Proc>, nextPid: int, e: int, p: Proc)
    requires |procs| == PROC_MAX && TableOk(procs, nextPid)
    requires 0 < e < PROC_MAX && procs[e].state == NONE && p.state != NONE && p.pid == nextPid
    ensures TableOk(procs[e := p], nextPid + 1)
    ensures nextPid !in LivePids(procs)
  {
  }

  lemma CreatePlaces(s: State, entry: int, stack: Frame)
    requires Inv(s) && s.procFree != []
    ensures Located(KprocCreate(s, entry, stack).0)
  {
    hide SlotsOk, CpuOk, MutexesOk, SemsOk, Waiting;
    CreateIs(s, entry, stack);
    var e := s.procFree[0];
    var p := NewProc(s, entry, stack);
    TableAdd(s.procs, s.nextPid, e, p);
    LivePidsAdd(s.procs, e, p);
    BagAdd(LivePids(s.procs), p.pid);
    hide TableOk, LivePids, KprocCreate;
    var s' := KprocCreate(s, entry, stack).0;
    assert ActiveBag(s'.procs, s'.active) == ActiveBag(s.procs, s.active);
    assert Places(s') == Places(s) + multiset{p.pid};
  }

  lemma CreateSlots(s: State, entry: int, stack: Frame)
    requires Inv(s) && s.procFree != []
    ensures SlotsOk(KprocCreate(s, entry, stack).0.procs, KprocCreate(s, entry, stack).0.procFree)
  {
    var e := s.procFree[0];
    CreateIs(s, entry, stack);
    FreeSlot(s);
    hide Located, MutexesOk, SemsOk, CpuOk, KprocCreate;
    LivePidsAdd(s.procs, e, NewProc(s, entry, stack));
    BagDrop(FreeSlots(s.procs), e);
  }

  lemma CreateKeeps(s: State, entry: int, stack: Frame)
    requires Inv(s)
    ensures Inv(KprocCreate(s, entry, stack).0)
    ensures Between(s) ==> Between(KprocCreate(s, entry, stack).0)
  {
    if s.procFree != [] {
      CreateIs(s, entry, stack);
      CreatePlaces(s, entry, stack);
      CreateSlots(s, entry, stack);
      TableAdd(s.procs, s.nextPid, s.procFree[0], NewProc(s, entry, stack));
      hide Located, MutexesOk, SemsOk, TableOk, SlotsOk, KprocCreate;
    }
  }

  lemma {:induction false} IdsBelow(ids: set<int>, n: nat)
    requires forall i :: i in ids ==> 0 <= i < n
    ensures |ids| <= n
  {
    if n > 0 {
      IdsBelow(ids - {n - 1}, n - 1);
    } else {
      assert forall i :: i !in ids;
    }
  }

  // A duplicate-free list of ids below n is no longer than n.
  lemma IdsFit(free: seq<int>, ids: set<int>, n: nat)
    requires multiset(free) == multiset(ids)
    requires forall i :: i in ids ==> 0 <= i < n
    ensures |free| <= n
  {
    IdsBelow(ids, n);
    assert |multiset(free)| == |ids|;
  }

  lemma DestroyIs(s: State)
    requires Inv(s) && s.active != NULL && s.procs[s.active].pid != 0
    ensures KprocDestroy(s, s.active) ==
      (s.(procs := s.procs[s.active := FREE_PROC], procFree := s.procFree + [s.active], active := NULL), 0)
  {
    ActiveLeaves(s);
    IdsFit(s.procFree, FreeSlots(s.procs), PROC_MAX);
  }

  lemma LivePidsDrop(procs: seq<Proc>, e: int)
    requires 0 <= e < |procs| && procs[e].state != NONE && procs[e].pid > 0
    requires forall d :: 0 <= d < |procs| && d != e && procs[d].state != NONE ==> procs[d].pid != procs[e].pid
    ensures procs[e].pid in LivePids(procs)
    ensures LivePids(procs[e := FREE_PROC]) == LivePids(procs) - {procs[e].pid}
    ensures FreeSlots(procs[e := FREE_PROC]) == FreeSlots(procs) + {e}
  {
    var procs' := procs[e := FREE_PROC];
    forall pid | pid in LivePids(procs) && pid != procs[e].pid ensures pid in LivePids(procs') {
      var d :| 0 <= d < |procs| && procs[d].state != NONE && procs[d].pid > 0 && procs[d].pid == pid;
      assert procs'[d] == procs[d];
    }
  }

  lemma TableDrop(procs: seq<Proc>, nextPid: int, e: int)
    requires |procs| == PROC_MAX && TableOk(procs, nextPid) && 0 < e < PROC_MAX
    ensures TableOk(procs[e := FREE_PROC], nextPid)
  {
  }

  lemma DestroyPlaces(s: State)
    requires Inv(s) && s.active != NULL && s.procs[s.active].pid != 0
    ensures Located(KprocDestroy(s, s.active).0)
  {
    var pid := s.procs[s.active].pid;
    DestroyIs(s);
    LivePidsDrop(s.procs, s.active);
    BagDrop(LivePids(s.procs), pid);
    var s' := KprocDestroy(s, s.active).0;
    assert ActiveBag(s.procs, s.active) == multiset{pid};
    assert Places(s') == Places(s) - multiset{pid};
  }

  lemma DestroyKeeps(s: State)
    requires Inv(s) && s.active != NULL
    ensures Inv(KprocDestroy(s, s.active).0)
  {
    var e := s.active;
    if s.procs[e].pid != 0 {
      DestroyIs(s);
      DestroyPlaces(s);
      LivePidsDrop(s.procs, e);
      TableDrop(s.procs, s.nextPid, e);
      BagAdd(FreeSlots(s.procs), e);
    }
  }

  // ---- Mutexes ----

  lemma MutexesSame(ms: seq<Mutex>, free: seq<int>, i: int, m: Mutex)
    requires MutexesOk(ms, free) && 0 <= i < |ms| && MutexLaw(m) && m.isAllocated == ms[i].isAllocated
    ensures MutexesOk(ms[i := m], free)
  {
    assert FreeMutexes(ms[i := m]) == FreeMutexes(ms);
  }

  lemma MutexesRelease(ms: seq<Mutex>, free: seq<int>, i: int, m: Mutex)
    requires MutexesOk(ms, free) && 0 <= i < |ms| && MutexLaw(m) && ms[i].isAllocated && !m.isAllocated
    ensures MutexesOk(ms[i := m], free + [i])
  {
    assert FreeMutexes(ms[i := m]) == FreeMutexes(ms) + {i};
    BagAdd(FreeMutexes(ms), i);
  }

  lemma MutexesTake(ms: seq<Mutex>, free: seq<int>, m: Mutex)
    requires MutexesOk(ms, free) && free != [] && MutexLaw(m) && m.isAllocated
    ensures 0 <= free[0] < |ms| && !ms[free[0]].isAllocated
    ensures MutexesOk(ms[free[0] := m], free[1..])
  {
    var i := free[0];
    assert i in multiset(free);
    assert free == [i] + free[1..];
    assert FreeMutexes(ms[i := m]) == FreeMutexes(ms) - {i};
    BagDrop(FreeMutexes(ms), i);
  }

  lemma MutexInitKeeps(s: State)
    requires Inv(s)
    ensures Inv(KmutexInit(s).0)
  {
    if s.mutexFree != [] {
      var m := Mutex(true, 0, NULL, []);
      MutexesTake(s.mutexes, s.mutexFree, m);
      MutexBagSame(s.mutexes, s.mutexFree[0], m);
      Reassemble(s, KmutexInit(s).0);
    }
  }

  lemma MutexDestroyKeeps(s: State, id: int)
    requires Inv(s)
    ensures Inv(KmutexDestroy(s, id).0)
  {
    if MutexReady(s, id) && s.mutexes[id].locks == 0 {
      var m := s.mutexes[id].(isAllocated := false);
      IdsFit(s.mutexFree, FreeMutexes(s.mutexes), MUTEX_MAX);
      MutexBagSame(s.mutexes, id, m);
      MutexesRelease(s.mutexes, s.mutexFree, id, m);
      Reassemble(s, KmutexDestroy(s, id).0);
    }
  }

  // A contended lock: the caller goes to the tail of the wait queue.
  lemma LockBlocks(s: State, id: int)
    requires Inv(s) && s.active != NULL && s.procs[s.active].pid != 0
    requires MutexReady(s, id) && s.mutexes[id].locks > 0
    ensures |s.mutexes[id].wait| < PROC_MAX
    ensures var m := s.mutexes[id];
      KmutexLock(s, id) == (s.(
        mutexes := s.mutexes[id := m.(locks := m.locks + 1, wait := m.wait + [s.procs[s.active].pid])],
        procs := SetState(s.procs, s.active, WAITING), active := NULL), m.locks + 1)
  {
    var m := s.mutexes[id];
    ActiveElsewhereNot(s);
    WithoutAbsent(s.runQ, s.procs[s.active].pid);
    WithoutAbsent(s.sleepQ, s.procs[s.active].pid);
    MutexBagUpdate(s.mutexes, id, m);
    QueueFits(s, m.wait);
  }

  lemma LockBlockedKeeps(s: State, id: int)
    requires Between(s) && s.procs[s.active].pid != 0 && MutexReady(s, id) && s.mutexes[id].locks > 0
    ensures Inv(KmutexLock(s, id).0)
  {
    var m := s.mutexes[id];
    var pid := s.procs[s.active].pid;
    var m' := m.(locks := m.locks + 1, wait := m.wait + [pid]);
    LockBlocks(s, id);
    MutexBagPush(s.mutexes, id, m', pid);
    MutexesSame(s.mutexes, s.mutexFree, id, m');
    hide KmutexLock, TableOk, Located, SlotsOk, MutexesOk, SemsOk, MutexBag, SemBag;
    Reassemble(s, KmutexLock(s, id).0);
  }

  // A change in one mutex in use that nobody waits for more or less than before.
  lemma OneMutexKeeps(s: State, id: int, m: Mutex)
    requires Inv(s) && 0 <= id < MUTEX_MAX && MutexLaw(m)
    requires m.wait == s.mutexes[id].wait && m.isAllocated == s.mutexes[id].isAllocated
    ensures Inv(s.(mutexes := s.mutexes[id := m]))
  {
    hide TableOk, Located, SlotsOk, CpuOk, SemsOk;
    MutexBagSame(s.mutexes, id, m);
    MutexesSame(s.mutexes, s.mutexFree, id, m);
    hide MutexesOk, MutexBag;
    Reassemble(s, s.(mutexes := s.mutexes[id := m]));
  }

  lemma LockKeeps(s: State, id: int)
    requires Between(s) && s.procs[s.active].pid != 0
    ensures Inv(KmutexLock(s, id).0)
  {
    if MutexReady(s, id) {
      if s.mutexes[id].locks > 0 {
        hide KmutexLock, Inv;
        LockBlockedKeeps(s, id);
      } else {
        assert MutexLaw(s.mutexes[id]);
        hide Inv;
        var m := s.mutexes[id].(locks := s.mutexes[id].locks + 1, owner := s.active);
        assert KmutexLock(s, id).0 == s.(mutexes := s.mutexes[id := m]);
        hide KmutexLock;
        OneMutexKeeps(s, id, m);
      }
    }
  }

  // Whoever heads a wait queue is a live process other than the active one.
  lemma WaiterLive(s: State, q: seq<int>)
    requires Inv(s) && q != []
    requires multiset(q) <= Waiting(s.mutexes, s.sems)
    ensures q[0] in LivePids(s.procs)
    ensures var e := PidToProc(s.procs, q[0]);
      e > 0 && s.procs[e].pid == q[0] && s.procs[e].state != NONE && e != s.active
    ensures |s.runQ| < PROC_MAX
  {
    PlaceOnce(s, q[0]);
    assert q[0] in multiset(q);
    LookupPid(s.procs, s.nextPid, q[0]);
    QueueFits(s, s.runQ);
  }

  lemma BagMoves(a: multiset<int>, r: multiset<int>, s: multiset<int>, w: multiset<int>, x: int)
    requires x in w
    ensures a + ((r + multiset{x}) + s) + (w - multiset{x}) == a + (r + s) + w
  {
  }

  function Released(s: State, pid: int, ms: seq<Mutex>, sems: seq<Sem>): State
    requires 0 <= PidToProc(s.procs, pid)
  {
    s.(mutexes := ms, sems := sems, runQ := s.runQ + [pid], procs := SetState(s.procs, PidToProc(s.procs, pid), IDLE))
  }

  lemma ReleasePlaces(s: State, pid: int, ms: seq<Mutex>, sems: seq<Sem>)
    requires Shaped(s) && |ms| == MUTEX_MAX && |sems| == SEM_MAX
    requires 0 <= PidToProc(s.procs, pid) && pid in Waiting(s.mutexes, s.sems)
    requires Waiting(ms, sems) == Waiting(s.mutexes, s.sems) - multiset{pid}
    ensures Places(Released(s, pid, ms, sems)) == Places(s)
  {
    hide PidToProc, Waiting, ConsoleOk, IoOk;
    var s' := Released(s, pid, ms, sems);
    assert ActiveBag(s'.procs, s'.active) == ActiveBag(s.procs, s.active);
    hide ActiveBag;
    BagMoves(ActiveBag(s.procs, s.active), multiset(s.runQ), multiset(s.sleepQ), Waiting(s.mutexes, s.sems), pid);
  }

  // Moving the head of a wait queue to the tail of the run queue.
  lemma ReleaseKeeps(s: State, q: seq<int>, ms: seq<Mutex>, sems: seq<Sem>)
    requires Inv(s) && q != []
    requires multiset(q) <= Waiting(s.mutexes, s.sems)
    requires |ms| == MUTEX_MAX && MutexesOk(ms, s.mutexFree)
    requires |sems| == SEM_MAX && SemsOk(sems, s.semFree)
    requires Waiting(ms, sems) == Waiting(s.mutexes, s.sems) - multiset{q[0]}
    ensures 0 < PidToProc(s.procs, q[0]) && Inv(Released(s, q[0], ms, sems))
  {
    WaiterLive(s, q);
    assert q[0] in multiset(q);
    ReleasePlaces(s, q[0], ms, sems);
    hide TableOk, Located, SlotsOk, MutexesOk, SemsOk, PidToProc, Waiting, LivePids, Places, ActiveBag;
    Reassemble(s, Released(s, q[0], ms, sems));
  }

  lemma MutexWaiter(s: State, id: int)
    requires Inv(s) && 0 <= id < MUTEX_MAX && s.mutexes[id].wait != []
    ensures var pid := s.mutexes[id].wait[0]; var e := PidToProc(s.procs, pid);
      pid in LivePids(s.procs) && e > 0 && s.procs[e].pid == pid && s.procs[e].state != NONE && e != s.active
    ensures |s.runQ| < PROC_MAX && multiset(s.mutexes[id].wait) <= Waiting(s.mutexes, s.sems)
  {
    hide TableOk, Located, SlotsOk, CpuOk, MutexesOk, SemsOk, LivePids, PidToProc;
    MutexBagUpdate(s.mutexes, id, s.mutexes[id]);
    WaiterLive(s, s.mutexes[id].wait);
  }

  // A contended unlock: the longest waiter owns the mutex and is ready to run.
  lemma UnlockHandsOver(s: State, id: int)
    requires Inv(s) && MutexReady(s, id) && s.mutexes[id].locks > 1
    ensures |s.runQ| < PROC_MAX
    ensures var m := s.mutexes[id];
      m.wait != [] && m.wait[0] in LivePids(s.procs) &&
      var e := PidToProc(s.procs, m.wait[0]);
      e > 0 && s.procs[e].pid == m.wait[0] && s.procs[e].state != NONE && e != s.active &&
      KmutexUnlock(s, id) == (s.(
        mutexes := s.mutexes[id := Mutex(true, m.locks - 1, e, m.wait[1..])],
        runQ := s.runQ + [m.wait[0]], procs := SetState(s.procs, e, IDLE)), m.locks - 1)
  {
    assert MutexLaw(s.mutexes[id]);
    hide Inv, LivePids, PidToProc, ConsoleOk, IoOk;
    MutexWaiter(s, id);
  }

  lemma HandOverKeeps(s: State, id: int)
    requires Inv(s) && MutexReady(s, id) && s.mutexes[id].locks > 1
    ensures Inv(KmutexUnlock(s, id).0)
  {
    var m := s.mutexes[id];
    UnlockHandsOver(s, id);
    var m' := Mutex(true, m.locks - 1, PidToProc(s.procs, m.wait[0]), m.wait[1..]);
    MutexWaiter(s, id);
    MutexBagPop(s.mutexes, id, m');
    MutexesSame(s.mutexes, s.mutexFree, id, m');
    ReleaseKeeps(s, m.wait, s.mutexes[id := m'], s.sems);
  }

  lemma UnlockKeeps(s: State, id: int)
    requires Inv(s)
    ensures Inv(KmutexUnlock(s, id).0)
  {
    if MutexReady(s, id) && s.mutexes[id].locks > 0 {
      if s.mutexes[id].locks > 1 {
        hide KmutexUnlock, Inv;
        HandOverKeeps(s, id);
      } else {
        assert MutexLaw(s.mutexes[id]);
        hide Inv;
        var m := s.mutexes[id].(locks := 0, owner := NULL);
        assert KmutexUnlock(s, id).0 == s.(mutexes := s.mutexes[id := m]);
        hide KmutexUnlock;
        OneMutexKeeps(s, id, m);
      }
    }
  }

  // ---- Semaphores ----

  lemma SemsSame(ms: seq<Sem>, free: seq<int>, i: int, m: Sem)
    requires SemsOk(ms, free) && 0 <= i < |ms| && SemLaw(m) && m.isAllocated == ms[i].isAllocated
    ensures SemsOk(ms[i := m], free)
  {
    assert FreeSems(ms[i := m]) == FreeSems(ms);
  }

  lemma SemsRelease(ms: seq<Sem>, free: seq<int>, i: int, m: Sem)
    requires SemsOk(ms, free) && 0 <= i < |ms| && SemLaw(m) && ms[i].isAllocated && !m.isAllocated
    ensures SemsOk(ms[i := m], free + [i])
  {
    assert FreeSems(ms[i := m]) == FreeSems(ms) + {i};
    BagAdd(FreeSems(ms), i);
  }

  lemma SemsTake(ms: seq<Sem>, free: seq<int>, m: Sem)
    requires SemsOk(ms, free) && free != [] && SemLaw(m) && m.isAllocated
    ensures 0 <= free[0] < |ms| && !ms[free[0]].isAllocated
    ensures SemsOk(ms[free[0] := m], free[1..])
  {
    var i := free[0];
    assert i in multiset(free);
    assert free == [i] + free[1..];
    assert FreeSems(ms[i := m]) == FreeSems(ms) - {i};
    BagDrop(FreeSems(ms), i);
  }

  lemma SemInitKeeps(s: State, value: int)
    requires Inv(s)
    ensures Inv(KsemInit(s, value).0)
  {
    if s.semFree != [] {
      var m := Sem(true, value, []);
      SemsTake(s.sems, s.semFree, m);
      SemBagSame(s.sems, s.semFree[0], m);
      Reassemble(s, KsemInit(s, value).0);
    }
  }

  lemma SemDestroyKeeps(s: State, id: int)
    requires Inv(s)
    ensures Inv(KsemDestroy(s, id).0)
  {
    if SemReady(s, id) && s.sems[id].count != 0 {
      var m := Sem(false, 0, []);
      IdsFit(s.semFree, FreeSems(s.sems), SEM_MAX);
      SemBagSame(s.sems, id, m);
      SemsRelease(s.sems, s.semFree, id, m);
      Reassemble(s, KsemDestroy(s, id).0);
    }
  }

  // A wait on a semaphore at zero: the caller goes to the tail of the wait queue.
  lemma WaitBlocks(s: State, id: int)
    requires Inv(s) && s.active != NULL && s.procs[s.active].pid != 0
    requires SemReady(s, id) && s.sems[id].count == 0
    ensures |s.sems[id].wait| < PROC_MAX
    ensures var m := s.sems[id];
      KsemWait(s, id) == (s.(
        sems := s.sems[id := m.(wait := m.wait + [s.procs[s.active].pid])],
        procs := SetState(s.procs, s.active, WAITING), active := NULL), 0)
  {
    var m := s.sems[id];
    ActiveElsewhereNot(s);
    WithoutAbsent(s.runQ, s.procs[s.active].pid);
    WithoutAbsent(s.sleepQ, s.procs[s.active].pid);
    SemBagUpdate(s.sems, id, m);
    QueueFits(s, m.wait);
  }

  lemma WaitBlockedKeeps(s: State, id: int)
    requires Between(s) && s.procs[s.active].pid != 0 && SemReady(s, id) && s.sems[id].count == 0
    ensures Inv(KsemWait(s, id).0)
  {
    var m := s.sems[id];
    var pid := s.procs[s.active].pid;
    var m' := m.(wait := m.wait + [pid]);
    WaitBlocks(s, id);
    SemBagPush(s.sems, id, m', pid);
    SemsSame(s.sems, s.semFree, id, m');
    hide KsemWait, TableOk, Located, SlotsOk, MutexesOk, SemsOk, MutexBag, SemBag;
    Reassemble(s, KsemWait(s, id).0);
  }

  lemma OneSemKeeps(s: State, id: int, m: Sem)
    requires Inv(s) && 0 <= id < SEM_MAX && SemLaw(m)
    requires m.wait == s.sems[id].wait && m.isAllocated == s.sems[id].isAllocated
    ensures Inv(s.(sems := s.sems[id := m]))
  {
    hide TableOk, Located, SlotsOk, CpuOk, MutexesOk;
    SemBagSame(s.sems, id, m);
    SemsSame(s.sems, s.semFree, id, m);
    hide SemsOk, SemBag;
    Reassemble(s, s.(sems := s.sems[id := m]));
  }

  lemma WaitKeeps(s: State, id: int)
    requires Between(s) && s.procs[s.active].pid != 0
    ensures Inv(KsemWait(s, id).0)
  {
    if SemReady(s, id) {
      if s.sems[id].count == 0 {
        hide KsemWait, Inv;
        WaitBlockedKeeps(s, id);
      } else {
        assert SemLaw(s.sems[id]);
        hide Inv;
        var m := s.sems[id].(count := s.sems[id].count - 1);
        assert KsemWait(s, id).0 == s.(sems := s.sems[id := m]);
        hide KsemWait;
        OneSemKeeps(s, id, m);
      }
    }
  }

  lemma SemWaiter(s: State, id: int)
    requires Inv(s) && 0 <= id < SEM_MAX && s.sems[id].wait != []
    ensures var pid := s.sems[id].wait[0]; var e := PidToProc(s.procs, pid);
      pid in LivePids(s.procs) && e > 0 && s.procs[e].pid == pid && s.procs[e].state != NONE && e != s.active
    ensures |s.runQ| < PROC_MAX && multiset(s.sems[id].wait) <= Waiting(s.mutexes, s.sems)
  {
    hide TableOk, Located, SlotsOk, CpuOk, MutexesOk, SemsOk, LivePids, PidToProc;
    SemBagUpdate(s.sems, id, s.sems[id]);
    WaiterLive(s, s.sems[id].wait);
  }

  // A post with waiters: the longest waiter is ready to run and the count stays.
  lemma PostHandsOver(s: State, id: int)
    requires Inv(s) && SemReady(s, id) && s.sems[id].wait != []
    ensures |s.runQ| < PROC_MAX
    ensures var m := s.sems[id];
      m.wait[0] in LivePids(s.procs) &&
      var e := PidToProc(s.procs, m.wait[0]);
      e > 0 && s.procs[e].pid == m.wait[0] && s.procs[e].state != NONE && e != s.active &&
      KsemPost(s, id) == (s.(
        sems := s.sems[id := m.(wait := m.wait[1..])],
        runQ := s.runQ + [m.wait[0]], procs := SetState(s.procs, e, IDLE)), m.count)
  {
    SemWaiter(s, id);
    hide Inv, LivePids, PidToProc, ConsoleOk, IoOk;
  }

  lemma PostToWaiterKeeps(s: State, id: int)
    requires Inv(s) && SemReady(s, id) && s.sems[id].wait != []
    ensures Inv(KsemPost(s, id).0)
  {
    var m := s.sems[id];
    PostHandsOver(s, id);
    var m' := m.(wait := m.wait[1..]);
    SemWaiter(s, id);
    SemBagPop(s.sems, id, m');
    SemsSame(s.sems, s.semFree, id, m');
    ReleaseKeeps(s, m.wait, s.mutexes, s.sems[id := m']);
  }

  lemma PostKeeps(s: State, id: int)
    requires Inv(s)
    ensures Inv(KsemPost(s, id).0)
  {
    if SemReady(s, id) {
      if s.sems[id].wait != [] {
        hide KsemPost, Inv;
        PostToWaiterKeeps(s, id);
      } else {
        assert Shaped(s);
        hide Inv;
        var m := s.sems[id].(count := s.sems[id].count + 1);
        assert KsemPost(s, id).0 == s.(sems := s.sems[id := m]);
        hide KsemPost;
        OneSemKeeps(s, id, m);
      }
    }
  }

  // ---- One interrupt ----

  lemma ConsoleKeeps(s: State, con: Console, ticks: int)
    requires Inv(s) && ConsoleOk(con)
    ensures Inv(s.(con := con, ticks := ticks))
    ensures Between(s) ==> Between(s.(con := con, ticks := ticks))
  {
    Reassemble(s, s.(con := con, ticks := ticks));
  }

  lemma FrameKeeps(s: State, e: int, f: Frame)
    requires Inv(s) && 0 <= e < PROC_MAX
    ensures var s' := s.(procs := s.procs[e := s.procs[e].(frame := f)]);
      Inv(s') && (Between(s) ==> Between(s'))
  {
    Reassemble(s, s.(procs := s.procs[e := s.procs[e].(frame := f)]));
  }

  lemma IoKeeps(s: State, f: Frame, mem: seq<Char>)
    requires Inv(s) && s.active != NULL && CallOk(f, mem) && SYS_IO_READ <= f.eax <= SYS_IO_FLUSH
    ensures Inv(Call(s, f, mem).0)
  {
    var s' := Call(s, f, mem).0;
    ConsoleKeeps(s, s'.con, s.ticks);
  }

  lemma CallKeeps(s: State, f: Frame, mem: seq<Char>)
    requires Between(s) && s.procs[s.active].pid != 0 && CallOk(f, mem)
    requires f.eax != SYS_EXIT && f.eax != SYS_SLEEP
    ensures Inv(Call(s, f, mem).0)
  {
    hide TableOk, Located, SlotsOk, CpuOk, MutexesOk, SemsOk;
    hide KmutexInit, KmutexDestroy, KmutexLock, KmutexUnlock, KsemInit, KsemDestroy, KsemWait, KsemPost;
    hide IoRead, IoWrite, IoFlush;
    match f.eax
    case 1 | 2 | 3 => IoKeeps(s, f, mem);
    case 10 => MutexInitKeeps(s);
    case 11 => MutexDestroyKeeps(s, f.ebx);
    case 12 => LockKeeps(s, f.ebx);
    case 13 => UnlockKeeps(s, f.ebx);
    case 14 => SemInitKeeps(s, f.ebx);
    case 15 => SemDestroyKeeps(s, f.ebx);
    case 16 => WaitKeeps(s, f.ebx);
    case 17 => PostKeeps(s, f.ebx);
    case _ =>
  }

  lemma SyscallKeeps(s: State, mem: seq<Char>)
    requires Between(s) && s.procs[s.active].pid != 0
    requires CallOk(s.procs[s.active].frame, mem)
    ensures Inv(SyscallIrq(s, mem))
  {
    var f := s.procs[s.active].frame;
    if f.eax == SYS_EXIT {
      DestroyKeeps(s);
    } else if f.eax == SYS_SLEEP {
      SleepKeeps(s, f.ebx);
    } else {
      var (s', rc) := Call(s, f, mem);
      CallKeeps(s, f, mem);
      FrameKeeps(s', s.active, s'.procs[s.active].frame.(eax := rc));
    }
  }

  lemma TimerKeeps(s: State)
    requires Between(s)
    ensures Inv(TimerIrq(s))
  {
    hide TableOk, Located, SlotsOk, CpuOk, MutexesOk, SemsOk, Refresh, ChargeActive, WakeSleepers;
    var s1 := s.(ticks := s.ticks + 1);
    var con := if s1.ticks % REFRESH_INTERVAL == 0 then Refresh(s1.con) else s.con;
    ConsoleKeeps(s, con, s1.ticks);
    var s2 := s.(con := con, ticks := s1.ticks);
    ChargeKeeps(s2);
    WakeKeeps(ChargeActive(s2));
  }

  lemma KeyboardKeeps(s: State, key: Key)
    requires Between(s)
    ensures Inv(KeyboardIrq(s, key))
  {
    hide TableOk, Located, SlotsOk, CpuOk, MutexesOk, SemsOk, KprocCreate, KprocDestroy, Select, Input;
    match key
    case NoKey =>
    case NewProcess(entry, stack) => CreateKeeps(s, entry, stack);
    case Quit => DestroyKeeps(s);
    case SelectTty(n) => ConsoleKeeps(s, Select(s.con, n), s.ticks);
    case Typed(c) => ConsoleKeeps(s, Input(s.con, c), s.ticks);
  }

  lemma HandleKeeps(s: State, ev: Event)
    requires Between(s) && Enabled(s, ev)
    ensures Inv(Handle(s, ev))
  {
    FrameKeeps(s, s.active, ev.frame);
    var s1 := SaveFrame(s, ev.frame);
    match ev
    case Tick(_) => TimerKeeps(s1);
    case Keyboard(_, key) => KeyboardKeeps(s1, key);
    case Syscall(_, mem) => SyscallKeeps(s1, mem);
  }

  lemma StepKeeps(s: State, ev: Event)
    requires Between(s) && Enabled(s, ev)
    ensures Between(Step(s, ev))
  {
    HandleKeeps(s, ev);
    RunKeeps(Handle(s, ev));
  }
}
