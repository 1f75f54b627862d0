/** What holds between any two interrupts, and why every interrupt keeps it. */
module Invariant {
  import opened Machine

  // ---- The invariant ----

  ghost function LivePids(procs: seq<Proc>): set<int> {
    set e | 0 <= e < |procs| && procs[e].state != NONE && procs[e].pid > 0 :: procs[e].pid
  }

  // Entry 0 is idle's for good; a freed entry carries pid 0 too, but live pids differ.
  ghost predicate TableOk(procs: seq<Proc>, nextPid: int)
    requires |procs| == PROC_MAX
  {
    && procs[0].pid == 0 && procs[0].state != NONE
    && 0 < nextPid
    && (forall e :: 0 < e < PROC_MAX ==>
          if procs[e].state == NONE then procs[e].pid == 0 else 0 < procs[e].pid < nextPid)
    && (forall d, e :: 0 <= d < e < PROC_MAX && procs[d].state != NONE && procs[e].state != NONE ==>
          procs[d].pid != procs[e].pid)
  }

  // The allocator holds each free entry exactly once, and nothing else.
  ghost function FreeSlots(procs: seq<Proc>): set<int> {
    set e | 0 <= e < |procs| && procs[e].state == NONE
  }

  ghost predicate SlotsOk(procs: seq<Proc>, procFree: seq<int>) {
    multiset(procFree) == multiset(FreeSlots(procs))
  }

  ghost predicate CpuOk(procs: seq<Proc>, active: int) {
    forall e :: 0 <= e < |procs| ==>
      0 <= procs[e].cpuTime <= SCHEDULER_TIMESLICE &&
      (e != active ==> procs[e].cpuTime < SCHEDULER_TIMESLICE)
  }

  // Free and unwanted, or held with everyone else who asked in the wait queue.
  predicate MutexLaw(m: Mutex) {
    || (m.locks == 0 && m.owner == NULL && m.wait == [])
    || (m.isAllocated && m.locks == 1 + |m.wait| && 0 <= m.owner < PROC_MAX)
  }

  // Processes wait only for a semaphore in use whose count is zero.
  predicate SemLaw(m: Sem) {
    m.wait != [] ==> m.isAllocated && m.count == 0
  }

  ghost function FreeMutexes(ms: seq<Mutex>): set<int> {
    set i | 0 <= i < |ms| && !ms[i].isAllocated
  }

  ghost function FreeSems(ms: seq<Sem>): set<int> {
    set i | 0 <= i < |ms| && !ms[i].isAllocated
  }

  ghost predicate MutexesOk(ms: seq<Mutex>, free: seq<int>) {
    && (forall i :: 0 <= i < |ms| ==> MutexLaw(ms[i]))
    && multiset(free) == multiset(FreeMutexes(ms))
  }

  ghost predicate SemsOk(ms: seq<Sem>, free: seq<int>) {
    && (forall i :: 0 <= i < |ms| ==> SemLaw(ms[i]))
    && multiset(free) == multiset(FreeSems(ms))
  }

  ghost function WaitBag(qs: seq<seq<int>>): multiset<int> {
    if qs == [] then multiset{} else multiset(qs[0]) + WaitBag(qs[1..])
  }

  ghost function MutexWaits(ms: seq<Mutex>): seq<seq<int>> {
    seq(|ms|, i requires 0 <= i < |ms| => ms[i].wait)
  }

  ghost function SemWaits(ms: seq<Sem>): seq<seq<int>> {
    seq(|ms|, i requires 0 <= i < |ms| => ms[i].wait)
  }

  ghost function MutexBag(ms: seq<Mutex>): multiset<int> {
    WaitBag(MutexWaits(ms))
  }

  ghost function SemBag(ms: seq<Sem>): multiset<int> {
    WaitBag(SemWaits(ms))
  }

  ghost function Waiting(ms: seq<Mutex>, sems: seq<Sem>): multiset<int> {
    MutexBag(ms) + SemBag(sems)
  }

  ghost function ActiveBag(procs: seq<Proc>, active: int): multiset<int>
    requires NULL <= active < |procs|
  {
    if active == NULL || procs[active].pid == 0 then multiset{} else multiset{procs[active].pid}
  }

  // Every place a process can be, each counted as often as it is there.
  ghost function Places(s: State): multiset<int>
    requires Shaped(s)
  {
    ActiveBag(s.procs, s.active) + (multiset(s.runQ) + multiset(s.sleepQ)) + Waiting(s.mutexes, s.sems)
  }

  // Each live process other than idle is in exactly one place; idle and the dead are in none.
  ghost predicate Located(s: State)
    requires Shaped(s)
  {
    Places(s) == multiset(LivePids(s.procs))
  }

  ghost predicate Inv(s: State) {
    && Shaped(s)
    && TableOk(s.procs, s.nextPid)
    && SlotsOk(s.procs, s.procFree)
    && CpuOk(s.procs, s.active)
    && MutexesOk(s.mutexes, s.mutexFree)
    && SemsOk(s.sems, s.semFree)
    && Located(s)
    && (s.active != NULL ==> s.procs[s.active].state != NONE)
  }

  // Between interrupts somebody runs, and has time left.
  ghost predicate Between(s: State) {
    && Inv(s)
    && s.active != NULL
    && s.procs[s.active].cpuTime < SCHEDULER_TIMESLICE
  }

  // Idle is the kernel's own endless loop: it makes no system call.
  ghost predicate Enabled(s: State, ev: Event)
    requires Shaped(s)
  {
    ev.Syscall? ==> CallOk(ev.frame, ev.mem) && s.active != NULL && s.procs[s.active].pid != 0
  }

  // ---- Multisets of places ----

  lemma {:induction false} WaitBagUpdate(qs: seq<seq<int>>, i: nat, q: seq<int>)
    requires i < |qs|
    ensures multiset(qs[i]) <= WaitBag(qs)
    ensures WaitBag(qs[i := q]) == WaitBag(qs) - multiset(qs[i]) + multiset(q)
  {
    if i == 0 {
      assert qs[0 := q][1..] == qs[1..];
    } else {
      WaitBagUpdate(qs[1..], i - 1, q);
      assert qs[i := q][1..] == qs[1..][i - 1 := q];
    }
  }

  lemma MutexBagUpdate(ms: seq<Mutex>, i: int, m: Mutex)
    requires 0 <= i < |ms|
    ensures multiset(ms[i].wait) <= MutexBag(ms)
    ensures MutexBag(ms[i := m]) == MutexBag(ms) - multiset(ms[i].wait) + multiset(m.wait)
  {
    WaitBagUpdate(MutexWaits(ms), i, m.wait);
    assert MutexWaits(ms[i := m]) == MutexWaits(ms)[i := m.wait];
  }

  lemma MutexBagSame(ms: seq<Mutex>, i: int, m: Mutex)
    requires 0 <= i < |ms| && m.wait == ms[i].wait
    ensures MutexBag(ms[i := m]) == MutexBag(ms)
  {
    MutexBagUpdate(ms, i, m);
  }

  lemma MutexBagPush(ms: seq<Mutex>, i: int, m: Mutex, pid: int)
    requires 0 <= i < |ms| && m.wait == ms[i].wait + [pid]
    ensures MutexBag(ms[i := m]) == MutexBag(ms) + multiset{pid}
  {
    MutexBagUpdate(ms, i, m);
    assert multiset(m.wait) == multiset(ms[i].wait) + multiset{pid};
  }

  lemma MutexBagPop(ms: seq<Mutex>, i: int, m: Mutex)
    requires 0 <= i < |ms| && ms[i].wait != [] && m.wait == ms[i].wait[1..]
    ensures MutexBag(ms[i := m]) == MutexBag(ms) - multiset{ms[i].wait[0]}
    ensures ms[i].wait[0] in MutexBag(ms)
  {
    MutexBagUpdate(ms, i, m);
    assert ms[i].wait == [ms[i].wait[0]] + m.wait;
    assert multiset(ms[i].wait) == multiset{ms[i].wait[0]} + multiset(m.wait);
  }

  lemma SemBagUpdate(ms: seq<Sem>, i: int, m: Sem)
    requires 0 <= i < |ms|
    ensures multiset(ms[i].wait) <= SemBag(ms)
    ensures SemBag(ms[i := m]) == SemBag(ms) - multiset(ms[i].wait) + multiset(m.wait)
  {
    WaitBagUpdate(SemWaits(ms), i, m.wait);
    assert SemWaits(ms[i := m]) == SemWaits(ms)[i := m.wait];
  }

  lemma SemBagSame(ms: seq<Sem>, i: int, m: Sem)
    requires 0 <= i < |ms| && m.wait == ms[i].wait
    ensures SemBag(ms[i := m]) == SemBag(ms)
  {
    SemBagUpdate(ms, i, m);
  }

  lemma SemBagPush(ms: seq<Sem>, i: int, m: Sem, pid: int)
    requires 0 <= i < |ms| && m.wait == ms[i].wait + [pid]
    ensures SemBag(ms[i := m]) == SemBag(ms) + multiset{pid}
  {
    SemBagUpdate(ms, i, m);
    assert multiset(m.wait) == multiset(ms[i].wait) + multiset{pid};
  }

  lemma SemBagPop(ms: seq<Sem>, i: int, m: Sem)
    requires 0 <= i < |ms| && ms[i].wait != [] && m.wait == ms[i].wait[1..]
    ensures SemBag(ms[i := m]) == SemBag(ms) - multiset{ms[i].wait[0]}
    ensures ms[i].wait[0] in SemBag(ms)
  {
    SemBagUpdate(ms, i, m);
    assert ms[i].wait == [ms[i].wait[0]] + m.wait;
    assert multiset(ms[i].wait) == multiset{ms[i].wait[0]} + multiset(m.wait);
  }

  lemma SmallerBag(a: multiset<int>, b: multiset<int>)
    requires a <= b
    ensures |a| <= |b|
  {
    assert b == a + (b - a);
  }

  ghost function PidsBelow(procs: seq<Proc>, n: nat): set<int>
    requires n <= |procs|
  {
    set e | 1 <= e < n && procs[e].state != NONE && procs[e].pid > 0 :: procs[e].pid
  }

  lemma {:induction false} PidsBelowCount(procs: seq<Proc>, n: nat)
    requires 1 <= n <= |procs|
    ensures |PidsBelow(procs, n)| <= n - 1
  {
    if n == 1 {
      assert PidsBelow(procs, 1) == {};
    } else {
      PidsBelowCount(procs, n - 1);
      var rest := PidsBelow(procs, n - 1);
      if procs[n - 1].state != NONE && procs[n - 1].pid > 0 {
        assert PidsBelow(procs, n) == rest + {procs[n - 1].pid};
      } else {
        assert PidsBelow(procs, n) == rest;
      }
    }
  }

  // Idle's entry is not for others, so the places hold fewer than PROC_MAX processes together.
  lemma PlacesFit(s: State)
    requires Shaped(s) && TableOk(s.procs, s.nextPid) && Located(s)
    ensures |Places(s)| < PROC_MAX
  {
    PidsBelowCount(s.procs, PROC_MAX);
    assert PidsBelow(s.procs, PROC_MAX) == LivePids(s.procs);
  }

  lemma QueueFits(s: State, q: seq<int>)
    requires Shaped(s) && TableOk(s.procs, s.nextPid) && Located(s)
    requires multiset(q) <= Places(s)
    ensures |q| < PROC_MAX
  {
    PlacesFit(s);
    SmallerBag(multiset(q), Places(s));
  }

  lemma RunQueueFits(s: State)
    requires Inv(s)
    ensures |s.runQ| < PROC_MAX
  {
    QueueFits(s, s.runQ);
  }

  // ---- Looking a pid up ----

  lemma LookupEntry(procs: seq<Proc>, nextPid: int, e: int)
    requires |procs| == PROC_MAX && TableOk(procs, nextPid)
    requires 0 <= e < PROC_MAX && procs[e].state != NONE
    ensures PidToProc(procs, procs[e].pid) == e
  {
    var d := FindPid(procs, procs[e].pid, 0);
    if e != 0 {
      assert procs[d].pid == procs[e].pid;
    }
  }

  lemma LookupPid(procs: seq<Proc>, nextPid: int, pid: int)
    requires |procs| == PROC_MAX && TableOk(procs, nextPid)
    requires pid in LivePids(procs)
    ensures var e := PidToProc(procs, pid); e != NULL && e != 0 && procs[e].pid == pid && procs[e].state != NONE
  {
    var e :| 0 <= e < PROC_MAX && procs[e].state != NONE && procs[e].pid > 0 && procs[e].pid == pid;
    LookupEntry(procs, nextPid, e);
  }

  // Changes to other fields of the table leave all of this alone.
  ghost predicate SamePids(a: seq<Proc>, b: seq<Proc>) {
    && |a| == |b|
    && forall e :: 0 <= e < |a| ==> a[e].pid == b[e].pid && (a[e].state == NONE <==> b[e].state == NONE)
  }

  lemma SamePidsKeep(a: seq<Proc>, b: seq<Proc>, nextPid: int)
    requires SamePids(a, b) && |a| == PROC_MAX
    ensures LivePids(a) == LivePids(b)
    ensures TableOk(a, nextPid) <==> TableOk(b, nextPid)
    ensures FreeSlots(a) == FreeSlots(b)
  {
  }

  lemma {:induction false} SameLookup(a: seq<Proc>, b: seq<Proc>, pid: int, from: nat)
    requires SamePids(a, b) && from <= |a|
    ensures FindPid(a, pid, from) == FindPid(b, pid, from)
    decreases |a| - from
  {
    if from < |a| { SameLookup(a, b, pid, from + 1); }
  }

  lemma SamePidToProc(a: seq<Proc>, b: seq<Proc>, pid: int)
    requires SamePids(a, b)
    ensures PidToProc(a, pid) == PidToProc(b, pid)
  {
    SameLookup(a, b, pid, 0);
  }

  // ---- Where the active process is not ----

  lemma WithoutAbsent(q: seq<int>, item: int)
    requires item !in q
    ensures Without(q, item) == q
  {
  }

  lemma PlaceOnce(s: State, pid: int)
    requires Inv(s)
    ensures Places(s)[pid] == (if pid in LivePids(s.procs) then 1 else 0)
  {
  }

  lemma ActiveBagCount(procs: seq<Proc>, active: int, pid: int)
    requires NULL <= active < |procs| && pid > 0
    ensures ActiveBag(procs, active)[pid] == (if active != NULL && procs[active].pid == pid then 1 else 0)
  {
  }

  lemma ActiveElsewhereNot(s: State)
    requires Inv(s) && s.active != NULL && s.procs[s.active].pid != 0
    ensures var pid := s.procs[s.active].pid;
      pid in LivePids(s.procs) && pid !in s.runQ && pid !in s.sleepQ
  {
    var pid := s.procs[s.active].pid;
    assert multiset{pid} <= ActiveBag(s.procs, s.active);
    PlaceOnce(s, pid);
  }

  // ---- Putting the parts together ----

  lemma Reassemble(s: State, s': State)
    requires Inv(s) && Shaped(s')
    requires SamePids(s.procs, s'.procs) && s'.nextPid == s.nextPid && s'.procFree == s.procFree
    requires CpuOk(s'.procs, s'.active)
    requires MutexesOk(s'.mutexes, s'.mutexFree) && SemsOk(s'.sems, s'.semFree)
    requires Places(s') == Places(s)
    requires s'.active != NULL ==> s'.procs[s'.active].state != NONE
    ensures Inv(s')
  {
    SamePidsKeep(s.procs, s'.procs, s.nextPid);
  }
}
