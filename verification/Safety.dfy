/** The invariant read out: where processes are, that nothing overflows, and that identifiers
    are neither shared nor lost. */
module Safety {
  import opened Screen
  import opened Machine
  import opened Invariant
  import opened Preservation
  import opened Runs
  import opened Effects

  // ---- One place for each process ----

  datatype Place = Processor | RunQueue(k: nat) | SleepQueue(k: nat) | MutexQueue(id: nat, k: nat) | SemQueue(id: nat, k: nat)

  ghost predicate At(s: State, pid: int, p: Place)
    requires Shaped(s)
  {
    match p
    case Processor => s.active != NULL && s.procs[s.active].pid == pid
    case RunQueue(k) => k < |s.runQ| && s.runQ[k] == pid
    case SleepQueue(k) => k < |s.sleepQ| && s.sleepQ[k] == pid
    case MutexQueue(id, k) => id < MUTEX_MAX && k < |s.mutexes[id].wait| && s.mutexes[id].wait[k] == pid
    case SemQueue(id, k) => id < SEM_MAX && k < |s.sems[id].wait| && s.sems[id].wait[k] == pid
  }

  lemma OnceInSeq(q: seq<int>, i: nat, j: nat)
    requires i < j < |q| && q[i] == q[j]
    ensures multiset(q)[q[i]] >= 2
  {
    assert q == q[..j] + q[j..];
    assert q[..j][i] == q[i] && q[j..][0] == q[i];
    assert multiset(q)[q[i]] == multiset(q[..j])[q[i]] + multiset(q[j..])[q[i]];
  }

  lemma {:induction false} OnceInBag(qs: seq<seq<int>>, i: nat, j: nat, pid: int)
    requires i < j < |qs| && pid in qs[i] && pid in qs[j]
    ensures WaitBag(qs)[pid] >= 2
  {
    if i == 0 {
      WaitBagUpdate(qs[1..], j - 1, qs[j]);
      assert pid in multiset(qs[0]) && pid in multiset(qs[1..][j - 1]);
    } else {
      OnceInBag(qs[1..], i - 1, j - 1, pid);
    }
  }

  lemma {:induction false} SomewhereInBag(qs: seq<seq<int>>, pid: int) returns (i: nat)
    requires pid in WaitBag(qs)
    ensures i < |qs| && pid in qs[i]
  {
    if pid in multiset(qs[0]) {
      i := 0;
    } else {
      i := SomewhereInBag(qs[1..], pid);
      i := i + 1;
    }
  }

  // How often each kind of place holds the pid.
  ghost function CountAt(s: State, pid: int, p: Place): nat
    requires Shaped(s)
  {
    match p
    case Processor => ActiveBag(s.procs, s.active)[pid]
    case RunQueue(_) => multiset(s.runQ)[pid]
    case SleepQueue(_) => multiset(s.sleepQ)[pid]
    case MutexQueue(_, _) => MutexBag(s.mutexes)[pid]
    case SemQueue(_, _) => SemBag(s.sems)[pid]
  }

  lemma AtCounts(s: State, pid: int, p: Place)
    requires Shaped(s) && At(s, pid, p) && (pid > 0 || !p.Processor?)
    ensures CountAt(s, pid, p) >= 1
  {
    match p
    case MutexQueue(id, k) =>
      MutexBagUpdate(s.mutexes, id, s.mutexes[id]);
      assert pid in multiset(s.mutexes[id].wait);
    case SemQueue(id, k) =>
      SemBagUpdate(s.sems, id, s.sems[id]);
      assert pid in multiset(s.sems[id].wait);
    case _ =>
  }

  // Two different places of one kind count twice.
  lemma SameKindTwice(s: State, pid: int, p: Place, q: Place)
    requires Shaped(s) && pid > 0 && At(s, pid, p) && At(s, pid, q) && p != q
    requires (p.Processor? && q.Processor?) || (p.RunQueue? && q.RunQueue?) || (p.SleepQueue? && q.SleepQueue?)
      || (p.MutexQueue? && q.MutexQueue?) || (p.SemQueue? && q.SemQueue?)
    ensures CountAt(s, pid, p) >= 2
  {
    match (p, q)
    case (RunQueue(j), RunQueue(k)) => OnceInSeq(s.runQ, if j < k then j else k, if j < k then k else j);
    case (SleepQueue(j), SleepQueue(k)) => OnceInSeq(s.sleepQ, if j < k then j else k, if j < k then k else j);
    case (MutexQueue(a, j), MutexQueue(b, k)) =>
      if a == b {
        MutexBagUpdate(s.mutexes, a, s.mutexes[a]);
        OnceInSeq(s.mutexes[a].wait, if j < k then j else k, if j < k then k else j);
      } else {
        OnceInBag(MutexWaits(s.mutexes), if a < b then a else b, if a < b then b else a, pid);
      }
    case (SemQueue(a, j), SemQueue(b, k)) =>
      if a == b {
        SemBagUpdate(s.sems, a, s.sems[a]);
        OnceInSeq(s.sems[a].wait, if j < k then j else k, if j < k then k else j);
      } else {
        OnceInBag(SemWaits(s.sems), if a < b then a else b, if a < b then b else a, pid);
      }
    case _ =>
  }

  lemma PlacesAgree(s: State, pid: int, p: Place, q: Place)
    requires Inv(s) && pid > 0 && At(s, pid, p) && At(s, pid, q)
    ensures p == q && pid in LivePids(s.procs)
  {
    PlaceOnce(s, pid);
    AtCounts(s, pid, p);
    AtCounts(s, pid, q);
    assert Places(s)[pid] == CountAt(s, pid, Processor) + CountAt(s, pid, RunQueue(0)) + CountAt(s, pid, SleepQueue(0))
                           + CountAt(s, pid, MutexQueue(0, 0)) + CountAt(s, pid, SemQueue(0, 0));
    if p != q && CountAt(s, pid, p) < 2 {
      var sameKind := (p.RunQueue? && q.RunQueue?) || (p.SleepQueue? && q.SleepQueue?)
        || (p.MutexQueue? && q.MutexQueue?) || (p.SemQueue? && q.SemQueue?);
      if sameKind { SameKindTwice(s, pid, p, q); }
    }
  }

  lemma SomePlace(s: State, pid: int) returns (p: Place)
    requires Inv(s) && pid in LivePids(s.procs)
    ensures At(s, pid, p)
  {
    PlaceOnce(s, pid);
    if pid in ActiveBag(s.procs, s.active) {
      p := Processor;
    } else if pid in s.runQ {
      var k :| 0 <= k < |s.runQ| && s.runQ[k] == pid;
      p := RunQueue(k);
    } else if pid in s.sleepQ {
      var k :| 0 <= k < |s.sleepQ| && s.sleepQ[k] == pid;
      p := SleepQueue(k);
    } else if pid in MutexBag(s.mutexes) {
      var id := SomewhereInBag(MutexWaits(s.mutexes), pid);
      var k :| 0 <= k < |s.mutexes[id].wait| && s.mutexes[id].wait[k] == pid;
      p := MutexQueue(id, k);
    } else {
      assert pid in SemBag(s.sems);
      var id := SomewhereInBag(SemWaits(s.sems), pid);
      var k :| 0 <= k < |s.sems[id].wait| && s.sems[id].wait[k] == pid;
      p := SemQueue(id, k);
    }
  }

  // The location theorem: a process other than idle is somewhere exactly as long as it lives,
  // and never in two places, or twice in one.
  lemma OnePlace(s: State, pid: int)
    requires Inv(s) && pid > 0
    ensures pid in LivePids(s.procs) <==> exists p :: At(s, pid, p)
    ensures forall p, q :: At(s, pid, p) && At(s, pid, q) ==> p == q
  {
    if pid in LivePids(s.procs) {
      var p := SomePlace(s, pid);
    }
    forall p, q | At(s, pid, p) && At(s, pid, q) ensures p == q && pid in LivePids(s.procs) {
      PlacesAgree(s, pid, p, q);
    }
  }

  // Idle waits nowhere.
  lemma IdleNowhere(s: State, p: Place)
    requires Inv(s) && At(s, 0, p)
    ensures p == Processor && s.active == 0
  {
    PlaceOnce(s, 0);
    if !p.Processor? { AtCounts(s, 0, p); }
  }

  // ---- No queue overflows ----

  // Every queue_in of the kernel finds room, so none of the unchecked results is a refusal.
  lemma NoOverflow(s: State)
    requires Inv(s)
    ensures |s.runQ| < PROC_MAX < QUEUE_SIZE && |s.sleepQ| < PROC_MAX
    ensures forall i :: 0 <= i < MUTEX_MAX ==> |s.mutexes[i].wait| < PROC_MAX
    ensures forall i :: 0 <= i < SEM_MAX ==> |s.sems[i].wait| < PROC_MAX
    ensures |s.procFree| <= PROC_MAX && |s.mutexFree| <= MUTEX_MAX && |s.semFree| <= SEM_MAX
  {
    QueueFits(s, s.runQ);
    QueueFits(s, s.sleepQ);
    forall i | 0 <= i < MUTEX_MAX ensures |s.mutexes[i].wait| < PROC_MAX {
      MutexBagUpdate(s.mutexes, i, s.mutexes[i]);
      QueueFits(s, s.mutexes[i].wait);
    }
    forall i | 0 <= i < SEM_MAX ensures |s.sems[i].wait| < PROC_MAX {
      SemBagUpdate(s.sems, i, s.sems[i]);
      QueueFits(s, s.sems[i].wait);
    }
    IdsFit(s.procFree, FreeSlots(s.procs), PROC_MAX);
    IdsFit(s.mutexFree, FreeMutexes(s.mutexes), MUTEX_MAX);
    IdsFit(s.semFree, FreeSems(s.sems), SEM_MAX);
  }

  // ---- Identifiers ----

  lemma ExactIds(free: seq<int>, ids: set<int>)
    requires multiset(free) == multiset(ids)
    ensures forall i, j :: 0 <= i < j < |free| ==> free[i] != free[j]
    ensures forall i :: i in free <==> i in ids
  {
    forall i, j | 0 <= i < j < |free| ensures free[i] != free[j] {
      if free[i] == free[j] { OnceInSeq(free, i, j); }
    }
    forall i ensures i in free <==> i in ids {
      assert i in free <==> i in multiset(free);
    }
  }

  // Each allocator lists exactly the identifiers not in use, each once: none is handed out
  // twice and none is lost.
  lemma AllocatorsExact(s: State)
    requires Inv(s)
    ensures forall i, j :: 0 <= i < j < |s.procFree| ==> s.procFree[i] != s.procFree[j]
    ensures forall i, j :: 0 <= i < j < |s.mutexFree| ==> s.mutexFree[i] != s.mutexFree[j]
    ensures forall i, j :: 0 <= i < j < |s.semFree| ==> s.semFree[i] != s.semFree[j]
    ensures forall e :: e in s.procFree <==> 0 <= e < PROC_MAX && s.procs[e].state == NONE
    ensures forall id :: id in s.mutexFree <==> 0 <= id < MUTEX_MAX && !s.mutexes[id].isAllocated
    ensures forall id :: id in s.semFree <==> 0 <= id < SEM_MAX && !s.sems[id].isAllocated
  {
    ExactIds(s.procFree, FreeSlots(s.procs));
    ExactIds(s.mutexFree, FreeMutexes(s.mutexes));
    ExactIds(s.semFree, FreeSems(s.sems));
  }

  // A destroyed mutex or semaphore had nobody waiting for it.
  lemma DestroyStrandsNobody(s: State, id: int)
    requires Inv(s)
    ensures KmutexDestroy(s, id).1 == 0 ==> 0 <= id < MUTEX_MAX && s.mutexes[id].wait == []
    ensures KsemDestroy(s, id).0 != s ==> 0 <= id < SEM_MAX && s.sems[id].wait == []
  {
    if MutexReady(s, id) { assert MutexLaw(s.mutexes[id]); }
    if SemReady(s, id) { assert SemLaw(s.sems[id]); }
  }

  // Looking a pid up finds the one live entry that has it, and fails for every other pid,
  // although all free entries carry pid 0.
  lemma LookupExact(s: State, pid: int)
    requires Inv(s)
    ensures PidToProc(s.procs, pid) != NULL <==> pid == 0 || pid in LivePids(s.procs)
    ensures forall e :: 0 <= e < PROC_MAX ==>
      (PidToProc(s.procs, pid) == e <==> s.procs[e].state != NONE && s.procs[e].pid == pid)
  {
    var d := PidToProc(s.procs, pid);
    forall e | 0 <= e < PROC_MAX && s.procs[e].state != NONE && s.procs[e].pid == pid ensures d == e {
      LookupEntry(s.procs, s.nextPid, e);
    }
    if pid in LivePids(s.procs) { LookupPid(s.procs, s.nextPid, pid); }
  }

  // ---- Pids are never used twice ----

  // The only new pid an interrupt can bring is the next one, and then it is used up.
  ghost predicate PidsGrow(s: State, s': State) {
    && s.nextPid <= s'.nextPid
    && LivePids(s'.procs) <= LivePids(s.procs) + {s.nextPid}
    && (s.nextPid in LivePids(s'.procs) ==> s.nextPid < s'.nextPid)
  }

  lemma SameGrow(s: State, s': State)
    requires Inv(s) && Shaped(s') && SamePids(s.procs, s'.procs) && s'.nextPid == s.nextPid
    ensures PidsGrow(s, s')
  {
    SamePidsKeep(s.procs, s'.procs, s.nextPid);
  }

  lemma DestroyGrow(s: State)
    requires Inv(s) && s.active != NULL && s.procs[s.active].pid != 0
    ensures PidsGrow(s, KprocDestroy(s, s.active).0)
  {
    DestroyIs(s);
    LivePidsDrop(s.procs, s.active);
  }

  lemma CreateGrow(s: State, entry: int, stack: Frame)
    requires Inv(s)
    ensures PidsGrow(s, KprocCreate(s, entry, stack).0)
  {
    if s.procFree != [] {
      CreateIs(s, entry, stack);
      LivePidsAdd(s.procs, s.procFree[0], NewProc(s, entry, stack));
    }
  }

  lemma HandlePids(s: State, ev: Event)
    requires Between(s) && Enabled(s, ev)
    ensures PidsGrow(s, Handle(s, ev))
  {
    hide TableOk, Located, SlotsOk, CpuOk, MutexesOk, SemsOk, PidToProc, Without, Refresh, SetBuffer, Visited, Call, CallOk;
    hide KprocCreate, KprocDestroy;
    FrameKeeps(s, s.active, ev.frame);
    var s1 := SaveFrame(s, ev.frame);
    SamePidsKeep(s.procs, s1.procs, s.nextPid);
    if Exits(s, ev) {
      DestroyGrow(s1);
    } else if ev.Keyboard? && ev.key.NewProcess? {
      CreateGrow(s1, ev.key.entry, ev.key.stack);
    } else {
      if ev.Syscall? && ev.frame.eax != SYS_SLEEP { CallPids(s1, ev.frame, ev.mem); }
      if ev.Keyboard? && ev.key.Quit? { IdleStays(s1); }
      SameGrow(s1, Handle(s, ev));
    }
  }

  lemma IdleStays(s: State)
    requires Inv(s) && s.active != NULL && s.procs[s.active].pid == 0
    ensures KprocDestroy(s, s.active) == (s, -1)
  {
  }

  lemma FoundIsLive(procs: seq<Proc>, pid: int)
    ensures PidToProc(procs, pid) != NULL ==> procs[PidToProc(procs, pid)].state != NONE
  {
  }

  lemma BlockPids(s: State, id: int)
    requires Shaped(s) && s.active != NULL && s.procs[s.active].state != NONE
    ensures SamePids(s.procs, KmutexLock(s, id).0.procs) && KmutexLock(s, id).0.nextPid == s.nextPid
    ensures SamePids(s.procs, KsemWait(s, id).0.procs) && KsemWait(s, id).0.nextPid == s.nextPid
  {
    hide Without, Enqueue, ConsoleOk, IoOk;
  }

  lemma UnlockPids(s: State, id: int)
    requires Shaped(s)
    ensures SamePids(s.procs, KmutexUnlock(s, id).0.procs) && KmutexUnlock(s, id).0.nextPid == s.nextPid
  {
    if MutexReady(s, id) && s.mutexes[id].wait != [] { FoundIsLive(s.procs, s.mutexes[id].wait[0]); }
    hide PidToProc, Enqueue, ConsoleOk, IoOk;
  }

  lemma PostPids(s: State, id: int)
    requires Shaped(s)
    ensures SamePids(s.procs, KsemPost(s, id).0.procs) && KsemPost(s, id).0.nextPid == s.nextPid
  {
    if SemReady(s, id) && s.sems[id].wait != [] { FoundIsLive(s.procs, s.sems[id].wait[0]); }
    hide PidToProc, Enqueue, ConsoleOk, IoOk;
  }

  lemma CallPids(s: State, f: Frame, mem: seq<Char>)
    requires Inv(s) && s.active != NULL && CallOk(f, mem) && f.eax != SYS_EXIT && f.eax != SYS_SLEEP
    ensures SamePids(s.procs, Call(s, f, mem).0.procs) && Call(s, f, mem).0.nextPid == s.nextPid
  {
    hide TableOk, Located, SlotsOk, CpuOk, MutexesOk, SemsOk, SetBuffer, ConsoleOk, IoOk;
    hide KmutexLock, KmutexUnlock, KsemWait, KsemPost;
    BlockPids(s, f.ebx);
    UnlockPids(s, f.ebx);
    PostPids(s, f.ebx);
  }

  lemma StepPids(s: State, ev: Event)
    requires Between(s) && Enabled(s, ev)
    ensures Between(Step(s, ev)) && s.nextPid <= Step(s, ev).nextPid
    ensures forall pid :: pid in LivePids(Step(s, ev).procs) && pid < s.nextPid ==> pid in LivePids(s.procs)
  {
    hide TableOk, Located, SlotsOk, CpuOk, MutexesOk, SemsOk, CallOk;
    StepKeeps(s, ev);
    HandleKeeps(s, ev);
    HandlePids(s, ev);
    var h := Handle(s, ev);
    hide Handle;
    RunOthers(h);
    hide SchedulerRun;
    assert SamePids(h.procs, Step(s, ev).procs) by {
      forall e | 0 <= e < PROC_MAX ensures Rescheduled(h.procs[e], Step(s, ev).procs[e]) {}
    }
    SamePidsKeep(h.procs, Step(s, ev).procs, h.nextPid);
  }

  // A pid once dead, or passed over, never names a process again, so a stale pid cannot be
  // mistaken for a new process in a reused table entry.
  lemma {:induction false} DeadStaysDead(s: State, es: seq<Event>, pid: int)
    requires Between(s) && CanRun(s, es) && pid < s.nextPid && pid !in LivePids(s.procs)
    ensures pid !in LivePids(Run(s, es).procs)
    decreases |es|
  {
    hide TableOk, Located, SlotsOk, CpuOk, MutexesOk, SemsOk, CallOk, Step;
    if es != [] {
      StepPids(s, es[0]);
      DeadStaysDead(Step(s, es[0]), es[1..], pid);
    }
  }
}
