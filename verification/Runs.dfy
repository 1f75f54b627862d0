/** Boot, and runs: any sequence of interrupts the machine can take. */
module Runs {
  import opened Screen
  import opened Machine
  import opened Invariant
  import opened Preservation

  // ---- Runs ----

  ghost predicate CanRun(s: State, es: seq<Event>)
    requires Between(s)
    decreases |es|
  {
    es != [] ==> Enabled(s, es[0]) && (StepKeeps(s, es[0]); CanRun(Step(s, es[0]), es[1..]))
  }

  // The state after the whole run. Its contract is the safety theorem.
  ghost function Run(s: State, es: seq<Event>): (r: State)
    requires Between(s) && CanRun(s, es)
    ensures Between(r)
    decreases |es|
  {
    if es == [] then s
    else
      StepKeeps(s, es[0]);
      Run(Step(s, es[0]), es[1..])
  }

  ghost function TickCount(es: seq<Event>): (n: nat)
    ensures n <= |es|
    decreases |es|
  {
    if es == [] then 0 else (if es[0].Tick? then 1 else 0) + TickCount(es[1..])
  }

  // One run after another is a run.
  lemma {:induction false} RunJoin(s: State, a: seq<Event>, b: seq<Event>)
    requires Between(s) && CanRun(s, a) && CanRun(Run(s, a), b)
    ensures CanRun(s, a + b) && Run(s, a + b) == Run(Run(s, a), b)
    decreases |a|
  {
    hide TableOk, Located, SlotsOk, CpuOk, MutexesOk, SemsOk, CallOk, Step;
    if a == [] {
      assert a + b == b;
    } else {
      StepKeeps(s, a[0]);
      RunJoin(Step(s, a[0]), a[1..], b);
      assert (a + b)[0] == a[0] && (a + b)[1..] == a[1..] + b;
    }
  }

  // ---- Boot (src/main.c, src/kproc.c) ----

  datatype Programs = Programs(idle: int, shell: int, ping: int, pong: int)

  // Zeroed tables, full allocators, terminal 0 selected and a cleared screen.
  function Blank(): (s: State)
    ensures Shaped(s)
  {
    var con := Console(seq(TTY_MAX, _ => BLANK_TTY), 0,
                       Vga(seq(TTY_BUF_SIZE, _ => VgaChar(0, 7, NUL)), 0, 0, 0, 7, false));
    State(seq(PROC_MAX, _ => FREE_PROC), 0, seq(PROC_MAX, i => i), NULL, [], [],
          seq(MUTEX_MAX, _ => Mutex(false, 0, NULL, [])), seq(MUTEX_MAX, i => i),
          seq(SEM_MAX, _ => Sem(false, 0, [])), seq(SEM_MAX, i => i), 0, con)
  }

  function AttachTty(s: State, pid: int, tty: int): (r: State)
    requires Shaped(s)
    ensures Shaped(r)
  {
    var e := PidToProc(s.procs, pid);
    if e == NULL || !(0 <= tty < TTY_MAX) then s
    else s.(procs := s.procs[e := s.procs[e].(io := s.procs[e].io[0 := 2 * tty][1 := 2 * tty + 1])])
  }

  // Shells name their terminal; ping and pong take terminal 9 or 8 by the parity of their pid.
  const BY_PARITY := -1

  function Spawn(s: State, entry: int, tty: int): (r: State)
    requires Shaped(s)
    ensures Shaped(r)
  {
    var (s', pid) := KprocCreate(s, entry, EMPTY_FRAME);
    AttachTty(s', pid, if tty == BY_PARITY then TTY_MAX - 1 - pid % 2 else tty)
  }

  function SpawnAll(s: State, jobs: seq<(int, int)>): (r: State)
    requires Shaped(s)
    ensures Shaped(r)
    decreases |jobs|
  {
    if jobs == [] then s else SpawnAll(Spawn(s, jobs[0].0, jobs[0].1), jobs[1..])
  }

  function Idle(progs: Programs): (r: State)
    ensures Shaped(r)
  {
    SchedulerRun(KprocCreate(Blank(), progs.idle, EMPTY_FRAME).0)
  }

  function Boot(progs: Programs): (r: State)
    ensures Shaped(r) && Between(r)
  {
    IdleBetween(progs);
    SpawnAllKeeps(Idle(progs), Jobs(progs));
    SpawnAll(Idle(progs), Jobs(progs))
  }

  function Jobs(progs: Programs): seq<(int, int)> {
    [(progs.shell, 1), (progs.shell, 2), (progs.shell, 3), (progs.shell, 4),
     (progs.ping, BY_PARITY), (progs.ping, BY_PARITY), (progs.ping, BY_PARITY),
     (progs.pong, BY_PARITY), (progs.pong, BY_PARITY), (progs.pong, BY_PARITY)]
  }

  lemma {:induction false} NoWaits(qs: seq<seq<int>>)
    requires forall i :: 0 <= i < |qs| ==> qs[i] == []
    ensures WaitBag(qs) == multiset{}
  {
    if qs != [] { NoWaits(qs[1..]); }
  }

  // The identifiers 0 to n - 1, as an allocator hands them out, are each there once.
  lemma {:induction false} FullAllocator(q: seq<int>, ids: set<int>)
    requires forall k :: 0 <= k < |q| ==> q[k] == k
    requires forall i :: i in ids <==> 0 <= i < |q|
    ensures multiset(q) == multiset(ids)
  {
    if q == [] {
      assert forall i :: i !in ids;
    } else {
      var n := |q| - 1;
      FullAllocator(q[..n], ids - {n});
      assert q == q[..n] + [n];
      BagDrop(ids, n);
    }
  }

  lemma IdleIs(progs: Programs)
    ensures var s := Blank(); var p := Proc(0, ACTIVE, 0, 0, 0, 0, NO_IO, EMPTY_FRAME.(eip := progs.idle));
      Idle(progs) == s.(procs := s.procs[0 := p], nextPid := 1, procFree := s.procFree[1..], active := 0)
  {
    var s := KprocCreate(Blank(), progs.idle, EMPTY_FRAME).0;
    assert FindPid(s.procs, 0, 0) == 0;
    var p := Proc(0, ACTIVE, 0, 0, 0, 0, NO_IO, EMPTY_FRAME.(eip := progs.idle));
    assert SetState(s.procs, 0, ACTIVE) == Blank().procs[0 := p];
  }

  lemma IdlePlaces(s: State)
    requires Shaped(s) && s.active == 0 && s.runQ == [] && s.sleepQ == []
    requires forall e :: 0 <= e < PROC_MAX ==> s.procs[e].pid == 0
    requires forall i :: 0 <= i < MUTEX_MAX ==> s.mutexes[i].wait == []
    requires forall i :: 0 <= i < SEM_MAX ==> s.sems[i].wait == []
    ensures Located(s)
  {
    NoWaits(MutexWaits(s.mutexes));
    NoWaits(SemWaits(s.sems));
    assert LivePids(s.procs) == {};
  }

  lemma IdleSlots(procs: seq<Proc>, q: seq<int>)
    requires |procs| == PROC_MAX && procs[0].state != NONE
    requires forall e :: 0 < e < PROC_MAX ==> procs[e].state == NONE
    requires |q| == PROC_MAX - 1 && forall k :: 0 <= k < |q| ==> q[k] == k + 1
    ensures SlotsOk(procs, q)
  {
    FullAllocator([0] + q, FreeSlots(procs) + {0});
    BagAdd(FreeSlots(procs), 0);
    assert multiset(q) == multiset([0] + q) - multiset{0};
  }

  lemma FreshBetween(s: State, p: Proc)
    requires p.pid == 0 && p.state != NONE && p.cpuTime == 0 && IoOk(p.io)
    requires var b := Blank(); s == b.(procs := b.procs[0 := p], nextPid := 1, procFree := b.procFree[1..], active := 0)
    ensures Between(s)
  {
    hide Located, SlotsOk;
    IdlePlaces(s);
    IdleSlots(s.procs, s.procFree);
    FullAllocator(s.mutexFree, FreeMutexes(s.mutexes));
    FullAllocator(s.semFree, FreeSems(s.sems));
  }

  lemma IdleBetween(progs: Programs)
    ensures Between(Idle(progs))
  {
    IdleIs(progs);
    FreshBetween(Idle(progs), Proc(0, ACTIVE, 0, 0, 0, 0, NO_IO, EMPTY_FRAME.(eip := progs.idle)));
  }

  lemma AttachKeeps(s: State, pid: int, tty: int)
    requires Between(s)
    ensures Between(AttachTty(s, pid, tty))
  {
    Reassemble(s, AttachTty(s, pid, tty));
  }

  lemma SpawnKeeps(s: State, entry: int, tty: int)
    requires Between(s)
    ensures Between(Spawn(s, entry, tty))
  {
    hide KprocCreate, AttachTty, TableOk, Located, SlotsOk, CpuOk, MutexesOk, SemsOk;
    var (s', pid) := KprocCreate(s, entry, EMPTY_FRAME);
    CreateKeeps(s, entry, EMPTY_FRAME);
    AttachKeeps(s', pid, if tty == BY_PARITY then TTY_MAX - 1 - pid % 2 else tty);
  }

  lemma {:induction false} SpawnAllKeeps(s: State, jobs: seq<(int, int)>)
    requires Between(s)
    ensures Between(SpawnAll(s, jobs))
    decreases |jobs|
  {
    hide Spawn, TableOk, Located, SlotsOk, CpuOk, MutexesOk, SemsOk;
    if jobs != [] {
      SpawnKeeps(s, jobs[0].0, jobs[0].1);
      SpawnAllKeeps(Spawn(s, jobs[0].0, jobs[0].1), jobs[1..]);
    }
  }

  // ---- The boot state, read out ----

  // The buffers a process has from its terminal: input first, then output.
  function IoOf(tty: int, pid: int): seq<int> {
    var t := if tty == BY_PARITY then TTY_MAX - 1 - pid % 2 else tty;
    if 0 <= t < TTY_MAX then [2 * t, 2 * t + 1, NULL, NULL] else NO_IO
  }

  // One program more: its process takes the next free entry, with the next pid, behind all others.
  lemma SpawnIs(s: State, entry: int, tty: int)
    requires Between(s) && s.procFree != []
    ensures var e, s' := s.procFree[0], Spawn(s, entry, tty);
      && 0 < e < PROC_MAX && e != s.active
      && s' == s.(procs := s'.procs, procFree := s.procFree[1..],
                  nextPid := s.nextPid + 1, runQ := s.runQ + [s.nextPid])
      && s'.procs[e] == NewProc(s, entry, EMPTY_FRAME).(io := IoOf(tty, s.nextPid))
      && forall d :: 0 <= d < PROC_MAX && d != e ==> s'.procs[d] == s.procs[d]
  {
    CreateIs(s, entry, EMPTY_FRAME);
    CreateKeeps(s, entry, EMPTY_FRAME);
    var s1 := KprocCreate(s, entry, EMPTY_FRAME).0;
    LookupEntry(s1.procs, s1.nextPid, s.procFree[0]);
    hide KprocCreate, PidToProc, Inv, ConsoleOk, IoOk;
    var t := if tty == BY_PARITY then TTY_MAX - 1 - s.nextPid % 2 else tty;
    assert NO_IO[0 := 2 * t][1 := 2 * t + 1] == [2 * t, 2 * t + 1, NULL, NULL];
  }

  ghost predicate Spawned(s: State, r: State, n: nat, jobs: seq<(int, int)>)
    requires Shaped(s) && Shaped(r) && n + |jobs| < PROC_MAX
  {
    && r == s.(procs := r.procs, procFree := r.procFree, nextPid := n + 1 + |jobs|, runQ := r.runQ)
    && r.runQ == s.runQ + seq(|jobs|, k => n + 1 + k)
    && |jobs| <= |s.procFree| && r.procFree == s.procFree[|jobs|..]
    && (forall k :: 0 <= k < |jobs| ==>
          r.procs[n + 1 + k] == NewProc(s, jobs[k].0, EMPTY_FRAME).(pid := n + 1 + k, io := IoOf(jobs[k].1, n + 1 + k)))
    && (forall d :: 0 <= d <= n || n + |jobs| < d < PROC_MAX ==> r.procs[d] == s.procs[d])
  }

  lemma SpawnedMore(s: State, s1: State, r: State, n: nat, jobs: seq<(int, int)>)
    requires Shaped(s) && Shaped(s1) && Shaped(r) && jobs != [] && n + |jobs| < PROC_MAX && s.nextPid == n + 1
    requires s.procFree != []
    requires s1 == s.(procs := s1.procs, procFree := s.procFree[1..], nextPid := n + 2, runQ := s.runQ + [n + 1])
    requires s1.procs[n + 1] == NewProc(s, jobs[0].0, EMPTY_FRAME).(io := IoOf(jobs[0].1, n + 1))
    requires forall d :: 0 <= d < PROC_MAX && d != n + 1 ==> s1.procs[d] == s.procs[d]
    requires Spawned(s1, r, n + 1, jobs[1..])
    ensures Spawned(s, r, n, jobs)
  {
    hide ConsoleOk, IoOk;
    var m := |jobs[1..]|;
    assert [n + 1] + seq(m, k => n + 1 + 1 + k) == seq(|jobs|, k => n + 1 + k);
    assert r.runQ == s.runQ + ([n + 1] + seq(m, k => n + 1 + 1 + k));
    forall k | 0 <= k < |jobs|
      ensures r.procs[n + 1 + k] == NewProc(s, jobs[k].0, EMPTY_FRAME).(pid := n + 1 + k, io := IoOf(jobs[k].1, n + 1 + k))
    {
      if k > 0 { SpawnedAt(s1, r, n + 1, jobs[1..], k - 1); }
    }
  }

  // With the entries above n free, in order, the programs take them in order.
  lemma {:induction false} SpawnAllIs(s: State, n: nat, jobs: seq<(int, int)>)
    requires Between(s) && n + |jobs| < PROC_MAX && s.nextPid == n + 1
    requires |s.procFree| == PROC_MAX - 1 - n && forall k :: 0 <= k < |s.procFree| ==> s.procFree[k] == n + 1 + k
    ensures Spawned(s, SpawnAll(s, jobs), n, jobs)
    decreases |jobs|
  {
    hide TableOk, Located, SlotsOk, CpuOk, MutexesOk, SemsOk, Spawn, ConsoleOk, IoOk;
    if jobs == [] {
      assert s.runQ + seq(0, k => n + 1 + k) == s.runQ;
    } else {
      var s1, rest := Spawn(s, jobs[0].0, jobs[0].1), jobs[1..];
      SpawnIs(s, jobs[0].0, jobs[0].1);
      SpawnKeeps(s, jobs[0].0, jobs[0].1);
      SpawnAllIs(s1, n + 1, rest);
      SpawnedMore(s, s1, SpawnAll(s1, rest), n, jobs);
    }
  }

  lemma IdleFacts(progs: Programs)
    ensures var s, b := Idle(progs), Blank();
      && Between(s) && s.active == 0 && s.procs[0].pid == 0 && s.procs[0].cpuTime == 0
      && s.procs[0].frame == EMPTY_FRAME.(eip := progs.idle) && s.procs[0].state == ACTIVE
      && s == b.(procs := s.procs, procFree := s.procFree, nextPid := 1, active := 0)
      && s.runQ == [] && s.sleepQ == [] && (forall e :: 0 <= e < PROC_MAX ==> s.procs[e].cpuTime == 0)
      && |s.procFree| == PROC_MAX - 1 && forall k :: 0 <= k < |s.procFree| ==> s.procFree[k] == 1 + k
  {
    IdleBetween(progs);
    IdleIs(progs);
    hide Inv, Idle;
  }

  lemma TenJobs(progs: Programs)
    ensures |Jobs(progs)| == 10
  {
  }

  // Idle runs; processes 1 to 10 are ready in the order they were created; no lock is in use.
  lemma BootIs(progs: Programs)
    ensures var s, jobs := Boot(progs), Jobs(progs);
      && s.active == 0 && s.procs[0].pid == 0 && s.procs[0].cpuTime == 0 && s.nextPid == 11
      && s.procs[0].frame == EMPTY_FRAME.(eip := progs.idle) && s.procs[0].state == ACTIVE && s.ticks == 0
      && s.runQ == seq(|jobs|, k => 0 + 1 + k) && |jobs| == 10 && s.sleepQ == []
      && |s.procFree| == PROC_MAX - 11 && (forall k :: 0 <= k < |s.procFree| ==> s.procFree[k] == 11 + k)
      && s.mutexes == Blank().mutexes && s.mutexFree == Blank().mutexFree
      && s.sems == Blank().sems && s.semFree == Blank().semFree
  {
    IdleFacts(progs);
    TenJobs(progs);
    hide Idle, SpawnAll, Jobs, Blank, TableOk, Located, SlotsOk, CpuOk, MutexesOk, SemsOk, ConsoleOk, IoOk;
    var s, jobs := Idle(progs), Jobs(progs);
    SpawnAllIs(s, 0, jobs);
    assert [] + seq(|jobs|, k => 0 + 1 + k) == seq(|jobs|, k => 0 + 1 + k);
  }

  // Every identifier is free, the lowest first.
  lemma BootIdentifiers(progs: Programs, i: int)
    ensures var s := Boot(progs);
      && |s.mutexFree| == MUTEX_MAX && |s.semFree| == SEM_MAX
      && (0 <= i < MUTEX_MAX ==> s.mutexFree[i] == i && s.mutexes[i] == Mutex(false, 0, NULL, []))
      && (0 <= i < SEM_MAX ==> s.semFree[i] == i && s.sems[i] == Sem(false, 0, []))
  {
    BootIs(progs);
    hide Boot;
  }

  // Process k + 1 is job k, at its entry point.
  lemma BootProgram(progs: Programs, k: nat)
    requires k < |Jobs(progs)| < PROC_MAX
    ensures var p := Boot(progs).procs[k + 1];
      && p.pid == k + 1 && p.state == IDLE && p.cpuTime == 0 && p.runTime == 0 && p.startTime == 0
      && p.frame == EMPTY_FRAME.(eip := Jobs(progs)[k].0) && p.io == IoOf(Jobs(progs)[k].1, k + 1)
  {
    IdleFacts(progs);
    hide Idle, SpawnAll, Jobs, Blank, TableOk, Located, SlotsOk, CpuOk, MutexesOk, SemsOk, ConsoleOk, IoOk;
    SpawnAllIs(Idle(progs), 0, Jobs(progs));
    SpawnedAt(Idle(progs), Boot(progs), 0, Jobs(progs), k);
  }

  lemma JobIs(progs: Programs, k: nat)
    requires k < 10
    ensures |Jobs(progs)| == 10
    ensures var job := Jobs(progs)[k];
      && job.0 == (if k < 4 then progs.shell else if k < 7 then progs.ping else progs.pong)
      && job.1 == (if k < 4 then k + 1 else BY_PARITY)
  {
  }

  lemma JobIo(pid: nat)
    requires 1 <= pid <= 10
    ensures var tty := if pid <= 4 then pid else 9 - pid % 2;
      IoOf(if pid <= 4 then pid else BY_PARITY, pid) == [2 * tty, 2 * tty + 1, NULL, NULL]
  {
  }

  // Who runs where at boot: four shells on terminals 1 to 4, then three pings and three pongs on
  // terminal 9 or, for odd pids, 8.
  lemma BootProcess(progs: Programs, pid: nat)
    requires 1 <= pid <= 10
    ensures var p := Boot(progs).procs[pid]; var tty := if pid <= 4 then pid else 9 - pid % 2;
      && p.pid == pid && p.state == IDLE && p.runTime == 0 && p.startTime == 0
      && p.frame == EMPTY_FRAME.(eip := if pid <= 4 then progs.shell else if pid <= 7 then progs.ping else progs.pong)
      && p.io == [2 * tty, 2 * tty + 1, NULL, NULL]
  {
    JobIs(progs, pid - 1);
    JobIo(pid);
    BootProgram(progs, pid - 1);
    hide *;
  }

  lemma SpawnedElsewhere(s: State, r: State, n: nat, jobs: seq<(int, int)>, e: int)
    requires Shaped(s) && Shaped(r) && n + |jobs| < PROC_MAX && Spawned(s, r, n, jobs)
    requires 0 <= e < PROC_MAX && !(n < e <= n + |jobs|)
    ensures r.procs[e] == s.procs[e]
  {
    hide ConsoleOk, IoOk;
  }

  lemma BootRested(progs: Programs, e: int)
    requires 0 <= e < PROC_MAX
    ensures Boot(progs).procs[e].cpuTime == 0
  {
    TenJobs(progs);
    if 1 <= e <= 10 {
      BootProgram(progs, e - 1);
    } else {
      IdleFacts(progs);
      hide Idle, SpawnAll, Jobs, Blank, TableOk, Located, SlotsOk, CpuOk, MutexesOk, SemsOk, ConsoleOk, IoOk;
      SpawnAllIs(Idle(progs), 0, Jobs(progs));
      SpawnedElsewhere(Idle(progs), Boot(progs), 0, Jobs(progs), e);
    }
  }

  lemma SpawnedAt(s: State, r: State, n: nat, jobs: seq<(int, int)>, k: nat)
    requires Shaped(s) && Shaped(r) && n + |jobs| < PROC_MAX && Spawned(s, r, n, jobs) && k < |jobs|
    ensures r.procs[n + 1 + k] == NewProc(s, jobs[k].0, EMPTY_FRAME).(pid := n + 1 + k, io := IoOf(jobs[k].1, n + 1 + k))
  {
    hide ConsoleOk, IoOk;
  }
}
