/** The main results put together for the kernel as it boots. */
module Guarantees {
  import opened Screen
  import opened Machine
  import opened Invariant
  import opened Runs
  import opened States
  import opened Tapes
  import opened Terminals
  import opened Locks
  import opened Semaphores

  // From boot on, after any run: everything the state promises between interrupts.
  lemma AfterBoot(progs: Programs, es: seq<Event>)
    requires CanRun(Boot(progs), es)
    ensures var s := Run(Boot(progs), es);
      && Between(s) && StatesOk(s) && Mirrors(s.con)
      && (forall n :: 0 <= n < TTY_MAX ==> Shows(s.con.ttys[n], WriteAll(BLANK_TAPE, Drained(Boot(progs), es, n))))
  {
    hide Boot, Shows, StatesOk, Mirrors, TableOk, Located, SlotsOk, CpuOk, MutexesOk, SemsOk;
    BootStates(progs);
    BootTerminals(progs);
    StatesAlways(Boot(progs), es);
    MirrorsAlways(Boot(progs), es);
    forall n | 0 <= n < TTY_MAX
      ensures Shows(Run(Boot(progs), es).con.ttys[n], WriteAll(BLANK_TAPE, Drained(Boot(progs), es, n)))
    {
      TerminalsShow(Boot(progs), es, n, BLANK_TAPE);
    }
  }

  lemma {:induction false} SpawnAllLocks(s: State, jobs: seq<(int, int)>)
    requires Shaped(s)
    ensures SpawnAll(s, jobs).mutexes == s.mutexes && SpawnAll(s, jobs).sems == s.sems
    decreases |jobs|
  {
    hide PidToProc, Enqueue;
    if jobs != [] { SpawnAllLocks(Spawn(s, jobs[0].0, jobs[0].1), jobs[1..]); }
  }

  // No lock is in use at boot, so a mutex is held by nobody and a semaphore's books are open.
  lemma BootLocks(progs: Programs, id: int, l: Log)
    requires 0 <= id < MUTEX_MAX
    ensures Exclusive(Boot(progs), id, multiset{}) && Conserved(Boot(progs), id, l)
  {
    IdleIs(progs);
    SpawnAllLocks(Idle(progs), Jobs(progs));
    hide Idle;
    assert Boot(progs).mutexes[id] == Mutex(false, 0, NULL, []);
    assert Boot(progs).sems[id] == Sem(false, 0, []);
  }

  // Over every disciplined run from boot each mutex excludes; over every run each semaphore conserves.
  lemma LocksAfterBoot(progs: Programs, es: seq<Event>, id: int, l: Log)
    requires CanRun(Boot(progs), es) && 0 <= id < MUTEX_MAX
    ensures DisciplinedRun(Boot(progs), es, id) ==>
      Exclusive(Run(Boot(progs), es), id, HoldersRun(Boot(progs), es, id, multiset{}))
    ensures Conserved(Run(Boot(progs), es), id, LogRun(Boot(progs), es, id, l))
  {
    hide Boot, Exclusive, Conserved, TableOk, Located, SlotsOk, CpuOk, MutexesOk, SemsOk;
    BootLocks(progs, id, l);
    if DisciplinedRun(Boot(progs), es, id) { MutualExclusion(Boot(progs), es, id, multiset{}); }
    Conservation(Boot(progs), es, id, l);
  }
}
