/** How long a sleeper sleeps, over whole runs of the machine. */
module SleepBounds {
  import opened Machine
  import opened Invariant
  import opened Preservation
  import opened Runs
  import opened Effects
  import opened Sleepers
  import opened BoundedDispatch

  function Max(a: int, b: int): int { if a >= b then a else b }

  // Some moment of the run finds pid ready to run, or running.
  ghost predicate Wakes(s: State, es: seq<Event>, pid: int)
    requires Between(s) && CanRun(s, es)
    decreases |es|
  {
    pid in s.runQ || ActivePid(s) == pid || (es != [] && (StepKeeps(s, es[0]); Wakes(Step(s, es[0]), es[1..], pid)))
  }

  // Some moment of the run finds pid awake or with less than t ticks to go.
  ghost predicate Advances(s: State, es: seq<Event>, pid: int, t: int)
    requires Between(s) && CanRun(s, es)
    decreases |es|
  {
    || pid !in s.sleepQ
    || SleepTime(s, pid) < t
    || (es != [] && (StepKeeps(s, es[0]); Advances(Step(s, es[0]), es[1..], pid, t)))
  }

  function Log2(n: nat): (l: nat) {
    if n <= 1 then 0 else 1 + Log2(n / 2)
  }

  lemma {:induction false} Log2Monotone(a: nat, b: nat)
    requires a <= b
    ensures Log2(a) <= Log2(b)
    decreases b
  {
    if a > 1 { Log2Monotone(a / 2, b / 2); }
  }

  // Log2 is the integer logarithm: 2^l <= n < 2^(l + 1).
  function Pow2(e: nat): nat { if e == 0 then 1 else 2 * Pow2(e - 1) }

  lemma {:induction false} Log2IsLog(n: nat)
    requires n >= 1
    ensures Pow2(Log2(n)) <= n < Pow2(Log2(n) + 1)
  {
    if n > 1 { Log2IsLog(n / 2); }
  }

  // ---- Not too early ----

  // One interrupt takes at most one tick off a sleeper, and wakes nobody with more than one to go.
  lemma StepSleeper(s: State, ev: Event, pid: int)
    requires Between(s) && Enabled(s, ev) && pid in s.sleepQ
    requires ev.Tick? ==> SleepTime(s, pid) > 1
    ensures Between(Step(s, ev)) && pid in Step(s, ev).sleepQ
    ensures SleepTime(Step(s, ev), pid) >= SleepTime(s, pid) - (if ev.Tick? then 1 else 0)
  {
    hide TableOk, Located, SlotsOk, CpuOk, MutexesOk, SemsOk, CallOk, Step;
    var k :| 0 <= k < |s.sleepQ| && s.sleepQ[k] == pid;
    if ev.Tick? { StepTick(s, ev, k); } else { StepAsleep(s, ev, k); }
  }

  lemma {:induction false} SleepsAtLeast(s: State, es: seq<Event>, pid: int)
    requires Between(s) && CanRun(s, es) && pid in s.sleepQ
    requires TickCount(es) < Max(SleepTime(s, pid), 1)
    ensures pid in Run(s, es).sleepQ && pid !in Run(s, es).runQ && ActivePid(Run(s, es)) != pid
    ensures SleepTime(Run(s, es), pid) >= SleepTime(s, pid) - TickCount(es)
    decreases |es|
  {
    hide TableOk, Located, SlotsOk, CpuOk, MutexesOk, SemsOk, CallOk, Step;
    if es == [] {
      NotBoth(s, pid);
    } else {
      StepSleeper(s, es[0], pid);
      SleepsAtLeast(Step(s, es[0]), es[1..], pid);
    }
  }

  // ---- Not too late, if nobody else goes to sleep ----

  predicate NoSleepCalls(es: seq<Event>) {
    forall ev :: ev in es ==> !(ev.Syscall? && ev.frame.eax == SYS_SLEEP)
  }

  lemma {:induction false} WakesAlone(s: State, es: seq<Event>, pid: int)
    requires Between(s) && CanRun(s, es) && pid in s.sleepQ && NoSleepCalls(es)
    requires TickCount(es) >= Max(SleepTime(s, pid), 1) + |s.sleepQ| - 1
    ensures Wakes(s, es, pid)
    decreases |es|
  {
    hide TableOk, Located, SlotsOk, CpuOk, MutexesOk, SemsOk, CallOk, Step;
    if es != [] {
      var k :| 0 <= k < |s.sleepQ| && s.sleepQ[k] == pid;
      if es[0].Tick? { StepTick(s, es[0], k); } else { StepAsleep(s, es[0], k); }
      var s' := Step(s, es[0]);
      if pid in s'.sleepQ { WakesAlone(s', es[1..], pid); }
    }
  }

  // ---- Not too late, whoever else goes to sleep ----

  // Ticks before index k is looked at: each tick that passes it over halves its distance.
  function Overtakes(k: nat): nat { Log2(k + 1) + 1 }

  lemma OvertakesShrink(k: nat, k': int)
    requires 0 <= k' && 2 * k' + 1 <= k
    ensures Overtakes(k') < Overtakes(k)
  {
    Log2Monotone(k' + 1, (k + 1) / 2);
  }

  lemma {:induction false} AdvancesWithin(s: State, es: seq<Event>, k: nat)
    requires Between(s) && CanRun(s, es) && k < |s.sleepQ|
    requires TickCount(es) >= Overtakes(k)
    ensures Advances(s, es, s.sleepQ[k], SleepTime(s, s.sleepQ[k]))
    decreases |es|
  {
    hide TableOk, Located, SlotsOk, CpuOk, MutexesOk, SemsOk, CallOk, Step;
    if es != [] {
      var pid := s.sleepQ[k];
      var s' := Step(s, es[0]);
      if es[0].Tick? {
        StepTick(s, es[0], k);
        var v := Visited(s);
        if k >= v {
          OvertakesShrink(k, k - v);
          AdvancesWithin(s', es[1..], k - v);
        }
      } else {
        StepAsleep(s, es[0], k);
        AdvancesWithin(s', es[1..], k);
      }
    }
  }

  lemma SleepQueueFits(s: State)
    requires Inv(s)
    ensures |s.sleepQ| < PROC_MAX
  {
    QueueFits(s, s.sleepQ);
  }

  // Any index of the sleep queue is looked at within this many ticks.
  const SKIP_BOUND := 5

  lemma OvertakesBounded(k: nat)
    requires k < PROC_MAX - 1
    ensures 1 <= Overtakes(k) <= SKIP_BOUND
  {
    Log2Monotone(k + 1, PROC_MAX - 1);
    assert Log2(19) == 1 + Log2(9) && Log2(9) == 1 + Log2(4) && Log2(4) == 1 + Log2(2) && Log2(2) == 1 + Log2(1);
  }

  // Ticks until index k wakes, at the latest.
  ghost function Drowsiness(s: State, k: nat): int
    requires Inv(s) && k < |s.sleepQ|
  {
    SKIP_BOUND * (Max(SleepTime(s, s.sleepQ[k]), 1) - 1) + Overtakes(k)
  }

  lemma StepDrowsy(s: State, ev: Event, k: nat) returns (k': nat)
    requires Between(s) && Enabled(s, ev) && k < |s.sleepQ|
    ensures Between(Step(s, ev))
    ensures var s' := Step(s, ev); var pid := s.sleepQ[k];
      if pid in s'.sleepQ then
        k' < |s'.sleepQ| && s'.sleepQ[k'] == pid &&
        Drowsiness(s', k') <= Drowsiness(s, k) - (if ev.Tick? then 1 else 0)
      else
        ActivePid(s') == pid || pid in s'.runQ
  {
    hide TableOk, Located, SlotsOk, CpuOk, MutexesOk, SemsOk, CallOk, Step;
    var pid := s.sleepQ[k];
    var s' := Step(s, ev);
    k' := k;
    if !ev.Tick? {
      StepAsleep(s, ev, k);
    } else {
      StepTick(s, ev, k);
      if k >= Visited(s) {
        k' := k - Visited(s);
        OvertakesShrink(k, k');
      } else if pid in s'.sleepQ {
        k' :| 0 <= k' < |s'.sleepQ| && s'.sleepQ[k'] == pid;
        SleepQueueFits(s');
        OvertakesBounded(k');
      }
    }
  }

  lemma {:induction false} WakesWithin(s: State, es: seq<Event>, k: nat)
    requires Between(s) && CanRun(s, es) && k < |s.sleepQ|
    requires TickCount(es) >= Drowsiness(s, k)
    ensures Wakes(s, es, s.sleepQ[k])
    decreases |es|
  {
    hide TableOk, Located, SlotsOk, CpuOk, MutexesOk, SemsOk, CallOk, Step;
    if es != [] {
      var k' := StepDrowsy(s, es[0], k);
      var s' := Step(s, es[0]);
      if s.sleepQ[k] in s'.sleepQ { WakesWithin(s', es[1..], k'); }
    }
  }

  // In every run a sleeper is awake, ready or running, by five times its sleep time.
  lemma SleepsAtMost(s: State, es: seq<Event>, pid: int)
    requires Between(s) && CanRun(s, es) && pid in s.sleepQ
    requires TickCount(es) >= SKIP_BOUND * Max(SleepTime(s, pid), 1)
    ensures Wakes(s, es, pid)
  {
    hide TableOk, Located, SlotsOk, CpuOk, MutexesOk, SemsOk;
    var k :| 0 <= k < |s.sleepQ| && s.sleepQ[k] == pid;
    SleepQueueFits(s);
    OvertakesBounded(k);
    WakesWithin(s, es, k);
  }

  // ---- From the sleep call to running again ----

  lemma {:induction false} RunsWithin(s: State, es: seq<Event>, k: nat)
    requires Between(s) && CanRun(s, es) && k < |s.sleepQ|
    requires TickCount(es) >= Drowsiness(s, k) + (PROC_MAX - 1) * SCHEDULER_TIMESLICE
    ensures GetsCpu(s, es, s.sleepQ[k])
    decreases |es|
  {
    hide TableOk, Located, SlotsOk, CpuOk, MutexesOk, SemsOk, CallOk, Step;
    if es != [] {
      var pid := s.sleepQ[k];
      var k' := StepDrowsy(s, es[0], k);
      var s' := Step(s, es[0]);
      if pid in s'.sleepQ {
        RunsWithin(s', es[1..], k');
      } else if pid in s'.runQ {
        DrowsinessBounded(s, k);
        NoStarvation(s', es[1..], pid);
      }
    }
  }

  lemma DrowsinessBounded(s: State, k: nat)
    requires Inv(s) && k < |s.sleepQ|
    ensures Drowsiness(s, k) >= 1
    ensures Drowsiness(s, k) <= SKIP_BOUND * Max(SleepTime(s, s.sleepQ[k]), 1)
  {
    SleepQueueFits(s);
    OvertakesBounded(k);
  }

  // The caller of sleep is asleep for the time it asked for.
  lemma SleepCall(s: State, ev: Event)
    requires Between(s) && Enabled(s, ev) && ev.Syscall? && ev.frame.eax == SYS_SLEEP
    ensures var s' := Step(s, ev); var pid := ActivePid(s);
      Between(s') && pid in s'.sleepQ && SleepTime(s', pid) == TICKS_PER_SECOND * ev.frame.ebx
  {
    hide TableOk, Located, SlotsOk, CpuOk, MutexesOk, SemsOk, Without, PidToProc;
    var pid, e, s', h := ActivePid(s), s.active, Step(s, ev), Handle(s, ev);
    FrameKeeps(s, e, ev.frame);
    SleepIs(SaveFrame(s, ev.frame), ev.frame.ebx);
    StepKeeps(s, ev);
    HandleKeeps(s, ev);
    RunOthers(h);
    hide SchedulerRun;
    assert h.sleepQ[|s.sleepQ|] == pid;
    assert Rescheduled(h.procs[e], s'.procs[e]);
    SleepTimeIs(s', pid, e);
  }

  // A process that sleeps for so many seconds does not run for that long, and runs again before
  // five times that long and one round of the run queue have passed.
  lemma SleepRoundTrip(s: State, ev: Event, es: seq<Event>)
    requires Between(s) && Enabled(s, ev) && ev.Syscall? && ev.frame.eax == SYS_SLEEP
    requires Between(Step(s, ev)) && CanRun(Step(s, ev), es)
    ensures TickCount(es) < Max(TICKS_PER_SECOND * ev.frame.ebx, 1) ==>
      ActivePid(Run(Step(s, ev), es)) != ActivePid(s)
    ensures TickCount(es) >= SKIP_BOUND * Max(TICKS_PER_SECOND * ev.frame.ebx, 1) + (PROC_MAX - 1) * SCHEDULER_TIMESLICE ==>
      GetsCpu(Step(s, ev), es, ActivePid(s))
  {
    hide TableOk, Located, SlotsOk, CpuOk, MutexesOk, SemsOk, CallOk, Step;
    var pid, s' := ActivePid(s), Step(s, ev);
    SleepCall(s, ev);
    if TickCount(es) < Max(TICKS_PER_SECOND * ev.frame.ebx, 1) {
      SleepsAtLeast(s', es, pid);
    }
    if TickCount(es) >= SKIP_BOUND * Max(TICKS_PER_SECOND * ev.frame.ebx, 1) + (PROC_MAX - 1) * SCHEDULER_TIMESLICE {
      var k :| 0 <= k < |s'.sleepQ| && s'.sleepQ[k] == pid;
      DrowsinessBounded(s', k);
      RunsWithin(s', es, k);
    }
  }
}
