/** The sleep queue: what one tick does to it, and how long sleepers really sleep. */
module Sleepers {
  import opened Screen
  import opened Machine
  import opened Invariant
  import opened Preservation
  import opened Effects

  // ---- One pass over the queue ----

  lemma {:induction false} ExpiredAppend(procs: seq<Proc>, q: seq<int>, pid: int)
    ensures Expired(procs, q + [pid]) == Expired(procs, q) + (if Expires(procs, pid) then [pid] else [])
    decreases |q|
  {
    hide Expires;
    if q == [] {
      assert [pid][1..] == [];
    } else {
      var head := if Expires(procs, q[0]) then [q[0]] else [];
      ExpiredAppend(procs, q[1..], pid);
      assert (q + [pid])[1..] == q[1..] + [pid];
      assert Expired(procs, q + [pid]) == head + Expired(procs, q[1..] + [pid]);
    }
  }

  lemma {:induction false} VisitsStop(procs: seq<Proc>, q: seq<int>, i: nat, woken: nat)
    requires i <= |q| && woken == |Expired(procs, q[..i])|
    ensures var v := Visits(procs, q, i, woken);
      && v + |Expired(procs, q[..v])| >= |q|
      && (v == i || v - 1 + |Expired(procs, q[..v - 1])| < |q|)
    decreases |q| - i
  {
    hide Expires;
    if i < |q| - woken {
      assert q[..i + 1] == q[..i] + [q[i]];
      ExpiredAppend(procs, q[..i], q[i]);
      hide Expired;
      VisitsStop(procs, q, i + 1, if Expires(procs, q[i]) then woken + 1 else woken);
    }
  }

  lemma {:induction false} ExpiredGrows(procs: seq<Proc>, q: seq<int>, i: nat, j: nat)
    requires i <= j <= |q|
    ensures |Expired(procs, q[..i])| <= |Expired(procs, q[..j])|
    decreases j - i
  {
    if i < j {
      ExpiredGrows(procs, q, i, j - 1);
      assert q[..j] == q[..j - 1] + [q[j - 1]];
      ExpiredAppend(procs, q[..j - 1], q[j - 1]);
    }
  }

  // The loop stops at the first position i that, with those woken before it, covers the queue.
  lemma PassLength(s: State)
    ensures var v := Visited(s);
      && v + |Expired(s.procs, s.sleepQ[..v])| >= |s.sleepQ|
      && (forall i :: 0 <= i < v ==> i + |Expired(s.procs, s.sleepQ[..i])| < |s.sleepQ|)
  {
    var q := s.sleepQ;
    var v := Visited(s);
    assert q[..0] == [];
    VisitsStop(s.procs, q, 0, 0);
    forall i | 0 <= i < v ensures i + |Expired(s.procs, q[..i])| < |q| {
      ExpiredGrows(s.procs, q, i, v - 1);
    }
  }

  // At least half of the sleepers are looked at, and whoever is passed over owes it to one who woke.
  lemma PassHalf(s: State)
    ensures 2 * Visited(s) >= |s.sleepQ|
    ensures Visited(s) < |s.sleepQ| ==> |Expired(s.procs, s.sleepQ[..Visited(s)])| > 0
  {
    PassLength(s);
  }

  lemma {:induction false} NobodyExpires(procs: seq<Proc>, q: seq<int>)
    requires forall pid :: pid in q ==> !Expires(procs, pid)
    ensures Expired(procs, q) == [] && StillAsleep(procs, q) == q
  {
    if q != [] { NobodyExpires(procs, q[1..]); }
  }

  // Exactly who is looked at: index k, if those in front of it who wake leave the queue longer than k.
  lemma VisitedExactly(s: State, k: nat)
    requires k < |s.sleepQ|
    ensures k < Visited(s) <==> k + |Expired(s.procs, s.sleepQ[..k])| < |s.sleepQ|
  {
    PassLength(s);
    if k >= Visited(s) { ExpiredGrows(s.procs, s.sleepQ, Visited(s), k); }
  }

  // Exactly when everyone is: nobody wakes, except perhaps the last in the queue.
  lemma EveryoneVisited(s: State)
    requires s.sleepQ != []
    ensures Visited(s) == |s.sleepQ| <==> Expired(s.procs, s.sleepQ[..|s.sleepQ| - 1]) == []
  {
    VisitedExactly(s, |s.sleepQ| - 1);
  }

  // A tick on which nobody wakes visits everyone and leaves the order as it was.
  lemma QuietPass(s: State)
    requires forall pid :: pid in s.sleepQ ==> !Expires(s.procs, pid)
    ensures Visited(s) == |s.sleepQ|
    ensures QueuesAfterPass(s) == (s.sleepQ, s.runQ)
  {
    var v := Visited(s);
    NobodyExpires(s.procs, s.sleepQ[..v]);
    PassLength(s);
    assert s.sleepQ[..v] == s.sleepQ;
    assert s.sleepQ[v..] + s.sleepQ == s.sleepQ && s.runQ + [] == s.runQ;
  }

  // The two queues after a pass.
  function QueuesAfterPass(s: State): (seq<int>, seq<int>) {
    var q, v := s.sleepQ, Visited(s);
    (q[v..] + StillAsleep(s.procs, q[..v]), s.runQ + Expired(s.procs, q[..v]))
  }

  lemma {:induction false} ExpiredMembers(procs: seq<Proc>, q: seq<int>, pid: int)
    ensures pid in Expired(procs, q) <==> pid in q && Expires(procs, pid)
    ensures pid in StillAsleep(procs, q) <==> pid in q && !Expires(procs, pid)
    ensures |Expired(procs, q)| + |StillAsleep(procs, q)| == |q|
  {
    if q != [] { ExpiredMembers(procs, q[1..], pid); }
  }

  // ---- The pass, one sleeper at a time ----

  // The state after the loop has looked at the first i sleepers.
  function PassState(s: State, i: nat): (r: State)
    requires Shaped(s) && i <= |s.sleepQ|
    ensures Shaped(r)
  {
    var q := s.sleepQ;
    s.(procs := Decrement(s.procs, q[..i]),
       sleepQ := q[i..] + StillAsleep(s.procs, q[..i]),
       runQ := s.runQ + Expired(s.procs, q[..i]))
  }

  lemma PassStart(s: State)
    requires Shaped(s)
    ensures PassState(s, 0) == s
  {
    var q := s.sleepQ;
    assert q[..0] == [] && q[0..] + [] == q && s.runQ + [] == s.runQ;
    assert Decrement(s.procs, []) == s.procs;
  }

  // The loop goes on exactly while it is short of the sleepers Visits counts.
  lemma {:induction false} PassGoesOn(s: State, i: nat, woken: nat)
    requires i <= |s.sleepQ| && woken == |Expired(s.procs, s.sleepQ[..i])|
    ensures |s.sleepQ[i..] + StillAsleep(s.procs, s.sleepQ[..i])| == |s.sleepQ| - woken
    ensures Visits(s.procs, s.sleepQ, i, woken) ==
      if i < |s.sleepQ| - woken then
        Visits(s.procs, s.sleepQ, i + 1, |Expired(s.procs, s.sleepQ[..i + 1])|)
      else i
  {
    var q := s.sleepQ;
    ExpiredMembers(s.procs, q[..i], 0);
    if i < |q| - woken {
      assert q[..i + 1] == q[..i] + [q[i]];
      ExpiredAppend(s.procs, q[..i], q[i]);
    }
  }

  lemma {:induction false} StillAsleepAppend(procs: seq<Proc>, q: seq<int>, pid: int)
    ensures StillAsleep(procs, q + [pid]) == StillAsleep(procs, q) + (if Expires(procs, pid) then [] else [pid])
    decreases |q|
  {
    hide Expires;
    if q == [] {
      assert [pid][1..] == [];
    } else {
      var head := if Expires(procs, q[0]) then [] else [q[0]];
      StillAsleepAppend(procs, q[1..], pid);
      assert (q + [pid])[1..] == q[1..] + [pid];
      assert StillAsleep(procs, q + [pid]) == head + StillAsleep(procs, q[1..] + [pid]);
    }
  }

  // A pid met for the first time: its process alone loses a tick.
  lemma DecrementNext(procs: seq<Proc>, q: seq<int>, pid: int)
    requires pid !in q
    ensures var e := PidToProc(procs, pid); var now := Decrement(procs, q);
      Decrement(procs, q + [pid]) == (if e == NULL then now else now[e := now[e].(sleepTime := now[e].sleepTime - 1)])
  {
    var e := PidToProc(procs, pid);
    var now := Decrement(procs, q);
    assert e != NULL ==> procs[e].pid == pid;
  }

  // One turn of the loop: whoever is at the head loses a tick, and wakes or lines up again.
  predicate CanTurn(s: State) {
    Shaped(s) && s.sleepQ != [] && PidToProc(s.procs, s.sleepQ[0]) != NULL
  }

  function Turn(s: State): State
    requires CanTurn(s)
  {
    var pid := s.sleepQ[0];
    var e := PidToProc(s.procs, pid);
    var p := s.procs[e].(sleepTime := s.procs[e].sleepTime - 1);
    if p.sleepTime <= 0 then
      s.(procs := s.procs[e := p], sleepQ := s.sleepQ[1..], runQ := Enqueue(s.runQ, pid))
    else
      s.(procs := s.procs[e := p], sleepQ := Enqueue(s.sleepQ[1..], pid))
  }

  lemma PassStep(s: State, i: nat)
    requires Inv(s) && i < |s.sleepQ|
    ensures CanTurn(PassState(s, i)) && PassState(s, i + 1) == Turn(PassState(s, i))
  {
    hide TableOk, Located, SlotsOk, CpuOk, MutexesOk, SemsOk, ConsoleOk;
    var q, pid, a := s.sleepQ, s.sleepQ[i], PassState(s, i);
    PassProcs(s, i);
    PassQueues(s, i);
    PassRoom(s, i);
    DecrementedTime(s, i);
    SamePidToProc(s.procs, a.procs, pid);
    hide PidToProc, Decrement, StillAsleep, Expired;
  }

  lemma PassProcs(s: State, i: nat)
    requires Inv(s) && i < |s.sleepQ|
    ensures var a, b, e := PassState(s, i).procs, PassState(s, i + 1).procs, PidToProc(s.procs, s.sleepQ[i]);
      e > 0 && b == a[e := a[e].(sleepTime := a[e].sleepTime - 1)]
  {
    assert s.sleepQ[..i + 1] == s.sleepQ[..i] + [s.sleepQ[i]];
    SleeperOnce(s, i);
    SleeperEntry(s, s.sleepQ[i]);
    hide TableOk, Located, SlotsOk, CpuOk, MutexesOk, SemsOk, ConsoleOk, IoOk;
    DecrementNext(s.procs, s.sleepQ[..i], s.sleepQ[i]);
    hide PidToProc, Decrement;
  }

  lemma PassQueues(s: State, i: nat)
    requires Shaped(s) && i < |s.sleepQ|
    ensures var a, b, pid := PassState(s, i), PassState(s, i + 1), s.sleepQ[i];
      && a.sleepQ != [] && a.sleepQ[0] == pid
      && if Expires(s.procs, pid) then b.sleepQ == a.sleepQ[1..] && b.runQ == a.runQ + [pid]
         else b.sleepQ == a.sleepQ[1..] + [pid] && b.runQ == a.runQ
  {
    var q, pid := s.sleepQ, s.sleepQ[i];
    assert q[..i + 1] == q[..i] + [pid];
    ExpiredAppend(s.procs, q[..i], pid);
    StillAsleepAppend(s.procs, q[..i], pid);
    hide Expires, StillAsleep, Expired;
    assert PassState(s, i).sleepQ[1..] == q[i + 1..] + StillAsleep(s.procs, q[..i]);
  }

  lemma DecrementedTime(s: State, i: nat)
    requires Inv(s) && i < |s.sleepQ|
    ensures var e := PidToProc(s.procs, s.sleepQ[i]);
      e > 0 && Decrement(s.procs, s.sleepQ[..i])[e].sleepTime == s.procs[e].sleepTime
  {
    SleeperEntry(s, s.sleepQ[i]);
    SleeperOnce(s, i);
  }

  lemma SleeperOnce(s: State, i: nat)
    requires Inv(s) && i < |s.sleepQ|
    ensures s.sleepQ[i] !in s.sleepQ[..i]
  {
    var q, pid := s.sleepQ, s.sleepQ[i];
    assert multiset(q)[pid] <= 1 by { PlaceOnce(s, pid); }
    hide Inv;
    OnceSplit(q, i, i);
  }

  lemma PassRoom(s: State, i: nat)
    requires Inv(s) && i < |s.sleepQ|
    ensures |PassState(s, i).sleepQ| <= |s.sleepQ| < PROC_MAX && |PassState(s, i).runQ| < PROC_MAX
  {
    ExpiredMembers(s.procs, s.sleepQ[..i], 0);
    PlacesFit(s);
    SmallerBag(multiset(s.runQ) + multiset(s.sleepQ), Places(s));
    assert |multiset(s.runQ) + multiset(s.sleepQ)| == |s.runQ| + |s.sleepQ|;
  }

  // ---- The pass inside a timer interrupt ----

  ghost predicate SameSleepTimes(a: seq<Proc>, b: seq<Proc>) {
    SamePids(a, b) && forall e :: 0 <= e < |a| ==> a[e].sleepTime == b[e].sleepTime
  }

  lemma SameExpires(a: seq<Proc>, b: seq<Proc>, pid: int)
    requires SameSleepTimes(a, b)
    ensures Expires(a, pid) == Expires(b, pid)
  {
    SamePidToProc(a, b, pid);
  }

  lemma {:induction false} SameExpired(a: seq<Proc>, b: seq<Proc>, q: seq<int>)
    requires SameSleepTimes(a, b)
    ensures Expired(a, q) == Expired(b, q) && StillAsleep(a, q) == StillAsleep(b, q)
  {
    if q != [] {
      SameExpires(a, b, q[0]);
      SameExpired(a, b, q[1..]);
    }
  }

  lemma {:induction false} SameVisits(a: seq<Proc>, b: seq<Proc>, q: seq<int>, i: nat, woken: nat)
    requires SameSleepTimes(a, b) && i <= |q|
    ensures Visits(a, q, i, woken) == Visits(b, q, i, woken)
    decreases |q| - i
  {
    if i < |q| - woken {
      SameExpires(a, b, q[i]);
      SameVisits(a, b, q, i + 1, if Expires(a, q[i]) then woken + 1 else woken);
    }
  }

  // The state the pass starts from: the frame saved, the screen refreshed, the tick charged.
  ghost function AtPass(s: State, frame: Frame): (r: State)
    requires Shaped(s)
    ensures Shaped(r)
  {
    var s := SaveFrame(s, frame);
    var s := s.(ticks := s.ticks + 1);
    ChargeActive(if s.ticks % REFRESH_INTERVAL == 0 then s.(con := Refresh(s.con)) else s)
  }

  lemma AtPassInv(s: State, frame: Frame)
    requires Between(s)
    ensures Inv(AtPass(s, frame))
  {
    hide TableOk, Located, SlotsOk, CpuOk, MutexesOk, SemsOk, Refresh, ChargeActive;
    FrameKeeps(s, s.active, frame);
    var s1 := SaveFrame(s, frame);
    var con := if (s1.ticks + 1) % REFRESH_INTERVAL == 0 then Refresh(s1.con) else s1.con;
    ConsoleKeeps(s1, con, s1.ticks + 1);
    ChargeKeeps(s1.(con := con, ticks := s1.ticks + 1));
  }

  lemma AtPassSame(s: State, frame: Frame)
    requires Between(s)
    ensures var s' := AtPass(s, frame);
      SameSleepTimes(s.procs, s'.procs) && s'.sleepQ == s.sleepQ && s'.runQ == s.runQ && s'.active == s.active
  {
    hide TableOk, Located, SlotsOk, CpuOk, MutexesOk, SemsOk, Refresh;
  }

  lemma PassSame(s: State, s': State)
    requires Shaped(s) && Shaped(s') && SameSleepTimes(s.procs, s'.procs)
    requires s'.sleepQ == s.sleepQ && s'.runQ == s.runQ
    ensures Visited(s') == Visited(s)
    ensures var w := WakeSleepers(s'); (w.sleepQ, w.runQ) == QueuesAfterPass(s)
  {
    SameVisits(s.procs, s'.procs, s.sleepQ, 0, 0);
    SameExpired(s.procs, s'.procs, s.sleepQ[..Visited(s)]);
  }

  lemma Decremented(procs: seq<Proc>, nextPid: int, q: seq<int>, e: int)
    requires |procs| == PROC_MAX && TableOk(procs, nextPid) && 0 <= e < PROC_MAX && procs[e].state != NONE
    ensures var p, p' := procs[e], Decrement(procs, q)[e];
      p' == p.(sleepTime := p.sleepTime - (if p.pid in q then 1 else 0))
  {
    LookupEntry(procs, nextPid, e);
  }

  lemma TickHandled(s: State, ev: Event)
    requires Shaped(s) && 0 <= s.active && ev.Tick?
    ensures Handle(s, ev) == WakeSleepers(AtPass(s, ev.frame))
  {
    hide WakeSleepers, ChargeActive, Refresh, ConsoleOk, IoOk;
  }

  // A tick takes exactly one off each visited sleeper and nothing off anyone else.
  lemma TickPass(s: State, ev: Event)
    requires Between(s) && ev.Tick?
    ensures var h := Handle(s, ev);
      && (h.sleepQ, h.runQ) == QueuesAfterPass(s)
      && forall e :: 0 < e < PROC_MAX && s.procs[e].state != NONE ==>
           h.procs[e].pid == s.procs[e].pid && h.procs[e].state != NONE &&
           h.procs[e].sleepTime == s.procs[e].sleepTime - (if s.procs[e].pid in s.sleepQ[..Visited(s)] then 1 else 0)
  {
    var s' := AtPass(s, ev.frame);
    AtPassSame(s, ev.frame);
    PassSame(s, s');
    SamePidsKeep(s.procs, s'.procs, s.nextPid);
    TickHandled(s, ev);
    var q := s.sleepQ[..Visited(s)];
    assert WakeSleepers(s').procs == Decrement(s'.procs, q);
    hide Handle, AtPass, Located, SlotsOk, CpuOk, MutexesOk, SemsOk, Machine.WakeSleepers, Visited, QueuesAfterPass;
    forall e | 0 < e < PROC_MAX && s.procs[e].state != NONE
      ensures var p := s'.procs[e];
        Decrement(s'.procs, q)[e] == p.(sleepTime := p.sleepTime - (if p.pid in q then 1 else 0))
    {
      Decremented(s'.procs, s.nextPid, q, e);
    }
    hide TableOk, Decrement;
  }

  // ---- Following one sleeper ----

  ghost function SleepTime(s: State, pid: int): int
    requires Inv(s) && pid in s.sleepQ
  {
    SleeperEntry(s, pid);
    s.procs[PidToProc(s.procs, pid)].sleepTime
  }

  lemma SleeperEntry(s: State, pid: int)
    requires Inv(s) && pid in s.sleepQ
    ensures var e := PidToProc(s.procs, pid);
      e > 0 && s.procs[e].pid == pid && s.procs[e].state != NONE && e != s.active
  {
    PlaceOnce(s, pid);
    LookupPid(s.procs, s.nextPid, pid);
  }

  lemma NotBoth(s: State, pid: int)
    requires Inv(s) && pid in s.sleepQ
    ensures pid !in s.runQ && (s.active != NULL ==> ActivePid(s) != pid)
  {
    SleeperEntry(s, pid);
    PlaceOnce(s, pid);
  }

  // Where index k of the sleep queue is after an interrupt that is not a tick.
  lemma StepAsleep(s: State, ev: Event, k: nat)
    requires Between(s) && Enabled(s, ev) && k < |s.sleepQ| && !ev.Tick?
    ensures Between(Step(s, ev))
    ensures var s' := Step(s, ev);
      && k < |s'.sleepQ| && s'.sleepQ[k] == s.sleepQ[k]
      && SleepTime(s', s.sleepQ[k]) == SleepTime(s, s.sleepQ[k])
      && (!(ev.Syscall? && ev.frame.eax == SYS_SLEEP) ==> s'.sleepQ == s.sleepQ)
  {
    hide TableOk, Located, SlotsOk, CpuOk, MutexesOk, SemsOk, CallOk;
    var pid := s.sleepQ[k];
    var s' := Step(s, ev);
    StepKeeps(s, ev);
    HandleKeeps(s, ev);
    HandleSleepQ(s, ev);
    HandleOthers(s, ev);
    RunOthers(Handle(s, ev));
    hide Handle, SchedulerRun, PidToProc;
    SleeperEntry(s, pid);
    var e := PidToProc(s.procs, pid);
    assert Untouched(s.procs[e], Handle(s, ev).procs[e], false);
    assert Rescheduled(Handle(s, ev).procs[e], s'.procs[e]);
    LookupEntry(s'.procs, s'.nextPid, e);
  }

  // What a whole tick makes of the queues and of one sleeper's time.
  lemma StepPass(s: State, ev: Event, k: nat)
    requires Between(s) && k < |s.sleepQ| && ev.Tick?
    ensures Between(Step(s, ev))
    ensures var s' := Step(s, ev); var pid, v := s.sleepQ[k], Visited(s);
      && s'.sleepQ == QueuesAfterPass(s).0
      && (pid in s'.sleepQ ==> SleepTime(s', pid) == SleepTime(s, pid) - (if k < v then 1 else 0))
      && (pid in QueuesAfterPass(s).1 ==> ActivePid(s') == pid || pid in s'.runQ)
  {
    hide TableOk, Located, SlotsOk, CpuOk, MutexesOk, SemsOk;
    var s', h, pid := Step(s, ev), Handle(s, ev), s.sleepQ[k];
    StepKeeps(s, ev);
    HandleKeeps(s, ev);
    TickPass(s, ev);
    RunOthers(h);
    RunPicks(h);
    hide Handle, SchedulerRun, PidToProc, Visited, QueuesAfterPass;
    SleeperEntry(s, pid);
    var e := PidToProc(s.procs, pid);
    assert Rescheduled(h.procs[e], s'.procs[e]);
    TickPosition(s, k);
    SleepTimeIs(s', pid, e);
    if pid in h.runQ { ReadyIsPlaced(h, pid); }
  }

  // Where index k is after a tick: closer to the head with the same time to go, or one tick
  // nearer to waking, or awake.
  lemma StepTick(s: State, ev: Event, k: nat)
    requires Between(s) && k < |s.sleepQ| && ev.Tick?
    ensures Between(Step(s, ev))
    ensures var s' := Step(s, ev); var pid := s.sleepQ[k]; var t := SleepTime(s, pid); var v := Visited(s);
      && |s'.sleepQ| <= |s.sleepQ|
      && (k >= v ==>
            2 * (k - v) + 1 <= k && |s'.sleepQ| < |s.sleepQ| &&
            k - v < |s'.sleepQ| && s'.sleepQ[k - v] == pid && SleepTime(s', pid) == t)
      && (k < v && t > 1 ==> pid in s'.sleepQ && SleepTime(s', pid) == t - 1)
      && (k < v && t <= 1 ==> pid !in s'.sleepQ && (ActivePid(s') == pid || pid in s'.runQ))
  {
    hide TableOk, Located, SlotsOk, CpuOk, MutexesOk, SemsOk, Step;
    var pid, v := s.sleepQ[k], Visited(s);
    StepPass(s, ev, k);
    PassHalf(s);
    hide Visited;
    SleeperEntry(s, pid);
    ExpiredMembers(s.procs, s.sleepQ[..v], pid);
    TickPosition(s, k);
  }

  lemma SleepTimeIs(s: State, pid: int, e: int)
    requires Inv(s) && 0 <= e < PROC_MAX && s.procs[e].state != NONE && s.procs[e].pid == pid
    ensures pid in s.sleepQ ==> SleepTime(s, pid) == s.procs[e].sleepTime
  {
    LookupEntry(s.procs, s.nextPid, e);
  }

  lemma OnceSplit(q: seq<int>, v: nat, k: nat)
    requires v <= |q| && k < |q| && multiset(q)[q[k]] <= 1
    ensures (k < v <==> q[k] in q[..v]) && (k >= v <==> q[k] in q[v..])
  {
    assert q == q[..v] + q[v..];
    assert multiset(q)[q[k]] == multiset(q[..v])[q[k]] + multiset(q[v..])[q[k]];
    if k < v { assert q[..v][k] == q[k]; } else { assert q[v..][k - v] == q[k]; }
  }

  // A sleeper is in the queue once: before the cut or behind it.
  lemma TickPosition(s: State, k: nat)
    requires Inv(s) && k < |s.sleepQ|
    ensures var v := Visited(s); (k < v <==> s.sleepQ[k] in s.sleepQ[..v]) && (k >= v <==> s.sleepQ[k] in s.sleepQ[v..])
  {
    var q, v, pid := s.sleepQ, Visited(s), s.sleepQ[k];
    assert multiset(q)[pid] <= 1 by { PlaceOnce(s, pid); }
    hide Inv, Visited;
    OnceSplit(q, v, k);
  }

  // A whole tick takes one off the time of every sleeper if and only if nobody but the last wakes.
  lemma EveryoneCharged(s: State, ev: Event)
    requires Between(s) && ev.Tick? && s.sleepQ != []
    ensures Between(Step(s, ev))
    ensures (forall k :: 0 <= k < |s.sleepQ| ==> Charged(s, Step(s, ev), s.sleepQ[k]))
       <==> Expired(s.procs, s.sleepQ[..|s.sleepQ| - 1]) == []
  {
    hide TableOk, Located, SlotsOk, CpuOk, MutexesOk, SemsOk, Step, Expired, Visited;
    StepKeeps(s, ev);
    EveryoneVisited(s);
    forall k | 0 <= k < |s.sleepQ| ensures Charged(s, Step(s, ev), s.sleepQ[k]) <==> k < Visited(s) {
      ChargedExactly(s, ev, k);
    }
    if Visited(s) < |s.sleepQ| { assert !Charged(s, Step(s, ev), s.sleepQ[Visited(s)]); }
  }

  ghost predicate Charged(s: State, s': State, pid: int)
    requires Inv(s) && Shaped(s') && pid in s.sleepQ
  {
    SleeperEntry(s, pid);
    s'.procs[PidToProc(s.procs, pid)].sleepTime == SleepTime(s, pid) - 1
  }

  lemma ChargedExactly(s: State, ev: Event, k: nat)
    requires Between(s) && ev.Tick? && k < |s.sleepQ|
    ensures Charged(s, Step(s, ev), s.sleepQ[k]) <==> k < Visited(s)
  {
    hide TableOk, Located, SlotsOk, CpuOk, MutexesOk, SemsOk;
    HandleKeeps(s, ev);
    TickPass(s, ev);
    RunOthers(Handle(s, ev));
    SleeperEntry(s, s.sleepQ[k]);
    TickPosition(s, k);
    var e := PidToProc(s.procs, s.sleepQ[k]);
    hide Handle, SchedulerRun, PidToProc, Visited, QueuesAfterPass;
    assert Rescheduled(Handle(s, ev).procs[e], Step(s, ev).procs[e]);
  }
}
