/** What every system call answers, told from the state before it and the state after it. */
module SystemCalls {
  import opened Screen
  import opened Machine
  import opened Invariant
  import opened Preservation
  import opened Effects
  import opened Locks
  import opened Streams

  // Mutex id was nobody's and is the caller's now, free and without waiters; no other has changed.
  ghost predicate TakesMutex(ms: seq<Mutex>, ms': seq<Mutex>, id: int) {
    && 0 <= id < |ms| == |ms'| && !ms[id].isAllocated
    && ms'[id].isAllocated && ms'[id].locks == 0 && ms'[id].owner == NULL && ms'[id].wait == []
    && forall i :: 0 <= i < |ms| && i != id ==> ms'[i] == ms[i]
  }

  ghost predicate TakesSem(ms: seq<Sem>, ms': seq<Sem>, id: int, value: int) {
    && 0 <= id < |ms| == |ms'| && !ms[id].isAllocated
    && ms'[id].isAllocated && ms'[id].count == value && ms'[id].wait == []
    && forall i :: 0 <= i < |ms| && i != id ==> ms'[i] == ms[i]
  }

  ghost predicate AllMutexesTaken(ms: seq<Mutex>) {
    forall i :: 0 <= i < |ms| ==> ms[i].isAllocated
  }

  ghost predicate AllSemsTaken(ms: seq<Sem>) {
    forall i :: 0 <= i < |ms| ==> ms[i].isAllocated
  }

  // Calls that touch no lock.
  ghost predicate PlainAnswer(s: State, ev: Event, rc: int)
    requires Between(s) && Enabled(s, ev) && ev.Syscall?
  {
    var number, arg := ev.frame.eax, ev.frame.ebx;
    && (number == SYS_IO_READ ==>
          rc == if CallBuffer(s, ev) == NULL then -1 else |TakenOut(s, ev, CallBuffer(s, ev))|)
    && (number == SYS_IO_WRITE ==> rc == if CallBuffer(s, ev) == NULL then -1 else ev.frame.edx)
    && (number == SYS_IO_FLUSH ==> rc == if CallBuffer(s, ev) == NULL then -1 else 0)
    // Whole seconds since the ticks began.
    && (number == SYS_GET_TIME ==> TICKS_PER_SECOND * rc <= s.ticks < TICKS_PER_SECOND * (rc + 1))
    && (number == SYS_GET_NAME || number == SYS_PROC_NAME ==> rc == if arg == 0 then -1 else 0)
    && (number == SYS_GET_PID ==> rc == ActivePid(s))
  }

  // ms' are the mutexes after the call. A lock or unlock answers how many locks there are then.
  ghost predicate MutexAnswer(s: State, ev: Event, ms': seq<Mutex>, rc: int)
    requires Between(s) && ev.Syscall? && |ms'| == MUTEX_MAX
  {
    var number, id := ev.frame.eax, ev.frame.ebx;
    && (number == SYS_MUTEX_INIT ==>
          if AllMutexesTaken(s.mutexes) then rc == -1 && ms' == s.mutexes else TakesMutex(s.mutexes, ms', rc))
    && (number == SYS_MUTEX_DESTROY ==>
          rc == if MutexReady(s, id) && s.mutexes[id].locks == 0 then 0 else -1)
    && (number == SYS_MUTEX_LOCK || number == SYS_MUTEX_UNLOCK ==>
          rc == if MutexReady(s, id) then ms'[id].locks else -1)
  }

  // A wait or post answers the count after it; a destroy answers -1 in any case.
  ghost predicate SemAnswer(s: State, ev: Event, ms': seq<Sem>, rc: int)
    requires Between(s) && ev.Syscall? && |ms'| == SEM_MAX
  {
    var number, id := ev.frame.eax, ev.frame.ebx;
    && (number == SYS_SEM_INIT ==>
          if AllSemsTaken(s.sems) then rc == -1 && ms' == s.sems else TakesSem(s.sems, ms', rc, id))
    && (number == SYS_SEM_DESTROY ==> rc == -1)
    && (number == SYS_SEM_WAIT || number == SYS_SEM_POST ==>
          rc == if SemReady(s, id) then ms'[id].count else -1)
  }

  // The one right answer to the call made at s that led to s'.
  ghost predicate Answers(s: State, ev: Event, s': State, rc: int)
    requires Between(s) && Enabled(s, ev) && ev.Syscall? && Shaped(s')
  {
    PlainAnswer(s, ev, rc) && MutexAnswer(s, ev, s'.mutexes, rc) && SemAnswer(s, ev, s'.sems, rc)
  }

  // ---- Call by call, from the state the handlers see ----

  ghost predicate Asks(s: State, ev: Event) {
    Between(s) && Enabled(s, ev) && ev.Syscall? && ev.frame.eax != SYS_EXIT && ev.frame.eax != SYS_SLEEP
  }

  lemma CallPlain(s: State, ev: Event)
    requires Asks(s, ev)
    ensures PlainAnswer(s, ev, Call(s, ev.frame, ev.mem).1)
  {
    hide TableOk, Located, SlotsOk, CpuOk, MutexesOk, SemsOk, ConsoleOk, Buffer, SetBuffer;
    hide KmutexInit, KmutexDestroy, KmutexLock, KmutexUnlock, KsemInit, KsemDestroy, KsemWait, KsemPost;
    assert IoOk(s.procs[s.active].io);
  }

  lemma MutexFreeEmpty(s: State)
    requires Inv(s)
    ensures s.mutexFree == [] <==> AllMutexesTaken(s.mutexes)
    ensures s.semFree == [] <==> AllSemsTaken(s.sems)
  {
    hide TableOk, Located, SlotsOk, CpuOk;
    assert s.mutexFree != [] ==> s.mutexFree[0] in multiset(s.mutexFree);
    assert s.semFree != [] ==> s.semFree[0] in multiset(s.semFree);
    if !AllMutexesTaken(s.mutexes) {
      var i :| 0 <= i < MUTEX_MAX && !s.mutexes[i].isAllocated;
      assert i in FreeMutexes(s.mutexes) && i in multiset(s.mutexFree);
    }
    if !AllSemsTaken(s.sems) {
      var i :| 0 <= i < SEM_MAX && !s.sems[i].isAllocated;
      assert i in FreeSems(s.sems) && i in multiset(s.semFree);
    }
  }

  lemma InitMutexAnswer(s: State)
    requires Inv(s)
    ensures var (s', rc) := KmutexInit(s);
      if AllMutexesTaken(s.mutexes) then rc == -1 && s'.mutexes == s.mutexes else TakesMutex(s.mutexes, s'.mutexes, rc)
  {
    MutexFreeEmpty(s);
    if s.mutexFree != [] { MutexesTake(s.mutexes, s.mutexFree, Mutex(true, 0, NULL, [])); }
    hide TableOk, Located, SlotsOk, CpuOk, MutexesOk, SemsOk, AllMutexesTaken, ConsoleOk, IoOk;
  }

  lemma InitSemAnswer(s: State, value: int)
    requires Inv(s)
    ensures var (s', rc) := KsemInit(s, value);
      if AllSemsTaken(s.sems) then rc == -1 && s'.sems == s.sems else TakesSem(s.sems, s'.sems, rc, value)
  {
    MutexFreeEmpty(s);
    if s.semFree != [] { SemsTake(s.sems, s.semFree, Sem(true, value, [])); }
    hide TableOk, Located, SlotsOk, CpuOk, MutexesOk, SemsOk, AllSemsTaken, ConsoleOk, IoOk;
  }

  lemma LockAnswer(s: State, id: int)
    requires Between(s) && ActivePid(s) != 0
    ensures var (s', rc) := KmutexLock(s, id); rc == if MutexReady(s, id) then s'.mutexes[id].locks else -1
    ensures var (s', rc) := KmutexUnlock(s, id); rc == if MutexReady(s, id) then s'.mutexes[id].locks else -1
  {
    hide TableOk, Located, SlotsOk, CpuOk, SemsOk, Enqueue, Without, PidToProc, ConsoleOk, IoOk;
    if MutexReady(s, id) { assert MutexLaw(s.mutexes[id]); }
  }

  lemma WaitAnswer(s: State, id: int)
    requires Between(s) && ActivePid(s) != 0
    ensures var (s', rc) := KsemWait(s, id); rc == if SemReady(s, id) then s'.sems[id].count else -1
    ensures var (s', rc) := KsemPost(s, id); rc == if SemReady(s, id) then s'.sems[id].count else -1
  {
    hide TableOk, Located, SlotsOk, CpuOk, MutexesOk, Enqueue, Without, PidToProc, ConsoleOk, IoOk;
  }

  // Which number is which call.
  lemma LockCalls(s: State, ev: Event)
    requires Asks(s, ev)
    ensures var c, id := Call(s, ev.frame, ev.mem), ev.frame.ebx;
      && (ev.frame.eax == SYS_MUTEX_INIT ==> c == KmutexInit(s))
      && (ev.frame.eax == SYS_MUTEX_DESTROY ==> c == KmutexDestroy(s, id))
      && (ev.frame.eax == SYS_MUTEX_LOCK ==> c == KmutexLock(s, id))
      && (ev.frame.eax == SYS_MUTEX_UNLOCK ==> c == KmutexUnlock(s, id))
      && (ev.frame.eax == SYS_SEM_INIT ==> c == KsemInit(s, id))
      && (ev.frame.eax == SYS_SEM_DESTROY ==> c == KsemDestroy(s, id))
      && (ev.frame.eax == SYS_SEM_WAIT ==> c == KsemWait(s, id))
      && (ev.frame.eax == SYS_SEM_POST ==> c == KsemPost(s, id))
  {
    hide TableOk, Located, SlotsOk, CpuOk, MutexesOk, SemsOk, ConsoleOk, IoOk, IoRead, IoWrite, IoFlush;
    hide KmutexInit, KmutexDestroy, KmutexLock, KmutexUnlock, KsemInit, KsemDestroy, KsemWait, KsemPost;
  }

  lemma CallMutexAnswer(s: State, ev: Event)
    requires Asks(s, ev)
    ensures var (s', rc) := Call(s, ev.frame, ev.mem); MutexAnswer(s, ev, s'.mutexes, rc)
  {
    InitMutexAnswer(s);
    LockAnswer(s, ev.frame.ebx);
    LockCalls(s, ev);
    hide TableOk, Located, SlotsOk, CpuOk, MutexesOk, SemsOk, ConsoleOk, IoOk, Call;
    hide KmutexInit, KmutexLock, KmutexUnlock, KsemInit, KsemDestroy, KsemWait, KsemPost, TakesMutex, AllMutexesTaken;
  }

  lemma CallSemAnswer(s: State, ev: Event)
    requires Asks(s, ev)
    ensures var (s', rc) := Call(s, ev.frame, ev.mem); SemAnswer(s, ev, s'.sems, rc)
  {
    InitSemAnswer(s, ev.frame.ebx);
    WaitAnswer(s, ev.frame.ebx);
    LockCalls(s, ev);
    hide TableOk, Located, SlotsOk, CpuOk, MutexesOk, SemsOk, ConsoleOk, IoOk, Call;
    hide KmutexInit, KmutexDestroy, KmutexLock, KmutexUnlock, KsemInit, KsemWait, KsemPost, TakesSem, AllSemsTaken;
  }

  // ---- The answer in the caller's registers ----

  // Saving the caller's registers changes nothing an answer depends on.
  lemma SavedAnswers(s: State, ev: Event, s': State, rc: int)
    requires Asks(s, ev) && Asks(SaveFrame(s, ev.frame), ev) && Shaped(s')
    requires Answers(SaveFrame(s, ev.frame), ev, s', rc)
    ensures Answers(s, ev, s', rc)
  {
    hide TableOk, Located, SlotsOk, CpuOk, MutexesOk, SemsOk, ConsoleOk, IoOk, Buffer, TakesMutex, TakesSem;
    hide AllMutexesTaken, AllSemsTaken;
    assert SaveFrame(s, ev.frame).procs[s.active].io == s.procs[s.active].io;
  }

  lemma CallAnswers(s: State, ev: Event)
    requires Asks(s, ev)
    ensures Between(SaveFrame(s, ev.frame))
    ensures Answers(s, ev, Call(SaveFrame(s, ev.frame), ev.frame, ev.mem).0, SavedFrame(s, ev).eax)
  {
    hide TableOk, Located, SlotsOk, CpuOk, MutexesOk, SemsOk, ConsoleOk, IoOk, Call, CallOk;
    hide PlainAnswer, MutexAnswer, SemAnswer;
    SavedBetween(s, ev);
    var s1 := SaveFrame(s, ev.frame);
    assert Asks(s1, ev);
    CallPlain(s1, ev);
    CallMutexAnswer(s1, ev);
    CallSemAnswer(s1, ev);
    SavedAnswers(s, ev, Call(s1, ev.frame, ev.mem).0, Call(s1, ev.frame, ev.mem).1);
  }

  lemma NoLockAnswer(s: State, ev: Event, s': State, rc: int)
    requires Asks(s, ev) && ev.frame.eax < SYS_MUTEX_INIT && Shaped(s')
    ensures MutexAnswer(s, ev, s'.mutexes, rc) && SemAnswer(s, ev, s'.sems, rc)
  {
  }

  lemma KeepsEax(s: State, ev: Event)
    requires Asks(s, ev)
    ensures s.procs[s.active].state != NONE && !Exits(s, ev)
    ensures SavedFrame(s, ev) == ev.frame.(eax := SavedFrame(s, ev).eax)
  {
    hide TableOk, Located, SlotsOk, CpuOk, MutexesOk, SemsOk, ConsoleOk, IoOk, Call;
  }

  // Every call leaves its own answer in its caller's eax, and nothing else in its registers.
  lemma StepAnswers(s: State, ev: Event)
    requires Asks(s, ev)
    ensures Between(Step(s, ev))
    ensures var f := Step(s, ev).procs[s.active].frame;
      f == ev.frame.(eax := f.eax) && Answers(s, ev, Step(s, ev), f.eax)
  {
    hide TableOk, Located, SlotsOk, CpuOk, MutexesOk, SemsOk, ConsoleOk, IoOk, Call, Step, SavedFrame;
    CallAnswers(s, ev);
    StepEntry(s, ev, s.active);
    StepLocks(s, ev);
    KeepsEax(s, ev);
    if SYS_MUTEX_INIT <= ev.frame.eax <= SYS_SEM_POST {
      hide PlainAnswer, MutexAnswer, SemAnswer;
    } else {
      NoLockAnswer(s, ev, Step(s, ev), SavedFrame(s, ev).eax);
      hide PlainAnswer, MutexAnswer, SemAnswer;
    }
  }

  // Two answers to one call are the same.
  lemma AnswersUnique(s: State, ev: Event, s': State, a: int, b: int)
    requires Asks(s, ev) && Shaped(s') && Answers(s, ev, s', a) && Answers(s, ev, s', b)
    ensures a == b
  {
    hide TableOk, Located, SlotsOk, CpuOk, MutexesOk, SemsOk, ConsoleOk, IoOk, Buffer;
  }

  // ---- The order in which identifiers are reused ----

  ghost predicate FreesMutex(s: State, ev: Event)
    requires Shaped(s)
  {
    var id := ev.frame.ebx;
    Calls(ev, SYS_MUTEX_DESTROY, id) && MutexReady(s, id) && s.mutexes[id].locks == 0
  }

  ghost predicate FreesSem(s: State, ev: Event)
    requires Shaped(s)
  {
    var id := ev.frame.ebx;
    Calls(ev, SYS_SEM_DESTROY, id) && SemReady(s, id) && s.sems[id].count != 0
  }

  // An init takes the identifier that has been free longest; a destroyed one waits behind all others.
  ghost function FreeAfter(free: seq<int>, takes: bool, frees: bool, id: int): seq<int> {
    if takes && free != [] then free[1..] else if frees then free + [id] else free
  }

  lemma StepAllocators(s: State, ev: Event)
    requires Between(s) && Enabled(s, ev)
    ensures Between(Step(s, ev))
    ensures var s' := Step(s, ev); var number := if ev.Syscall? then ev.frame.eax else 0;
      && s'.mutexFree == FreeAfter(s.mutexFree, number == SYS_MUTEX_INIT, FreesMutex(s, ev), ev.frame.ebx)
      && s'.semFree == FreeAfter(s.semFree, number == SYS_SEM_INIT, FreesSem(s, ev), ev.frame.ebx)
      && (number == SYS_MUTEX_INIT && s.mutexFree != [] ==> s'.procs[s.active].frame.eax == s.mutexFree[0])
      && (number == SYS_SEM_INIT && s.semFree != [] ==> s'.procs[s.active].frame.eax == s.semFree[0])
  {
    hide TableOk, Located, SlotsOk, CpuOk, MutexesOk, SemsOk, ConsoleOk, IoOk, Call, Step;
    StepLocks(s, ev);
    if ev.Syscall? && SYS_MUTEX_INIT <= ev.frame.eax <= SYS_SEM_POST {
      SavedBetween(s, ev);
      StepEntry(s, ev, s.active);
      KeepsEax(s, ev);
      CallAllocators(SaveFrame(s, ev.frame), ev);
    }
  }

  lemma MutexAllocators(s: State, id: int)
    requires Inv(s) && s.active != NULL
    ensures var (s', rc) := KmutexInit(s);
      && s'.mutexFree == FreeAfter(s.mutexFree, true, false, id) && s'.semFree == s.semFree
      && (s.mutexFree != [] ==> rc == s.mutexFree[0])
    ensures var s' := KmutexDestroy(s, id).0; var frees := MutexReady(s, id) && s.mutexes[id].locks == 0;
      s'.mutexFree == FreeAfter(s.mutexFree, false, frees, id) && s'.semFree == s.semFree
    ensures var s' := KmutexLock(s, id).0; s'.mutexFree == s.mutexFree && s'.semFree == s.semFree
    ensures var s' := KmutexUnlock(s, id).0; s'.mutexFree == s.mutexFree && s'.semFree == s.semFree
  {
    IdsFit(s.mutexFree, FreeMutexes(s.mutexes), MUTEX_MAX);
    if s.mutexFree != [] { MutexesTake(s.mutexes, s.mutexFree, Mutex(true, 0, NULL, [])); }
    hide TableOk, Located, SlotsOk, CpuOk, MutexesOk, SemsOk, ConsoleOk, IoOk, Without, PidToProc;
  }

  lemma SemAllocators(s: State, id: int)
    requires Inv(s) && s.active != NULL
    ensures var (s', rc) := KsemInit(s, id);
      && s'.semFree == FreeAfter(s.semFree, true, false, id) && s'.mutexFree == s.mutexFree
      && (s.semFree != [] ==> rc == s.semFree[0])
    ensures var s' := KsemDestroy(s, id).0; var frees := SemReady(s, id) && s.sems[id].count != 0;
      s'.semFree == FreeAfter(s.semFree, false, frees, id) && s'.mutexFree == s.mutexFree
    ensures var s' := KsemWait(s, id).0; s'.mutexFree == s.mutexFree && s'.semFree == s.semFree
    ensures var s' := KsemPost(s, id).0; s'.mutexFree == s.mutexFree && s'.semFree == s.semFree
  {
    IdsFit(s.semFree, FreeSems(s.sems), SEM_MAX);
    if s.semFree != [] { SemsTake(s.sems, s.semFree, Sem(true, 0, [])); }
    hide TableOk, Located, SlotsOk, CpuOk, MutexesOk, SemsOk, ConsoleOk, IoOk, Without, PidToProc;
  }

  lemma CallAllocators(s: State, ev: Event)
    requires Asks(s, ev) && SYS_MUTEX_INIT <= ev.frame.eax <= SYS_SEM_POST
    ensures var (s', rc) := Call(s, ev.frame, ev.mem);
      && s'.mutexFree == FreeAfter(s.mutexFree, ev.frame.eax == SYS_MUTEX_INIT, FreesMutex(s, ev), ev.frame.ebx)
      && s'.semFree == FreeAfter(s.semFree, ev.frame.eax == SYS_SEM_INIT, FreesSem(s, ev), ev.frame.ebx)
      && (ev.frame.eax == SYS_MUTEX_INIT && s.mutexFree != [] ==> rc == s.mutexFree[0])
      && (ev.frame.eax == SYS_SEM_INIT && s.semFree != [] ==> rc == s.semFree[0])
  {
    LockCalls(s, ev);
    MutexAllocators(s, ev.frame.ebx);
    SemAllocators(s, ev.frame.ebx);
    hide TableOk, Located, SlotsOk, CpuOk, MutexesOk, SemsOk, ConsoleOk, IoOk, Call;
    hide KmutexInit, KmutexDestroy, KmutexLock, KmutexUnlock, KsemInit, KsemDestroy, KsemWait, KsemPost;
  }
}
