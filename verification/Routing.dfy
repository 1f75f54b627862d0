/** Contexts: what a process finds in its registers when it runs again. */
module Routing {
  import opened Machine
  import opened Invariant
  import opened Preservation
  import opened Runs
  import opened Effects
  import opened SystemCalls

  // The frame kernel_context_exit loads at the end of an interrupt.
  ghost function Resumed(s: State): Frame
    requires Between(s)
  {
    s.procs[s.active].frame
  }

  // No interrupt of the run finds pid active.
  ghost predicate Away(s: State, es: seq<Event>, pid: int)
    requires Between(s) && CanRun(s, es)
    decreases |es|
  {
    es != [] ==> ActivePid(s) != pid && (StepKeeps(s, es[0]); Away(Step(s, es[0]), es[1..], pid))
  }

  // While a process is away, its entry keeps its pid and its frame.
  lemma {:induction false} FrameKept(s: State, es: seq<Event>, e: int)
    requires Between(s) && CanRun(s, es) && 0 <= e < PROC_MAX && s.procs[e].state != NONE
    requires Away(s, es, s.procs[e].pid)
    ensures var p' := Run(s, es).procs[e];
      p'.pid == s.procs[e].pid && p'.state != NONE && p'.frame == s.procs[e].frame
    decreases |es|
  {
    hide TableOk, Located, SlotsOk, CpuOk, MutexesOk, SemsOk, CallOk, Step;
    if es != [] {
      StepEntry(s, es[0], e);
      FrameKept(Step(s, es[0]), es[1..], e);
    }
  }

  // Whatever ran meanwhile, and whether or not its call blocked it, a process resumes with the
  // registers it was interrupted with and the result of its own call in eax.
  lemma ResumesWithResult(s: State, ev: Event, es: seq<Event>)
    requires Between(s) && Enabled(s, ev) && !Exits(s, ev)
    requires Between(Step(s, ev)) && CanRun(Step(s, ev), es) && Away(Step(s, ev), es, ActivePid(s))
    requires ActivePid(Run(Step(s, ev), es)) == ActivePid(s)
    ensures var f := Resumed(Run(Step(s, ev), es));
      if Asks(s, ev) then f == ev.frame.(eax := f.eax) && Answers(s, ev, Step(s, ev), f.eax) else f == ev.frame
  {
    hide TableOk, Located, SlotsOk, CpuOk, MutexesOk, SemsOk, CallOk, Step, Call, PlainAnswer, MutexAnswer, SemAnswer;
    if Asks(s, ev) { StepAnswers(s, ev); }
    StepEntry(s, ev, s.active);
    FrameKept(Step(s, ev), es, s.active);
    SameEntry(Run(Step(s, ev), es), s.active);
  }

  lemma CreatedEntry(s: State, ev: Event)
    requires Between(s) && Enabled(s, ev) && ev.Keyboard? && ev.key.NewProcess? && s.procFree != []
    ensures 0 < s.procFree[0] < PROC_MAX && Between(Step(s, ev))
    ensures var p := Step(s, ev).procs[s.procFree[0]];
      && p.pid == s.nextPid && p.state != NONE && p.frame == ev.key.stack.(eip := ev.key.entry)
      && p.io == NO_IO && p.startTime == s.ticks && p.runTime == 0 && p.sleepTime == 0
  {
    hide TableOk, Located, SlotsOk, CpuOk, MutexesOk, SemsOk;
    var e := s.procFree[0];
    FrameKeeps(s, s.active, ev.frame);
    CreateIs(SaveFrame(s, ev.frame), ev.key.entry, ev.key.stack);
    HandleKeeps(s, ev);
    StepKeeps(s, ev);
    hide KprocCreate;
    var h := Handle(s, ev);
    assert h.procs[e] == NewProc(s, ev.key.entry, ev.key.stack);
    hide Handle;
    RunOthers(h);
    hide SchedulerRun;
    assert Rescheduled(h.procs[e], Step(s, ev).procs[e]);
  }

  // A process starts with the instruction pointer it was created with.
  lemma FirstResume(s: State, ev: Event, es: seq<Event>)
    requires Between(s) && Enabled(s, ev) && ev.Keyboard? && ev.key.NewProcess? && s.procFree != []
    requires Between(Step(s, ev)) && CanRun(Step(s, ev), es) && Away(Step(s, ev), es, s.nextPid)
    requires ActivePid(Run(Step(s, ev), es)) == s.nextPid
    ensures Resumed(Run(Step(s, ev), es)) == ev.key.stack.(eip := ev.key.entry)
  {
    hide TableOk, Located, SlotsOk, CpuOk, MutexesOk, SemsOk, CallOk, Step;
    var e := s.procFree[0];
    CreatedEntry(s, ev);
    FrameKept(Step(s, ev), es, e);
    SameEntry(Run(Step(s, ev), es), e);
  }

  // So do the ten programs the kernel boots with: pid k + 1 is job k.
  lemma FirstResumeFromBoot(progs: Programs, es: seq<Event>, k: nat)
    requires k < |Jobs(progs)| && CanRun(Boot(progs), es) && Away(Boot(progs), es, k + 1)
    requires ActivePid(Run(Boot(progs), es)) == k + 1
    ensures Resumed(Run(Boot(progs), es)) == EMPTY_FRAME.(eip := Jobs(progs)[k].0)
  {
    TenJobs(progs);
    BootProgram(progs, k);
    hide Boot, Jobs, TableOk, Located, SlotsOk, CpuOk, MutexesOk, SemsOk, CallOk, Step;
    FrameKept(Boot(progs), es, k + 1);
    SameEntry(Run(Boot(progs), es), k + 1);
  }
}
