/** The bytes between processes and terminals: over a run nothing a ring buffer accepted is lost,
    duplicated or reordered before somebody takes it out. */
module Streams {
  import opened Screen
  import opened Machine
  import opened Invariant
  import opened Preservation
  import opened Runs
  import opened Effects
  import opened Tapes
  import opened Terminals

  // The ring buffer an input/output call of the active process is about, or NULL.
  ghost function CallBuffer(s: State, ev: Event): int
    requires Between(s)
  {
    if ev.Syscall? && SYS_IO_READ <= ev.frame.eax <= SYS_IO_FLUSH && 0 <= ev.frame.ebx < PROC_IO_MAX then
      s.procs[s.active].io[ev.frame.ebx]
    else NULL
  }

  function IfRoom(q: seq<Char>, bytes: seq<Char>): seq<Char> {
    if |q| + |bytes| > RINGBUF_SIZE then [] else bytes
  }

  // What one interrupt puts into buffer b: a write that fits, or a typed character.
  ghost function PutIn(s: State, ev: Event, b: int): seq<Char>
    requires Between(s) && Enabled(s, ev) && 0 <= b < 2 * TTY_MAX
  {
    var q := Buffer(s.con, b);
    if CallBuffer(s, ev) == b && ev.frame.eax == SYS_IO_WRITE then
      IfRoom(q, ev.mem[..ev.frame.edx])
    else if ev.Keyboard? && ev.key.Typed? && b / 2 == s.con.active && (b % 2 == 0 || s.con.ttys[b / 2].echo) then
      IfRoom(q, [ev.key.c])
    else []
  }

  // What one interrupt takes out of it: a read's share, or everything by a flush or a repaint.
  ghost function TakenOut(s: State, ev: Event, b: int): seq<Char>
    requires Between(s) && Enabled(s, ev) && 0 <= b < 2 * TTY_MAX
  {
    var q := Buffer(s.con, b);
    if CallBuffer(s, ev) == b && ev.frame.eax == SYS_IO_READ then q[..Min(ev.frame.edx, |q|)]
    else if CallBuffer(s, ev) == b && ev.frame.eax == SYS_IO_FLUSH then q
    else if Refreshes(s, ev) && b == 2 * s.con.active + 1 then q
    else []
  }

  lemma SetBufferOther(c: Console, b: int, d: int, q: seq<Char>)
    requires ConsoleOk(c) && 0 <= b < 2 * TTY_MAX && 0 <= d < 2 * TTY_MAX && |q| <= RINGBUF_SIZE
    ensures Buffer(SetBuffer(c, b, q), d) == if d == b then q else Buffer(c, d)
  {
  }

  lemma BufferFits(c: Console, b: int)
    requires ConsoleOk(c) && 0 <= b < 2 * TTY_MAX
    ensures |Buffer(c, b)| <= RINGBUF_SIZE
  {
  }

  lemma CallStream(s: State, ev: Event, b: int)
    requires Between(s) && Enabled(s, ev) && ev.Syscall? && 0 <= b < 2 * TTY_MAX
    requires ev.frame.eax != SYS_EXIT && ev.frame.eax != SYS_SLEEP
    ensures Buffer(s.con, b) + PutIn(s, ev, b) == TakenOut(s, ev, b) + Buffer(Call(s, ev.frame, ev.mem).0.con, b)
  {
    hide TableOk, Located, SlotsOk, CpuOk, MutexesOk, SemsOk, TtyOk, SetBuffer, Buffer, PidToProc, Without, Enqueue;
    var f, c := ev.frame, CallBuffer(s, ev);
    var q := Buffer(s.con, b);
    assert IoOk(s.procs[s.active].io);
    if c != NULL {
      var at := Buffer(s.con, c);
      BufferFits(s.con, c);
      if f.eax == SYS_IO_WRITE {
        SetBufferOther(s.con, c, b, Accept(at, ev.mem[..f.edx]));
      } else if f.eax == SYS_IO_READ {
        SetBufferOther(s.con, c, b, at[Min(f.edx, |at|)..]);
        assert q == q[..Min(f.edx, |q|)] + q[Min(f.edx, |q|)..];
      } else {
        SetBufferOther(s.con, c, b, []);
      }
    }
    assert q + [] == [] + q;
  }

  // A repaint empties the selected terminal's output; a typed character goes where it should.
  lemma RefreshBuffer(c: Console, b: int)
    requires ConsoleOk(c) && 0 <= b < 2 * TTY_MAX
    ensures Buffer(Refresh(c), b) == if b == 2 * c.active + 1 then [] else Buffer(c, b)
  {
    hide TtyOk, ColorsOk, Render;
  }

  lemma KeyBuffer(c: Console, b: int, n: int, ch: Char)
    requires ConsoleOk(c) && 0 <= b < 2 * TTY_MAX
    ensures Buffer(Select(c, n), b) == Buffer(c, b)
    ensures Buffer(Input(c, ch), b) == Buffer(c, b) +
      if b / 2 == c.active && (b % 2 == 0 || c.ttys[b / 2].echo) then IfRoom(Buffer(c, b), [ch]) else []
  {
    hide Plain, ColorsOk;
  }

  lemma KeyStream(s: State, ev: Event, b: int)
    requires Between(s) && ev.Keyboard? && 0 <= b < 2 * TTY_MAX
    ensures Buffer(s.con, b) + PutIn(s, ev, b) == Buffer(Handle(s, ev).con, b) && TakenOut(s, ev, b) == []
  {
    hide TableOk, Located, SlotsOk, CpuOk, MutexesOk, SemsOk, PidToProc, Without, Enqueue, ConsoleOk, Buffer, Select, Input;
    if ev.key.SelectTty? { KeyBuffer(s.con, b, ev.key.n, 0); }
    if ev.key.Typed? { KeyBuffer(s.con, b, 0, ev.key.c); }
  }

  lemma TickStream(s: State, ev: Event, b: int)
    requires Between(s) && ev.Tick? && 0 <= b < 2 * TTY_MAX
    ensures Buffer(s.con, b) == TakenOut(s, ev, b) + Buffer(Handle(s, ev).con, b) && PutIn(s, ev, b) == []
  {
    hide TableOk, Located, SlotsOk, CpuOk, MutexesOk, SemsOk, ConsoleOk, IoOk, Buffer, Refresh;
    RefreshBuffer(s.con, b);
    TickConsole(s, ev);
    hide Handle;
  }

  lemma SyscallStream(s: State, ev: Event, b: int)
    requires Between(s) && Enabled(s, ev) && ev.Syscall? && 0 <= b < 2 * TTY_MAX
    ensures Buffer(s.con, b) + PutIn(s, ev, b) == TakenOut(s, ev, b) + Buffer(Handle(s, ev).con, b)
  {
    hide TableOk, Located, SlotsOk, CpuOk, MutexesOk, SemsOk, PidToProc, Without, Enqueue, Call, CallOk, ConsoleOk, Buffer;
    FrameKeeps(s, s.active, ev.frame);
    if ev.frame.eax != SYS_EXIT && ev.frame.eax != SYS_SLEEP {
      CallStream(SaveFrame(s, ev.frame), ev, b);
    } else {
      var q := Buffer(s.con, b);
      assert q + [] == [] + q;
    }
  }

  lemma HandleStream(s: State, ev: Event, b: int)
    requires Between(s) && Enabled(s, ev) && 0 <= b < 2 * TTY_MAX
    ensures Buffer(s.con, b) + PutIn(s, ev, b) == TakenOut(s, ev, b) + Buffer(Handle(s, ev).con, b)
  {
    hide Handle, PutIn, TakenOut, Buffer, TableOk, Located, SlotsOk, CpuOk, MutexesOk, SemsOk, CallOk;
    if ev.Keyboard? {
      KeyStream(s, ev, b);
    } else if ev.Tick? {
      TickStream(s, ev, b);
    } else {
      SyscallStream(s, ev, b);
    }
    var q, q' := Buffer(s.con, b), Buffer(Handle(s, ev).con, b);
    assert q + [] == q && [] + q' == q';
  }

  lemma StepStream(s: State, ev: Event, b: int)
    requires Between(s) && Enabled(s, ev) && 0 <= b < 2 * TTY_MAX
    ensures Between(Step(s, ev))
    ensures Buffer(s.con, b) + PutIn(s, ev, b) == TakenOut(s, ev, b) + Buffer(Step(s, ev).con, b)
  {
    hide TableOk, Located, SlotsOk, CpuOk, MutexesOk, SemsOk, CallOk, PutIn, TakenOut, Buffer;
    StepKeeps(s, ev);
    HandleKeeps(s, ev);
    HandleStream(s, ev, b);
    hide Handle;
    RunOthers(Handle(s, ev));
  }

  ghost function PutInRun(s: State, es: seq<Event>, b: int): seq<Char>
    requires Between(s) && CanRun(s, es) && 0 <= b < 2 * TTY_MAX
    decreases |es|
  {
    if es == [] then []
    else
      StepKeeps(s, es[0]);
      PutIn(s, es[0], b) + PutInRun(Step(s, es[0]), es[1..], b)
  }

  ghost function TakenOutRun(s: State, es: seq<Event>, b: int): seq<Char>
    requires Between(s) && CanRun(s, es) && 0 <= b < 2 * TTY_MAX
    decreases |es|
  {
    if es == [] then []
    else
      StepKeeps(s, es[0]);
      TakenOut(s, es[0], b) + TakenOutRun(Step(s, es[0]), es[1..], b)
  }

  // First in, first out, over any run: what was there and what came in is what went out and what is left.
  lemma {:induction false} StreamConserved(s: State, es: seq<Event>, b: int)
    requires Between(s) && CanRun(s, es) && 0 <= b < 2 * TTY_MAX
    ensures Buffer(s.con, b) + PutInRun(s, es, b) == TakenOutRun(s, es, b) + Buffer(Run(s, es).con, b)
    decreases |es|
  {
    hide TableOk, Located, SlotsOk, CpuOk, MutexesOk, SemsOk, CallOk, Step, PutIn, TakenOut, Buffer;
    var q := Buffer(s.con, b);
    if es == [] {
      assert q + [] == [] + q;
    } else {
      var s', rest := Step(s, es[0]), es[1..];
      StepStream(s, es[0], b);
      StreamConserved(s', rest, b);
      var i, o, i', o' := PutIn(s, es[0], b), TakenOut(s, es[0], b), PutInRun(s', rest, b), TakenOutRun(s', rest, b);
      var q', last := Buffer(s'.con, b), Buffer(Run(s', rest).con, b);
      calc {
        q + (i + i');
        (q + i) + i';
        (o + q') + i';
        o + (q' + i');
        o + (o' + last);
        (o + o') + last;
      }
    }
  }

  // ---- From the writers to the readers' memory ----

  // What one interrupt puts into the caller's memory: all that its read takes out of the buffer.
  ghost function Received(s: State, ev: Event): seq<Char>
    requires Between(s) && Enabled(s, ev)
  {
    var b := CallBuffer(s, ev);
    if b != NULL && ev.frame.eax == SYS_IO_READ then
      assert IoOk(s.procs[s.active].io);
      TakenOut(s, ev, b)
    else []
  }

  // The read handler works on the state with the frame saved, and hands over just that.
  lemma DeliveredIsReceived(s: State, ev: Event)
    requires Between(s) && Enabled(s, ev)
    ensures Shaped(SaveFrame(s, ev.frame))
    ensures if ev.Syscall? && ev.frame.eax == SYS_IO_READ then
        Delivered(SaveFrame(s, ev.frame), ev.frame.ebx, ev.frame.edx) == Received(s, ev)
      else Received(s, ev) == []
  {
    hide TableOk, Located, SlotsOk, CpuOk, MutexesOk, SemsOk, ConsoleOk, Buffer;
    FrameKeeps(s, s.active, ev.frame);
  }

  // What the readers of buffer b receive over a run, one after the other.
  ghost function ReceivedRun(s: State, es: seq<Event>, b: int): seq<Char>
    requires Between(s) && CanRun(s, es)
    decreases |es|
  {
    if es == [] then []
    else
      StepKeeps(s, es[0]);
      (if CallBuffer(s, es[0]) == b then Received(s, es[0]) else []) + ReceivedRun(Step(s, es[0]), es[1..], b)
  }

  // Nobody flushes buffer b and no repaint drains it.
  ghost predicate LeftToReaders(s: State, es: seq<Event>, b: int)
    requires Between(s) && CanRun(s, es)
    decreases |es|
  {
    es != [] ==>
      && !(CallBuffer(s, es[0]) == b && es[0].frame.eax == SYS_IO_FLUSH)
      && !(Refreshes(s, es[0]) && b == 2 * s.con.active + 1)
      && (StepKeeps(s, es[0]); LeftToReaders(Step(s, es[0]), es[1..], b))
  }

  lemma ReceivedOnce(s: State, ev: Event, b: int)
    requires Between(s) && Enabled(s, ev) && 0 <= b < 2 * TTY_MAX
    requires !(CallBuffer(s, ev) == b && ev.frame.eax == SYS_IO_FLUSH)
    requires !(Refreshes(s, ev) && b == 2 * s.con.active + 1)
    ensures TakenOut(s, ev, b) == if CallBuffer(s, ev) == b then Received(s, ev) else []
  {
    hide TableOk, Located, SlotsOk, CpuOk, MutexesOk, SemsOk, ConsoleOk, Buffer;
  }

  // Then they receive everything in order: what was there and what came in, up to what is left.
  lemma {:induction false} ReadersReceive(s: State, es: seq<Event>, b: int)
    requires Between(s) && CanRun(s, es) && 0 <= b < 2 * TTY_MAX && LeftToReaders(s, es, b)
    ensures ReceivedRun(s, es, b) + Buffer(Run(s, es).con, b) == Buffer(s.con, b) + PutInRun(s, es, b)
  {
    hide TableOk, Located, SlotsOk, CpuOk, MutexesOk, SemsOk, CallOk, Step, Run, ReceivedRun, PutInRun, LeftToReaders;
    StreamConserved(s, es, b);
    AllReceived(s, es, b);
  }

  lemma {:induction false} AllReceived(s: State, es: seq<Event>, b: int)
    requires Between(s) && CanRun(s, es) && 0 <= b < 2 * TTY_MAX && LeftToReaders(s, es, b)
    ensures ReceivedRun(s, es, b) == TakenOutRun(s, es, b)
    decreases |es|
  {
    hide TableOk, Located, SlotsOk, CpuOk, MutexesOk, SemsOk, CallOk, Step;
    if es != [] {
      StepKeeps(s, es[0]);
      ReceivedOnce(s, es[0], b);
      AllReceived(Step(s, es[0]), es[1..], b);
      hide TakenOut, Received, Buffer, Refreshes;
    }
  }

  // ---- From the writers to the screen ----

  // Nobody in the run reads or flushes the output buffer of terminal n.
  ghost predicate LeftToScreen(s: State, es: seq<Event>, n: int)
    requires Between(s) && CanRun(s, es) && 0 <= n < TTY_MAX
    decreases |es|
  {
    es != [] ==>
      && !(CallBuffer(s, es[0]) == 2 * n + 1 && (es[0].frame.eax == SYS_IO_READ || es[0].frame.eax == SYS_IO_FLUSH))
      && (StepKeeps(s, es[0]); LeftToScreen(Step(s, es[0]), es[1..], n))
  }

  // Then what leaves the buffer is what is drained to the terminal.
  lemma {:induction false} TakenIsDrained(s: State, es: seq<Event>, n: int)
    requires Between(s) && CanRun(s, es) && 0 <= n < TTY_MAX && LeftToScreen(s, es, n)
    ensures TakenOutRun(s, es, 2 * n + 1) == Drained(s, es, n)
    decreases |es|
  {
    hide TableOk, Located, SlotsOk, CpuOk, MutexesOk, SemsOk, CallOk, Step;
    if es != [] {
      StepKeeps(s, es[0]);
      TakenIsDrained(Step(s, es[0]), es[1..], n);
      DrainedOnce(s, es[0], n);
      hide TakenOut, Buffer, Refreshes;
    }
  }

  lemma DrainedOnce(s: State, ev: Event, n: int)
    requires Between(s) && Enabled(s, ev) && 0 <= n < TTY_MAX
    requires !(CallBuffer(s, ev) == 2 * n + 1 && (ev.frame.eax == SYS_IO_READ || ev.frame.eax == SYS_IO_FLUSH))
    ensures TakenOut(s, ev, 2 * n + 1) == if Refreshes(s, ev) && s.con.active == n then s.con.ttys[n].output else []
  {
    hide TableOk, Located, SlotsOk, CpuOk, MutexesOk, SemsOk;
  }

  // End to end: once its output is drained, a terminal shows everything ever written to it.
  lemma ShowsAllWritten(s: State, es: seq<Event>, n: int, p: Tape)
    requires Between(s) && CanRun(s, es) && 0 <= n < TTY_MAX && LeftToScreen(s, es, n)
    requires Shows(s.con.ttys[n], p) && Run(s, es).con.ttys[n].output == []
    ensures Shows(Run(s, es).con.ttys[n], WriteAll(p, s.con.ttys[n].output + PutInRun(s, es, 2 * n + 1)))
  {
    hide TableOk, Located, SlotsOk, CpuOk, MutexesOk, SemsOk, CallOk, Step, Run, Shows, WriteAll;
    hide PutInRun, TakenOutRun, Drained, LeftToScreen;
    StreamConserved(s, es, 2 * n + 1);
    TakenIsDrained(s, es, n);
    TerminalsShow(s, es, n, p);
    assert Drained(s, es, n) + [] == Drained(s, es, n);
  }
}
