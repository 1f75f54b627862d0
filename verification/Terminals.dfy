/** Terminals over whole runs of the machine: the screen mirrors the selected terminal, and every
    terminal shows what was drained to it. */
module Terminals {
  import opened Screen
  import opened Machine
  import opened Invariant
  import opened Preservation
  import opened Runs
  import opened Effects
  import opened Tapes

  // ---- What one interrupt does to the console ----

  predicate Refreshes(s: State, ev: Event) {
    ev.Tick? && (s.ticks + 1) % REFRESH_INTERVAL == 0
  }

  // Reads, writes and flushes change ring buffers and nothing else.
  ghost predicate OnlyBuffers(c: Console, d: Console)
    requires ConsoleOk(c) && ConsoleOk(d)
  {
    && d == c.(ttys := d.ttys)
    && forall n :: 0 <= n < TTY_MAX ==> d.ttys[n] == c.ttys[n].(input := d.ttys[n].input, output := d.ttys[n].output)
  }

  lemma CallConsole(s: State, f: Frame, mem: seq<Char>)
    requires Shaped(s) && 0 <= s.active && CallOk(f, mem) && f.eax != SYS_EXIT && f.eax != SYS_SLEEP
    ensures OnlyBuffers(s.con, Call(s, f, mem).0.con)
  {
    hide TtyOk, ColorsOk, PidToProc, Without, Enqueue, Buffer, Accept;
  }

  lemma TickConsole(s: State, ev: Event)
    requires Shaped(s) && 0 <= s.active && ev.Tick?
    ensures Handle(s, ev).con == if Refreshes(s, ev) then Refresh(s.con) else s.con
  {
    hide ConsoleOk, IoOk, Refresh, Visited, Decrement, Expired, StillAsleep;
  }

  lemma HandleConsole(s: State, ev: Event)
    requires Between(s) && Enabled(s, ev)
    ensures var c := Handle(s, ev).con;
      if Refreshes(s, ev) then c == Refresh(s.con)
      else if ev.Keyboard? && ev.key.SelectTty? then c == Select(s.con, ev.key.n)
      else if ev.Keyboard? && ev.key.Typed? then c == Input(s.con, ev.key.c)
      else OnlyBuffers(s.con, c)
  {
    hide TableOk, Located, SlotsOk, CpuOk, MutexesOk, SemsOk, TtyOk, Without, Visited, Call, CallOk, PidToProc, Enqueue;
    hide Refresh, Select, Input;
    var s1 := SaveFrame(s, ev.frame);
    if ev.Syscall? && ev.frame.eax != SYS_EXIT && ev.frame.eax != SYS_SLEEP {
      CallConsole(s1, ev.frame, ev.mem);
    }
  }

  lemma StepConsole(s: State, ev: Event)
    requires Between(s) && Enabled(s, ev)
    ensures Between(Step(s, ev))
    ensures var c := Step(s, ev).con;
      if Refreshes(s, ev) then c == Refresh(s.con)
      else if ev.Keyboard? && ev.key.SelectTty? then c == Select(s.con, ev.key.n)
      else if ev.Keyboard? && ev.key.Typed? then c == Input(s.con, ev.key.c)
      else OnlyBuffers(s.con, c)
  {
    hide TableOk, Located, SlotsOk, CpuOk, MutexesOk, SemsOk, CallOk;
    StepKeeps(s, ev);
    HandleKeeps(s, ev);
    HandleConsole(s, ev);
    hide Handle;
    RunOthers(Handle(s, ev));
  }

  // ---- The mirror ----

  // Unless a repaint is due, the screen shows the selected terminal, cell for cell.
  ghost predicate Mirrors(c: Console)
    requires ConsoleOk(c)
  {
    !c.ttys[c.active].refresh ==> c.vga.cells == Render(c.ttys[c.active])
  }

  lemma SameRender(t: Tty, u: Tty)
    requires |t.buf| == TTY_BUF_SIZE && ColorsOk(t) && u.buf == t.buf && u.bg == t.bg && u.fg == t.fg
    ensures ColorsOk(u) && Render(u) == Render(t)
  {
  }

  lemma RefreshMirrors(c: Console)
    requires ConsoleOk(c) && Mirrors(c)
    ensures var d := Refresh(c); Mirrors(d) && d.ttys[d.active].output == [] && !d.ttys[d.active].refresh
  {
    hide Render, Plain;
    var t := c.ttys[c.active];
    var u := UpdateAll(t.(output := []), t.output);
    SameRender(u, u.(refresh := false));
    if t.output == [] { SameRender(t, u); }
    hide UpdateAll;
  }

  // Without output and with no repaint due a refresh leaves the console alone, whatever the screen shows.
  lemma RefreshRests(c: Console)
    requires ConsoleOk(c) && c.ttys[c.active].output == [] && !c.ttys[c.active].refresh
    ensures Refresh(c) == c
  {
    hide Render, Plain;
    var t := c.ttys[c.active];
    assert UpdateAll(t.(output := []), []) == t;
    assert c.ttys[c.active := t] == c.ttys;
    hide UpdateAll;
  }

  lemma OthersMirror(c: Console, d: Console)
    requires ConsoleOk(c) && ConsoleOk(d) && Mirrors(c)
    requires OnlyBuffers(c, d) || (exists i: int :: d == Select(c, i)) || (exists ch: Char :: d == Input(c, ch))
    ensures Mirrors(d)
  {
    hide Render, Plain;
    if d.active == c.active { SameRender(c.ttys[c.active], d.ttys[d.active]); }
  }

  lemma StepMirrors(s: State, ev: Event)
    requires Between(s) && Enabled(s, ev) && Mirrors(s.con)
    ensures Between(Step(s, ev)) && Mirrors(Step(s, ev).con)
    ensures Refreshes(s, ev) ==> var c := Step(s, ev).con; c.ttys[c.active].output == [] && !c.ttys[c.active].refresh
  {
    hide TableOk, Located, SlotsOk, CpuOk, MutexesOk, SemsOk, CallOk, Mirrors, OnlyBuffers, Select, Input, Refresh;
    StepConsole(s, ev);
    hide Step;
    if Refreshes(s, ev) {
      RefreshMirrors(s.con);
    } else {
      OthersMirror(s.con, Step(s, ev).con);
    }
  }

  lemma {:induction false} MirrorsAlways(s: State, es: seq<Event>)
    requires Between(s) && CanRun(s, es) && Mirrors(s.con)
    ensures Mirrors(Run(s, es).con)
    decreases |es|
  {
    hide TableOk, Located, SlotsOk, CpuOk, MutexesOk, SemsOk, CallOk, Step, Mirrors;
    if es != [] {
      StepMirrors(s, es[0]);
      MirrorsAlways(Step(s, es[0]), es[1..]);
    }
  }

  // ---- What every terminal shows ----

  // The bytes a run drains to terminal n, in order.
  ghost function Drained(s: State, es: seq<Event>, n: int): seq<Char>
    requires Between(s) && CanRun(s, es) && 0 <= n < TTY_MAX
    decreases |es|
  {
    if es == [] then []
    else
      StepKeeps(s, es[0]);
      (if Refreshes(s, es[0]) && s.con.active == n then s.con.ttys[n].output else []) + Drained(Step(s, es[0]), es[1..], n)
  }

  lemma {:induction false} WriteAllConcat(p: Tape, a: seq<Char>, b: seq<Char>)
    ensures WriteAll(p, a + b) == WriteAll(WriteAll(p, a), b)
    decreases |a|
  {
    if a == [] {
      assert a + b == b;
    } else {
      WriteAllConcat(Write(p, a[0]), a[1..], b);
      assert (a + b)[1..] == a[1..] + b;
    }
  }

  lemma RefreshShows(c: Console, n: int, p: Tape)
    requires ConsoleOk(c) && 0 <= n < TTY_MAX && Shows(c.ttys[n], p)
    ensures Shows(Refresh(c).ttys[n], if c.active == n then WriteAll(p, c.ttys[n].output) else p)
  {
    hide Render, Window, Plain;
    if c.active == n { WindowRefinement(c.ttys[n].(output := []), p, c.ttys[n].output); }
    hide UpdateAll, WriteAll;
  }

  lemma OthersShow(c: Console, d: Console, n: int, p: Tape)
    requires ConsoleOk(c) && ConsoleOk(d) && 0 <= n < TTY_MAX && Shows(c.ttys[n], p)
    requires OnlyBuffers(c, d) || (exists i: int :: d == Select(c, i)) || (exists ch: Char :: d == Input(c, ch))
    ensures Shows(d.ttys[n], p)
  {
    hide Window, Plain;
  }

  lemma StepShows(s: State, ev: Event, n: int, p: Tape)
    requires Between(s) && Enabled(s, ev) && 0 <= n < TTY_MAX && Shows(s.con.ttys[n], p)
    ensures Between(Step(s, ev))
    ensures Shows(Step(s, ev).con.ttys[n],
      if Refreshes(s, ev) && s.con.active == n then WriteAll(p, s.con.ttys[n].output) else p)
  {
    hide TableOk, Located, SlotsOk, CpuOk, MutexesOk, SemsOk, CallOk, Shows, OnlyBuffers, Select, Input, Refresh;
    StepConsole(s, ev);
    hide Step;
    if Refreshes(s, ev) {
      RefreshShows(s.con, n, p);
    } else {
      OthersShow(s.con, Step(s, ev).con, n, p);
    }
  }

  // In every run each terminal's buffer is the window on the tape of all that was drained to it.
  lemma {:induction false} TerminalsShow(s: State, es: seq<Event>, n: int, p: Tape)
    requires Between(s) && CanRun(s, es) && 0 <= n < TTY_MAX && Shows(s.con.ttys[n], p)
    ensures Shows(Run(s, es).con.ttys[n], WriteAll(p, Drained(s, es, n)))
    decreases |es|
  {
    hide TableOk, Located, SlotsOk, CpuOk, MutexesOk, SemsOk, CallOk, Step, Shows, WriteAll;
    if es != [] {
      var out := if Refreshes(s, es[0]) && s.con.active == n then s.con.ttys[n].output else [];
      assert WriteAll(p, []) == p by { WriteNothing(p); }
      StepShows(s, es[0], n, p);
      TerminalsShow(Step(s, es[0]), es[1..], n, WriteAll(p, out));
      WriteAllConcat(p, out, Drained(Step(s, es[0]), es[1..], n));
    } else {
      WriteNothing(p);
    }
  }

  lemma WriteNothing(p: Tape)
    ensures WriteAll(p, []) == p
  {
  }

  // ---- Which terminal is on the screen ----

  predicate Selects(ev: Event) {
    ev.Keyboard? && ev.key.SelectTty? && 0 <= ev.key.n < TTY_MAX
  }

  // A selection marks its terminal for repaint and leaves everything else; nothing else selects.
  lemma StepSelect(s: State, ev: Event)
    requires Between(s) && Enabled(s, ev)
    ensures Between(Step(s, ev))
    ensures var c, d := s.con, Step(s, ev).con;
      if Selects(ev) then
        var n := ev.key.n;
        && d.active == n && d.vga == c.vga && d.ttys[n] == c.ttys[n].(refresh := true)
        && forall m :: 0 <= m < TTY_MAX && m != n ==> d.ttys[m] == c.ttys[m]
      else
        d.active == c.active && (ev.Keyboard? && ev.key.SelectTty? ==> d == c)
  {
    hide TableOk, Located, SlotsOk, CpuOk, MutexesOk, SemsOk, CallOk, TtyOk, ColorsOk, Render;
    StepConsole(s, ev);
    hide Step;
  }

  // The terminal the run selects last, or n if it selects none.
  ghost function LastSelected(es: seq<Event>, n: int): int
    decreases |es|
  {
    if es == [] then n else LastSelected(es[1..], if Selects(es[0]) then es[0].key.n else n)
  }

  lemma {:induction false} SelectedAfter(s: State, es: seq<Event>)
    requires Between(s) && CanRun(s, es)
    ensures Run(s, es).con.active == LastSelected(es, s.con.active)
    decreases |es|
  {
    hide TableOk, Located, SlotsOk, CpuOk, MutexesOk, SemsOk, CallOk, Step, ConsoleOk;
    if es != [] {
      StepSelect(s, es[0]);
      SelectedAfter(Step(s, es[0]), es[1..]);
    }
  }

  // Nothing changes a terminal's colours or its echo, or more of the display than its cells.
  lemma {:induction false} SettingsKept(s: State, es: seq<Event>, n: int)
    requires Between(s) && CanRun(s, es) && 0 <= n < TTY_MAX
    ensures var t, u := s.con.ttys[n], Run(s, es).con.ttys[n]; u.bg == t.bg && u.fg == t.fg && u.echo == t.echo
    ensures var v, w := s.con.vga, Run(s, es).con.vga; w == v.(cells := w.cells)
    decreases |es|
  {
    hide TableOk, Located, SlotsOk, CpuOk, MutexesOk, SemsOk, CallOk, Step;
    if es != [] {
      StepSettings(s, es[0], n);
      SettingsKept(Step(s, es[0]), es[1..], n);
    }
  }

  lemma StepSettings(s: State, ev: Event, n: int)
    requires Between(s) && Enabled(s, ev) && 0 <= n < TTY_MAX
    ensures Between(Step(s, ev))
    ensures var t, u := s.con.ttys[n], Step(s, ev).con.ttys[n]; u.bg == t.bg && u.fg == t.fg && u.echo == t.echo
    ensures var v, w := s.con.vga, Step(s, ev).con.vga; w == v.(cells := w.cells)
  {
    hide TableOk, Located, SlotsOk, CpuOk, MutexesOk, SemsOk, CallOk, Refresh, Select, Input;
    StepConsole(s, ev);
    hide Step;
    SameSettings(s.con, n);
  }

  lemma SameSettings(c: Console, n: int)
    requires ConsoleOk(c) && 0 <= n < TTY_MAX
    ensures var t, u := c.ttys[n], Refresh(c).ttys[n]; u.bg == t.bg && u.fg == t.fg && u.echo == t.echo
    ensures forall m: int :: var t, u := c.ttys[n], Select(c, m).ttys[n]; u.bg == t.bg && u.fg == t.fg && u.echo == t.echo
    ensures forall ch: Char :: var t, u := c.ttys[n], Input(c, ch).ttys[n];
      u.bg == t.bg && u.fg == t.fg && u.echo == t.echo
    ensures var v, w := c.vga, Refresh(c).vga; w == v.(cells := w.cells)
    ensures forall m: int :: Select(c, m).vga == c.vga
    ensures forall ch: Char :: Input(c, ch).vga == c.vga
  {
    hide TtyOk, Render, UpdateAll;
  }

  ghost predicate InItsColours(c: Console)
    requires ConsoleOk(c)
  {
    var t := c.ttys[c.active];
    forall i :: 0 <= i < TTY_BUF_SIZE && t.buf[i] >= 0 ==>
      var cell := c.vga.cells[i]; cell % 256 == t.buf[i] && cell / 256 % 16 == t.fg && cell / 4096 == t.bg
  }

  lemma MirrorsInColours(c: Console)
    requires ConsoleOk(c) && Mirrors(c) && !c.ttys[c.active].refresh
    ensures InItsColours(c)
  {
    hide Render;
    var t := c.ttys[c.active];
    forall i | 0 <= i < TTY_BUF_SIZE && t.buf[i] >= 0
      ensures var cell := c.vga.cells[i]; cell % 256 == t.buf[i] && cell / 256 % 16 == t.fg && cell / 4096 == t.bg
    {
      RenderedCell(t, i);
    }
  }

  // At every refresh the terminal selected last comes on the screen, each character in its colours.
  lemma SelectedOnScreen(s: State, es: seq<Event>, ev: Event)
    requires Between(s) && CanRun(s, es) && Mirrors(s.con)
    requires Enabled(Run(s, es), ev) && Refreshes(Run(s, es), ev)
    ensures Between(Step(Run(s, es), ev))
    ensures var c := Step(Run(s, es), ev).con;
      c.active == LastSelected(es, s.con.active) && c.ttys[c.active].output == [] && InItsColours(c)
  {
    hide TableOk, Located, SlotsOk, CpuOk, MutexesOk, SemsOk, CallOk, Step, Run, CanRun, ConsoleOk, Mirrors;
    hide InItsColours, LastSelected;
    var r := Run(s, es);
    SelectedAfter(s, es);
    MirrorsAlways(s, es);
    StepMirrors(r, ev);
    StepSelect(r, ev);
    MirrorsInColours(Step(r, ev).con);
  }

  // ---- At boot ----

  lemma {:induction false} SpawnAllConsole(s: State, jobs: seq<(int, int)>)
    requires Shaped(s)
    ensures SpawnAll(s, jobs).con == s.con && SpawnAll(s, jobs).ticks == s.ticks
    decreases |jobs|
  {
    hide PidToProc, Enqueue;
    if jobs != [] { SpawnAllConsole(Spawn(s, jobs[0].0, jobs[0].1), jobs[1..]); }
  }

  // Terminal 0 is selected; all ten are blank, light grey on black, without echo.
  lemma BootConsole(progs: Programs, n: int)
    requires 0 <= n < TTY_MAX
    ensures var c := Boot(progs).con; var t := c.ttys[n];
      && c.active == 0 && c.vga == Vga(c.vga.cells, 0, 0, 0, 7, false)
      && t == Tty(t.buf, 0, 0, false, 0, 7, false, [], [])
    ensures forall i :: 0 <= i < TTY_BUF_SIZE ==>
      Boot(progs).con.ttys[n].buf[i] == 0 && Boot(progs).con.vga.cells[i] == 0x700
  {
    IdleFacts(progs);
    hide Idle, Jobs, SpawnAll, TableOk, Located, SlotsOk, CpuOk, MutexesOk, SemsOk, IoOk;
    SpawnAllConsole(Idle(progs), Jobs(progs));
    hide Boot;
  }

  lemma BootTerminals(progs: Programs)
    ensures Mirrors(Boot(progs).con)
    ensures forall n :: 0 <= n < TTY_MAX ==> Shows(Boot(progs).con.ttys[n], BLANK_TAPE)
  {
    IdleFacts(progs);
    hide Idle, Jobs, SpawnAll, TableOk, Located, SlotsOk, CpuOk, MutexesOk, SemsOk, IoOk;
    SpawnAllConsole(Idle(progs), Jobs(progs));
    hide Boot;
    var con := Blank().con;
    assert con.vga.cells == Render(con.ttys[0]);
  }
}
