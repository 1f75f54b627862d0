/** The terminals (src/tty.c): screen buffers, the drain of their output and the repaint. */
module Consoles {
  import opened Screen
  import opened RingBufs
  import opened VgaDriver

  // The terminal with everything written to it on its screen.
  function DrainAll(t: Tty): Tty
    requires TtyOk(t)
  {
    UpdateAll(t.(output := []), t.output)
  }

  const LAST_ROW := (VGA_HEIGHT - 1) * VGA_WIDTH

  class Terminal {
    const id: int
    const buf: array<Char>
    var refresh: bool
    var colorBg: int
    var colorFg: int
    var posX: int
    var posY: int
    var echo: bool
    const ioInput: RingBuf
    const ioOutput: RingBuf

    ghost const Repr: set<object>

    ghost predicate Valid()
      reads this, Repr
    {
      && this in Repr && buf in Repr
      && ioInput in Repr && ioInput.data in Repr && ioOutput in Repr && ioOutput.data in Repr
      && ioInput != ioOutput && ioInput.data != ioOutput.data && buf != ioInput.data && buf != ioOutput.data
      && ioInput.Valid() && ioOutput.Valid()
      && ioInput.id == 2 * id && ioOutput.id == 2 * id + 1
      && TtyOk(View()) && ColorsOk(View())
    }

    ghost function View(): Tty
      reads this, buf, ioInput, ioOutput
    {
      Tty(buf[..], posX, posY, refresh, colorBg, colorFg, echo, ioInput.contents, ioOutput.contents)
    }

    constructor (id: int)
      ensures Valid() && fresh(Repr) && this.id == id
      ensures View() == Tty(seq(TTY_BUF_SIZE, _ => NUL), 0, 0, false, 0, 7, false, [], [])
    {
      this.id := id;
      buf := new Char[TTY_BUF_SIZE](_ => NUL);
      refresh, colorBg, colorFg, posX, posY, echo := false, 0, 7, 0, 0, false;
      var input := new RingBuf(2 * id);
      var output := new RingBuf(2 * id + 1);
      ioInput, ioOutput := input, output;
      Repr := {this, buf, input, input.data, output, output.data};
    }

    // tty_update, on the selected terminal.
    method Update(c: Char)
      requires Valid()
      modifies this, buf
      ensures Valid() && View() == Screen.Update(old(View()), c)
    {
      PlaceChar(c);
      hide Place;
      if posX >= VGA_WIDTH {
        posX := 0;
        posY := posY + 1;
      }
      assert View() == Wrap(Place(old(View()), c));
      hide Wrap;
      if posY >= VGA_HEIGHT {
        ScrollUp();
      }
      refresh := true;
    }

    // The switch of tty_update.
    method PlaceChar(c: Char)
      requires Valid()
      modifies this`posX, this`posY, buf
      ensures View() == Place(old(View()), c)
    {
      if c == BACKSPACE {
        if posX != 0 {
          posX := posX - 1;
        } else if posY != 0 {
          posY := posY - 1;
          posX := VGA_WIDTH - 1;
        }
        buf[posX + posY * VGA_WIDTH] := SPACE;
      } else if c == TAB {
        posX := posX + 4 - posX % 4;
      } else if c == RETURN {
        posX := 0;
      } else if c == NEWLINE {
        posX := 0;
        posY := posY + 1;
      } else {
        buf[posX + posY * VGA_WIDTH] := c;
        posX := posX + 1;
      }
    }

    // Row by row and cell by cell, each row to the one above it; then a blank last row.
    method ScrollUp()
      requires buf.Length == TTY_BUF_SIZE
      modifies this`posY, buf
      ensures posY == VGA_HEIGHT - 1
      ensures buf[..] == Scroll(old(buf[..]))
    {
      CopyRowsUp();
      for x := 0 to VGA_WIDTH
        invariant forall j :: 0 <= j < LAST_ROW ==> buf[j] == old(buf[j + VGA_WIDTH])
        invariant forall j :: LAST_ROW <= j < LAST_ROW + x ==> buf[j] == SPACE
        modifies buf
      {
        buf[x + LAST_ROW] := SPACE;
      }
      posY := VGA_HEIGHT - 1;
    }

    method CopyRowsUp()
      requires buf.Length == TTY_BUF_SIZE
      modifies buf
      ensures forall j :: 0 <= j < LAST_ROW ==> buf[j] == old(buf[j + VGA_WIDTH])
    {
      for y := 0 to VGA_HEIGHT - 1
        invariant forall j :: 0 <= j < y * VGA_WIDTH ==> buf[j] == old(buf[j + VGA_WIDTH])
        invariant forall j :: y * VGA_WIDTH <= j < TTY_BUF_SIZE ==> buf[j] == old(buf[j])
      {
        CopyRowUp(y);
      }
    }

    method CopyRowUp(y: int)
      requires buf.Length == TTY_BUF_SIZE && 0 <= y < VGA_HEIGHT - 1
      modifies buf
      ensures forall j :: 0 <= j < TTY_BUF_SIZE ==>
        buf[j] == if y * VGA_WIDTH <= j < (y + 1) * VGA_WIDTH then old(buf[j + VGA_WIDTH]) else old(buf[j])
    {
      for x := 0 to VGA_WIDTH
        invariant forall j :: 0 <= j < TTY_BUF_SIZE ==>
          buf[j] == if y * VGA_WIDTH <= j < y * VGA_WIDTH + x then old(buf[j + VGA_WIDTH]) else old(buf[j])
      {
        buf[x + y * VGA_WIDTH] := buf[x + (y + 1) * VGA_WIDTH];
      }
    }

    method DrainByte()
      requires Valid() && ioOutput.contents != []
      modifies this, buf, ioOutput, ioOutput.data
      ensures Valid() && View() == Screen.Update(old(View()).(output := old(View()).output[1..]), old(View()).output[0])
    {
      ghost var before := View();
      var rc, c := ioOutput.Read(NUL);
      assert before.output == [c] + ioOutput.contents;
      assert View() == before.(output := before.output[1..]);
      Update(c);
    }

    // The first loop of tty_refresh: everything in the output buffer, oldest byte first.
    method Drain()
      requires Valid()
      modifies this, buf, ioOutput, ioOutput.data
      ensures Valid() && View() == DrainAll(old(View()))
    {
      while !ioOutput.IsEmpty()
        invariant Valid() && DrainAll(View()) == DrainAll(old(View()))
        decreases |ioOutput.contents|
      {
        DrainStep(View());
        hide DrainAll, TtyOk;
        DrainByte();
      }
      DrainEnd(View());
    }

    method PaintRow(vga: VgaDriver.Vga, y: int)
      requires Valid() && vga.Valid() && !vga.scroll && 0 <= y < VGA_HEIGHT
      requires vga !in Repr && vga.cells !in Repr
      modifies vga, vga.cells
      ensures Valid() && vga.Valid() && View() == old(View())
      ensures vga.View() == old(vga.View()).(cells := vga.cells[..])
      ensures forall j :: 0 <= j < y * VGA_WIDTH ==> vga.cells[j] == old(vga.cells[j])
      ensures forall j :: y * VGA_WIDTH <= j < (y + 1) * VGA_WIDTH ==> vga.cells[j] == Render(View())[j]
    {
      ghost var cells := Render(View());
      for x := 0 to VGA_WIDTH
        invariant vga.Valid() && vga.View() == old(vga.View()).(cells := vga.cells[..])
        invariant forall j :: 0 <= j < y * VGA_WIDTH ==> vga.cells[j] == old(vga.cells[j])
        invariant forall j :: y * VGA_WIDTH <= j < y * VGA_WIDTH + x ==> vga.cells[j] == cells[j]
      {
        var c := buf[x + y * VGA_WIDTH];
        assert c == View().buf[x + y * VGA_WIDTH];
        vga.PutcAt(x, y, colorBg, colorFg, c);
      }
    }

    // The second loop of tty_refresh: every cell of the screen from the buffer.
    method Paint(vga: VgaDriver.Vga)
      requires Valid() && vga.Valid() && !vga.scroll
      requires vga !in Repr && vga.cells !in Repr
      modifies vga, vga.cells
      ensures Valid() && vga.Valid() && View() == old(View())
      ensures vga.View() == old(vga.View()).(cells := Render(View()))
    {
      ghost var cells := Render(View());
      for y := 0 to VGA_HEIGHT
        invariant vga.Valid() && vga.View() == old(vga.View()).(cells := vga.cells[..])
        invariant forall j :: 0 <= j < y * VGA_WIDTH ==> vga.cells[j] == cells[j]
      {
        PaintRow(vga, y);
      }
      assert vga.cells[..] == cells;
    }
  }

  // What drains later is what drains now.
  lemma DrainStep(t: Tty)
    requires TtyOk(t) && t.output != []
    ensures var u := Screen.Update(t.(output := t.output[1..]), t.output[0]);
      DrainAll(t) == DrainAll(u)
  {
    hide Place, Wrap, ScrollIfNeeded, Update;
    OutputAside(t.(output := t.output[1..]), t.output[0]);
  }

  lemma DrainEnd(t: Tty)
    requires TtyOk(t)
    ensures t.output == [] ==> DrainAll(t) == t
  {
  }

  // Updating the screen does not look at the output buffer.
  lemma OutputAside(t: Tty, c: Char)
    requires TtyOk(t)
    ensures TtyOk(t.(output := []))
    ensures Update(t, c).(output := []) == Update(t.(output := []), c)
  {
    PlaceAside(t, c);
    ScrollAside(Place(t, c));
    hide Place, Wrap, ScrollIfNeeded;
  }

  lemma PlaceAside(t: Tty, c: Char)
    requires TtyOk(t)
    ensures TtyOk(t.(output := [])) && Place(t.(output := []), c) == Place(t, c).(output := [])
  {
  }

  lemma ScrollAside(t: Tty)
    requires |t.buf| == TTY_BUF_SIZE
    ensures ScrollIfNeeded(Wrap(t.(output := []))) == ScrollIfNeeded(Wrap(t)).(output := [])
  {
    hide Scroll;
  }

  class TtyTable {
    const ttys: seq<Terminal>
    var active: Terminal
    const vga: VgaDriver.Vga

    ghost const Repr: set<object>

    // The records of a C array do not overlap.
    ghost predicate Separate()
      reads this
    {
      && |ttys| == TTY_MAX
      && (forall n :: 0 <= n < TTY_MAX ==> ttys[n].id == n && ttys[n] in Repr && ttys[n].Repr <= Repr)
      && (forall m, n :: 0 <= m < n < TTY_MAX ==> ttys[m].Repr !! ttys[n].Repr)
      && {this, vga, vga.cells} <= Repr
      && (forall n :: 0 <= n < TTY_MAX ==> {this, vga, vga.cells} !! ttys[n].Repr)
    }

    ghost predicate Valid()
      reads this, Repr
    {
      && Separate()
      && (forall n :: 0 <= n < TTY_MAX ==> ttys[n].Valid())
      && active in ttys
      && vga.Valid() && !vga.scroll
    }

    ghost function View(): (c: Screen.Console)
      reads this, Repr
      requires Valid()
      ensures ConsoleOk(c)
    {
      Screen.Console(
        seq(TTY_MAX, n requires 0 <= n < TTY_MAX && Valid() reads this, Repr => ttys[n].View()),
        active.id, vga.View())
    }

    constructor ()
      ensures Valid() && fresh(Repr)
      ensures View() == Screen.Console(seq(TTY_MAX, _ => BLANK_TTY), 0,
        Screen.Vga(seq(TTY_BUF_SIZE, _ => VgaChar(0, 7, NUL)), 0, 0, 0, 7, false))
    {
      hide TtyOk, ColorsOk, VgaOk;
      var v := new VgaDriver.Vga();
      ghost var repr;
      var table;
      table, repr := NewTerminals();
      hide Terminal.Valid, Terminal.View;
      ttys, active, vga := table, table[0], v;
      Repr := repr + {this, v, v.cells};
      new;
      assert View().ttys == seq(TTY_MAX, _ => BLANK_TTY);
    }

    // tty_init
    static method NewTerminals() returns (table: seq<Terminal>, ghost repr: set<object>)
      ensures |table| == TTY_MAX && fresh(repr)
      ensures forall n :: 0 <= n < TTY_MAX ==>
        table[n].id == n && table[n] in repr && table[n].Repr <= repr && table[n].Valid() && table[n].View() == BLANK_TTY
      ensures forall m, n :: 0 <= m < n < TTY_MAX ==> table[m].Repr !! table[n].Repr
    {
      hide TtyOk;
      table, repr := [], {};
      for i := 0 to TTY_MAX
        invariant |table| == i && fresh(repr)
        invariant forall n :: 0 <= n < i ==> table[n].id == n && table[n].Repr <= repr && table[n].Valid()
        invariant forall n :: 0 <= n < i ==> table[n].View() == BLANK_TTY
        invariant forall m, n :: 0 <= m < n < i ==> table[m].Repr !! table[n].Repr
      {
        var tty := new Terminal(i);
        table := table + [tty];
        repr := repr + tty.Repr;
      }
    }

    // tty_get
    method Get(n: int) returns (tty: Terminal?)
      requires Valid()
      ensures if 0 <= n < TTY_MAX then tty == ttys[n] else tty == null
    {
      if n < 0 || n >= |ttys| {
        return null;
      }
      tty := ttys[n];
    }

    twostate lemma OtherTerminals(n: int)
      requires old(Valid()) && 0 <= n < TTY_MAX
      requires forall o: object :: o in Repr && o !in ttys[n].Repr && o != this ==> unchanged(o)
      ensures forall m :: 0 <= m < TTY_MAX && m != n ==> ttys[m].Valid() && ttys[m].View() == old(ttys[m].View())
      ensures vga.Valid() && !vga.scroll && vga.View() == old(vga.View())
    {
      hide TtyOk, ColorsOk, VgaOk;
    }

    // What a change inside one terminal means for the whole.
    twostate lemma TerminalFrame(n: int)
      requires old(Valid()) && 0 <= n < TTY_MAX && ttys[n].Valid()
      requires active in ttys
      requires forall o: object :: o in Repr && o !in ttys[n].Repr && o != this ==> unchanged(o)
      ensures Valid()
      ensures View() == old(View()).(ttys := old(View()).ttys[n := ttys[n].View()], active := active.id)
    {
      OtherTerminals(n);
      hide TtyOk, ColorsOk, VgaOk, Terminal.Valid, Terminal.View, VgaDriver.Vga.Valid, VgaDriver.Vga.View;
    }

    // tty_select
    method Select(n: int)
      requires Valid()
      modifies Repr
      ensures Valid() && View() == Screen.Select(old(View()), n)
      ensures 0 <= n < TTY_MAX ==> active == ttys[n] && active.refresh
    {
      if n >= 0 && n < TTY_MAX {
        active := ttys[n];
        active.refresh := true;
        TerminalFrame(n);
      }
    }

    // tty_input
    method Input(c: Char)
      requires Valid()
      modifies Repr
      ensures Valid() && View() == Screen.Input(old(View()), c)
    {
      ghost var n := active.id;
      var _ := active.ioInput.Write(c);
      if active.echo {
        var _ := active.ioOutput.Write(c);
      }
      TerminalFrame(n);
    }

    method DrainActive()
      requires Valid()
      modifies Repr
      ensures Valid()
      ensures var c := old(View()); var t := c.ttys[c.active];
        View() == c.(ttys := c.ttys[c.active := DrainAll(t)])
    {
      hide TtyOk, UpdateAll;
      ghost var n := active.id;
      active.Drain();
      TerminalFrame(n);
    }

    method Repaint()
      requires Valid()
      modifies Repr
      ensures Valid()
      ensures var c := old(View()); var t := c.ttys[c.active];
        View() == c.(ttys := c.ttys[c.active := t.(refresh := false)], vga := c.vga.(cells := Render(t)))
    {
      hide Render;
      ghost var n := active.id;
      active.Paint(vga);
      VgaFrame();
      label painted:
      active.refresh := false;
      TerminalFrame@painted(n);
    }

    lemma ActivePart()
      requires Valid()
      ensures View().ttys[View().active] == active.View()
    {
      hide TtyOk, ColorsOk;
    }

    // tty_refresh
    method Refresh()
      requires Valid()
      modifies Repr
      ensures Valid() && View() == Screen.Refresh(old(View()))
    {
      hide TtyOk, Render;
      ghost var c := View();
      ghost var t := DrainAll(c.ttys[c.active]);
      DrainActive();
      ActivePart();
      assert c.ttys[c.active := t][c.active := t.(refresh := false)] == c.ttys[c.active := t.(refresh := false)];
      hide Valid, View;
      if active.refresh {
        Repaint();
      }
    }

    twostate lemma VgaFrame()
      requires old(Valid()) && vga.Valid() && !vga.scroll
      requires forall o: object :: o in Repr && o != vga && o != vga.cells ==> unchanged(o)
      ensures Valid() && View() == old(View()).(vga := vga.View())
    {
    }

    // Ring buffer b belongs to terminal b / 2.
    ghost predicate HasBuffer(b: RingBuf) {
      && |ttys| == TTY_MAX && 0 <= b.id < 2 * TTY_MAX
      && b == if b.id % 2 == 0 then ttys[b.id / 2].ioInput else ttys[b.id / 2].ioOutput
    }

    lemma BufferParts(b: RingBuf)
      requires Valid() && HasBuffer(b)
      ensures b.Valid() && b in Repr && b.data in Repr && b.contents == Buffer(View(), b.id)
    {
    }

    twostate lemma BufferTerminal(b: RingBuf)
      requires old(Valid()) && HasBuffer(b) && b.Valid()
      requires forall o: object :: o in Repr && o != b && o != b.data ==> unchanged(o)
      ensures var n := b.id / 2;
        && b in ttys[n].Repr && b.data in ttys[n].Repr && ttys[n].Valid()
        && ttys[n].View() == if b.id % 2 == 0 then old(ttys[n].View()).(input := b.contents)
                             else old(ttys[n].View()).(output := b.contents)
    {
    }

    twostate lemma BufferFrame(b: RingBuf)
      requires old(Valid()) && HasBuffer(b) && b.Valid()
      requires forall o: object :: o in Repr && o != b && o != b.data ==> unchanged(o)
      ensures Valid()
      ensures View() == SetBuffer(old(View()), b.id, b.contents)
    {
      BufferTerminal(b);
      hide TtyOk, ColorsOk, VgaOk, Terminal.Valid, Terminal.View, VgaDriver.Vga.Valid, VgaDriver.Vga.View;
      TerminalFrame(b.id / 2);
    }
  }
}
