/** The terminal as values: the tty record, its cursor arithmetic, and VGA text memory (src/tty.c, src/vga.c). */
module Screen {
  const VGA_WIDTH := 80
  const VGA_HEIGHT := 25
  const TTY_MAX := 10
  const TTY_BUF_SIZE := 2000
  const RINGBUF_SIZE := 2048

  // The target's char is signed.
  type Char = c: int | -128 <= c < 128

  const NUL: Char := 0
  const BACKSPACE: Char := 8
  const TAB: Char := 9
  const NEWLINE: Char := 10
  const RETURN: Char := 13
  const SPACE: Char := 32

  predicate IsControl(c: Char) {
    c == BACKSPACE || c == TAB || c == NEWLINE || c == RETURN
  }

  datatype Tty = Tty(
    buf: seq<Char>, x: int, y: int, refresh: bool, bg: int, fg: int, echo: bool,
    input: seq<Char>, output: seq<Char>)

  predicate Plain(cs: seq<Char>) {
    forall i :: 0 <= i < |cs| ==> !IsControl(cs[i])
  }

  // Every record of the tty table between calls: the cursor is on the screen, and no control
  // character is ever stored in the buffer.
  predicate TtyOk(t: Tty) {
    && |t.buf| == TTY_BUF_SIZE && Plain(t.buf)
    && 0 <= t.x < VGA_WIDTH
    && 0 <= t.y < VGA_HEIGHT
    && |t.input| <= RINGBUF_SIZE
    && |t.output| <= RINGBUF_SIZE
  }

  const BLANK_TTY := Tty(seq(TTY_BUF_SIZE, _ => NUL), 0, 0, false, 0, 7, false, [], [])

  // Row y takes the place of row y - 1; the last row is blank.
  function Scroll(buf: seq<Char>): (r: seq<Char>)
    requires |buf| == TTY_BUF_SIZE
    ensures |r| == TTY_BUF_SIZE
    ensures Plain(buf) ==> Plain(r)
  {
    buf[VGA_WIDTH..] + seq(VGA_WIDTH, _ => SPACE)
  }

  // Writing one character at the cursor, before wrapping and scrolling.
  function Place(t: Tty, c: Char): (r: Tty)
    requires TtyOk(t)
    ensures |r.buf| == TTY_BUF_SIZE && Plain(r.buf) && 0 <= r.x <= VGA_WIDTH && 0 <= r.y <= VGA_HEIGHT
    ensures r.y == VGA_HEIGHT ==> r.x == 0
  {
    if c == BACKSPACE then
      var x := if t.x != 0 then t.x - 1 else if t.y != 0 then VGA_WIDTH - 1 else 0;
      var y := if t.x == 0 && t.y != 0 then t.y - 1 else t.y;
      t.(x := x, y := y, buf := t.buf[x + y * VGA_WIDTH := SPACE])
    else if c == TAB then
      t.(x := t.x + 4 - t.x % 4)
    else if c == RETURN then
      t.(x := 0)
    else if c == NEWLINE then
      t.(x := 0, y := t.y + 1)
    else
      t.(buf := t.buf[t.x + t.y * VGA_WIDTH := c], x := t.x + 1)
  }

  function Wrap(t: Tty): (r: Tty)
  {
    if t.x >= VGA_WIDTH then t.(x := 0, y := t.y + 1) else t
  }

  function ScrollIfNeeded(t: Tty): Tty
    requires |t.buf| == TTY_BUF_SIZE
  {
    if t.y >= VGA_HEIGHT then t.(buf := Scroll(t.buf), y := VGA_HEIGHT - 1) else t
  }

  function Update(t: Tty, c: Char): (r: Tty)
    requires TtyOk(t)
    ensures TtyOk(r) && r.refresh
    ensures r.output == t.output && r.input == t.input
    ensures r.bg == t.bg && r.fg == t.fg && r.echo == t.echo
  {
    ScrollIfNeeded(Wrap(Place(t, c))).(refresh := true)
  }

  // All of cs, first byte first.
  function UpdateAll(t: Tty, cs: seq<Char>): (r: Tty)
    requires TtyOk(t)
    ensures TtyOk(r)
    ensures r.output == t.output && r.input == t.input
    ensures r.bg == t.bg && r.fg == t.fg && r.echo == t.echo
    ensures cs != [] ==> r.refresh
    ensures cs == [] ==> r == t
    decreases |cs|
  {
    if cs == [] then t else UpdateAll(Update(t, cs[0]), cs[1..])
  }

  // One cell of VGA text memory as the C expression computes it in an unsigned short:
  // a negative char is sign-extended over the attribute byte.
  function VgaChar(bg: int, fg: int, c: Char): (cell: int)
    requires 0 <= bg < 16 && 0 <= fg < 16
    ensures 0 <= cell < 0x1_0000
  {
    if c >= 0 then (bg * 16 + fg) * 256 + c else 0x1_0000 + c
  }

  datatype Vga = Vga(cells: seq<int>, x: int, y: int, bg: int, fg: int, scroll: bool)

  predicate VgaOk(v: Vga) {
    && |v.cells| == TTY_BUF_SIZE
    && 0 <= v.x < VGA_WIDTH && 0 <= v.y < VGA_HEIGHT
    && 0 <= v.bg < 16 && 0 <= v.fg < 16
  }

  function VgaPlace(v: Vga, c: Char): (r: Vga)
    requires VgaOk(v)
    ensures |r.cells| == TTY_BUF_SIZE && r.bg == v.bg && r.fg == v.fg
  {
    if c == BACKSPACE then
      var x := if v.x != 0 then v.x - 1 else if v.y != 0 then VGA_WIDTH - 1 else 0;
      var y := if v.x == 0 && v.y != 0 then v.y - 1 else v.y;
      v.(x := x, y := y, cells := v.cells[x + y * VGA_WIDTH := VgaChar(v.bg, v.fg, NUL)])
    else if c == TAB then
      v.(x := v.x + 4 - v.x % 4)
    else if c == RETURN then
      v.(x := 0)
    else if c == NEWLINE then
      v.(x := 0, y := v.y + 1)
    else
      v.(cells := v.cells[v.x + v.y * VGA_WIDTH := VgaChar(v.bg, v.fg, c)], x := v.x + 1)
  }

  // With scrolling off the position may be left below the last row.
  function VgaPutc(v: Vga, c: Char): (r: Vga)
    requires VgaOk(v)
    ensures |r.cells| == TTY_BUF_SIZE && r.bg == v.bg && r.fg == v.fg
  {
    var v := VgaPlace(v, c);
    var v := if v.x >= VGA_WIDTH then v.(x := 0, y := v.y + 1) else v;
    if v.scroll && v.y >= VGA_HEIGHT then
      v.(cells := v.cells[VGA_WIDTH..] + seq(VGA_WIDTH, _ => VgaChar(v.bg, v.fg, SPACE)), y := VGA_HEIGHT - 1)
    else v
  }

  datatype Console = Console(ttys: seq<Tty>, active: int, vga: Vga)

  predicate ColorsOk(t: Tty) {
    0 <= t.bg < 8 && 0 <= t.fg < 16
  }

  predicate ConsoleOk(c: Console) {
    && |c.ttys| == TTY_MAX
    && 0 <= c.active < TTY_MAX
    && VgaOk(c.vga) && !c.vga.scroll
    && (forall i :: 0 <= i < TTY_MAX ==> TtyOk(c.ttys[i]) && ColorsOk(c.ttys[i]))
  }

  // What the screen shows when it shows tty t.
  function Render(t: Tty): (cells: seq<int>)
    requires |t.buf| == TTY_BUF_SIZE && ColorsOk(t)
    ensures |cells| == TTY_BUF_SIZE
  {
    seq(TTY_BUF_SIZE, i requires 0 <= i < TTY_BUF_SIZE => VgaChar(t.bg, t.fg, t.buf[i]))
  }

  function Select(c: Console, n: int): (r: Console)
    requires ConsoleOk(c)
    ensures ConsoleOk(r)
  {
    if 0 <= n < TTY_MAX then c.(active := n, ttys := c.ttys[n := c.ttys[n].(refresh := true)]) else c
  }

  // A ring buffer takes all of the bytes or none.
  function Accept(q: seq<Char>, bytes: seq<Char>): (r: seq<Char>)
    requires |q| <= RINGBUF_SIZE
    ensures |r| <= RINGBUF_SIZE
  {
    if |q| + |bytes| > RINGBUF_SIZE then q else q + bytes
  }

  function Input(c: Console, ch: Char): (r: Console)
    requires ConsoleOk(c)
    ensures ConsoleOk(r)
  {
    var t := c.ttys[c.active];
    var t := t.(input := Accept(t.input, [ch]));
    var t := if t.echo then t.(output := Accept(t.output, [ch])) else t;
    c.(ttys := c.ttys[c.active := t])
  }

  // tty_refresh: drain the active tty's output, then repaint if anything changed.
  function Refresh(c: Console): (r: Console)
    requires ConsoleOk(c)
    ensures ConsoleOk(r)
  {
    var t := c.ttys[c.active];
    var t := UpdateAll(t.(output := []), t.output);
    if t.refresh then
      c.(ttys := c.ttys[c.active := t.(refresh := false)], vga := c.vga.(cells := Render(t)))
    else
      c.(ttys := c.ttys[c.active := t])
  }

  // The io pointers of a process name ring buffers: 2n is tty n's input, 2n + 1 its output.
  function Buffer(c: Console, b: int): seq<Char>
    requires ConsoleOk(c) && 0 <= b < 2 * TTY_MAX
  {
    if b % 2 == 0 then c.ttys[b / 2].input else c.ttys[b / 2].output
  }

  function SetBuffer(c: Console, b: int, q: seq<Char>): (r: Console)
    requires ConsoleOk(c) && 0 <= b < 2 * TTY_MAX && |q| <= RINGBUF_SIZE
    ensures ConsoleOk(r)
  {
    var t := c.ttys[b / 2];
    c.(ttys := c.ttys[b / 2 := if b % 2 == 0 then t.(input := q) else t.(output := q)])
  }

  // ---- The two drivers against each other ----

  // The cell of a 7-bit character: the character in the low byte, then four bits of foreground and
  // four of background. A negative character fills the attribute byte with ones.
  lemma CellLayout(bg: int, fg: int, c: Char)
    requires 0 <= bg < 16 && 0 <= fg < 16
    ensures var cell := VgaChar(bg, fg, c);
      if c >= 0 then cell % 256 == c && cell / 256 % 16 == fg && cell / 4096 == bg
      else cell % 256 == c + 256 && cell / 256 == 255
  {
    if c >= 0 {
      var cell := VgaChar(bg, fg, c);
      assert cell == 256 * (16 * bg + fg) + c;
      assert cell / 256 == 16 * bg + fg;
      assert cell == 4096 * bg + (256 * fg + c);
    }
  }

  // So a screen that renders a terminal shows each of its characters in its colours.
  lemma RenderedCell(t: Tty, i: int)
    requires |t.buf| == TTY_BUF_SIZE && ColorsOk(t) && 0 <= i < TTY_BUF_SIZE && t.buf[i] >= 0
    ensures var cell := Render(t)[i]; cell % 256 == t.buf[i] && cell / 256 % 16 == t.fg && cell / 4096 == t.bg
  {
    CellLayout(t.bg, t.fg, t.buf[i]);
  }

  // A 7-bit character and its colours can be read back from its cell.
  lemma CellReadsBack(bg: int, fg: int, c: Char, bg': int, fg': int, c': Char)
    requires 0 <= bg < 16 && 0 <= fg < 16 && 0 <= bg' < 16 && 0 <= fg' < 16 && c >= 0 && c' >= 0
    ensures VgaChar(bg, fg, c) == VgaChar(bg', fg', c') <==> bg == bg' && fg == fg' && c == c'
  {
    var d := (bg - bg') * 16 + (fg - fg');
    assert VgaChar(bg, fg, c) - VgaChar(bg', fg', c') == d * 256 + (c - c');
  }

  // The screen of a VGA driver with scrolling on, showing the terminal at the same position.
  ghost predicate Tracks(v: Vga, t: Tty) {
    && VgaOk(v) && TtyOk(t) && ColorsOk(t)
    && v.cells == Render(t) && v.x == t.x && v.y == t.y && v.bg == t.bg && v.fg == t.fg && v.scroll
  }

  lemma PlacesAgree(v: Vga, t: Tty, c: Char)
    requires Tracks(v, t) && c != BACKSPACE
    ensures var p, q := VgaPlace(v, c), Place(t, c);
      && p.cells == Render(q) && p.x == q.x && p.y == q.y && p.bg == q.bg && p.fg == q.fg && p.scroll
      && q.bg == t.bg && q.fg == t.fg
  {
  }

  lemma BackspaceDiffers(v: Vga, t: Tty)
    requires Tracks(v, t)
    ensures VgaPutc(v, BACKSPACE).cells != Render(Update(t, BACKSPACE))
  {
    var p, q := VgaPlace(v, BACKSPACE), Place(t, BACKSPACE);
    var k := q.x + q.y * VGA_WIDTH;
    assert q.buf[k] == SPACE && p.cells[k] == VgaChar(v.bg, v.fg, NUL);
    BackspaceStays(v, t);
    hide VgaPutc, Update, VgaPlace, Place;
    CellReadsBack(t.bg, t.fg, SPACE, t.bg, t.fg, NUL);
    assert Render(Update(t, BACKSPACE))[k] == VgaChar(t.bg, t.fg, SPACE);
  }

  // Written twice, vga_putc and tty_update agree on every character but backspace, for which the
  // one leaves a zero and the other a space.
  lemma DriversAgree(v: Vga, t: Tty, c: Char)
    requires Tracks(v, t)
    ensures Tracks(VgaPutc(v, c), Update(t, c)) <==> c != BACKSPACE
  {
    if c == BACKSPACE {
      BackspaceDiffers(v, t);
    } else {
      PlacesAgree(v, t, c);
      hide VgaPlace, Place;
      ScrollAgrees(Place(t, c).buf, VgaPlace(v, c).cells, t.bg, t.fg);
    }
  }

  // For backspace they differ in nothing else: the position is the same, and so is every other cell.
  lemma BackspaceAgrees(v: Vga, t: Tty)
    requires Tracks(v, t)
    ensures var p, q := VgaPutc(v, BACKSPACE), Update(t, BACKSPACE);
      && p.x == q.x && p.y == q.y && p.bg == q.bg && p.fg == q.fg && p.scroll
      && p.cells == Render(q)[q.x + q.y * VGA_WIDTH := VgaChar(t.bg, t.fg, NUL)]
      && q.buf == t.buf[q.x + q.y * VGA_WIDTH := SPACE]
      && q.x + q.y * VGA_WIDTH == if t.x == 0 && t.y == 0 then 0 else t.x + t.y * VGA_WIDTH - 1
  {
    BackspaceStays(v, t);
    hide Plain, Scroll;
  }

  lemma BackspaceStays(v: Vga, t: Tty)
    requires Tracks(v, t)
    ensures VgaPutc(v, BACKSPACE).cells == VgaPlace(v, BACKSPACE).cells
    ensures Update(t, BACKSPACE).buf == Place(t, BACKSPACE).buf
  {
  }

  lemma ScrollAgrees(buf: seq<Char>, cells: seq<int>, bg: int, fg: int)
    requires |buf| == TTY_BUF_SIZE == |cells| && 0 <= bg < 16 && 0 <= fg < 16
    requires forall i :: 0 <= i < TTY_BUF_SIZE ==> cells[i] == VgaChar(bg, fg, buf[i])
    ensures var up := cells[VGA_WIDTH..] + seq(VGA_WIDTH, _ => VgaChar(bg, fg, SPACE));
      forall i :: 0 <= i < TTY_BUF_SIZE ==> up[i] == VgaChar(bg, fg, Scroll(buf)[i])
  {
  }
}
