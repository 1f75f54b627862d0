/** An unbounded layout of what is written to a terminal: a tape of cells, 80 to a row, with a cursor
    and a first visible row that only moves down. The 80x25 screen buffer is a window on it. */
module Tapes {
  import opened Screen

  datatype Tape = Tape(cells: map<int, Char>, cursor: int, top: int)

  const BLANK_TAPE := Tape(map[], 0, 0)

  // A cell nobody wrote: zero on the first screen, a space on every row that scrolled in.
  function Cell(cells: map<int, Char>, i: int): Char {
    if i in cells then cells[i] else if i < TTY_BUF_SIZE then NUL else SPACE
  }

  // On a tape wrapping needs no case of its own: the cell after a row's last is the next row's first.
  function Move(p: Tape, c: Char): Tape {
    if c == BACKSPACE then
      var at := if p.cursor == p.top * VGA_WIDTH then p.cursor else p.cursor - 1;
      p.(cells := p.cells[at := SPACE], cursor := at)
    else if c == TAB then
      p.(cursor := p.cursor + 4 - p.cursor % 4)
    else if c == RETURN then
      p.(cursor := p.cursor - p.cursor % VGA_WIDTH)
    else if c == NEWLINE then
      p.(cursor := p.cursor - p.cursor % VGA_WIDTH + VGA_WIDTH)
    else
      p.(cells := p.cells[p.cursor := c], cursor := p.cursor + 1)
  }

  // The cursor's row pulls the window down.
  function Follow(p: Tape): Tape {
    var row := p.cursor / VGA_WIDTH;
    if row - (VGA_HEIGHT - 1) > p.top then p.(top := row - (VGA_HEIGHT - 1)) else p
  }

  function Write(p: Tape, c: Char): Tape {
    Follow(Move(p, c))
  }

  function WriteAll(p: Tape, cs: seq<Char>): Tape
    decreases |cs|
  {
    if cs == [] then p else WriteAll(Write(p, cs[0]), cs[1..])
  }

  ghost predicate Window(buf: seq<Char>, cells: map<int, Char>, top: int) {
    && |buf| == TTY_BUF_SIZE
    && (forall i :: 0 <= i < TTY_BUF_SIZE ==> buf[i] == Cell(cells, top * VGA_WIDTH + i))
    && (forall i :: i in cells ==> i < top * VGA_WIDTH + TTY_BUF_SIZE)
  }

  // The buffer is the window, the position is the cursor in it, and below it nothing is written.
  ghost predicate Shows(t: Tty, p: Tape) {
    && p.top >= 0
    && 0 <= t.x < VGA_WIDTH && 0 <= t.y < VGA_HEIGHT
    && p.cursor == (p.top + t.y) * VGA_WIDTH + t.x
    && Window(t.buf, p.cells, p.top)
  }

  // The same before wrapping and scrolling: the position may be one past a row or a screen.
  ghost predicate ShowsLoosely(t: Tty, p: Tape) {
    && p.top >= 0
    && 0 <= t.x <= VGA_WIDTH && 0 <= t.y <= VGA_HEIGHT && (t.y == VGA_HEIGHT ==> t.x == 0)
    && p.cursor == (p.top + t.y) * VGA_WIDTH + t.x
    && Window(t.buf, p.cells, p.top)
  }

  // The window shows the same cells after both sides write the same one.
  lemma PutShows(buf: seq<Char>, cells: map<int, Char>, top: int, k: int, c: Char)
    requires Window(buf, cells, top) && 0 <= k < TTY_BUF_SIZE
    ensures Window(buf[k := c], cells[top * VGA_WIDTH + k := c], top)
  {
  }

  lemma BackspaceShows(t: Tty, p: Tape)
    requires TtyOk(t) && Shows(t, p)
    ensures ShowsLoosely(Place(t, BACKSPACE), Move(p, BACKSPACE))
  {
    var k := if t.x == 0 && t.y == 0 then 0 else t.x + t.y * VGA_WIDTH - 1;
    PutShows(t.buf, p.cells, p.top, k, SPACE);
    hide Window;
    assert Move(p, BACKSPACE).cursor == p.top * VGA_WIDTH + k;
  }

  // The cursor in rows and columns. A row is a whole number of tab stops.
  lemma RowAndColumn(row: nat, x: nat)
    requires x < VGA_WIDTH
    ensures var i := row * VGA_WIDTH + x; i / VGA_WIDTH == row && i % VGA_WIDTH == x && i % 4 == x % 4
  {
    var i := row * VGA_WIDTH + x;
    assert i == VGA_WIDTH * (i / VGA_WIDTH) + i % VGA_WIDTH;
    assert i == 4 * (i / 4) + i % 4 && x == 4 * (x / 4) + x % 4;
    assert i / 4 == row * 20 + x / 4;
  }

  lemma ControlShows(t: Tty, p: Tape, c: Char)
    requires TtyOk(t) && Shows(t, p) && (c == TAB || c == RETURN || c == NEWLINE)
    ensures ShowsLoosely(Place(t, c), Move(p, c))
  {
    hide Window, Plain;
    RowAndColumn(p.top + t.y, t.x);
  }

  lemma CharShows(t: Tty, p: Tape, c: Char)
    requires TtyOk(t) && Shows(t, p) && !IsControl(c)
    ensures ShowsLoosely(Place(t, c), Move(p, c))
  {
    PutShows(t.buf, p.cells, p.top, t.x + t.y * VGA_WIDTH, c);
    hide Window, Plain;
    assert p.cursor == p.top * VGA_WIDTH + (t.x + t.y * VGA_WIDTH);
  }

  lemma MoveShows(t: Tty, p: Tape, c: Char)
    requires TtyOk(t) && Shows(t, p)
    ensures ShowsLoosely(Place(t, c), Move(p, c))
  {
    hide TtyOk, Shows, ShowsLoosely, Place, Move;
    if c == BACKSPACE {
      BackspaceShows(t, p);
    } else if IsControl(c) {
      ControlShows(t, p, c);
    } else {
      CharShows(t, p, c);
    }
  }

  lemma FollowShows(t: Tty, p: Tape)
    requires ShowsLoosely(t, p)
    ensures Shows(ScrollIfNeeded(Wrap(t)), Follow(p))
  {
  }

  lemma UpdateShows(t: Tty, p: Tape, c: Char)
    requires TtyOk(t) && Shows(t, p)
    ensures Shows(Update(t, c), Write(p, c))
  {
    MoveShows(t, p, c);
    FollowShows(Place(t, c), Move(p, c));
  }

  // Whatever is written, the screen buffer is the window on the tape.
  lemma {:induction false} WindowRefinement(t: Tty, p: Tape, cs: seq<Char>)
    requires TtyOk(t) && Shows(t, p)
    ensures Shows(UpdateAll(t, cs), WriteAll(p, cs))
    decreases |cs|
  {
    if cs != [] {
      UpdateShows(t, p, cs[0]);
      WindowRefinement(Update(t, cs[0]), Write(p, cs[0]), cs[1..]);
    }
  }

  // Without backspace the window is the one the cursor's row dictates: the last 25 rows.
  lemma {:induction false} TopFollowsRow(p: Tape, cs: seq<Char>)
    requires p.cursor >= 0 && BACKSPACE !in cs
    requires p.top == (if p.cursor / VGA_WIDTH > VGA_HEIGHT - 1 then p.cursor / VGA_WIDTH - (VGA_HEIGHT - 1) else 0)
    ensures var q := WriteAll(p, cs);
      q.cursor >= 0 &&
      q.top == (if q.cursor / VGA_WIDTH > VGA_HEIGHT - 1 then q.cursor / VGA_WIDTH - (VGA_HEIGHT - 1) else 0)
    decreases |cs|
  {
    if cs != [] { TopFollowsRow(Write(p, cs[0]), cs[1..]); }
  }

  // Plain text is laid out one character a cell.
  lemma {:induction false} PlainText(p: Tape, cs: seq<Char>)
    requires Plain(cs)
    ensures var q := WriteAll(p, cs);
      && q.cursor == p.cursor + |cs|
      && (forall i :: 0 <= i < |cs| ==> Cell(q.cells, p.cursor + i) == cs[i])
      && (forall i :: i < p.cursor || i >= p.cursor + |cs| ==> Cell(q.cells, i) == Cell(p.cells, i))
    decreases |cs|
  {
    if cs != [] {
      PlainText(Write(p, cs[0]), cs[1..]);
    }
  }

  lemma WindowOfText(buf: seq<Char>, cells: map<int, Char>, top: nat, cs: seq<Char>)
    requires Window(buf, cells, top) && forall i :: 0 <= i < |cs| ==> Cell(cells, i) == cs[i]
    ensures forall i :: 0 <= i < TTY_BUF_SIZE && top * VGA_WIDTH + i < |cs| ==> buf[i] == cs[top * VGA_WIDTH + i]
  {
    hide Cell;
  }

  lemma PlainTape(cs: seq<Char>)
    requires Plain(cs)
    ensures var q := WriteAll(BLANK_TAPE, cs);
      && q.top == (if |cs| / VGA_WIDTH > VGA_HEIGHT - 1 then |cs| / VGA_WIDTH - (VGA_HEIGHT - 1) else 0)
      && forall i :: 0 <= i < |cs| ==> Cell(q.cells, i) == cs[i]
  {
    PlainText(BLANK_TAPE, cs);
    assert BACKSPACE !in cs;
    TopFollowsRow(BLANK_TAPE, cs);
    hide Plain, WriteAll, Cell;
    var q := WriteAll(BLANK_TAPE, cs);
    forall i | 0 <= i < |cs| ensures Cell(q.cells, i) == cs[i] {
      assert Cell(q.cells, BLANK_TAPE.cursor + i) == cs[i];
    }
  }

  // What a fresh terminal shows of a plain text: its last rows, from the first visible cell on.
  lemma PlainTextOnScreen(t: Tty, cs: seq<Char>)
    requires TtyOk(t) && Shows(t, BLANK_TAPE) && Plain(cs)
    ensures var first := if |cs| / VGA_WIDTH > VGA_HEIGHT - 1 then (|cs| / VGA_WIDTH - (VGA_HEIGHT - 1)) * VGA_WIDTH else 0;
      forall i :: 0 <= i < TTY_BUF_SIZE && first + i < |cs| ==> UpdateAll(t, cs).buf[i] == cs[first + i]
  {
    WindowRefinement(t, BLANK_TAPE, cs);
    PlainTape(cs);
    hide Plain, TtyOk, WriteAll, UpdateAll, Window, Cell;
    var q := WriteAll(BLANK_TAPE, cs);
    WindowOfText(UpdateAll(t, cs).buf, q.cells, q.top, cs);
  }
}
