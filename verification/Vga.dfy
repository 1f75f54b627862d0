/** The VGA text driver (src/vga.c): memory-mapped cells and a current position and colour. */
module VgaDriver {
  import opened Screen

  class Vga {
    const cells: array<int>
    var posX: int
    var posY: int
    var colorBg: int
    var colorFg: int
    var scroll: bool

    ghost predicate Valid()
      reads this, cells
    {
      cells.Length == TTY_BUF_SIZE && VgaOk(View())
    }

    ghost function View(): Screen.Vga
      reads this, cells
    {
      Screen.Vga(cells[..], posX, posY, colorBg, colorFg, scroll)
    }

    constructor ()
      ensures Valid() && fresh(cells)
      ensures View() == Screen.Vga(seq(TTY_BUF_SIZE, _ => VgaChar(0, 7, NUL)), 0, 0, 0, 7, false)
    {
      cells := new int[TTY_BUF_SIZE](_ => VgaChar(0, 7, NUL));
      posX, posY, colorBg, colorFg, scroll := 0, 0, 0, 7, false;
    }

    method SetXy(x: int, y: int)
      modifies this`posX, this`posY
      ensures posX == (if x < 0 then 0 else if x >= VGA_WIDTH then VGA_WIDTH - 1 else x)
      ensures posY == (if y < 0 then 0 else if y >= VGA_HEIGHT then VGA_HEIGHT - 1 else y)
    {
      if x < 0 {
        posX := 0;
      } else if x >= VGA_WIDTH {
        posX := VGA_WIDTH - 1;
      } else {
        posX := x;
      }
      if y < 0 {
        posY := 0;
      } else if y >= VGA_HEIGHT {
        posY := VGA_HEIGHT - 1;
      } else {
        posY := y;
      }
    }

    // The whole screen blank in the current colours, the position at the top left.
    method Clear()
      requires cells.Length == TTY_BUF_SIZE && 0 <= colorBg < 16 && 0 <= colorFg < 16
      modifies this`posX, this`posY, cells
      ensures Valid() && posX == 0 && posY == 0
      ensures forall i :: 0 <= i < TTY_BUF_SIZE ==> cells[i] == VgaChar(colorBg, colorFg, NUL)
    {
      for i := 0 to TTY_BUF_SIZE
        invariant forall j :: 0 <= j < i ==> cells[j] == VgaChar(colorBg, colorFg, NUL)
        modifies cells
      {
        cells[i] := VgaChar(colorBg, colorFg, NUL);
      }
      SetXy(0, 0);
    }

    method Putc(c: Char)
      requires Valid()
      modifies this`posX, this`posY, cells
      ensures View() == VgaPutc(old(View()), c)
    {
      if c == BACKSPACE {
        if posX != 0 {
          posX := posX - 1;
        } else if posY != 0 {
          posY := posY - 1;
          posX := VGA_WIDTH - 1;
        }
        cells[posX + posY * VGA_WIDTH] := VgaChar(colorBg, colorFg, NUL);
      } else if c == TAB {
        posX := posX + 4 - posX % 4;
      } else if c == RETURN {
        posX := 0;
      } else if c == NEWLINE {
        posX := 0;
        posY := posY + 1;
      } else {
        cells[posX + posY * VGA_WIDTH] := VgaChar(colorBg, colorFg, c);
        posX := posX + 1;
      }
      assert View() == VgaPlace(old(View()), c);
      hide VgaPlace;
      if posX >= VGA_WIDTH {
        posX := 0;
        posY := posY + 1;
      }
      if scroll {
        if posY >= VGA_HEIGHT {
          ScrollUp();
        }
      }
    }

    // Each row to the one above it, cell by cell, and a blank last row.
    method ScrollUp()
      requires cells.Length == TTY_BUF_SIZE && 0 <= colorBg < 16 && 0 <= colorFg < 16
      modifies this`posY, cells
      ensures posY == VGA_HEIGHT - 1
      ensures var blank := VgaChar(colorBg, colorFg, SPACE);
        cells[..] == old(cells[VGA_WIDTH..]) + seq(VGA_WIDTH, _ => blank)
    {
      for i := 0 to VGA_WIDTH * (VGA_HEIGHT - 1)
        invariant forall j :: 0 <= j < i ==> cells[j] == old(cells[VGA_WIDTH + j])
        invariant forall j :: i <= j < TTY_BUF_SIZE ==> cells[j] == old(cells[j])
        modifies cells
      {
        cells[i] := cells[VGA_WIDTH + i];
      }
      for i := 0 to VGA_WIDTH
        invariant forall j :: 0 <= j < VGA_WIDTH * (VGA_HEIGHT - 1) ==> cells[j] == old(cells[VGA_WIDTH + j])
        invariant forall j :: VGA_WIDTH * (VGA_HEIGHT - 1) <= j < VGA_WIDTH * (VGA_HEIGHT - 1) + i ==>
          cells[j] == VgaChar(colorBg, colorFg, SPACE)
        modifies cells
      {
        cells[i + VGA_WIDTH * (VGA_HEIGHT - 1)] := VgaChar(colorBg, colorFg, SPACE);
      }
      posY := VGA_HEIGHT - 1;
    }

    // One plain character at a clamped position: one cell changes, the current position and
    // colours do not.
    method PutcAt(x: int, y: int, bg: int, fg: int, c: Char)
      requires Valid() && !IsControl(c) && !scroll
      modifies this, cells
      ensures var cx := if x < 0 then 0 else if x >= VGA_WIDTH then VGA_WIDTH - 1 else x;
              var cy := if y < 0 then 0 else if y >= VGA_HEIGHT then VGA_HEIGHT - 1 else y;
        Valid() && View() == old(View()).(cells := old(cells[..])[cx + cy * VGA_WIDTH := VgaChar(bg % 8, fg % 16, c)])
    {
      var curX, curY, curBg, curFg := posX, posY, colorBg, colorFg;
      SetXy(x, y);
      colorBg, colorFg := bg % 8, fg % 16;
      Putc(c);
      posX, posY, colorBg, colorFg := curX, curY, curBg, curFg;
    }
  }
}
