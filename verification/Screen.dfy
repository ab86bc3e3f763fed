/** The text screen of arch/i386/drivers/text_buffer.c and the endless page that it shows a window of. */
module Screen {

  const ROWS: nat := 25
  const COLS: nat := 80
  const SIZE: nat := 2000
  const BLACK := 0
  const LIGHT_GREY := 7

  /** A screen cell: a character below 0x80 with its colours. */
  function Glyph(c: nat, bg: int, fg: int): nat {
    bg % 16 * 4096 + fg % 16 * 256 + c
  }

  const SPACE: nat := 0x0720

  const BS: nat := 0x08
  const TAB: nat := 0x09
  const LF: nat := 0x0a
  const CR: nat := 0x0d

  // ---- the page ----

  /**
   Lines of 80 cells without end, numbered through: what has been written, the place of the
   cursor, and the line at the top of the window.
   */
  datatype Page = Page(text: map<nat, nat>, pos: nat, top: nat)

  function Look(p: Page, k: nat): nat {
    if k in p.text then p.text[k] else SPACE
  }

  /** The cursor is in the window, and nothing has been written below it. */
  ghost predicate Framed(p: Page) {
    p.top * COLS <= p.pos < (p.top + ROWS) * COLS && forall k :: k in p.text ==> k < (p.top + ROWS) * COLS
  }

  /** The window moves down as far as it must to show the cursor. */
  function Follow(p: Page): Page {
    if p.pos / COLS >= p.top + ROWS then p.(top := p.pos / COLS + 1 - ROWS) else p
  }

  function Put(p: Page, v: nat): Page {
    Follow(p.(text := p.text[p.pos := v], pos := p.pos + 1))
  }

  function Newline(p: Page): Page {
    Follow(p.(pos := (p.pos / COLS + 1) * COLS))
  }

  /** Backspace stops at the top of the window. */
  function Back(p: Page): Page {
    var pos := if p.pos > p.top * COLS then p.pos - 1 else p.pos;
    p.(pos := pos, text := p.text[pos := SPACE])
  }

  function NextStop(pos: nat): nat {
    (pos / 8 + 1) * 8
  }

  /** The text with the cells from a up to b blanked. */
  function Blanked(text: map<nat, nat>, a: nat, b: nat): (r: map<nat, nat>)
    ensures forall k :: k in r <==> k in text || a <= k < b
    ensures forall k :: k in r ==> r[k] == if a <= k < b then SPACE else text[k]
    decreases b
  {
    if b <= a then text else Blanked(text, a, b - 1)[b - 1 := SPACE]
  }

  /** A tab blanks the cells up to the next multiple of eight. */
  function Tabbed(p: Page): Page {
    Follow(p.(text := Blanked(p.text, p.pos, NextStop(p.pos)), pos := NextStop(p.pos)))
  }

  /** What a character does to the page. */
  function Written(p: Page, c: nat, bg: int, fg: int): Page {
    if c == BS then Back(p)
    else if c == CR then p
    else if c == LF then Newline(p)
    else if c == TAB then Tabbed(p)
    else Put(p, Glyph(c, bg, fg))
  }

  lemma WrittenFramed(p: Page, c: nat, bg: int, fg: int)
    requires Framed(p)
    ensures Framed(Written(p, c, bg, fg))
  {}

  /** The character and its two colours are all in the cell. */
  lemma GlyphParts(c: nat, bg: int, fg: int)
    requires c < 0x80
    ensures var v := Glyph(c, bg, fg); v % 256 == c && v / 256 % 16 == fg % 16 && v / 4096 == bg % 16
  {}

  /** A character and a backspace: the cursor is back, its cell is blank, and nothing else on the page has changed. */
  lemma RubOut(p: Page, v: nat, k: nat)
    requires Framed(p)
    ensures var q := Back(Put(p, v)); q.pos == p.pos && Look(q, k) == if k == p.pos then SPACE else Look(p, k)
  {
    InWindow(p);
  }

  /** Backspace moves back by one cell, over a line end too, unless the cursor is at the first cell of the window, and blanks the cell it ends on. */
  lemma BackBlanks(p: Page, k: nat)
    requires Framed(p)
    ensures var q := Back(p);
            && q.top == p.top && q.pos == (if p.pos == p.top * COLS then p.pos else p.pos - 1)
            && Look(q, k) == if k == q.pos then SPACE else Look(p, k)
  {}

  /** A newline goes to the first cell of the next line, a carriage return nowhere; neither writes anything. */
  lemma LineEnds(p: Page, bg: int, fg: int, k: nat)
    ensures var q := Written(p, LF, bg, fg);
            && q.pos % 80 == 0 && p.pos < q.pos <= p.pos + 80 && Look(q, k) == Look(p, k)
    ensures Written(p, CR, bg, fg) == p
  {}

  /** A tab goes to the next multiple of eight and blanks the cells it passes. */
  lemma TabStops(p: Page, bg: int, fg: int, k: nat)
    ensures var q := Written(p, TAB, bg, fg);
            && q.pos % 8 == 0 && p.pos < q.pos <= p.pos + 8 && Look(q, k) == if p.pos <= k < q.pos then SPACE else Look(p, k)
  {
    hide Follow;
    StopAt(p.pos);
    FollowLooks(p.(text := Blanked(p.text, p.pos, NextStop(p.pos)), pos := NextStop(p.pos)), k);
  }

  lemma FollowLooks(p: Page, k: nat)
    ensures Follow(p).pos == p.pos && Look(Follow(p), k) == Look(p, k)
  {}

  function Spaces(p: Page, n: nat): Page {
    if n == 0 then p else Put(Spaces(p, n - 1), SPACE)
  }

  lemma SameLine(pos: nat, n: nat)
    requires pos + n < NextStop(pos)
    ensures (pos + n) / COLS == pos / COLS
  {
    assert COLS == 8 * 10;
    assert (pos + n) / 8 == pos / 8;
    assert pos / 80 == pos / 8 / 10;
    assert (pos + n) / 80 == (pos + n) / 8 / 10;
  }

  lemma PutOnLine(p: Page, v: nat)
    requires p.pos / COLS < p.top + ROWS && (p.pos + 1) / COLS == p.pos / COLS
    ensures Put(p, v) == p.(text := p.text[p.pos := v], pos := p.pos + 1)
  {}

  lemma InWindow(p: Page)
    requires Framed(p)
    ensures p.top <= p.pos / COLS < p.top + ROWS
  {}

  lemma {:induction false} SpacesOnLine(p: Page, n: nat)
    requires Framed(p) && p.pos + n < NextStop(p.pos)
    ensures Spaces(p, n) == p.(text := Blanked(p.text, p.pos, p.pos + n), pos := p.pos + n)
    decreases n
  {
    hide Put, Framed, NextStop;
    if n > 0 {
      OneLess(p.pos, n);
      SpacesOnLine(p, n - 1);
      SameLine(p.pos, n);
      SameLine(p.pos, n - 1);
      InWindow(p);
      PutOnLine(Spaces(p, n - 1), SPACE);
      assert Blanked(p.text, p.pos, p.pos + n) == Blanked(p.text, p.pos, p.pos + n - 1)[p.pos + n - 1 := SPACE];
    }
  }

  lemma OneLess(pos: nat, n: nat)
    requires n > 0 && pos + n < NextStop(pos)
    ensures pos + (n - 1) < NextStop(pos)
  {}

  /** The spaces that a tab is made of add up to a tab: only the last one can reach the next line. */
  lemma SpacesMakeTab(p: Page)
    requires Framed(p)
    ensures Spaces(p, 8 - p.pos % 8) == Tabbed(p)
  {
    StopAt(p.pos);
    SpacesReach(p, 8 - p.pos % 8);
  }

  lemma SpacesReach(p: Page, n: nat)
    requires Framed(p) && n > 0 && NextStop(p.pos) == p.pos + n
    ensures Spaces(p, n) == Tabbed(p)
  {
    hide Framed, Follow, NextStop;
    SpacesOnLine(p, n - 1);
    LastSpace(p, n);
  }

  lemma LastSpace(p: Page, n: nat)
    requires n > 0 && Spaces(p, n - 1) == p.(text := Blanked(p.text, p.pos, p.pos + (n - 1)), pos := p.pos + (n - 1))
    ensures Spaces(p, n) == Follow(p.(text := Blanked(p.text, p.pos, p.pos + n), pos := p.pos + n))
  {
    hide Follow;
    assert Blanked(p.text, p.pos, p.pos + n) == Blanked(p.text, p.pos, p.pos + n - 1)[p.pos + n - 1 := SPACE];
  }

  lemma StopAt(pos: nat)
    ensures NextStop(pos) == pos + (8 - pos % 8)
  {}

  /** A stream of characters, all in the same colours. */
  function Stream(p: Page, cs: seq<nat>, bg: int, fg: int): Page
    decreases |cs|
  {
    if cs == [] then p else Stream(Written(p, cs[0], bg, fg), cs[1..], bg, fg)
  }

  lemma WrittenAbove(p: Page, c: nat, bg: int, fg: int, k: nat)
    requires Framed(p) && k < p.top * COLS
    ensures p.top <= Written(p, c, bg, fg).top && Look(Written(p, c, bg, fg), k) == Look(p, k)
  {}

  /** Whatever is written, the cursor stays in the window, and what has left the window stays as it was. */
  lemma {:induction false} AboveIsFinal(p: Page, cs: seq<nat>, bg: int, fg: int, k: nat)
    requires Framed(p)
    ensures var r := Stream(p, cs, bg, fg);
            Framed(r) && p.top <= r.top && (k < p.top * COLS ==> Look(r, k) == Look(p, k))
    decreases |cs|
  {
    hide Written, Framed, Look;
    if cs != [] {
      var q := Written(p, cs[0], bg, fg);
      WrittenFramed(p, cs[0], bg, fg);
      TopMoves(p, cs[0], bg, fg);
      if k < p.top * COLS {
        WrittenAbove(p, cs[0], bg, fg, k);
      }
      AboveIsFinal(q, cs[1..], bg, fg, k);
    }
  }

  lemma TopMoves(p: Page, c: nat, bg: int, fg: int)
    ensures p.top <= Written(p, c, bg, fg).top
  {}

  predicate Printable(cs: seq<nat>) {
    forall i :: 0 <= i < |cs| ==> cs[i] != BS && cs[i] != TAB && cs[i] != LF && cs[i] != CR
  }

  /** Text without control characters is found on the page, character by character, line after line. */
  lemma {:induction false} TextReadsBack(p: Page, cs: seq<nat>, bg: int, fg: int, k: nat)
    requires Printable(cs)
    ensures var r := Stream(p, cs, bg, fg);
            r.pos == p.pos + |cs| && Look(r, k) == if p.pos <= k < p.pos + |cs| then Glyph(cs[k - p.pos], bg, fg) else Look(p, k)
    decreases |cs|
  {
    hide Glyph;
    if cs != [] {
      var q := Written(p, cs[0], bg, fg);
      assert q == Put(p, Glyph(cs[0], bg, fg)) && q.pos == p.pos + 1;
      TextReadsBack(q, cs[1..], bg, fg, k);
    }
  }

  // ---- the screen ----

  /** The cells show the lines from the top of the window on. */
  ghost predicate Shows(cell: seq<nat>, p: Page) {
    |cell| == SIZE && forall k: nat :: k < SIZE ==> cell[k] == Look(p, p.top * COLS + k)
  }

  lemma ShowsPut(cell: seq<nat>, p: Page, k: nat, v: nat, pos: nat)
    requires Shows(cell, p) && k < SIZE
    ensures Shows(cell[k := v], p.(text := p.text[p.top * COLS + k := v], pos := pos))
  {}

  lemma ShowsMove(cell: seq<nat>, p: Page, pos: nat)
    requires Shows(cell, p)
    ensures Shows(cell, p.(pos := pos))
  {}

  /** Copying 24 lines up and blanking the last moves the window down by one. */
  lemma ShowsScroll(cell: seq<nat>, cell': seq<nat>, p: Page)
    requires Shows(cell, p) && |cell'| == SIZE && forall k :: k in p.text ==> k < (p.top + ROWS) * COLS
    requires forall k: nat :: k < SIZE ==> cell'[k] == if k < SIZE - COLS then cell[k + COLS] else SPACE
    ensures Shows(cell', p.(top := p.top + 1))
  {
    forall k: nat | k < SIZE ensures cell'[k] == Look(p, (p.top + 1) * COLS + k) {
      if k < SIZE - COLS {
        assert cell[k + COLS] == Look(p, p.top * COLS + (k + COLS));
      }
    }
  }

  /** memmove to a lower address, cell by cell. */
  method Memmove(a: array<nat>, dest: nat, src: nat, n: nat)
    requires dest < src && src + n <= a.Length
    modifies a
    ensures forall k: nat :: k < a.Length ==> a[k] == old(a[if dest <= k < dest + n then k - dest + src else k])
  {
    var i := 0;
    while i < n
      invariant i <= n
      invariant forall k: nat :: k < a.Length ==> a[k] == old(a[if dest <= k < dest + i then k - dest + src else k])
    {
      a[dest + i] := a[src + i];
      i := i + 1;
    }
  }

  lemma BlankGlyph()
    ensures Glyph(0x20, BLACK, LIGHT_GREY) == SPACE
  {}

  /** A place on the screen as a place on the page. */
  lemma Place(top: nat, row: nat, col: nat)
    requires col < COLS
    ensures var pos := top * COLS + row * COLS + col;
            pos / COLS == top + row && pos % 8 == col % 8 && (pos / COLS + 1) * COLS == top * COLS + (row + 1) * COLS
  {
    Eighths(10 * top + 10 * row, col);
  }

  lemma Eighths(k: nat, c: nat)
    ensures (8 * k + c) % 8 == c % 8
  {
    assert 8 * k + c == 8 * (k + c / 8) + c % 8;
  }

  lemma FollowOn(p: Page, row: nat, col: nat)
    requires p.pos == p.top * COLS + row * COLS + col && row <= ROWS && col < COLS
    ensures Follow(p) == if row < ROWS then p else p.(top := p.top + 1)
  {
    Place(p.top, row, col);
  }

  lemma FollowFramed(p: Page, c: nat, bg: int, fg: int)
    requires Framed(p)
    ensures Follow(Written(p, c, bg, fg)) == Written(p, c, bg, fg)
  {
    hide Written;
    WrittenFramed(p, c, bg, fg);
  }

  lemma FramedBelow(p: Page)
    requires Framed(p)
    ensures forall k :: k in p.text ==> k < (p.top + ROWS) * COLS
  {}

  class TextBuffer {
    const cell: array<nat>
    var row: nat
    var col: nat
    var cursor: nat
    ghost var page: Page

    ghost predicate Valid()
      reads this, cell
    {
      && cell.Length == SIZE && row < ROWS && col < COLS && cursor == row * COLS + col
      && Framed(page) && page.pos == page.top * COLS + row * COLS + col
      && Shows(cell[..], page)
    }

    constructor ()
      ensures Valid() && page == Page(map[], 0, 0) && fresh(cell)
    {
      cell := new nat[SIZE](_ => SPACE);
      row, col, cursor := 0, 0, 0;
      page := Page(map[], 0, 0);
    }

    /** text_buffer_clear: a new page. */
    method Clear()
      requires cell.Length == SIZE
      modifies this, cell
      ensures Valid() && page == Page(map[], 0, 0)
    {
      row, col := 0, 0;
      var i := 0;
      while i < COLS * ROWS
        invariant i <= SIZE && row == col == 0 && forall k :: 0 <= k < i ==> cell[k] == SPACE
      {
        cell[i] := SPACE;
        i := i + 1;
      }
      cursor := row * COLS + col;
      page := Page(map[], 0, 0);
    }

    method DrawCharAt(c: nat, r: nat, k: nat, bg: int, fg: int)
      requires cell.Length == SIZE
      modifies cell
      ensures cell[..] == old(cell[..])[r % ROWS * COLS + k % COLS := Glyph(c, bg, fg)]
    {
      cell[r % ROWS * COLS + k % COLS] := Glyph(c, bg, fg);
    }

    /** The last line is blanked after the others have been copied up. */
    method BlankLast(ghost before: seq<nat>)
      requires cell.Length == |before| == SIZE
      requires forall k: nat :: k < SIZE ==> cell[k] == before[if k < SIZE - COLS then k + COLS else k]
      modifies cell
      ensures forall k: nat :: k < SIZE ==> cell[k] == if k < SIZE - COLS then before[k + COLS] else SPACE
    {
      var i := 0;
      while i < COLS
        invariant i <= COLS
        invariant forall k: nat :: k < SIZE - COLS ==> cell[k] == before[k + COLS]
        invariant forall k: nat :: SIZE - COLS <= k < SIZE - COLS + i ==> cell[k] == SPACE
      {
        cell[COLS * (ROWS - 1) + i] := SPACE;
        i := i + 1;
      }
    }

    /** The end of text_buffer_draw_char: scroll by one line if the cursor has left the screen. */
    method Scroll()
      requires Unscrolled()
      modifies this, cell
      ensures Valid() && page == Follow(old(page))
    {
      hide Shows, Follow, Look;
      FollowOn(page, row, col);
      ghost var before := cell[..];
      if row >= ROWS {
        row := ROWS - 1;
        Memmove(cell, 0, COLS, COLS * (ROWS - 1));
        BlankLast(before);
        ShowsScroll(before, cell[..], page);
        page := page.(top := page.top + 1);
      }
      cursor := row * COLS + col;
    }

    /** The page and the cursor agree, though the cursor may have left the screen by one line. */
    ghost predicate Unscrolled()
      reads this, cell
    {
      && cell.Length == SIZE && Shows(cell[..], page) && row <= ROWS && col < COLS
      && page.pos == page.top * COLS + row * COLS + col && forall k :: k in page.text ==> k < (page.top + ROWS) * COLS
    }

    method Backspace()
      requires Valid()
      modifies this, cell
      ensures Unscrolled() && row < ROWS && page == Back(old(page))
    {
      hide Shows, Glyph, Framed;
      FramedBelow(page);
      if col != 0 {
        col := col - 1;
      } else if row != 0 {
        row := row - 1;
        col := COLS - 1;
      }
      ShowsPut(cell[..], page, row * COLS + col, SPACE, page.top * COLS + row * COLS + col);
      BlankGlyph();
      DrawCharAt(0x20, row, col, BLACK, LIGHT_GREY);
      page := Back(page);
    }

    method PutChar(c: nat, bg: int, fg: int)
      requires Valid()
      modifies this, cell
      ensures Unscrolled() && Follow(page) == Put(old(page), Glyph(c, bg, fg))
    {
      hide Shows, Glyph, Follow;
      ShowsPut(cell[..], page, row * COLS + col, Glyph(c, bg, fg), page.pos + 1);
      DrawCharAt(c, row, col, bg, fg);
      page := page.(text := page.text[page.pos := Glyph(c, bg, fg)], pos := page.pos + 1);
      col := col + 1;
      if col >= COLS {
        col := 0;
        row := row + 1;
      }
    }

    method LineFeed()
      requires Valid()
      modifies this
      ensures Unscrolled() && Follow(page) == Newline(old(page))
    {
      hide Shows, Follow;
      Place(page.top, row, col);
      ShowsMove(cell[..], page, (page.pos / COLS + 1) * COLS);
      page := page.(pos := (page.pos / COLS + 1) * COLS);
      col := 0;
      row := row + 1;
    }

    method DrawChar(c: nat, bg: int, fg: int)
      requires Valid() && c < 0x80
      modifies this, cell
      ensures Valid() && page == Written(old(page), c, bg, fg)
      decreases c == TAB, 0
    {
      hide Shows, Glyph, Follow, Tabbed, Back, Put, Framed, Newline;
      ghost var p := page;
      if c == BS {
        Backspace();
        FollowFramed(p, c, bg, fg);
      } else if c == CR {
        return;
      } else if c == LF {
        LineFeed();
      } else if c == TAB {
        Place(page.top, row, col);
        var n := 8 - col % 8;
        ghost var all: nat := n;
        while n > 0
          invariant 0 <= n <= all && Valid() && page == Spaces(p, all - n)
        {
          n := n - 1;
          WriteChar(0x20);
          BlankGlyph();
        }
        SpacesMakeTab(p);
        FollowFramed(p, c, bg, fg);
        FramedBelow(page);
      } else {
        PutChar(c, bg, fg);
      }
      Scroll();
    }

    method WriteChar(c: nat)
      requires Valid() && c < 0x80
      modifies this, cell
      ensures Valid() && page == Written(old(page), c, BLACK, LIGHT_GREY)
      decreases c == TAB, 1
    {
      DrawChar(c, BLACK, LIGHT_GREY);
    }
  }
}
