/**
 * The display of a telephone: a grid of characters in one buffer with a
 * terminator behind it, and a cursor that wraps from the last row to the first.
 */
module PhoneDisplay {

  const NUL := '\0'

  /** Size, line feed character, cells row by row, and the cursor. */
  datatype Screen = Screen(cx: nat, cy: nat, lf: char, cells: seq<char>, x: nat, y: nat)

  /** A display that was never given a size has no cells. */
  predicate InBounds(s: Screen) {
    && |s.cells| == s.cx * s.cy
    && ((s.cx > 0 && s.cy > 0 && s.x < s.cx && s.y < s.cy) || (s.cx == s.cy == s.x == s.y == 0))
  }

  lemma MulUpTo(a: nat, b: nat, n: nat)
    requires a <= b
    ensures a * n <= b * n
  {
    assert b * n - a * n == (b - a) * n;
  }

  lemma DivMod(x: nat, y: nat, n: nat)
    requires x < n
    ensures (y * n + x) / n == y && (y * n + x) % n == x
  {
    var q, r := (y * n + x) / n, (y * n + x) % n;
    assert y * n + x == q * n + r;
    assert (y - q) * n == r - x;
    SmallMultiple(y - q, n);
  }

  lemma SmallMultiple(d: int, n: int)
    requires 0 < n && -n < d * n < n
    ensures d == 0
  {
    assert (-d) * n == -(d * n);
    if d > 0 {
      MulUpTo(1, d, n);
    } else if d < 0 {
      MulUpTo(1, -d, n);
    }
  }

  /** Index of a cell, row by row. */
  function Cell(cx: nat, cy: nat, x: nat, y: nat): (p: nat)
    requires x < cx && y < cy
    ensures p < cx * cy && p / cx == y && p % cx == x
  {
    MulUpTo(y + 1, cy, cx);
    assert (y + 1) * cx == y * cx + cx;
    DivMod(x, y, cx);
    y * cx + x
  }

  function Put(s: Screen, column: int, row: int, c: char): (t: Screen)
    requires InBounds(s)
    ensures InBounds(t) && t == s.(cells := t.cells)
  {
    if c != NUL && c != s.lf && 0 <= column < s.cx && 0 <= row < s.cy then
      s.(cells := s.cells[Cell(s.cx, s.cy, column, row) := c])
    else s
  }

  function NextRow(s: Screen): Screen {
    s.(x := 0, y := if s.y + 1 >= s.cy then 0 else s.y + 1)
  }

  /** AddCharacter. */
  function Typed(s: Screen, c: char): (t: Screen)
    requires InBounds(s)
    ensures InBounds(t) && (t.cx, t.cy, t.lf) == (s.cx, s.cy, s.lf)
  {
    if c == s.lf then NextRow(s)
    else
      var p := Put(s, s.x, s.y, c);
      if s.x + 1 >= s.cx then NextRow(p) else p.(x := s.x + 1)
  }

  function TypedAll(s: Screen, text: string): (t: Screen)
    requires InBounds(s)
    ensures InBounds(t) && (t.cx, t.cy, t.lf) == (s.cx, s.cy, s.lf)
  {
    if text == [] then s else Typed(TypedAll(s, text[..|text| - 1]), text[|text| - 1])
  }

  function Blank(s: Screen): (t: Screen)
    ensures s.cx > 0 && s.cy > 0 ==> InBounds(t)
  {
    s.(cells := seq(s.cx * s.cy, _ => ' '), x := 0, y := 0)
  }

  // ----------------------------------------------------------------- the tape

  /** Where the next character goes, counting cells from the top left. */
  function Next(cx: nat, cy: nat, lf: char, pos: nat, c: char): nat
    requires cx > 0 && cy > 0
  {
    if c == lf then (pos / cx + 1) % cy * cx
    else if pos + 1 == cx * cy then 0 else pos + 1
  }

  function Head(cx: nat, cy: nat, lf: char, text: string): nat
    requires cx > 0 && cy > 0
  {
    if text == [] then 0 else Next(cx, cy, lf, Head(cx, cy, lf, text[..|text| - 1]), text[|text| - 1])
  }

  /** The last visible character that was due at a cell, or a space. */
  function LastAt(cx: nat, cy: nat, lf: char, text: string, p: nat): char
    requires cx > 0 && cy > 0
  {
    if text == [] then ' '
    else
      var before, c := text[..|text| - 1], text[|text| - 1];
      if c != lf && c != NUL && Head(cx, cy, lf, before) == p then c else LastAt(cx, cy, lf, before, p)
  }

  lemma TypedWrites(s: Screen, c: char)
    requires InBounds(s) && s.cx > 0
    ensures c != s.lf && c != NUL ==> Typed(s, c).cells == s.cells[Cell(s.cx, s.cy, s.x, s.y) := c]
    ensures c == s.lf || c == NUL ==> Typed(s, c).cells == s.cells
  {
  }

  /** The cursor moves along the cells. */
  lemma TypedMoves(s: Screen, c: char)
    requires InBounds(s) && s.cx > 0
    ensures var t := Typed(s, c);
            Cell(s.cx, s.cy, t.x, t.y) == Next(s.cx, s.cy, s.lf, Cell(s.cx, s.cy, s.x, s.y), c)
  {
    var y := if s.y + 1 >= s.cy then 0 else s.y + 1;
    RowAfter(s.y, s.cy);
    LastColumn(s.cx, s.cy, s.x, s.y);
    var t := Typed(s, c);
    assert t.y == if c == s.lf || s.x + 1 >= s.cx then y else s.y;
    assert t.x == if c == s.lf || s.x + 1 >= s.cx then 0 else s.x + 1;
  }

  lemma RowAfter(y: nat, cy: nat)
    requires y < cy
    ensures (y + 1) % cy == if y + 1 >= cy then 0 else y + 1
  {
    NextModulo(y, cy);
    DivMod(y, 0, cy);
  }

  lemma LastColumn(cx: nat, cy: nat, x: nat, y: nat)
    requires x < cx && y < cy
    ensures x + 1 == cx ==> Cell(cx, cy, x, y) + 1 == (y + 1) * cx
    ensures Cell(cx, cy, x, y) + 1 == cx * cy <==> x + 1 == cx && y + 1 == cy
  {
    assert (y + 1) * cx == y * cx + cx;
    if y + 1 < cy {
      MulUpTo(y + 2, cy, cx);
      assert (y + 2) * cx == y * cx + 2 * cx;
    }
  }

  /** From a cleared display, whatever is typed: every cell shows the last visible
      character due there, and the cursor is where the next one will go. */
  lemma {:induction false} DisplayIsTheTape(s: Screen, text: string)
    requires s.cx > 0 && s.cy > 0
    ensures var t := TypedAll(Blank(s), text);
            && Cell(s.cx, s.cy, t.x, t.y) == Head(s.cx, s.cy, s.lf, text)
            && (forall p :: 0 <= p < s.cx * s.cy ==> t.cells[p] == LastAt(s.cx, s.cy, s.lf, text, p))
  {
    if text != [] {
      var before := text[..|text| - 1];
      DisplayIsTheTape(s, before);
      TypedMoves(TypedAll(Blank(s), before), text[|text| - 1]);
      TypedWrites(TypedAll(Blank(s), before), text[|text| - 1]);
    } else {
      assert 0 * s.cx + 0 == 0;
    }
  }

  predicate Plain(text: string, lf: char) {
    forall i :: 0 <= i < |text| ==> text[i] != lf && text[i] != NUL
  }

  /** The last index below `n` that is `p` modulo `size`. */
  function LastIndex(n: nat, p: nat, size: nat): (i: nat)
    requires p < size && p < n
    ensures p <= i < n && i + size >= n
  {
    n - 1 - (n - 1 - p) % size
  }

  lemma LastIndexIs(n: nat, p: nat, size: nat)
    requires p < size && p < n
    ensures LastIndex(n, p, size) % size == p
    ensures n % size == p ==> LastIndex(n + 1, p, size) == n
    ensures n % size != p ==> LastIndex(n + 1, p, size) == LastIndex(n, p, size)
  {
    var a, i := n - 1 - p, LastIndex(n, p, size);
    var q := a / size;
    assert i == q * size + p;
    DivMod(p, q, size);
    var b := a + 1;
    if a % size + 1 == size {
      assert b == q * size + size == (q + 1) * size;
      DivMod(0, q + 1, size);
      assert n == (q + 1) * size + p;
      DivMod(p, q + 1, size);
    } else {
      DivMod(a % size + 1, q, size);
      Between(n, p, q, a % size + 1, size);
    }
  }

  lemma Between(n: nat, p: nat, q: nat, r: nat, size: nat)
    requires n == q * size + p + r && p < size && 0 < r < size
    ensures n % size != p
  {
    if p + r < size {
      DivMod(p + r, q, size);
    } else {
      assert n == (q + 1) * size + (p + r - size);
      DivMod(p + r - size, q + 1, size);
    }
  }

  lemma NextModulo(n: nat, size: nat)
    requires size > 0
    ensures (n + 1) % size == if n % size + 1 == size then 0 else n % size + 1
  {
    var q := n / size;
    assert n == q * size + n % size;
    if n % size + 1 == size {
      assert n + 1 == (q + 1) * size + 0;
      DivMod(0, q + 1, size);
    } else {
      DivMod(n % size + 1, q, size);
    }
  }

  /** The last character of the text whose index is `p` modulo the size, or a space. */
  function LastWritten(text: string, p: nat, size: nat): char
    requires p < size
  {
    if p < |text| then text[LastIndex(|text|, p, size)] else ' '
  }

  lemma {:induction false} PlainTape(cx: nat, cy: nat, lf: char, text: string, p: nat)
    requires cx > 0 && cy > 0 && p < cx * cy && Plain(text, lf)
    ensures Head(cx, cy, lf, text) == |text| % (cx * cy)
    ensures LastAt(cx, cy, lf, text, p) == LastWritten(text, p, cx * cy)
  {
    var size := cx * cy;
    if text == [] {
      DivMod(0, 0, size);
    } else {
      var n := |text| - 1;
      PlainTape(cx, cy, lf, text[..n], p);
      NextModulo(n, size);
      if p < n {
        LastIndexIs(n, p, size);
      } else if n < size {
        DivMod(n, 0, size);
        assert p == n ==> LastIndex(n + 1, p, size) == n;
      }
    }
  }

  /** Typed on a cleared display, text without line feeds wraps around: every
      cell shows the last character whose index is the cell's modulo the size,
      or a space, and the cursor is the length modulo the size. */
  lemma PlainTextWrapsAround(s: Screen, text: string)
    requires s.cx > 0 && s.cy > 0 && Plain(text, s.lf)
    ensures var t := TypedAll(Blank(s), text);
            && Cell(s.cx, s.cy, t.x, t.y) == |text| % (s.cx * s.cy)
            && forall p :: 0 <= p < s.cx * s.cy ==> t.cells[p] == LastWritten(text, p, s.cx * s.cy)
  {
    DisplayIsTheTape(s, text);
    assert 0 < s.cx * s.cy by {
      MulUpTo(1, s.cx, s.cy);
    }
    PlainTape(s.cx, s.cy, s.lf, text, 0);
    forall p | 0 <= p < s.cx * s.cy
      ensures LastAt(s.cx, s.cy, s.lf, text, p) == LastWritten(text, p, s.cx * s.cy)
    {
      PlainTape(s.cx, s.cy, s.lf, text, p);
    }
  }

  /** The first `n` cells of a row overwritten with spaces. */
  function RowCleared(s: Screen, row: int, n: nat): (t: Screen)
    requires InBounds(s)
    ensures InBounds(t) && t == s.(cells := t.cells)
  {
    if n == 0 then s else Put(RowCleared(s, row, n - 1), n - 1, row, ' ')
  }

  lemma {:induction false} OutsideRow(s: Screen, row: int, n: nat)
    requires InBounds(s) && !(0 <= row < s.cy)
    ensures RowCleared(s, row, n) == s
  {
    if n > 0 {
      OutsideRow(s, row, n - 1);
    }
  }

  /** ClearRow clears its row and no other cell; with the space for a line feed
      it clears nothing. */
  lemma {:induction false} ClearRowClearsItsRow(s: Screen, row: int, n: nat, x: nat, y: nat)
    requires InBounds(s) && x < s.cx && y < s.cy && n <= s.cx
    ensures var p := Cell(s.cx, s.cy, x, y);
            RowCleared(s, row, n).cells[p] == if y == row && x < n && s.lf != ' ' then ' ' else s.cells[p]
  {
    if n > 0 {
      ClearRowClearsItsRow(s, row, n - 1, x, y);
      if 0 <= row < s.cy {
        assert Cell(s.cx, s.cy, n - 1, row) == Cell(s.cx, s.cy, x, y) ==> n - 1 == x && row == y;
      }
    }
  }

  // -------------------------------------------------------------- the object

  class PhoneDisplay {
    var buffer: array<char>
    var cx: nat
    var cy: nat
    var lf: char
    var x: nat
    var y: nat

    ghost function View(): Screen
      requires HasTerminator()
      reads this, buffer
    {
      Screen(cx, cy, lf, buffer[..cx * cy], x, y)
    }

    /** The buffer is one longer than the display, if there is a display. */
    ghost predicate HasTerminator()
      reads this, buffer
    {
      if cx * cy == 0 then buffer.Length == 0 else buffer.Length == cx * cy + 1 && buffer[cx * cy] == NUL
    }

    ghost predicate Valid()
      reads this, buffer
    {
      HasTerminator() && InBounds(View())
    }

    constructor ()
      ensures Valid() && fresh(buffer) && cx == cy == 0
    {
      buffer := new char[0];
      cx, cy, x, y, lf := 0, 0, 0, 0, '\n';
    }

    method Init(columns: int, rows: int, lineFeed: char)
      requires Valid()
      modifies this
      ensures Valid() && (fresh(buffer) || buffer == old(buffer))
      ensures columns > 0 && rows > 0 ==> View() == Blank(Screen(columns, rows, lineFeed, [], 0, 0))
      ensures columns <= 0 || rows <= 0 ==> View() == old(View())
    {
      if columns > 0 && rows > 0 {
        cx, cy, lf := columns, rows, lineFeed;
        buffer := new char[columns * rows + 1];
        Reset();
      }
    }

    method SetCharacterAtPosition(column: int, row: int, c: char)
      requires Valid()
      modifies buffer
      ensures Valid()
      ensures View() == Put(old(View()), if column == -1 then x else column, if row == -1 then y else row, c)
    {
      var column', row' := column, row;
      if column == -1 {
        column' := x;
      }
      if row == -1 {
        row' := y;
      }
      if c != NUL && c != lf && 0 <= column' < cx && 0 <= row' < cy {
        buffer[Cell(cx, cy, column', row')] := c;
      }
    }

    method AddCharacter(c: char)
      requires Valid()
      modifies this`x, this`y, buffer
      ensures Valid() && View() == Typed(old(View()), c)
    {
      if c == lf {
        y := y + 1;
        if y >= cy {
          y := 0;
        }
        x := 0;
      } else {
        SetCharacterAtPosition(-1, -1, c);
        x := x + 1;
        if x >= cx {
          x := 0;
          y := y + 1;
          if y >= cy {
            y := 0;
          }
        }
      }
    }

    method SetCursorPosition(column: int, row: int)
      requires Valid()
      modifies this`x, this`y
      ensures Valid()
      ensures View() == old(View()).(x := if 0 <= column < cx then column else old(x),
                                     y := if 0 <= row < cy then row else old(y))
    {
      if 0 <= column < cx {
        x := column;
      }
      if 0 <= row < cy {
        y := row;
      }
    }

    /** Fills the buffer row by row with spaces, and ends it. */
    method Fill(ghost area: nat)
      requires area == cx * cy && buffer.Length == area + 1
      modifies buffer
      ensures forall i :: 0 <= i < area ==> buffer[i] == ' '
      ensures buffer[area] == NUL
    {
      var p: nat, row: nat := 0, 0;
      while row < cy
        invariant row <= cy && p == row * cx <= area
        invariant forall i :: 0 <= i < p ==> buffer[i] == ' '
      {
        RowFits(cx, cy, row);
        ghost var end := p + cx;
        var column: nat := 0;
        while column < cx
          invariant column <= cx && p + cx == end + column && end <= area
          invariant forall i :: 0 <= i < p ==> buffer[i] == ' '
        {
          buffer[p] := ' ';
          p := p + 1;
          column := column + 1;
        }
        row := row + 1;
      }
      buffer[p] := NUL;
    }

    method Reset()
      requires cx * cy > 0 ==> buffer.Length == cx * cy + 1
      requires cx * cy == 0 ==> cx == cy == 0 && buffer.Length == 0
      modifies this`x, this`y, buffer
      ensures Valid() && View() == Blank(Screen(cx, cy, lf, [], 0, 0))
    {
      x, y := 0, 0;
      ghost var area := cx * cy;
      ZeroArea(cx, cy);
      if buffer.Length > 0 {
        Fill(area);
      }
      assert buffer[..area] == seq(area, _ => ' ');
    }

    method ClearRow(row: int)
      requires Valid()
      modifies buffer
      ensures Valid() && View() == RowCleared(old(View()), row, cx)
    {
      if 0 <= row < cy {
        var column := 0;
        while column < cx
          invariant 0 <= column <= cx && Valid()
          invariant View() == RowCleared(old(View()), row, column)
        {
          SetCharacterAtPosition(column, row, ' ');
          column := column + 1;
        }
      } else {
        OutsideRow(View(), row, cx);
      }
    }
  }

  lemma ZeroArea(cx: nat, cy: nat)
    ensures cx * cy > 0 <==> cx > 0 && cy > 0
  {
    if cx > 0 && cy > 0 {
      MulUpTo(1, cx, cy);
    }
  }

  lemma RowFits(cx: nat, cy: nat, row: nat)
    requires row < cy
    ensures row * cx + cx == (row + 1) * cx <= cx * cy
  {
    assert (row + 1) * cx <= cy * cx;
  }
}
