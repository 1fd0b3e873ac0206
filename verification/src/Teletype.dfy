/**
 The text-mode teletype (tty_char_out in src/base/bios/int10.c) on the first page: characters
 are written at the cursor, the cursor wraps at the right margin and the screen scrolls at the
 bottom.  It is compared with a machine that writes on a sheet without end and never scrolls.
 */
module Teletype {
  import opened Basics
  import opened TextScroll

  const BEL: byte := 7
  const BS: byte := 8
  const TAB: byte := 9
  const LF: byte := 10
  const CR: byte := 13

  type Line = seq<Cell>

  /** The rows on the screen and the cursor. */
  datatype Screen = Screen(rows: seq<Line>, x: nat, y: nat)

  /** A sheet that only grows; its cursor row counts from the first row ever. */
  datatype Sheet = Sheet(rows: seq<Line>, x: nat, row: nat)

  predicate Wide(rows: seq<Line>, co: nat) { forall r | 0 <= r < |rows| :: |rows[r]| == co }

  predicate ScreenOk(s: Screen, li: nat, co: nat) {
    1 <= li == |s.rows| && 1 <= co && Wide(s.rows, co) && s.x < co && s.y < li
  }

  predicate SheetOk(h: Sheet, co: nat) {
    1 <= co && Wide(h.rows, co) && h.x < co && h.row < |h.rows|
  }

  function BlankLine(attr: byte, co: nat): (l: Line)
    ensures |l| == co
  {
    seq(co, _ => Blank(attr))
  }

  /** A character written over a cell: without an attribute the cell keeps its own. */
  function Over(c: Cell, ch: byte, attr: Option<byte>): Cell {
    Cell(ch, if attr.Some? then attr.value else c.attr)
  }

  function Write(rows: seq<Line>, x: nat, y: nat, ch: byte, attr: Option<byte>): seq<Line> {
    if y < |rows| && x < |rows[y]| then rows[y := rows[y][x := Over(rows[y][x], ch, attr)]] else rows
  }

  // ---------------------------------------------------------------- the screen

  /** The end of tty_char_out: wrap at the margin, scroll at the bottom, set the cursor. */
  function Settle(rows: seq<Line>, x: nat, y: nat, co: nat): Screen
    requires rows != [] && Wide(rows, co) && 1 <= co && x <= co && y <= |rows| && (x == co ==> y < |rows|)
  {
    var x', y' := if x == co then 0 else x, if x == co then y + 1 else y;
    if y' == |rows| then
      var last := rows[|rows| - 1];
      Screen(rows[1..] + [BlankLine(last[x'].attr, co)], x', y' - 1)
    else Screen(rows, x', y')
  }

  /** tty_char_out for every character but the tab. */
  function Out(s: Screen, ch: byte, attr: Option<byte>, li: nat, co: nat): (s': Screen)
    requires ScreenOk(s, li, co) && ch != TAB
    ensures ScreenOk(s', li, co)
  {
    if ch == BEL then s
    else if ch == CR then Settle(s.rows, 0, s.y, co)
    else if ch == LF then Settle(s.rows, s.x, s.y + 1, co)
    else if ch == BS then Settle(s.rows, if s.x > 0 then s.x - 1 else 0, s.y, co)
    else Settle(Write(s.rows, s.x, s.y, ch, attr), s.x + 1, s.y, co)
  }

  /** The do-while loop of the tab case: spaces until the column is a multiple of eight. */
  function Spaces(s: Screen, li: nat, co: nat): (s': Screen)
    requires ScreenOk(s, li, co)
    ensures ScreenOk(s', li, co) && s'.x % 8 == 0
    decreases co - s.x
  {
    var s1 := Out(s, 32, None, li, co);
    if s1.x % 8 == 0 then s1 else Spaces(s1, li, co)
  }

  /** tty_char_out; the tab case ends with the row it read before writing its spaces. */
  function Tty(s: Screen, ch: byte, attr: Option<byte>, li: nat, co: nat): (s': Screen)
    requires ScreenOk(s, li, co)
    ensures ScreenOk(s', li, co)
  {
    if ch != TAB then Out(s, ch, attr, li, co)
    else var s1 := Spaces(s, li, co); Settle(s1.rows, s1.x, s.y, co)
  }

  // ---------------------------------------------------------------- the sheet

  /** Moving on to a row that does not exist yet appends it, blank, in the colour at the cursor. */
  function Advance(rows: seq<Line>, x: nat, row: nat, co: nat): Sheet
    requires rows != [] && Wide(rows, co) && x < co && row <= |rows|
  {
    if row < |rows| then Sheet(rows, x, row)
    else Sheet(rows + [BlankLine(rows[|rows| - 1][x].attr, co)], x, row)
  }

  function Type(h: Sheet, ch: byte, attr: Option<byte>, co: nat): (h': Sheet)
    requires SheetOk(h, co) && ch != TAB
    ensures SheetOk(h', co) && |h.rows| <= |h'.rows|
  {
    if ch == BEL then h
    else if ch == CR then h.(x := 0)
    else if ch == LF then Advance(h.rows, h.x, h.row + 1, co)
    else if ch == BS then h.(x := if h.x > 0 then h.x - 1 else 0)
    else
      var rows := Write(h.rows, h.x, h.row, ch, attr);
      if h.x + 1 == co then Advance(rows, 0, h.row + 1, co) else Sheet(rows, h.x + 1, h.row)
  }

  /** What a tab should do: spaces up to the next multiple of eight. */
  function TypeTab(h: Sheet, co: nat): (h': Sheet)
    requires SheetOk(h, co)
    ensures SheetOk(h', co)
    decreases co - h.x
  {
    var h1 := Type(h, 32, None, co);
    if h1.x % 8 == 0 then h1 else TypeTab(h1, co)
  }

  // ---------------------------------------------------------------- refinement

  /** The screen shows the last rows of the sheet, and both cursors are at the same place. */
  predicate Shows(s: Screen, h: Sheet, li: nat, co: nat) {
    ScreenOk(s, li, co) && SheetOk(h, co) && li <= |h.rows| &&
    s.rows == h.rows[|h.rows| - li..] && s.x == h.x && s.y + |h.rows| - li == h.row
  }

  lemma WriteShows(h: Sheet, li: nat, co: nat, ch: byte, attr: Option<byte>)
    requires SheetOk(h, co) && 1 <= li <= |h.rows| && |h.rows| - li <= h.row
    ensures var off := |h.rows| - li;
            Wide(Write(h.rows, h.x, h.row, ch, attr), co) && |Write(h.rows, h.x, h.row, ch, attr)| == |h.rows| &&
            Write(h.rows, h.x, h.row, ch, attr)[off..] == Write(h.rows[off..], h.x, h.row - off, ch, attr)
  {
  }

  lemma AdvanceShows(rows: seq<Line>, x: nat, row: nat, li: nat, co: nat)
    requires 1 <= li <= |rows| && Wide(rows, co) && x < co && |rows| - li <= row <= |rows|
    ensures Shows(Settle(rows[|rows| - li..], x, row - (|rows| - li), co), Advance(rows, x, row, co), li, co)
  {
    var off := |rows| - li;
    var shown := rows[off..];
    WideSuffix(rows, off, co);
    if row == |rows| {
      assert shown[li - 1] == rows[|rows| - 1];
      var blank := BlankLine(rows[|rows| - 1][x].attr, co);
      assert shown[1..] + [blank] == (rows + [blank])[off + 1..];
      WideMore(rows, blank, co);
      WideSuffix(rows + [blank], off + 1, co);
    }
    hide Wide, BlankLine;
  }

  lemma WideSuffix(rows: seq<Line>, off: nat, co: nat)
    requires off <= |rows| && Wide(rows, co)
    ensures Wide(rows[off..], co)
  {
  }

  lemma WideMore(rows: seq<Line>, line: Line, co: nat)
    requires Wide(rows, co) && |line| == co
    ensures Wide(rows + [line], co)
  {
  }

  /** Each character keeps the screen on the end of the sheet. */
  lemma TypeShows(s: Screen, h: Sheet, ch: byte, attr: Option<byte>, li: nat, co: nat)
    requires Shows(s, h, li, co) && ch != TAB
    ensures Shows(Out(s, ch, attr, li, co), Type(h, ch, attr, co), li, co)
  {
    if ch == LF || ch == CR || ch == BS {
      ControlShows(s, h, ch, attr, li, co);
    } else if ch != BEL {
      PrintShows(s, h, ch, attr, li, co);
    }
  }

  lemma ControlShows(s: Screen, h: Sheet, ch: byte, attr: Option<byte>, li: nat, co: nat)
    requires Shows(s, h, li, co) && (ch == LF || ch == CR || ch == BS)
    ensures Shows(Out(s, ch, attr, li, co), Type(h, ch, attr, co), li, co)
  {
    hide Wide, Settle, Advance, Shows;
    if ch == LF {
      LineShows(s, h, li, co);
    } else {
      ColumnShows(s, h, if ch == CR || s.x == 0 then 0 else s.x - 1, li, co);
    }
  }

  lemma LineShows(s: Screen, h: Sheet, li: nat, co: nat)
    requires Shows(s, h, li, co)
    ensures Shows(Settle(s.rows, s.x, s.y + 1, co), Advance(h.rows, h.x, h.row + 1, co), li, co)
  {
    hide Wide, Settle, Advance;
    AdvanceShows(h.rows, h.x, h.row + 1, li, co);
  }

  lemma ColumnShows(s: Screen, h: Sheet, x: nat, li: nat, co: nat)
    requires Shows(s, h, li, co) && x <= s.x
    ensures s.x == h.x && Shows(Settle(s.rows, x, s.y, co), h.(x := x), li, co)
  {
    hide Wide, BlankLine;
  }

  predicate Printable(ch: byte) { ch != BEL && ch != BS && ch != TAB && ch != LF && ch != CR }

  lemma PrintShows(s: Screen, h: Sheet, ch: byte, attr: Option<byte>, li: nat, co: nat)
    requires Shows(s, h, li, co) && Printable(ch)
    ensures Shows(Out(s, ch, attr, li, co), Type(h, ch, attr, co), li, co)
  {
    hide Write, Out, Type, Wide, Settle, Advance;
    WriteShows(h, li, co, ch, attr);
    WriteShows(Sheet(s.rows, s.x, s.y), li, co, ch, attr);
    OutIs(s, ch, attr, li, co);
    TypeIs(h, ch, attr, co);
    var rows := Write(h.rows, h.x, h.row, ch, attr);
    if h.x + 1 == co {
      AdvanceShows(rows, 0, h.row + 1, li, co);
    } else {
      AdvanceShows(rows, h.x + 1, h.row, li, co);
    }
  }

  lemma OutIs(s: Screen, ch: byte, attr: Option<byte>, li: nat, co: nat)
    requires ScreenOk(s, li, co) && Printable(ch) && Wide(Write(s.rows, s.x, s.y, ch, attr), co)
    ensures var rows := Write(s.rows, s.x, s.y, ch, attr);
            |rows| == li &&
            Out(s, ch, attr, li, co) == if s.x + 1 == co then Settle(rows, 0, s.y + 1, co) else Settle(rows, s.x + 1, s.y, co)
  {
  }

  lemma TypeIs(h: Sheet, ch: byte, attr: Option<byte>, co: nat)
    requires SheetOk(h, co) && Printable(ch) && Wide(Write(h.rows, h.x, h.row, ch, attr), co)
    ensures var rows := Write(h.rows, h.x, h.row, ch, attr);
            |rows| == |h.rows| &&
            Type(h, ch, attr, co) == if h.x + 1 == co then Advance(rows, 0, h.row + 1, co) else Advance(rows, h.x + 1, h.row, co)
  {
  }

  /** A character with the attribute it is sent with, if any. */
  datatype Key = Key(ch: byte, attr: Option<byte>)

  function RunTty(s: Screen, keys: seq<Key>, li: nat, co: nat): (s': Screen)
    requires ScreenOk(s, li, co)
    ensures ScreenOk(s', li, co)
    decreases keys
  {
    if keys == [] then s else RunTty(Tty(s, keys[0].ch, keys[0].attr, li, co), keys[1..], li, co)
  }

  /** One character on the sheet, the tab as it should be. */
  function TypeKey(h: Sheet, key: Key, co: nat): (h': Sheet)
    requires SheetOk(h, co)
    ensures SheetOk(h', co)
  {
    if key.ch == TAB then TypeTab(h, co) else Type(h, key.ch, key.attr, co)
  }

  function RunSheet(h: Sheet, keys: seq<Key>, co: nat): (h': Sheet)
    requires SheetOk(h, co)
    ensures SheetOk(h', co)
    decreases keys
  {
    if keys == [] then h else RunSheet(TypeKey(h, keys[0], co), keys[1..], co)
  }

  // ---------------------------------------------------------------- tabs

  lemma SpaceMoves(s: Screen, li: nat, co: nat)
    requires ScreenOk(s, li, co)
    ensures var s' := Out(s, 32, None, li, co);
            s'.x == (if s.x + 1 == co then 0 else s.x + 1) &&
            s'.y == (if s.x + 1 == co && s.y + 1 < li then s.y + 1 else s.y)
  {
  }

  /** The spaces of a tab keep up with the sheet, and move on a row exactly when they reach the margin. */
  lemma {:induction false} SpacesShow(s: Screen, h: Sheet, li: nat, co: nat)
    requires Shows(s, h, li, co)
    ensures Shows(Spaces(s, li, co), TypeTab(h, co), li, co)
    ensures Spaces(s, li, co).y == if s.x + 8 - s.x % 8 < co || s.y == li - 1 then s.y else s.y + 1
    decreases co - s.x
  {
    hide Out, Type, Wide;
    SpaceMoves(s, li, co);
    TypeShows(s, h, 32, None, li, co);
    var s1, h1 := Out(s, 32, None, li, co), Type(h, 32, None, co);
    if s1.x % 8 != 0 {
      SpacesShow(s1, h1, li, co);
    }
  }

  /** A tab is handled as spaces exactly when they stay within the row, or the row is the last one. */
  lemma TabExact(s: Screen, h: Sheet, attr: Option<byte>, li: nat, co: nat)
    requires Shows(s, h, li, co)
    ensures Shows(Tty(s, TAB, attr, li, co), TypeTab(h, co), li, co) <==> s.x + 8 - s.x % 8 < co || s.y == li - 1
  {
    SpacesShow(s, h, li, co);
  }

  /** A tab that wraps on an 80x25 screen: the cursor stays on the row the spaces have left. */
  lemma TabCounterexample(s: Screen, attr: Option<byte>)
    requires ScreenOk(s, 25, 80) && s.x == 72 && s.y == 0
    ensures Tty(s, TAB, attr, 25, 80).y == 0 && Spaces(s, 25, 80).y == 1
    ensures !Shows(Tty(s, TAB, attr, 25, 80), TypeTab(Sheet(s.rows, s.x, s.y), 80), 25, 80)
  {
    SpacesShow(s, Sheet(s.rows, s.x, s.y), 25, 80);
    TabExact(s, Sheet(s.rows, s.x, s.y), attr, 25, 80);
  }

  // ---------------------------------------------------------------- streams

  /** Every tab of the stream is sent where its spaces stay in the row, or from the last row. */
  predicate TameTabs(s: Screen, keys: seq<Key>, li: nat, co: nat)
    requires ScreenOk(s, li, co)
    decreases keys
  {
    keys == [] ||
    ((keys[0].ch == TAB ==> s.x + 8 - s.x % 8 < co || s.y == li - 1) &&
     TameTabs(Tty(s, keys[0].ch, keys[0].attr, li, co), keys[1..], li, co))
  }

  /** After each character of the stream the screen shows the end of the sheet. */
  predicate ShowsThroughout(s: Screen, h: Sheet, keys: seq<Key>, li: nat, co: nat)
    requires ScreenOk(s, li, co) && SheetOk(h, co)
    decreases keys
  {
    Shows(s, h, li, co) &&
    (keys == [] || ShowsThroughout(Tty(s, keys[0].ch, keys[0].attr, li, co), TypeKey(h, keys[0], co), keys[1..], li, co))
  }

  /**
   For every stream of characters, from any cursor on the screen: the teletype shows, after each
   character, the end of the sheet written by the machine that never scrolls, if and only if
   every tab is tame.
   */
  lemma {:induction false} TeletypeShowsSheet(s: Screen, h: Sheet, keys: seq<Key>, li: nat, co: nat)
    requires Shows(s, h, li, co)
    ensures ShowsThroughout(s, h, keys, li, co) <==> TameTabs(s, keys, li, co)
    ensures TameTabs(s, keys, li, co) ==> Shows(RunTty(s, keys, li, co), RunSheet(h, keys, co), li, co)
    decreases keys
  {
    if keys != [] {
      hide Tty, TypeKey, Shows;
      KeyShows(s, h, keys[0], li, co);
      var s1, h1 := Tty(s, keys[0].ch, keys[0].attr, li, co), TypeKey(h, keys[0], co);
      if Shows(s1, h1, li, co) {
        TeletypeShowsSheet(s1, h1, keys[1..], li, co);
      }
    }
  }

  lemma KeyShows(s: Screen, h: Sheet, key: Key, li: nat, co: nat)
    requires Shows(s, h, li, co)
    ensures Shows(Tty(s, key.ch, key.attr, li, co), TypeKey(h, key, co), li, co) <==>
            (key.ch == TAB ==> s.x + 8 - s.x % 8 < co || s.y == li - 1)
  {
    hide Out, Type, Wide, Shows;
    if key.ch == TAB {
      TabExact(s, h, key.attr, li, co);
    } else {
      TypeShows(s, h, key.ch, key.attr, li, co);
    }
  }

  /** In particular, without tabs, of the sheet that starts as the screen itself. */
  lemma TeletypeFromScreen(s: Screen, keys: seq<Key>, li: nat, co: nat)
    requires ScreenOk(s, li, co) && forall k | 0 <= k < |keys| :: keys[k].ch != TAB
    ensures var h, s' := RunSheet(Sheet(s.rows, s.x, s.y), keys, co), RunTty(s, keys, li, co);
            li <= |h.rows| && s'.rows == h.rows[|h.rows| - li..] && s'.x == h.x && s'.y == h.row - (|h.rows| - li)
  {
    NoTabs(s, keys, li, co);
    TeletypeShowsSheet(s, Sheet(s.rows, s.x, s.y), keys, li, co);
  }

  lemma {:induction false} NoTabs(s: Screen, keys: seq<Key>, li: nat, co: nat)
    requires ScreenOk(s, li, co) && forall k | 0 <= k < |keys| :: keys[k].ch != TAB
    ensures TameTabs(s, keys, li, co)
    decreases keys
  {
    hide Tty;
    if keys != [] { NoTabs(Tty(s, keys[0].ch, keys[0].attr, li, co), keys[1..], li, co); }
  }

  // ---------------------------------------------------------------- what is seen

  /** The cell at the cursor once `ch` was written there. */
  predicate Written(c: Cell, ch: byte, attr: Option<byte>, was: Cell) {
    c.ch == ch && c.attr == if attr.Some? then attr.value else was.attr
  }

  /**
   A printable character appears at the cursor, in the given colour or the one that was there;
   every other cell is as before, one row up if the screen scrolled, and then the last row is
   blank in the colour at the start of the old last row; the cursor moves on by one.
   */
  lemma PrintedCells(s: Screen, ch: byte, attr: Option<byte>, li: nat, co: nat)
    requires ScreenOk(s, li, co) && Printable(ch)
    ensures var s' := Tty(s, ch, attr, li, co);
            var wrap := s.x + 1 == co;
            var up := if wrap && s.y + 1 == li then 1 else 0;
            s'.x == (if wrap then 0 else s.x + 1) && s'.y == (if wrap then s.y + 1 else s.y) - up &&
            |s'.rows| == li && (forall r | 0 <= r < li :: |s'.rows[r]| == co) &&
            (forall r, c {:trigger s'.rows[r][c]} | 0 <= r < li - up && 0 <= c < co ::
               if r + up == s.y && c == s.x then Written(s'.rows[r][c], ch, attr, s.rows[s.y][s.x])
               else s'.rows[r][c] == s.rows[r + up][c]) &&
            var last := s'.rows[li - 1];
            (up == 1 ==> forall c | 0 <= c < co ::
               last[c] == Cell(32, if s.x == 0 && attr.Some? then attr.value else s.rows[li - 1][0].attr))
  {
  }

  /** Control characters move the cursor; only a line feed on the last row changes cells, moving every row up. */
  lemma ControlCells(s: Screen, attr: Option<byte>, li: nat, co: nat)
    requires ScreenOk(s, li, co)
    ensures Tty(s, BEL, attr, li, co) == s
    ensures Tty(s, CR, attr, li, co) == s.(x := 0)
    ensures Tty(s, BS, attr, li, co) == s.(x := if s.x == 0 then 0 else s.x - 1)
    ensures var s' := Tty(s, LF, attr, li, co);
            s'.x == s.x &&
            if s.y + 1 < li then s'.y == s.y + 1 && s'.rows == s.rows
            else s'.y == s.y && |s'.rows| == li && s'.rows[..li - 1] == s.rows[1..] &&
                 var last := s'.rows[li - 1];
                 |last| == co && forall c | 0 <= c < co :: last[c] == Cell(32, s.rows[li - 1][s.x].attr)
  {
  }

  /** Positions on the sheet, row after row. */
  function Pos(x: int, row: int, co: nat): int { row * co + x }

  predicate OnSheet(h: Sheet, p: int, co: nat)
    requires co > 0
  {
    0 <= Row(p, co) < |h.rows| && |h.rows[Row(p, co)]| == co && 0 <= Col(p, co) < co
  }

  function CellAt(h: Sheet, p: int, co: nat): Cell
    requires co > 0 && OnSheet(h, p, co)
  {
    h.rows[Row(p, co)][Col(p, co)]
  }

  lemma PosIs(x: nat, row: nat, co: nat)
    requires x < co
    ensures Row(Pos(x, row, co), co) == row && Col(Pos(x, row, co), co) == x
  {
    DivUnique(Pos(x, row, co), co, row, x);
  }

  lemma PosUnique(p: int, co: nat)
    requires co > 0
    ensures p == Pos(Col(p, co), Row(p, co), co) && 0 <= Col(p, co) < co
  {
    Split(p, co);
  }

  /** One printable character on the sheet: written at the cursor's position, nowhere else, and the cursor one further. */
  lemma TypedCell(h: Sheet, key: Key, co: nat)
    requires SheetOk(h, co) && Printable(key.ch)
    ensures var h', p := TypeKey(h, key, co), Pos(h.x, h.row, co);
            OnSheet(h, p, co) && OnSheet(h', p, co) && Pos(h'.x, h'.row, co) == p + 1 &&
            Written(CellAt(h', p, co), key.ch, key.attr, CellAt(h, p, co)) &&
            forall q | q != p && OnSheet(h, q, co) :: OnSheet(h', q, co) && CellAt(h', q, co) == CellAt(h, q, co)
  {
    PosIs(h.x, h.row, co);
    var h', p := TypeKey(h, key, co), Pos(h.x, h.row, co);
    assert (h.row + 1) * co == h.row * co + co;
    hide Row, Col, Pos, BlankLine;
    forall q | q != p && OnSheet(h, q, co) ensures OnSheet(h', q, co) && CellAt(h', q, co) == CellAt(h, q, co) {
      PosUnique(q, co);
      assert !(Row(q, co) == h.row && Col(q, co) == h.x);
    }
  }

  /** Position `p` of the sheet shows this key. */
  predicate ShowsKey(h: Sheet, p: int, key: Key, co: nat)
    requires co > 0
  {
    OnSheet(h, p, co) && CellAt(h, p, co).ch == key.ch && (key.attr.Some? ==> CellAt(h, p, co).attr == key.attr.value)
  }

  /** Every cell of `h` outside positions `p` to `p + n` is the same in `h'`. */
  ghost predicate KeptBut(h: Sheet, h': Sheet, p: int, n: nat, co: nat)
    requires co > 0
  {
    forall q | !(p <= q < p + n) && OnSheet(h, q, co) :: OnSheet(h', q, co) && CellAt(h', q, co) == CellAt(h, q, co)
  }

  /** A run of printable characters appears on the sheet in order, from the cursor on, row by row, and nothing else changes. */
  lemma {:induction false} SheetText(h: Sheet, keys: seq<Key>, co: nat)
    requires SheetOk(h, co) && forall k | 0 <= k < |keys| :: Printable(keys[k].ch)
    ensures var h', p := RunSheet(h, keys, co), Pos(h.x, h.row, co);
            Pos(h'.x, h'.row, co) == p + |keys| && KeptBut(h, h', p, |keys|, co) &&
            forall k {:trigger keys[k]} | 0 <= k < |keys| :: ShowsKey(h', p + k, keys[k], co)
    decreases keys
  {
    if keys != [] {
      hide TypeKey, Pos, OnSheet, CellAt, SheetOk, KeptBut, ShowsKey;
      FirstTyped(h, keys[0], co);
      var h1, p, rest := TypeKey(h, keys[0], co), Pos(h.x, h.row, co), keys[1..];
      SheetText(h1, rest, co);
      var h' := RunSheet(h1, rest, co);
      KeptTrans(h, h1, h', p, |rest|, co);
      KeyKept(h1, h', p, |rest|, keys[0], co);
      forall k | 0 <= k < |keys| ensures ShowsKey(h', p + k, keys[k], co) {
        if k > 0 { assert rest[k - 1] == keys[k] && p + 1 + (k - 1) == p + k; }
      }
    }
  }

  lemma FirstTyped(h: Sheet, key: Key, co: nat)
    requires SheetOk(h, co) && Printable(key.ch)
    ensures var h1, p := TypeKey(h, key, co), Pos(h.x, h.row, co);
            co > 0 && SheetOk(h1, co) && Pos(h1.x, h1.row, co) == p + 1 && KeptBut(h, h1, p, 1, co) && ShowsKey(h1, p, key, co)
  {
    TypedCell(h, key, co);
  }

  /** How far it is to the next column divisible by eight, or to the margin if that comes first. */
  function TabSpan(x: nat, co: nat): (n: nat)
    requires x < co
    ensures 1 <= n <= 8 && x + n <= co && ((x + n) % 8 == 0 || x + n == co)
    ensures forall k | x < k < x + n :: k % 8 != 0
  {
    if 8 - x % 8 <= co - x then 8 - x % 8 else co - x
  }

  function SpaceKeys(n: nat): seq<Key> { seq(n, _ => Key(32, None)) }

  /** A tab on the sheet is that many spaces, each in the colour that was there. */
  lemma {:induction false} TabIsSpaces(h: Sheet, co: nat)
    requires SheetOk(h, co)
    ensures TypeTab(h, co) == RunSheet(h, SpaceKeys(TabSpan(h.x, co)), co)
    decreases co - h.x
  {
    var n, h1 := TabSpan(h.x, co), Type(h, 32, None, co);
    var keys := SpaceKeys(n);
    assert keys[1..] == SpaceKeys(n - 1) && TypeKey(h, keys[0], co) == h1;
    assert h1.x == if h.x + 1 == co then 0 else h.x + 1;
    hide Type;
    if h1.x % 8 == 0 {
      assert n == 1 && RunSheet(h1, SpaceKeys(0), co) == h1;
    } else {
      assert TabSpan(h1.x, co) == n - 1;
      TabIsSpaces(h1, co);
    }
  }

  lemma KeptTrans(a: Sheet, b: Sheet, c: Sheet, p: int, n: nat, co: nat)
    requires co > 0 && KeptBut(a, b, p, 1, co) && KeptBut(b, c, p + 1, n, co)
    ensures KeptBut(a, c, p, n + 1, co)
  {
    hide OnSheet, CellAt;
  }

  lemma KeyKept(b: Sheet, c: Sheet, p: int, n: nat, key: Key, co: nat)
    requires co > 0 && KeptBut(b, c, p + 1, n, co) && ShowsKey(b, p, key, co)
    ensures ShowsKey(c, p, key, co)
  {
    hide OnSheet, CellAt;
  }

  // ---------------------------------------------------------------- video memory

  /** The rows the first page of video memory holds. */
  function RowsOf(s: seq<Cell>, li: nat, co: nat): (rows: seq<Line>)
    requires Area(li, co) <= |s|
    ensures |rows| == li && Wide(rows, co)
  {
    seq(li, r requires 0 <= r < li => LineOf(s, r, li, co))
  }

  function LineOf(s: seq<Cell>, r: nat, li: nat, co: nat): (l: Line)
    requires r < li && Area(li, co) <= |s|
    ensures |l| == co
  {
    RowBound(r, li, co);
    s[r * co..r * co + co]
  }

  /** Index of the cell in row `y`, column `x`. */
  function Spot(x: nat, y: nat, co: nat): nat {
    MulMono(0, y, co);
    y * co + x
  }

  lemma SpotInside(x: nat, y: nat, li: nat, co: nat)
    requires x < co && y < li
    ensures Spot(x, y, co) < Area(li, co)
  {
    RowBound(y, li, co);
  }

  lemma SliceAt(s: seq<Cell>, a: int, n: nat, c: nat)
    requires 0 <= a && a + n <= |s| && c < n
    ensures s[a..a + n][c] == s[a + c]
  {
  }

  lemma LineAt(s: seq<Cell>, r: nat, c: nat, li: nat, co: nat)
    requires r < li && c < co && Area(li, co) <= |s|
    ensures Spot(c, r, co) < |s| && RowsOf(s, li, co)[r][c] == s[Spot(c, r, co)]
  {
    SpotInside(c, r, li, co);
    RowBound(r, li, co);
    assert RowsOf(s, li, co)[r] == LineOf(s, r, li, co);
    SliceAt(s, r * co, co, c);
  }

  lemma SpotsDiffer(x: nat, y: nat, c: nat, r: nat, co: nat)
    requires x < co && c < co
    ensures Spot(x, y, co) == Spot(c, r, co) <==> x == c && y == r
  {
    DivUnique(Spot(x, y, co), co, y, x);
    DivUnique(Spot(c, r, co), co, r, c);
  }

  /** Writing one cell of memory writes one cell of one row. */
  lemma SpotWritten(s: seq<Cell>, x: nat, y: nat, li: nat, co: nat, ch: byte, attr: Option<byte>)
    requires x < co && y < li && Area(li, co) <= |s|
    ensures Spot(x, y, co) < |s|
    ensures var at := Spot(x, y, co);
            RowsOf(s[at := Over(s[at], ch, attr)], li, co) == Write(RowsOf(s, li, co), x, y, ch, attr)
  {
    SpotInside(x, y, li, co);
    var at, rows := Spot(x, y, co), RowsOf(s, li, co);
    var s' := s[at := Over(s[at], ch, attr)];
    var rows', want := RowsOf(s', li, co), Write(rows, x, y, ch, attr);
    forall r | 0 <= r < li ensures rows'[r] == want[r] {
      forall c | 0 <= c < co ensures rows'[r][c] == want[r][c] {
        LineAt(s, r, c, li, co);
        LineAt(s', r, c, li, co);
        SpotsDiffer(x, y, c, r, co);
        LineAt(s, y, x, li, co);
      }
    }
  }

  /** The full-screen scroll by one line drops the first row and appends a blank one. */
  lemma ScreenScrolled(s: seq<Cell>, s': seq<Cell>, attr: byte, li: nat, co: nat)
    requires 1 <= li <= 256 && 1 <= co <= 255 && Area(li, co) <= |s|
    requires ScrollOf(attr, li, co).Extent() <= |s| && Scrolled(s, s', ScrollOf(attr, li, co))
    ensures RowsOf(s', li, co) == RowsOf(s, li, co)[1..] + [BlankLine(attr, co)]
    ensures forall k | Area(li, co) <= k < |s| :: s'[k] == s[k]
  {
    assert |s'| == |s|;
    hide Area, Scrolled, RowsOf, Spot;
    var q, rows, rows' := ScrollOf(attr, li, co), RowsOf(s, li, co), RowsOf(s', li, co);
    var want := rows[1..] + [BlankLine(attr, co)];
    forall r | 0 <= r < li ensures rows'[r] == want[r] {
      forall c | 0 <= c < co ensures rows'[r][c] == want[r][c] {
        ScrollRows(s, s', q, r, c);
        LineAt(s', r, c, li, co);
        SameSpot(q, c, r, co);
        if r + 1 < li {
          LineAt(s, r + 1, c, li, co);
          SameSpot(q, c, r + 1, co);
        }
      }
    }
    BeyondScreen(s, s', q);
  }

  lemma SameSpot(q: Request, c: nat, r: nat, co: nat)
    requires q.nb == co
    ensures Place(q, r, c) == Spot(c, r, co)
  {
  }

  lemma BeyondScreen(s: seq<Cell>, s': seq<Cell>, q: Request)
    requires q.Shaped() && q.base == 0 && q.Extent() <= |s| && Scrolled(s, s', q)
    ensures forall k | Area(q.rows, q.nb) <= k < |s| :: s'[k] == s[k]
  {
    assert |s'| == |s|;
    hide Area, Row, Col, Scrolled;
    forall k | Area(q.rows, q.nb) <= k < |s| ensures s'[k] == s[k] {
      CellOfScreen(k, q.rows, q.nb);
      ScrolledAt(s, s', q, k);
    }
  }

  /** The request tty_char_out sends to biosfn_scroll. */
  function ScrollOf(attr: byte, li: nat, co: nat): Request
    requires 1 <= li <= 256 && 1 <= co <= 255
  {
    Clamp(1, attr, 0, 0, li - 1, co - 1, true, 0, li, co)
  }

  /** The first page of video memory with the cursor the BIOS keeps for it. */
  class Terminal {
    const mem: array<Cell>
    const li: nat
    const co: nat
    var x: nat
    var y: nat

    ghost predicate Ready()
      reads this, mem
    {
      1 <= li <= 256 && 1 <= co <= 255 && Area(li, co) <= mem.Length && x < co && y < li
    }

    ghost function Shown(): Screen
      requires Ready()
      reads this, mem
    {
      Screen(RowsOf(mem[..], li, co), x, y)
    }

    constructor (mem: array<Cell>, li: nat, co: nat)
      requires 1 <= li <= 256 && 1 <= co <= 255 && Area(li, co) <= mem.Length
      ensures Ready() && this.mem == mem && this.li == li && this.co == co && x == 0 && y == 0
    {
      this.mem, this.li, this.co := mem, li, co;
      x, y := 0, 0;
    }

    /** Scrolls the whole screen by one line, in the colour at the cursor. */
    method ScrollScreen()
      requires Ready() && y == li - 1
      modifies mem
      ensures var rows := old(RowsOf(mem[..], li, co));
              RowsOf(mem[..], li, co) == rows[1..] + [BlankLine(rows[li - 1][x].attr, co)]
      ensures mem[Area(li, co)..] == old(mem[Area(li, co)..])
    {
      hide RowsOf, Wide, Area, Scrolled, After;
      SpotInside(x, y, li, co);
      LineAt(mem[..], y, x, li, co);
      var attr := mem[Spot(x, y, co)].attr;
      ghost var s := mem[..];
      Scroll(mem, 1, attr, 0, 0, li - 1, co - 1, true, 0, li, co);
      ScreenScrolled(s, mem[..], attr, li, co);
    }

    /** The end of tty_char_out. */
    method Finish(xpos: nat, ypos: nat)
      requires Ready() && xpos <= co && ypos <= li && (xpos == co ==> ypos < li)
      modifies this, mem
      ensures Ready() && Shown() == Settle(old(RowsOf(mem[..], li, co)), xpos, ypos, co)
      ensures mem[Area(li, co)..] == old(mem[Area(li, co)..])
    {
      hide RowsOf, Wide, Area, BlankLine;
      x, y := xpos, ypos;
      if x == co {
        x, y := 0, y + 1;
      }
      if y == li {
        y := y - 1;
        ScrollScreen();
      }
    }

    /** tty_char_out */
    method CharOut(ch: byte, attr: Option<byte>)
      requires Ready()
      modifies this, mem
      ensures Ready() && Shown() == Tty(old(Shown()), ch, attr, li, co)
      ensures mem[Area(li, co)..] == old(mem[Area(li, co)..])
      decreases ch == TAB
    {
      hide RowsOf, Area, Wide, Settle, Write;
      var xpos, ypos := x, y;
      if ch == CR {
        xpos := 0;
      } else if ch == LF {
        ypos := ypos + 1;
      } else if ch == BS {
        if xpos > 0 { xpos := xpos - 1; }
      } else if ch == TAB {
        ghost var s0 := Shown();
        CharOut(32, None);
        xpos := x;
        while xpos % 8 != 0
          invariant Ready() && xpos == x && ypos == old(y)
          invariant Spaces(s0, li, co) == if x % 8 == 0 then Shown() else Spaces(Shown(), li, co)
          invariant mem[Area(li, co)..] == old(mem[Area(li, co)..])
          decreases if x % 8 == 0 then 0 else co - x
        {
          SpaceMoves(Shown(), li, co);
          CharOut(32, None);
          xpos := x;
        }
      } else if ch == BEL {
        return;
      } else {
        SpotWritten(mem[..], x, y, li, co, ch, attr);
        ghost var s := mem[..];
        var at := Spot(xpos, ypos, co);
        SpotInside(xpos, ypos, li, co);
        mem[at] := Over(mem[at], ch, attr);
        assert mem[..] == s[at := Over(s[at], ch, attr)];
        xpos := xpos + 1;
      }
      Finish(xpos, ypos);
    }
  }
}
