/**
 Scrolling in text mode (biosfn_scroll in src/base/bios/vgabios.c): rows of character cells
 are copied and blanked in place, top row first when scrolling up, bottom row first when
 scrolling down.  The result is compared with a simultaneous shift of the whole rectangle.
 */
module TextScroll {
  import opened Basics

  datatype Cell = Cell(ch: byte, attr: byte)

  function Blank(attr: byte): Cell { Cell(32, attr) }

  // ---------------------------------------------------------------- rows and columns

  /** The number of cells in so many rows. */
  function Area(rows: nat, nb: nat): nat { rows * nb }

  function Row(k: int, nb: nat): int requires nb > 0 { k / nb }

  function Col(k: int, nb: nat): int requires nb > 0 { k % nb }

  lemma MulMono(a: int, b: int, c: int)
    requires a <= b && 0 <= c
    ensures a * c <= b * c
  {
    assert (b - a) * c >= 0;
  }

  lemma DivUnique(k: int, nb: int, q: int, r: int)
    requires nb > 0 && 0 <= r < nb && k == q * nb + r
    ensures k / nb == q && k % nb == r
  {
    var q' := k / nb;
    assert k == q' * nb + k % nb;
    if q' < q { MulMono(q' + 1, q, nb); }
    if q < q' { MulMono(q + 1, q', nb); }
  }

  lemma Split(k: int, nb: int)
    requires nb > 0
    ensures k == (k / nb) * nb + k % nb && 0 <= k % nb < nb
  {
  }

  /** Moving by whole rows keeps the column. */
  lemma RowShift(k: int, nb: int, n: int)
    requires nb > 0
    ensures (k + n * nb) / nb == k / nb + n && (k + n * nb) % nb == k % nb
  {
    Split(k, nb);
    assert (k / nb + n) * nb == (k / nb) * nb + n * nb;
    DivUnique(k + n * nb, nb, k / nb + n, k % nb);
  }

  /** A run of cells within row `i` is exactly the cells of that row in those columns. */
  lemma Segment(k: int, nb: int, i: int, cul: int, cols: int)
    requires nb > 0 && 0 <= cul && 0 <= cols && cul + cols <= nb
    ensures i * nb + cul <= k < i * nb + cul + cols <==> k / nb == i && cul <= k % nb < cul + cols
  {
    Split(k, nb);
    if i * nb + cul <= k < i * nb + cul + cols {
      DivUnique(k, nb, i, k - i * nb);
    }
  }

  lemma SegmentRow(k: int, nb: nat, i: int, cul: int, cols: int, start: int)
    requires nb > 0 && 0 <= cul && 0 <= cols && cul + cols <= nb && start == i * nb + cul
    ensures start <= k < start + cols <==> Row(k, nb) == i && cul <= Col(k, nb) < cul + cols
  {
    Segment(k, nb, i, cul, cols);
  }

  lemma RowBound(r: int, n: int, nb: int)
    requires 0 <= r < n && nb >= 0
    ensures 0 <= r * nb && r * nb + nb <= n * nb
  {
    MulMono(0, r, nb);
    MulMono(r + 1, n, nb);
  }

  // ---------------------------------------------------------------- the request

  /** A scroll request after clamping; `base` is the page offset in cells. */
  datatype Request = Request(n: nat, attr: byte, top: nat, left: nat, bottom: nat, right: nat,
                             rows: nat, nb: nat, up: bool, base: nat) {

    /** What the clamping leaves: a left column beyond the screen is not moved back onto it. */
    predicate Shaped() {
      1 <= rows <= 256 && 1 <= nb <= 65535 && top <= 255 && bottom < rows && n <= rows &&
      left <= 255 && right <= 255 && right < nb && (left <= right || right == nb - 1)
    }

    /** The number of columns, in eight bits. */
    function Count(): nat { (right - left + 1) % 256 }

    /** The columns are on the screen and their number fits in eight bits. */
    predicate Columns() { left <= right && right - left < 255 }

    /** Scrolling down a rectangle that starts in row 0 runs the unsigned row index below zero once. */
    predicate Wraps() { !up && top == 0 }

    /** Some row is copied, not just filled. */
    predicate Copies() { n > 0 && top + n <= bottom }

    /** The row-by-row loop treats this request as one would expect. */
    predicate Ok() { Shaped() && Columns() && !Wraps() && (base == 0 || !Copies()) }

    /** Cells of memory up to the end of the page. */
    function Extent(): nat { base + Area(rows, nb) }

    /** Cells of memory the row-by-row loop may touch. */
    function Room(): nat { base + Area(if Wraps() then 65536 else rows, nb) + if left <= right then 0 else 512 }

    predicate InColumns(k: int) requires nb > 0 { left <= Col(k, nb) <= right }

    predicate InRect(k: int) requires nb > 0 { top <= Row(k, nb) <= bottom && InColumns(k) }

    predicate Vacated(r: int) { n == 0 || if up then r + n > bottom else r < top + n }
  }

  /** The cell that cell `k` is copied from. */
  function SourceIndex(q: Request, k: int): int { if q.up then k + q.n * q.nb else k - q.n * q.nb }

  /** What cell `k` of the page holds after the simultaneous shift, from the old memory `s`. */
  ghost function ShiftedCell(s: seq<Cell>, q: Request, k: nat): Cell
    requires q.Shaped() && q.base + k < |s| && q.Extent() <= |s|
  {
    if !q.InRect(k) then s[q.base + k]
    else if q.Vacated(Row(k, q.nb)) then Blank(q.attr)
    else
      SourceInRange(q, k);
      s[q.base + SourceIndex(q, k)]
  }

  /** The memory after the request, as it should be: the rectangle shifted, everything else as it was. */
  ghost predicate Scrolled(s: seq<Cell>, s': seq<Cell>, q: Request)
    requires q.Shaped() && q.Extent() <= |s|
  {
    |s'| == |s| &&
    forall k | 0 <= k < |s| :: s'[k] == if k >= q.base then ShiftedCell(s, q, k - q.base) else s[k]
  }

  lemma ScrolledAt(s: seq<Cell>, s': seq<Cell>, q: Request, k: nat)
    requires q.Shaped() && q.Extent() <= |s| && Scrolled(s, s', q) && k < |s|
    ensures |s'| == |s| && s'[k] == if k >= q.base then ShiftedCell(s, q, k - q.base) else s[k]
  {
    hide Area, ShiftedCell;
  }

  lemma SourceInRange(q: Request, k: nat)
    requires q.Shaped() && q.InRect(k) && !q.Vacated(Row(k, q.nb))
    ensures 0 <= SourceIndex(q, k) < Area(q.rows, q.nb)
    ensures Col(SourceIndex(q, k), q.nb) == Col(k, q.nb)
    ensures Row(SourceIndex(q, k), q.nb) == if q.up then Row(k, q.nb) + q.n else Row(k, q.nb) - q.n
  {
    var n: int := q.n;
    MulMono(0, n, q.nb);
    if q.up {
      RowShift(k, q.nb, n);
      InRows(k + n * q.nb, q.nb, q.rows);
    } else {
      RowShift(k, q.nb, -n);
      assert -n * q.nb == -(n * q.nb);
      NotNegative(k - n * q.nb, q.nb);
      InRows(k - n * q.nb, q.nb, q.rows);
    }
  }

  lemma NotNegative(k: int, nb: nat)
    requires nb > 0 && k / nb >= 0
    ensures k >= 0
  {
    Split(k, nb);
    MulMono(0, k / nb, nb);
  }

  lemma InRows(k: int, nb: nat, rows: nat)
    requires nb > 0 && k / nb < rows
    ensures k < rows * nb
  {
    Split(k, nb);
    MulMono(k / nb + 1, rows, nb);
  }

  // ---------------------------------------------------------------- memcpyw, memsetw

  /** The copy allows for overlap, as vga_memcpy does. */
  method CopyCells(mem: array<Cell>, dst: nat, src: nat, n: nat)
    requires dst + n <= mem.Length && src + n <= mem.Length
    modifies mem
    ensures forall k | 0 <= k < mem.Length ::
              mem[k] == old(if dst <= k < dst + n then mem[k - dst + src] else mem[k])
  {
    if dst <= src { CopyUpwards(mem, dst, src, n); } else { CopyDownwards(mem, dst, src, n); }
  }

  method CopyUpwards(mem: array<Cell>, dst: nat, src: nat, n: nat)
    requires dst <= src && src + n <= mem.Length
    modifies mem
    ensures forall k | 0 <= k < mem.Length ::
              mem[k] == old(if dst <= k < dst + n then mem[k - dst + src] else mem[k])
  {
    ghost var s := mem[..];
    for j := 0 to n
      invariant forall k {:trigger mem[k]} | 0 <= k < mem.Length ::
                  mem[k] == if dst <= k < dst + j then s[k - dst + src] else s[k]
    {
      mem[dst + j] := mem[src + j];
    }
  }

  method CopyDownwards(mem: array<Cell>, dst: nat, src: nat, n: nat)
    requires src <= dst && dst + n <= mem.Length
    modifies mem
    ensures forall k | 0 <= k < mem.Length ::
              mem[k] == old(if dst <= k < dst + n then mem[k - dst + src] else mem[k])
  {
    ghost var s := mem[..];
    for j := n downto 0
      invariant forall k {:trigger mem[k]} | 0 <= k < mem.Length ::
                  mem[k] == if dst + j <= k < dst + n then s[k - dst + src] else s[k]
    {
      mem[dst + j] := mem[src + j];
    }
  }

  method FillCells(mem: array<Cell>, dst: nat, c: Cell, n: nat)
    requires dst + n <= mem.Length
    modifies mem
    ensures forall k | 0 <= k < mem.Length :: mem[k] == if dst <= k < dst + n then c else old(mem[k])
  {
    for j := 0 to n
      invariant forall k | 0 <= k < mem.Length :: mem[k] == if dst <= k < dst + j then c else old(mem[k])
    {
      mem[dst + j] := c;
    }
  }

  // ---------------------------------------------------------------- one row

  /** First cell of the request in row `i` of the page at `base`. */
  function RowStart(q: Request, base: nat, i: nat): nat {
    MulMono(0, i, q.nb);
    base + i * q.nb + q.left
  }

  /** The row that row `i` is copied from. */
  function SourceRow(q: Request, i: nat): int { if q.up then i + q.n else i - q.n }

  /** A value the row index of the loops takes. */
  predicate Turns(q: Request, i: nat) { q.top <= i <= q.bottom || (q.Wraps() && i == 65535) }

  lemma {:induction false} RowInside(q: Request, i: nat)
    requires q.Shaped() && Turns(q, i)
    ensures RowStart(q, q.base, i) + q.Count() <= q.Room()
    ensures !q.Vacated(i) ==> 0 <= SourceRow(q, i) && RowStart(q, 0, SourceRow(q, i)) + q.Count() <= q.Room()
  {
    var last := if q.Wraps() then 65536 else q.rows;
    RowBound(i, last, q.nb);
    if !q.Vacated(i) { RowBound(SourceRow(q, i), last, q.nb); }
  }

  /** One turn of the scroll loop: row `i` becomes blank, or a copy of the row `n` away on the first page. */
  ghost function Turn(s: seq<Cell>, q: Request, i: nat): (s': seq<Cell>)
    requires q.Shaped() && q.Room() <= |s| && Turns(q, i)
    ensures |s'| == |s|
  {
    RowInside(q, i);
    var dst, src := RowStart(q, q.base, i), if q.Vacated(i) then 0 else RowStart(q, 0, SourceRow(q, i));
    seq(|s|, k requires 0 <= k < |s| =>
          if !(dst <= k < dst + q.Count()) then s[k] else if q.Vacated(i) then Blank(q.attr) else s[k - dst + src])
  }

  lemma TurnAt(s: seq<Cell>, q: Request, i: nat, k: nat)
    requires q.Shaped() && q.Room() <= |s| && Turns(q, i) && k < |s|
    ensures var dst, s' := RowStart(q, q.base, i), Turn(s, q, i);
            if !(dst <= k < dst + q.Count()) then s'[k] == s[k]
            else if q.Vacated(i) then s'[k] == Blank(q.attr)
            else SourceRow(q, i) >= 0 && 0 <= k - dst + RowStart(q, 0, SourceRow(q, i)) < |s| &&
                 s'[k] == s[k - dst + RowStart(q, 0, SourceRow(q, i))]
  {
    hide RowStart, Area;
    RowInside(q, i);
  }

  method ScrollRow(mem: array<Cell>, q: Request, i: nat)
    requires q.Shaped() && q.Room() <= mem.Length && Turns(q, i)
    modifies mem
    ensures mem[..] == Turn(old(mem[..]), q, i)
  {
    hide Area, RowStart, Turn;
    RowInside(q, i);
    ghost var s := mem[..];
    if q.Vacated(i) {
      FillCells(mem, RowStart(q, q.base, i), Blank(q.attr), q.Count());
    } else {
      CopyCells(mem, RowStart(q, q.base, i), RowStart(q, 0, SourceRow(q, i)), q.Count());
    }
    forall k | 0 <= k < mem.Length ensures mem[k] == Turn(s, q, i)[k] { TurnAt(s, q, i, k); }
  }

  // ---------------------------------------------------------------- the loops

  /** The upward loop from row `i` on. */
  ghost function UpFrom(s: seq<Cell>, q: Request, i: nat): (s': seq<Cell>)
    requires q.Shaped() && q.Room() <= |s| && q.top <= i
    ensures |s'| == |s|
    decreases q.bottom + 1 - i
  {
    if i > q.bottom then s else UpFrom(Turn(s, q, i), q, i + 1)
  }

  /** The downward loop from row `i` on: the row index is unsigned, and the loop stops after a turn beyond the bottom. */
  ghost function DownFrom(s: seq<Cell>, q: Request, i: nat): (s': seq<Cell>)
    requires q.Shaped() && !q.up && q.Room() <= |s| && (i <= q.bottom || (i == 65535 && q.Wraps()))
    ensures |s'| == |s|
    decreases if i <= q.bottom then i + 1 else 0
  {
    if i < q.top then s
    else if i > q.bottom then Turn(s, q, i)
    else DownFrom(Turn(s, q, i), q, if i == 0 then 65535 else i - 1)
  }

  /** The one-shot clear: no lines to scroll and a rectangle that covers the screen. */
  predicate ClearsAll(q: Request) {
    q.n == 0 && q.top == 0 && q.left == 0 && q.bottom == q.rows - 1 && q.right == q.nb - 1
  }

  predicate Fits(q: Request, len: nat) { if ClearsAll(q) then q.Extent() <= len else q.Room() <= len }

  /** What the code makes of any clamped request. */
  ghost function After(s: seq<Cell>, q: Request): (s': seq<Cell>)
    requires q.Shaped() && Fits(q, |s|)
    ensures |s'| == |s|
  {
    if ClearsAll(q) then
      seq(|s|, k requires 0 <= k < |s| => if q.base <= k < q.Extent() then Blank(q.attr) else s[k])
    else if q.up then UpFrom(s, q, q.top)
    else DownFrom(s, q, q.bottom)
  }

  lemma FitsExtent(q: Request, len: nat)
    requires q.Shaped() && Fits(q, len)
    ensures q.Extent() <= len
  {
    MulMono(q.rows, 65536, q.nb);
  }

  method ScrollUp(mem: array<Cell>, q: Request)
    requires q.Shaped() && q.Room() <= mem.Length
    modifies mem
    ensures mem[..] == UpFrom(old(mem[..]), q, q.top)
  {
    hide Area, Turn;
    ghost var s0 := mem[..];
    var i := q.top;
    while i <= q.bottom
      invariant q.top <= i && UpFrom(mem[..], q, i) == UpFrom(s0, q, q.top)
    {
      ScrollRow(mem, q, i);
      i := i + 1;
    }
  }

  /** The row index is unsigned: below row 0 it continues at 65535, where the loop stops. */
  method ScrollDown(mem: array<Cell>, q: Request)
    requires q.Shaped() && !q.up && q.Room() <= mem.Length
    modifies mem
    ensures mem[..] == DownFrom(old(mem[..]), q, q.bottom)
  {
    hide Area, Turn;
    ghost var s0 := mem[..];
    var i: nat := q.bottom;
    while i >= q.top
      invariant i <= q.bottom || (i == 65535 && q.Wraps())
      invariant DownFrom(mem[..], q, i) == DownFrom(s0, q, q.bottom)
      decreases if i <= q.bottom then i + 1 else 0
    {
      ScrollRow(mem, q, i);
      if i > q.bottom { return; }
      i := if i == 0 then 65535 else i - 1;
    }
  }

  function Clamp(nblines: byte, attr: byte, rul: byte, cul: byte, rlr: byte, clr: byte,
                 up: bool, base: nat, nbrows: nat, nbcols: nat): (q: Request)
    requires 1 <= nbrows <= 256 && 1 <= nbcols <= 65535 && cul <= clr
    ensures q.Shaped()
  {
    Request(if nblines > nbrows then 0 else nblines, attr, rul, cul,
            if rlr >= nbrows then nbrows - 1 else rlr, if clr >= nbcols then nbcols - 1 else clr,
            nbrows, nbcols, up, base)
  }

  /**
   biosfn_scroll in text mode: clamp the request, then either clear the whole screen at once
   or treat it row by row.  Any request is treated; all it takes is enough memory.
   */
  method Scroll(mem: array<Cell>, nblines: byte, attr: byte, rul: byte, cul: byte, rlr: byte, clr: byte,
                up: bool, base: nat, nbrows: nat, nbcols: nat)
    requires 1 <= nbrows <= 256 && 1 <= nbcols <= 65535
    requires rul <= rlr && cul <= clr ==>
               Fits(Clamp(nblines, attr, rul, cul, rlr, clr, up, base, nbrows, nbcols), mem.Length)
    modifies mem
    ensures rul > rlr || cul > clr ==> mem[..] == old(mem[..])
    ensures rul <= rlr && cul <= clr ==>
              var q := Clamp(nblines, attr, rul, cul, rlr, clr, up, base, nbrows, nbcols);
              mem[..] == After(old(mem[..]), q) &&
              (Right(q) ==> q.Extent() <= mem.Length && Scrolled(old(mem[..]), mem[..], q))
  {
    hide Area, Scrolled, UpFrom, DownFrom;
    if rul > rlr || cul > clr { return; }
    var q := Clamp(nblines, attr, rul, cul, rlr, clr, up, base, nbrows, nbcols);
    ghost var s0 := mem[..];
    FitsExtent(q, mem.Length);
    if Right(q) { RightScrolls(s0, q); }
    if ClearsAll(q) {
      FillCells(mem, q.base, Blank(q.attr), Area(q.rows, q.nb));
    } else if q.up {
      ScrollUp(mem, q);
    } else {
      ScrollDown(mem, q);
    }
  }

  // ---------------------------------------------------------------- well-treated requests

  /** The cells of the rectangle in row `i` of the page. */
  lemma RowCells(q: Request, i: nat, k: int)
    requires q.Shaped() && q.Columns()
    ensures RowStart(q, q.base, i) <= k < RowStart(q, q.base, i) + q.Count() <==>
            Row(k - q.base, q.nb) == i && q.InColumns(k - q.base)
  {
    var start := RowStart(q, 0, i);
    SegmentRow(k - q.base, q.nb, i, q.left, q.Count(), start);
    hide Row, Col, Area;
  }

  lemma RowSource(q: Request, i: nat, k: int)
    requires 0 <= SourceRow(q, i)
    ensures k - RowStart(q, q.base, i) + RowStart(q, 0, SourceRow(q, i)) == SourceIndex(q, k - q.base)
  {
    assert (i + q.n) * q.nb == i * q.nb + q.n * q.nb;
    assert (i - q.n) * q.nb == i * q.nb - q.n * q.nb;
  }

  /** Has the scroll loop, about to treat row `i`, already treated cell `k` of the page? */
  ghost predicate Treated(q: Request, i: int, k: int)
    requires q.Shaped()
  {
    q.InRect(k) && if q.up then Row(k, q.nb) < i else Row(k, q.nb) > i
  }

  ghost function Now(s0: seq<Cell>, q: Request, i: int, k: nat): Cell
    requires q.Shaped() && q.Extent() <= |s0| && k < |s0|
  {
    if k >= q.base && Treated(q, i, k - q.base) then ShiftedCell(s0, q, k - q.base) else s0[k]
  }

  ghost predicate Progress(s0: seq<Cell>, s: seq<Cell>, q: Request, i: int)
    requires q.Shaped() && q.Extent() <= |s0|
  {
    |s| == |s0| && forall k | 0 <= k < |s| :: s[k] == Now(s0, q, i, k)
  }

  lemma OkRoom(q: Request)
    requires q.Ok()
    ensures q.Room() == q.Extent() && q.Count() == q.right - q.left + 1
  {
  }

  /** Treating row `i` of the rectangle advances the loop: its source row was still untouched. */
  lemma RowProgress(s0: seq<Cell>, s: seq<Cell>, q: Request, i: nat)
    requires q.Ok() && q.Extent() <= |s0| && q.top <= i <= q.bottom && Progress(s0, s, q, i)
    ensures q.Room() <= |s| && Progress(s0, Turn(s, q, i), q, if q.up then i + 1 else i - 1)
  {
    OkRoom(q);
    hide Area, Row, Col, RowStart, SourceIndex, Now, Turn;
    var s' := Turn(s, q, i);
    forall k | 0 <= k < |s'| ensures s'[k] == Now(s0, q, if q.up then i + 1 else i - 1, k) {
      CellProgress(s0, s, q, i, k);
    }
  }

  lemma CellProgress(s0: seq<Cell>, s: seq<Cell>, q: Request, i: nat, k: nat)
    requires q.Ok() && q.Extent() <= |s0| && q.top <= i <= q.bottom && Progress(s0, s, q, i) && k < |s|
    ensures q.Room() <= |s| && Turn(s, q, i)[k] == Now(s0, q, if q.up then i + 1 else i - 1, k)
  {
    OkRoom(q);
    hide Area, Row, Col, RowStart, SourceIndex, Now, ShiftedCell, Treated, Turn;
    var m := k - q.base;
    RowCells(q, i, k);
    TurnAt(s, q, i, k);
    RowStartsAtBase(q, i);
    assert s[k] == Now(s0, q, i, k);
    NowAt(s0, q, i, k);
    if m >= 0 && Row(m, q.nb) == i && q.InColumns(m) && !q.Vacated(i) {
      RowSource(q, i, k);
      SourceUntouched(s0, s, q, i, m);
    }
  }

  lemma RowStartsAtBase(q: Request, i: nat)
    ensures RowStart(q, q.base, i) >= q.base
  {
    MulMono(0, i, q.nb);
  }

  /** Treating row `i` settles its cells and no others. */
  lemma NowAt(s0: seq<Cell>, q: Request, i: nat, k: nat)
    requires q.Ok() && q.Extent() <= |s0| && q.top <= i <= q.bottom && k < |s0|
    ensures var m, next := k - q.base, if q.up then i + 1 else i - 1;
            if m >= 0 && Row(m, q.nb) == i && q.InColumns(m) then
              (q.Vacated(i) ==> Now(s0, q, next, k) == Blank(q.attr)) &&
              (!q.Vacated(i) ==> q.base == 0 && 0 <= SourceIndex(q, m) < |s0| && Now(s0, q, next, k) == s0[SourceIndex(q, m)])
            else Now(s0, q, next, k) == Now(s0, q, i, k)
  {
    hide Area, Row, Col, SourceIndex;
    var m := k - q.base;
    if m >= 0 && Row(m, q.nb) == i && q.InColumns(m) && !q.Vacated(i) {
      SourceInRange(q, m);
    }
  }

  lemma SourceUntouched(s0: seq<Cell>, s: seq<Cell>, q: Request, i: nat, m: nat)
    requires q.Ok() && q.Extent() <= |s0| && q.top <= i <= q.bottom && Progress(s0, s, q, i)
    requires !q.Vacated(i) && q.base + m < |s| && Row(m, q.nb) == i && q.InColumns(m)
    ensures 0 <= SourceIndex(q, m) < |s| && s[SourceIndex(q, m)] == s0[SourceIndex(q, m)]
  {
    SourceInRange(q, m);
    hide Row, Col, SourceIndex;
    var src := SourceIndex(q, m);
    assert s[src] == Now(s0, q, i, src);
  }

  lemma NothingDone(s0: seq<Cell>, q: Request)
    requires q.Ok() && q.Extent() <= |s0|
    ensures Progress(s0, s0, q, if q.up then q.top else q.bottom)
  {
  }

  lemma AllDone(s0: seq<Cell>, s: seq<Cell>, q: Request, i: int)
    requires q.Ok() && q.Extent() <= |s0| && Progress(s0, s, q, i) && if q.up then i > q.bottom else i < q.top
    ensures Scrolled(s0, s, q)
  {
  }

  lemma {:induction false} UpScrolls(s0: seq<Cell>, s: seq<Cell>, q: Request, i: nat)
    requires q.Ok() && q.up && q.Extent() <= |s0| && q.top <= i && Progress(s0, s, q, i)
    ensures q.Room() <= |s| && Scrolled(s0, UpFrom(s, q, i), q)
    decreases q.bottom + 1 - i
  {
    OkRoom(q);
    hide Area, Progress, Turn, Scrolled;
    ProgressLen(s0, s, q, i);
    if i > q.bottom {
      AllDone(s0, s, q, i);
    } else {
      RowProgress(s0, s, q, i);
      UpScrolls(s0, Turn(s, q, i), q, i + 1);
    }
  }

  lemma ProgressLen(s0: seq<Cell>, s: seq<Cell>, q: Request, i: int)
    requires q.Shaped() && q.Extent() <= |s0| && Progress(s0, s, q, i)
    ensures |s| == |s0|
  {
  }

  lemma {:induction false} DownScrolls(s0: seq<Cell>, s: seq<Cell>, q: Request, i: nat)
    requires q.Ok() && !q.up && q.Extent() <= |s0| && q.top <= i + 1 && i <= q.bottom && Progress(s0, s, q, i)
    ensures q.Room() <= |s| && Scrolled(s0, DownFrom(s, q, i), q)
    decreases i
  {
    OkRoom(q);
    hide Area, Progress, Turn, Scrolled;
    ProgressLen(s0, s, q, i);
    if i < q.top {
      AllDone(s0, s, q, i);
    } else {
      RowProgress(s0, s, q, i);
      DownScrolls(s0, Turn(s, q, i), q, i - 1);
    }
  }

  /** Filling the screen in one go is what scrolling it up by no lines is meant to do. */
  lemma ClearIsScroll(s0: seq<Cell>, q: Request)
    requires q.Shaped() && ClearsAll(q) && q.Extent() <= |s0|
    ensures Scrolled(s0, After(s0, q), q)
  {
    var s := After(s0, q);
    forall k | 0 <= k < |s|
      ensures s[k] == if k >= q.base then ShiftedCell(s0, q, k - q.base) else s0[k]
    {
      if k >= q.base { CellOfScreen(k - q.base, q.rows, q.nb); }
    }
  }

  lemma CellOfScreen(m: nat, rows: nat, nb: nat)
    requires nb > 0
    ensures 0 <= Row(m, nb) && 0 <= Col(m, nb) < nb && (m < Area(rows, nb) <==> Row(m, nb) < rows)
  {
    Split(m, nb);
    if m / nb < rows { InRows(m, nb, rows); } else { MulMono(rows, m / nb, nb); }
    if m / nb < 0 { MulMono(m / nb, -1, nb); }
  }

  // ---------------------------------------------------------------- exactly which requests

  /**
   The requests that come out right: the one-shot clear; rows or columns wholly beyond the
   screen; and otherwise columns that start on the screen and are not 256, no scrolling down
   from row 0, and nothing copied on a page but the first.
   */
  predicate Right(q: Request) {
    ClearsAll(q) || q.top > q.bottom || q.left == q.nb ||
    (q.left < q.nb && !(q.left == 0 && q.right == 255) && !q.Wraps() && (q.base == 0 || !q.Copies()))
  }

  /** Without columns, a turn does nothing. */
  lemma TurnNothing(s: seq<Cell>, q: Request, i: nat)
    requires q.Shaped() && q.Room() <= |s| && Turns(q, i) && q.Count() == 0
    ensures Turn(s, q, i) == s
  {
    hide Area, RowStart;
  }

  lemma {:induction false} UpNothing(s: seq<Cell>, q: Request, i: nat)
    requires q.Shaped() && q.Room() <= |s| && q.top <= i && (q.Count() == 0 || i > q.bottom)
    ensures UpFrom(s, q, i) == s
    decreases q.bottom + 1 - i
  {
    hide Area, Turn;
    if i <= q.bottom {
      TurnNothing(s, q, i);
      UpNothing(s, q, i + 1);
    }
  }

  lemma {:induction false} DownNothing(s: seq<Cell>, q: Request, i: nat)
    requires q.Shaped() && !q.up && q.Room() <= |s| && (i <= q.bottom || (i == 65535 && q.Wraps()))
    requires q.Count() == 0 || i < q.top
    ensures DownFrom(s, q, i) == s
    decreases if i <= q.bottom then i + 1 else 0
  {
    hide Area, Turn;
    if i >= q.top {
      TurnNothing(s, q, i);
      if i <= q.bottom { DownNothing(s, q, if i == 0 then 65535 else i - 1); }
    }
  }

  lemma LoopsNothing(s: seq<Cell>, q: Request)
    requires q.Shaped() && Fits(q, |s|) && !ClearsAll(q) && (q.Count() == 0 || q.top > q.bottom)
    ensures After(s, q) == s
  {
    hide Area, Turn, UpFrom, DownFrom;
    if q.up { UpNothing(s, q, q.top); } else { DownNothing(s, q, q.bottom); }
  }

  /** With no cell in the rectangle, nothing should change. */
  lemma EmptyRect(s: seq<Cell>, q: Request)
    requires q.Shaped() && q.Extent() <= |s| && (q.top > q.bottom || q.left > q.right)
    ensures Scrolled(s, s, q)
  {
    hide Area, Row, Col;
  }

  /** Right requests are shifted as they should be. */
  lemma RightScrolls(s: seq<Cell>, q: Request)
    requires q.Shaped() && Right(q) && Fits(q, |s|)
    ensures q.Extent() <= |s| && Scrolled(s, After(s, q), q)
  {
    hide Area, Turn, UpFrom, DownFrom, Scrolled, Progress;
    FitsExtent(q, |s|);
    if ClearsAll(q) {
      ClearIsScroll(s, q);
    } else if q.top > q.bottom || q.left == q.nb {
      LoopsNothing(s, q);
      EmptyRect(s, q);
    } else {
      NothingDone(s, q);
      if q.up { UpScrolls(s, s, q, q.top); } else { DownScrolls(s, s, q, q.bottom); }
    }
  }

  /** The row the loop treats last: it is always blanked. */
  function LastRow(q: Request): nat { if q.up then q.bottom else q.top }

  lemma {:induction false} UpBlanks(s: seq<Cell>, q: Request, i: nat, k: nat)
    requires q.Shaped() && q.up && q.Room() <= |s| && q.top <= i <= q.bottom && q.Count() > 0
    requires k == RowStart(q, q.base, q.bottom)
    ensures k < |s| && UpFrom(s, q, i)[k] == Blank(q.attr)
    decreases q.bottom - i
  {
    RowInside(q, q.bottom);
    hide Area, Turn, RowStart;
    if i == q.bottom {
      TurnAt(s, q, i, k);
      UpNothing(Turn(s, q, i), q, i + 1);
    } else {
      UpBlanks(Turn(s, q, i), q, i + 1, k);
    }
  }

  lemma {:induction false} DownBlanks(s: seq<Cell>, q: Request, i: nat, k: nat)
    requires q.Shaped() && !q.up && q.Room() <= |s| && q.top <= i <= q.bottom && q.Count() > 0
    requires k == RowStart(q, q.base, q.top)
    ensures k < |s| && DownFrom(s, q, i)[k] == Blank(q.attr)
    decreases i
  {
    RowInside(q, q.top);
    if i == q.top {
      TurnAt(s, q, i, k);
      if i == 0 {
        StrayAway(q);
        RowInside(q, 65535);
        hide Area, Turn, RowStart;
        TurnAt(Turn(s, q, 0), q, 65535, k);
      } else {
        hide Area, Turn, RowStart;
        DownNothing(Turn(s, q, i), q, i - 1);
      }
    } else {
      hide Area, Turn, RowStart;
      DownBlanks(Turn(s, q, i), q, i - 1, k);
    }
  }

  lemma StrayAway(q: Request)
    requires q.Shaped()
    ensures RowStart(q, q.base, 65535) > RowStart(q, q.base, 0)
  {
    MulMono(1, q.nb, 65535);
  }

  /** A memory in which no cell is blank. */
  function Inked(len: nat): (s: seq<Cell>)
    ensures |s| == len && forall k | 0 <= k < len :: s[k] == Cell(33, 0)
  {
    seq(len, _ => Cell(33, 0))
  }

  /** Columns that start beyond the screen, or number 256: an inked memory comes out wrong. */
  lemma WrongColumns(q: Request)
    requires q.Shaped() && !ClearsAll(q) && q.top <= q.bottom && (q.left > q.nb || (q.left == 0 && q.right == 255))
    ensures var s := Inked(q.Room()); q.Extent() <= |s| && !Scrolled(s, After(s, q), q)
  {
    var s := Inked(q.Room());
    FitsExtent(q, |s|);
    var k := RowStart(q, q.base, LastRow(q));
    RowInside(q, LastRow(q));
    if q.left > q.nb {
      assert q.Count() > 0;
      hide Area, Turn, RowStart, UpFrom, DownFrom, Row, Col;
      if q.up { UpBlanks(s, q, q.top, k); } else { DownBlanks(s, q, q.bottom, k); }
      assert After(s, q)[k] == Blank(q.attr);
      RowStartsAtBase(q, LastRow(q));
      assert ShiftedCell(s, q, k - q.base) == s[k];
    } else {
      LoopsNothing(s, q);
      FirstCell(q, LastRow(q));
      hide Area, Turn, RowStart, UpFrom, DownFrom, Row, Col;
      RowStartsAtBase(q, LastRow(q));
      assert ShiftedCell(s, q, k - q.base) == Blank(q.attr);
      assert After(s, q)[k] == Cell(33, 0);
    }
  }

  /** Where the request's first cell in row `i` is. */
  lemma FirstCell(q: Request, i: nat)
    requires q.Shaped() && q.left < q.nb && q.top <= i <= q.bottom
    ensures var m := RowStart(q, q.base, i) - q.base;
            0 <= m < Area(q.rows, q.nb) && Row(m, q.nb) == i && Col(m, q.nb) == q.left
  {
    RowBound(i, q.rows, q.nb);
    DivUnique(i * q.nb + q.left, q.nb, i, q.left);
  }

  // -- scrolling down from row 0

  /** Only cell `x` may hold character 34. */
  predicate Marked(s: seq<Cell>, x: nat) { forall k | 0 <= k < |s| :: k != x ==> s[k].ch != 34 }

  /** The turns on the screen never read the stray cell. */
  lemma TurnMarked(s: seq<Cell>, q: Request, i: nat, x: nat)
    requires q.Shaped() && q.Wraps() && q.Columns() && q.Room() <= |s| && q.top <= i <= q.bottom && Marked(s, x)
    requires x == RowStart(q, q.base, 65535)
    ensures Marked(Turn(s, q, i), x)
  {
    var s' := Turn(s, q, i);
    if !q.Vacated(i) { SourceBelow(q, i); }
    RowInside(q, i);
    hide Area, RowStart, Turn;
    forall k | 0 <= k < |s'| && k != x ensures s'[k].ch != 34 { TurnAt(s, q, i, k); }
  }

  lemma SourceBelow(q: Request, i: nat)
    requires q.Shaped() && !q.up && q.Columns() && !q.Vacated(i) && q.top <= i <= q.bottom
    ensures 0 <= SourceRow(q, i) && RowStart(q, 0, SourceRow(q, i)) + q.Count() <= RowStart(q, q.base, 65535)
  {
    RowBound(SourceRow(q, i), 65535, q.nb);
  }

  lemma {:induction false} DownStray(s: seq<Cell>, q: Request, i: nat, x: nat)
    requires q.Shaped() && q.Wraps() && q.Columns() && q.Room() <= |s| && i <= q.bottom && Marked(s, x)
    requires x == RowStart(q, q.base, 65535)
    ensures x < |s| && DownFrom(s, q, i)[x].ch != 34
    decreases i
  {
    TurnMarked(s, q, i, x);
    if i == 0 {
      LastTurn(Turn(s, q, 0), q, x);
      hide Area, Turn, RowStart;
    } else {
      hide Area, Turn, RowStart;
      DownStray(Turn(s, q, i), q, i - 1, x);
    }
  }

  lemma LastTurn(s: seq<Cell>, q: Request, x: nat)
    requires q.Shaped() && q.Wraps() && q.Columns() && q.Room() <= |s| && Marked(s, x) && x == RowStart(q, q.base, 65535)
    ensures x < |s| && Turn(s, q, 65535)[x].ch != 34
  {
    RowInside(q, 65535);
    StraySource(q);
    hide Area, Turn, RowStart;
    TurnAt(s, q, 65535, x);
  }

  lemma StraySource(q: Request)
    requires q.Shaped() && !q.up
    ensures q.n > 0 ==> RowStart(q, 0, SourceRow(q, 65535)) < RowStart(q, q.base, 65535)
  {
    if q.n > 0 { MulMono(1, q.n, q.nb); }
    assert (65535 - q.n) * q.nb == 65535 * q.nb - q.n * q.nb;
  }

  /** A cell far below the screen, marked, is overwritten. */
  lemma WrongRow(q: Request)
    requires q.Shaped() && q.Columns() && q.Wraps() && !ClearsAll(q)
    ensures var s := Inked(q.Room())[RowStart(q, q.base, 65535) := Cell(34, 0)];
            RowStart(q, q.base, 65535) < q.Room() && q.Extent() <= |s| && !Scrolled(s, After(s, q), q)
  {
    RowInside(q, 65535);
    FitsExtent(q, q.Room());
    var x := RowStart(q, q.base, 65535);
    var s := Inked(q.Room())[x := Cell(34, 0)];
    DownStray(s, q, q.bottom, x);
    DivUnique(65535 * q.nb + q.left, q.nb, 65535, q.left);
    assert Row(x - q.base, q.nb) == 65535;
    hide Area, Turn, RowStart, DownFrom, Row, Col;
    RowStartsAtBase(q, 65535);
    assert ShiftedCell(s, q, x - q.base) == s[x];
  }

  // -- another page

  /** The row the loop treats first, and the first cell of the row it copies there. */
  function FirstRow(q: Request): nat { if q.up then q.top else q.bottom }

  lemma {:induction false} UpKeeps(s: seq<Cell>, q: Request, i: nat, k: nat)
    requires q.Shaped() && q.Columns() && !q.Wraps() && q.up && q.Room() <= |s| && q.top < i && k == RowStart(q, q.base, q.top) && k < |s|
    ensures UpFrom(s, q, i)[k] == s[k]
    decreases q.bottom + 1 - i
  {
    if i <= q.bottom {
      FirstCell(q, q.top);
      RowCells(q, i, k);
      hide Area, Turn, RowStart, Row, Col;
      TurnAt(s, q, i, k);
      UpKeeps(Turn(s, q, i), q, i + 1, k);
    }
  }

  lemma {:induction false} DownKeeps(s: seq<Cell>, q: Request, i: nat, k: nat)
    requires q.Shaped() && q.Columns() && !q.Wraps() && !q.up && q.Room() <= |s| && i < q.bottom && k == RowStart(q, q.base, q.bottom) && k < |s|
    ensures DownFrom(s, q, i)[k] == s[k]
    decreases i
  {
    if i >= q.top {
      FirstCell(q, q.bottom);
      RowCells(q, i, k);
      hide Area, Turn, RowStart, Row, Col;
      TurnAt(s, q, i, k);
      DownKeeps(Turn(s, q, i), q, i - 1, k);
    }
  }

  /** A mark on the first page ends up on the other one. */
  lemma WrongPage(q: Request)
    requires q.Shaped() && q.Columns() && !q.Wraps() && q.base > 0 && q.Copies()
    ensures var y := RowStart(q, 0, SourceRow(q, FirstRow(q)));
            y < q.Room() && q.Extent() <= q.Room() &&
            var s := Inked(q.Room())[y := Cell(34, 0)]; !Scrolled(s, After(s, q), q)
  {
    hide Area, Turn, RowStart, SourceIndex, Row, Col;
    var i := FirstRow(q);
    RowInside(q, i);
    FirstCell(q, i);
    FitsExtent(q, q.Room());
    var k, y := RowStart(q, q.base, i), RowStart(q, 0, SourceRow(q, i));
    var s := Inked(q.Room())[y := Cell(34, 0)];
    TurnAt(s, q, i, k);
    RowSource(q, i, k);
    SourceInRange(q, k - q.base);
    if q.up { UpKeeps(Turn(s, q, i), q, i + 1, k); } else { DownKeeps(Turn(s, q, i), q, i - 1, k); }
    assert After(s, q)[k] == Cell(34, 0);
    RowStartsAtBase(q, i);
    assert ShiftedCell(s, q, k - q.base) == s[q.base + SourceIndex(q, k - q.base)];
  }

  /** Every memory comes out right exactly for the requests that are `Right`. */
  lemma ScrollExact(q: Request)
    requires q.Shaped()
    ensures (forall s | Fits(q, |s|) && q.Extent() <= |s| :: Scrolled(s, After(s, q), q)) <==> Right(q)
  {
    hide Area, Turn, RowStart, Scrolled, After, Inked;
    if Right(q) {
      forall s | Fits(q, |s|) && q.Extent() <= |s| ensures Scrolled(s, After(s, q), q) { RightScrolls(s, q); }
    } else if q.left > q.nb || (q.left == 0 && q.right == 255) {
      WrongColumns(q);
    } else if q.Wraps() {
      WrongRow(q);
    } else {
      WrongPage(q);
    }
  }

  /**
   INT 10h AH=06h for rows 0 to 10 with both columns at 100 on an 80x25 screen: no column of it
   is on the screen, yet column 20 of row 11 is blanked.
   */
  lemma LeftBeyondScreen()
    ensures var q := Clamp(1, 7, 0, 100, 10, 100, true, 0, 25, 80);
            q.Count() == 236 && !Right(q) &&
            var s := Inked(q.Room()); q.Extent() <= |s| && After(s, q)[11 * 80 + 20] == Blank(7)
  {
    var q := Clamp(1, 7, 0, 100, 10, 100, true, 0, 25, 80);
    var s := Inked(q.Room());
    assert RowStart(q, 0, 10) == 11 * 80 + 20;
    UpBlanks(s, q, 0, RowStart(q, 0, 10));
  }

  /** On the first page, with columns in order: right exactly when the row index cannot wrap. */
  lemma StrayRow(q: Request)
    requires q.Shaped() && q.Columns() && q.base == 0 && !ClearsAll(q)
    ensures (forall s | Fits(q, |s|) && q.Extent() <= |s| :: Scrolled(s, After(s, q), q)) <==> !q.Wraps() || q.top > q.bottom
  {
    hide Area, Scrolled, After;
    ScrollExact(q);
  }

  /**
   On another page, in either direction: right exactly when nothing is copied, for copied rows
   come from the first page.
   */
  lemma PageOffset(q: Request)
    requires q.Shaped() && q.Columns() && q.base > 0 && !q.Wraps() && q.top <= q.bottom
    ensures (forall s | Fits(q, |s|) && q.Extent() <= |s| :: Scrolled(s, After(s, q), q)) <==>
            q.n == 0 || q.top + q.n > q.bottom
  {
    hide Area, Scrolled, After;
    ScrollExact(q);
  }

  // ---------------------------------------------------------------- what a caller sees

  /** On page 0, row by row and column by column. */
  lemma ScrollRows(s: seq<Cell>, s': seq<Cell>, q: Request, r: nat, c: nat)
    requires q.Shaped() && q.base == 0 && q.Extent() <= |s| && Scrolled(s, s', q) && r < q.rows && c < q.nb
    ensures Place(q, r, c) < |s|
    ensures var inside := q.top <= r <= q.bottom && q.left <= c <= q.right;
            s'[Place(q, r, c)] ==
              if !inside then s[Place(q, r, c)]
              else if q.n == 0 then Cell(32, q.attr)
              else if q.up then (if r + q.n > q.bottom then Cell(32, q.attr) else At(s, q, r + q.n, c))
              else if r < q.top + q.n then Cell(32, q.attr) else At(s, q, r - q.n, c)
  {
    hide Area, Row, Col, Place, SourceIndex, Scrolled;
    PlaceFacts(q, r, c, |s|);
    ScrolledAt(s, s', q, Place(q, r, c));
    if q.InRect(Place(q, r, c)) && !q.Vacated(r) {
      SourceInRange(q, Place(q, r, c));
      PlaceSource(q, r, c);
    }
  }

  /**
   From the request as it came in: inside the rectangle each cell is the old one `nblines` rows
   away, or a space in the given attribute where that row is not in the rectangle, or for no
   lines or too many; every other cell of the screen is unchanged.
   */
  lemma ScrollCells(s: seq<Cell>, nblines: byte, attr: byte, rul: byte, cul: byte, rlr: byte, clr: byte,
                    up: bool, nbrows: nat, nbcols: nat, r: nat, c: nat)
    requires 1 <= nbrows <= 256 && 1 <= nbcols <= 65535 && rul <= rlr && cul <= clr && r < nbrows && c < nbcols
    requires var q := Clamp(nblines, attr, rul, cul, rlr, clr, up, 0, nbrows, nbcols); Right(q) && Fits(q, |s|)
    ensures var q := Clamp(nblines, attr, rul, cul, rlr, clr, up, 0, nbrows, nbcols);
            Place(q, r, c) < |s| &&
            After(s, q)[Place(q, r, c)] ==
              if !(rul <= r <= rlr && cul <= c <= clr) then At(s, q, r, c)
              else if nblines == 0 || nblines > nbrows then Cell(32, attr)
              else if up then (if r + nblines <= rlr && r + nblines < nbrows then At(s, q, r + nblines, c) else Cell(32, attr))
              else if rul + nblines <= r then At(s, q, r - nblines, c) else Cell(32, attr)
  {
    hide Area, Row, Col, Place, After, Scrolled, Right, Fits;
    var q := Clamp(nblines, attr, rul, cul, rlr, clr, up, 0, nbrows, nbcols);
    RightScrolls(s, q);
    ScrollRows(s, After(s, q), q, r, c);
  }

  /** A blank cell is a space in the attribute asked for. */
  lemma BlankIs(attr: byte)
    ensures Blank(attr).ch == 32 && Blank(attr).attr == attr
  {
  }

  /** Where the cell in row `r`, column `c` of the first page is. */
  function Place(q: Request, r: nat, c: nat): nat {
    MulMono(0, r, q.nb);
    r * q.nb + c
  }

  lemma PlaceFacts(q: Request, r: nat, c: nat, len: nat)
    requires q.Shaped() && q.base == 0 && q.Extent() <= len && r < q.rows && c < q.nb
    ensures Place(q, r, c) < len && Row(Place(q, r, c), q.nb) == r && Col(Place(q, r, c), q.nb) == c
  {
    RowBound(r, q.rows, q.nb);
    MulMono(q.rows, 65536, q.nb);
    DivUnique(r * q.nb + c, q.nb, r, c);
  }

  lemma PlaceSource(q: Request, r: nat, c: nat)
    requires q.up || q.n <= r
    ensures SourceIndex(q, Place(q, r, c)) == Place(q, if q.up then r + q.n else r - q.n, c)
  {
    assert (r + q.n) * q.nb == r * q.nb + q.n * q.nb;
    assert (r - q.n) * q.nb == r * q.nb - q.n * q.nb;
  }

  /** The cell in row `r`, column `c` of the first page. */
  function At(s: seq<Cell>, q: Request, r: nat, c: nat): Cell {
    if Place(q, r, c) < |s| then s[Place(q, r, c)] else Blank(0)
  }

  /** Scrolling up by `a` and then by `b` lines is scrolling up by `a + b`. */
  lemma ScrollTwice(s: seq<Cell>, s1: seq<Cell>, s2: seq<Cell>, q: Request, a: nat, b: nat)
    requires q.up && q.base == 0 && 1 <= a && 1 <= b && a + b <= q.rows
    requires q.(n := a + b).Shaped() && q.Extent() <= |s|
    requires Scrolled(s, s1, q.(n := a)) && Scrolled(s1, s2, q.(n := b))
    ensures Scrolled(s, s2, q.(n := a + b))
  {
    hide Area, ShiftedCell, Scrolled;
    var qa, qb, qc := q.(n := a), q.(n := b), q.(n := a + b);
    ScrolledSize(s, s1, qa);
    ScrolledSize(s1, s2, qb);
    forall k | 0 <= k < |s2| ensures s2[k] == ShiftedCell(s, qc, k) {
      ScrolledAt(s, s1, qa, k);
      ScrolledAt(s1, s2, qb, k);
      TwiceAt(s, s1, q, a, b, k);
    }
    ScrolledIf(s, s2, qc);
  }

  lemma ScrolledSize(s: seq<Cell>, s': seq<Cell>, q: Request)
    requires q.Shaped() && q.Extent() <= |s| && Scrolled(s, s', q)
    ensures |s'| == |s|
  {
    hide Area, ShiftedCell;
  }

  lemma ScrolledIf(s: seq<Cell>, s': seq<Cell>, q: Request)
    requires q.Shaped() && q.base == 0 && q.Extent() <= |s| == |s'|
    requires forall k | 0 <= k < |s'| :: s'[k] == ShiftedCell(s, q, k)
    ensures Scrolled(s, s', q)
  {
    hide Area, ShiftedCell;
  }

  lemma TwiceAt(s: seq<Cell>, s1: seq<Cell>, q: Request, a: nat, b: nat, k: nat)
    requires q.up && q.base == 0 && 1 <= a && 1 <= b && a + b <= q.rows
    requires q.(n := a + b).Shaped() && q.Extent() <= |s| && Scrolled(s, s1, q.(n := a)) && k < |s|
    requires s1[k] == ShiftedCell(s, q.(n := a), k)
    ensures ShiftedCell(s1, q.(n := b), k) == ShiftedCell(s, q.(n := a + b), k)
  {
    hide Area, Row, Col, SourceIndex, Scrolled;
    var qa, qb := q.(n := a), q.(n := b);
    if q.InRect(k) && !qb.Vacated(Row(k, q.nb)) {
      SourceInRange(qb, k);
      ScrolledAt(s, s1, qa, SourceIndex(qb, k));
      SourceSum(q, a, b, k);
    }
  }

  lemma SourceSum(q: Request, a: nat, b: nat, k: int)
    requires q.up
    ensures SourceIndex(q.(n := a), SourceIndex(q.(n := b), k)) == SourceIndex(q.(n := a + b), k)
  {
    assert (a + b) * q.nb == a * q.nb + b * q.nb;
  }
}
