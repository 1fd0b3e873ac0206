/**
 Scrolling in 2-bits-per-pixel CGA mode (vgamem_copy_cga, vgamem_fill_cga and the CGA loops of
 biosfn_scroll in src/base/bios/vgabios.c), seen through biosfn_read_pixel.

 Even scan lines live in one bank of video memory and odd ones in another, 0x2000 bytes
 further; a character row is eight scan lines of 80 bytes, four of them in each bank.
 */
module CgaScroll {
  import opened Basics

  const BANK := 0x2000
  const STRIDE := 80
  const LINES := 200
  const COLUMNS := 40
  const CHEIGHT := 8

  /** Address of byte column `b` of scan line `y`. */
  function Addr(y: int, b: int): int { (y / 2) * 80 + (y % 2) * BANK + b }

  predicate OnLine(y: int, b: int) { 0 <= y < LINES && 0 <= b < STRIDE }

  /** Bytes that no scan line uses. */
  predicate OffScreen(k: int) { !(0 <= k < 8000 || BANK <= k < BANK + 8000) }

  /** A run of bytes in one scan line is found at no other place. */
  lemma LineBytes(y: int, b: int, cols: int, y': int, b': int)
    requires OnLine(y, b) && OnLine(y', b') && 0 <= cols && b + cols <= STRIDE
    ensures Addr(y, b) <= Addr(y', b') < Addr(y, b) + cols <==> y' == y && b <= b' < b + cols
  {
    InBank(y / 2, y % 2, b, cols, y' / 2, y' % 2, b');
    assert y == 2 * (y / 2) + y % 2 && y' == 2 * (y' / 2) + y' % 2;
  }

  /** The same for line `h` of bank `e`. */
  lemma InBank(h: int, e: int, b: int, cols: int, h': int, e': int, b': int)
    requires 0 <= h < 100 && 0 <= e <= 1 && 0 <= b && 0 <= cols && b + cols <= STRIDE
    requires 0 <= h' < 100 && 0 <= e' <= 1 && 0 <= b' < STRIDE
    ensures var k, k' := h * 80 + e * BANK + b, h' * 80 + e' * BANK + b';
            k <= k' < k + cols <==> h' == h && e' == e && b <= b' < b + cols
    ensures var k, k' := h * 80 + e * BANK + b, h' * 80 + e' * BANK + b';
            (h == h' && e == e') || b' != b || k + cols <= k' || k' + cols <= k
  {
    assert e == 0 || e == 1;
    assert e' == 0 || e' == 1;
  }

  lemma LineRange(y: int, b: int)
    requires OnLine(y, b)
    ensures 0 <= Addr(y, b) < 0x4000 && !OffScreen(Addr(y, b))
  {
  }

  /** biosfn_read_pixel in this mode. */
  function ReadPixel(mem: seq<byte>, x: nat, y: nat): (p: nat)
    requires |mem| >= 0x4000 && x < 320 && y < LINES
    ensures p < 4
  {
    LineRange(y, x / 4);
    PixelOf(mem[Addr(y, x / 4)], x)
  }

  /** The pixel of a byte at column `x`: the leftmost one in the top two bits. */
  function PixelOf(data: byte, x: nat): (p: nat)
    ensures p < 4
  {
    (if x % 4 == 0 then data / 64 else if x % 4 == 1 then data / 16 else if x % 4 == 2 then data / 4 else data) % 4
  }

  /** A byte is its four pixels from left to right, base 4; the fifth pixel is the first one of the next byte. */
  lemma PixelDigits(data: byte, x: nat)
    ensures data == 64 * PixelOf(data, 0) + 16 * PixelOf(data, 1) + 4 * PixelOf(data, 2) + PixelOf(data, 3)
    ensures PixelOf(data, x + 4) == PixelOf(data, x)
  {
    Quarters(data);
    Quarters(data / 4);
    Quarters(data / 16);
    assert (x + 4) % 4 == x % 4;
    assert data / 4 / 4 == data / 16 && data / 16 / 4 == data / 64;
  }

  lemma Quarters(d: nat)
    ensures d == 4 * (d / 4) + d % 4
  {
  }

  /** Where the scan lines are: the first two at the start of the banks, and each one 80 bytes after the last but one. */
  lemma AddrSteps(y: int, b: int)
    ensures Addr(0, b) == b && Addr(1, b) == 0x2000 + b
    ensures Addr(y + 2, b) == Addr(y, b) + 80
  {
  }

  // ---------------------------------------------------------------- the request

  /** A scroll request after clamping, in character rows and columns. */
  datatype Request = Request(n: nat, attr: byte, top: nat, left: nat, bottom: nat, right: nat, up: bool) {

    predicate Clamped() { n <= 25 && top <= 255 && bottom < 25 && left <= right < COLUMNS }

    /** The row-by-row loop ends: see DownLoopEnds. */
    predicate Ok() { Clamped() && (up || top >= 1) }

    /** The whole screen and no lines: one linear fill instead of the loop, in either direction. */
    predicate Clears() { n == 0 && top == 0 && left == 0 && bottom == 24 && right == COLUMNS - 1 }

    predicate InRect(y: int, b: int) { top <= y / 8 <= bottom && 2 * left <= b <= 2 * right + 1 }

    predicate Vacated(r: int) { n == 0 || if up then r + n > bottom else r < top + n }

    /** The scan line that line `y` is copied from. */
    function From(y: int): int { if up then y + 8 * n else y - 8 * n }
  }

  /** What byte column `b` of scan line `y` holds after the simultaneous shift. */
  ghost function Shifted(s: seq<byte>, q: Request, y: int, b: int): byte
    requires |s| >= 0x4000 && q.Ok() && OnLine(y, b)
  {
    LineRange(y, b);
    if !q.InRect(y, b) then s[Addr(y, b)]
    else if q.Vacated(y / 8) then q.attr
    else
      LineRange(q.From(y), b);
      s[Addr(q.From(y), b)]
  }

  ghost predicate Scrolled(s: seq<byte>, s': seq<byte>, q: Request)
    requires |s| >= 0x4000 && q.Ok()
  {
    |s'| == |s| &&
    (forall y, b {:trigger Addr(y, b)} | OnLine(y, b) && Addr(y, b) < |s| && 0 <= Addr(y, b) :: s'[Addr(y, b)] == Shifted(s, q, y, b)) &&
    (forall k | 0 <= k < |s| && OffScreen(k) :: s'[k] == s[k])
  }

  // ---------------------------------------------------------------- memcpyb, memsetb

  method CopyBytes(mem: array<byte>, dst: nat, src: nat, n: nat)
    requires dst + n <= mem.Length && src + n <= mem.Length && (dst + n <= src || src + n <= dst)
    modifies mem
    ensures forall k | 0 <= k < mem.Length ::
              mem[k] == old(if dst <= k < dst + n then mem[k - dst + src] else mem[k])
  {
    for j := 0 to n
      invariant forall k | 0 <= k < mem.Length ::
                  mem[k] == old(if dst <= k < dst + j then mem[k - dst + src] else mem[k])
    {
      mem[dst + j] := mem[src + j];
    }
  }

  method FillBytes(mem: array<byte>, dst: nat, v: byte, n: nat)
    requires dst + n <= mem.Length
    modifies mem
    ensures forall k | 0 <= k < mem.Length :: mem[k] == if dst <= k < dst + n then v else old(mem[k])
  {
    for j := 0 to n
      invariant forall k | 0 <= k < mem.Length :: mem[k] == if dst <= k < dst + j then v else old(mem[k])
    {
      mem[dst + j] := v;
    }
  }

  // ---------------------------------------------------------------- one character row

  /** Lines y0 <= y < y1 of the rectangle's columns now hold what `from` held, or the fill byte. */
  ghost predicate LinesMoved(s: seq<byte>, s': seq<byte>, q: Request, y0: int, y1: int, vacated: bool, delta: int) {
    |s| == |s'| >= 0x4000 &&
    (forall y, b {:trigger Addr(y, b)} | OnLine(y, b) ::
       0 <= Addr(y, b) < 0x4000 &&
       s'[Addr(y, b)] ==
         if !(y0 <= y < y1 && 2 * q.left <= b <= 2 * q.right + 1) then s[Addr(y, b)]
         else if vacated then q.attr
         else if OnLine(y + delta, b) && 0 <= Addr(y + delta, b) < |s| then s[Addr(y + delta, b)] else 0) &&
    (forall k | 0 <= k < |s| && OffScreen(k) :: s'[k] == s[k])
  }

  /** The byte vgamem_copy_cga and vgamem_fill_cga start line `i` of a character row at. */
  function RowLine(ch: nat, xstart: nat, i: nat): nat {
    (ch * CHEIGHT * STRIDE) / 2 + xstart + (i / 2) * STRIDE + (if i % 2 == 1 then BANK else 0)
  }

  lemma RowLineIs(ch: nat, xstart: nat, i: nat)
    requires i < CHEIGHT
    ensures RowLine(ch, xstart, i) == Addr(8 * ch + i, xstart)
  {
    assert ch * CHEIGHT * STRIDE == 640 * ch;
    assert 640 * ch / 2 == 320 * ch;
    var h := i / 2;
    assert i == 2 * h + i % 2 && 8 * ch + i == 2 * (4 * ch + h) + i % 2;
    assert (8 * ch + i) / 2 == 4 * ch + h;
  }

  /** vgamem_fill_cga */
  method FillRow(mem: array<byte>, q: Request, row: nat)
    requires q.Ok() && mem.Length >= 0x4000 && row < 25
    modifies mem
    ensures LinesMoved(old(mem[..]), mem[..], q, 8 * row, 8 * row + 8, true, 0)
  {
    hide LinesMoved, Addr, RowLine;
    var xstart, cols := 2 * q.left, 2 * (q.right - q.left + 1);
    ghost var s := mem[..];
    LinesNone(s, q, 8 * row, true, 0);
    for i := 0 to CHEIGHT
      invariant LinesMoved(s, mem[..], q, 8 * row, 8 * row + i, true, 0)
    {
      ghost var s1 := mem[..];
      RowLineIs(row, xstart, i);
      LineRange(8 * row + i, xstart);
      LineEnd(8 * row + i, xstart, cols);
      FillBytes(mem, RowLine(row, xstart, i), q.attr, cols);
      FilledLine(s, s1, mem[..], q, 8 * row, i);
    }
  }

  lemma LinesNone(s: seq<byte>, q: Request, y0: int, vacated: bool, delta: int)
    requires |s| >= 0x4000
    ensures LinesMoved(s, s, q, y0, y0, vacated, delta)
  {
  }

  lemma LineEnd(y: int, b: int, cols: int)
    requires OnLine(y, b) && 0 <= cols && b + cols <= STRIDE
    ensures 0 <= Addr(y, b) && Addr(y, b) + cols <= 0x4000
    ensures forall k | Addr(y, b) <= k < Addr(y, b) + cols :: !OffScreen(k)
  {
  }

  lemma FilledLine(s: seq<byte>, s1: seq<byte>, s2: seq<byte>, q: Request, y0: nat, i: nat)
    requires q.Ok() && i < 8 && y0 + i < LINES && LinesMoved(s, s1, q, y0, y0 + i, true, 0) && |s2| == |s1|
    requires var a, cols := Addr(y0 + i, 2 * q.left), 2 * (q.right - q.left + 1);
             forall k {:trigger s2[k]} | 0 <= k < |s2| :: s2[k] == if a <= k < a + cols then q.attr else s1[k]
    ensures LinesMoved(s, s2, q, y0, y0 + i + 1, true, 0)
  {
    hide Addr;
    var b0, cols := 2 * q.left, 2 * (q.right - q.left + 1);
    forall y, b | OnLine(y, b)
      ensures 0 <= Addr(y, b) < 0x4000 &&
              s2[Addr(y, b)] == if y0 <= y < y0 + i + 1 && 2 * q.left <= b <= 2 * q.right + 1 then q.attr else s[Addr(y, b)]
    {
      LineRange(y, b);
      LineBytes(y0 + i, b0, cols, y, b);
    }
    LineEnd(y0 + i, b0, cols);
  }

  /** vgamem_copy_cga */
  method CopyRow(mem: array<byte>, q: Request, ysrc: nat, ydest: nat)
    requires q.Ok() && mem.Length >= 0x4000 && ysrc < 25 && ydest < 25 && ysrc != ydest
    modifies mem
    ensures LinesMoved(old(mem[..]), mem[..], q, 8 * ydest, 8 * ydest + 8, false, 8 * (ysrc - ydest))
  {
    hide LinesMoved, Addr, RowLine;
    var xstart, cols := 2 * q.left, 2 * (q.right - q.left + 1);
    ghost var s, delta := mem[..], 8 * (ysrc - ydest);
    LinesNone(s, q, 8 * ydest, false, delta);
    for i := 0 to CHEIGHT
      invariant LinesMoved(s, mem[..], q, 8 * ydest, 8 * ydest + i, false, delta)
    {
      ghost var s1 := mem[..];
      RowLineIs(ydest, xstart, i);
      RowLineIs(ysrc, xstart, i);
      LineEnd(8 * ydest + i, xstart, cols);
      LineEnd(8 * ysrc + i, xstart, cols);
      LinesApart(8 * ydest + i, 8 * ysrc + i, xstart, cols);
      CopyBytes(mem, RowLine(ydest, xstart, i), RowLine(ysrc, xstart, i), cols);
      CopiedLine(s, s1, mem[..], q, 8 * ydest, i, delta);
    }
  }

  lemma LinesApart(y: int, y': int, b: int, cols: int)
    requires OnLine(y, b) && OnLine(y', b) && 0 <= cols && b + cols <= STRIDE && y != y'
    ensures Addr(y, b) + cols <= Addr(y', b) || Addr(y', b) + cols <= Addr(y, b)
  {
    InBank(y / 2, y % 2, b, cols, y' / 2, y' % 2, b);
    assert y == 2 * (y / 2) + y % 2 && y' == 2 * (y' / 2) + y' % 2;
  }

  lemma CopiedLine(s: seq<byte>, s1: seq<byte>, s2: seq<byte>, q: Request, y0: nat, i: nat, delta: int)
    requires q.Ok() && i < 8 && y0 + 8 <= LINES && LinesMoved(s, s1, q, y0, y0 + i, false, delta) && |s2| == |s1|
    requires (delta >= 8 || delta <= -8) && 0 <= y0 + delta && y0 + delta + 8 <= LINES
    requires var a, c, cols := Addr(y0 + i, 2 * q.left), Addr(y0 + i + delta, 2 * q.left), 2 * (q.right - q.left + 1);
             0 <= c && c + cols <= |s1| &&
             forall k {:trigger s2[k]} | 0 <= k < |s2| :: s2[k] == if a <= k < a + cols then s1[k - a + c] else s1[k]
    ensures LinesMoved(s, s2, q, y0, y0 + i + 1, false, delta)
  {
    hide Addr;
    var b0, cols := 2 * q.left, 2 * (q.right - q.left + 1);
    forall y, b {:trigger Addr(y, b)} | OnLine(y, b)
      ensures 0 <= Addr(y, b) < 0x4000 &&
              s2[Addr(y, b)] ==
                if !(y0 <= y < y0 + i + 1 && 2 * q.left <= b <= 2 * q.right + 1) then s[Addr(y, b)]
                else if OnLine(y + delta, b) && 0 <= Addr(y + delta, b) < |s| then s[Addr(y + delta, b)] else 0
    {
      LineRange(y, b);
      LineBytes(y0 + i, b0, cols, y, b);
      if y == y0 + i && b0 <= b < b0 + cols {
        LineRange(y + delta, b);
        AddrStep(y0 + i, b0, b);
        AddrStep(y0 + i + delta, b0, b);
      }
    }
    LineEnd(y0 + i, b0, cols);
  }

  lemma AddrStep(y: int, b: int, b': int)
    ensures Addr(y, b') - Addr(y, b) == b' - b
  {
  }

  // ---------------------------------------------------------------- the loops

  /** Has the loop, about to treat character row `i`, already treated scan line `y`? */
  predicate Treated(q: Request, i: int, y: int, b: int) {
    q.InRect(y, b) && if q.up then y / 8 < i else y / 8 > i
  }

  ghost predicate Progress(s0: seq<byte>, s: seq<byte>, q: Request, i: int)
    requires |s0| >= 0x4000 && q.Ok()
  {
    |s| == |s0| &&
    (forall y, b {:trigger Addr(y, b)} | OnLine(y, b) ::
       0 <= Addr(y, b) < |s| && s[Addr(y, b)] == if Treated(q, i, y, b) then Shifted(s0, q, y, b) else s0[Addr(y, b)]) &&
    (forall k | 0 <= k < |s| && OffScreen(k) :: s[k] == s0[k])
  }

  lemma NothingDone(s: seq<byte>, q: Request)
    requires |s| >= 0x4000 && q.Ok()
    ensures Progress(s, s, q, if q.up then q.top else q.bottom)
  {
  }

  lemma AllDone(s0: seq<byte>, s: seq<byte>, q: Request, i: int)
    requires |s0| >= 0x4000 && q.Ok() && Progress(s0, s, q, i) && if q.up then i > q.bottom else i < q.top
    ensures Scrolled(s0, s, q)
  {
  }

  /** Treating row `i` advances the loop: the row it copies from was still untouched. */
  lemma RowProgress(s0: seq<byte>, s: seq<byte>, s': seq<byte>, q: Request, i: nat)
    requires |s0| >= 0x4000 && q.Ok() && q.top <= i <= q.bottom && Progress(s0, s, q, i)
    requires LinesMoved(s, s', q, 8 * i, 8 * i + 8, q.Vacated(i), if q.up then 8 * q.n else -8 * q.n)
    ensures Progress(s0, s', q, if q.up then i + 1 else i - 1)
  {
    hide Addr;
    var next := if q.up then i + 1 else i - 1;
    forall y, b | OnLine(y, b)
      ensures 0 <= Addr(y, b) < |s'| &&
              s'[Addr(y, b)] == if Treated(q, next, y, b) then Shifted(s0, q, y, b) else s0[Addr(y, b)]
    {
      assert 8 * i <= y < 8 * i + 8 <==> y / 8 == i;
      assert s[Addr(y, b)] == if Treated(q, i, y, b) then Shifted(s0, q, y, b) else s0[Addr(y, b)];
      if y / 8 == i && q.InRect(y, b) && !q.Vacated(i) {
        var z := q.From(y);
        assert OnLine(z, b) && z / 8 == (if q.up then i + q.n else i - q.n);
        assert s[Addr(z, b)] == s0[Addr(z, b)];
      }
    }
  }

  /** The CGA case of biosfn_scroll: the one-shot clear, or the rows one by one. */
  method Scroll(mem: array<byte>, q: Request)
    requires q.Clamped() && (q.Clears() || q.Ok()) && mem.Length >= 0x4000
    modifies mem
    ensures if q.Clears() then Cleared(old(mem[..]), mem[..], q.attr) else Scrolled(old(mem[..]), mem[..], q)
  {
    if q.Clears() {
      FillBytes(mem, 0, q.attr, 25 * COLUMNS * CHEIGHT * 2);
    } else {
      ScrollByRows(mem, q);
    }
  }

  method ScrollByRows(mem: array<byte>, q: Request)
    requires q.Ok() && mem.Length >= 0x4000
    modifies mem
    ensures Scrolled(old(mem[..]), mem[..], q)
  {
    hide Progress, LinesMoved, Scrolled;
    ghost var s0 := mem[..];
    NothingDone(s0, q);
    var i: int := if q.up then q.top else q.bottom;
    while if q.up then i <= q.bottom else i >= q.top
      invariant Progress(s0, mem[..], q, i) && (q.up ==> i >= q.top) && (!q.up ==> i <= q.bottom)
      decreases if q.up then q.bottom - i else i - q.top
    {
      ghost var s := mem[..];
      if q.Vacated(i) {
        FillRow(mem, q, i);
        VacatedRow(s, mem[..], q, i);
      } else {
        CopyRow(mem, q, if q.up then i + q.n else i - q.n, i);
      }
      RowProgress(s0, s, mem[..], q, i);
      i := if q.up then i + 1 else i - 1;
    }
    AllDone(s0, mem[..], q, i);
  }

  /** The downward loop counts in sixteen bits: the row of its turn `k`. */
  function RowOfTurn(bottom: nat, k: nat): nat { (bottom - k) % 0x1_0000 }

  /** It stops when that is above the top, which happens exactly if the top is not row 0. */
  lemma DownLoopEnds(top: nat, bottom: nat)
    requires top <= 255 && bottom < 25
    ensures (exists k: nat :: RowOfTurn(bottom, k) < top) <==> top >= 1
  {
    if top >= 1 {
      assert RowOfTurn(bottom, if bottom < top then 0 else bottom - top + 1) < top;
    }
  }

  lemma VacatedRow(s: seq<byte>, s': seq<byte>, q: Request, i: nat)
    requires LinesMoved(s, s', q, 8 * i, 8 * i + 8, true, 0)
    ensures LinesMoved(s, s', q, 8 * i, 8 * i + 8, true, if q.up then 8 * q.n else -8 * q.n)
  {
  }

  // ---------------------------------------------------------------- pixels

  /**
   Through biosfn_read_pixel: inside the rectangle each pixel is the old one `n` character
   rows away, or the fill colour where that lies outside; every other pixel is unchanged.
   */
  lemma PixelsScrolled(s: seq<byte>, s': seq<byte>, q: Request, x: nat, y: nat)
    requires |s| >= 0x4000 && q.Ok() && Scrolled(s, s', q) && x < 320 && y < LINES
    ensures var inside, r := q.left <= x / 8 <= q.right && q.top <= y / 8 <= q.bottom, y / 8;
            ReadPixel(s', x, y) ==
              if !inside then ReadPixel(s, x, y)
              else if q.n == 0 then PixelOf(q.attr, x)
              else if q.up then (if r + q.n <= q.bottom then ReadPixel(s, x, y + 8 * q.n) else PixelOf(q.attr, x))
              else if q.top + q.n <= r then ReadPixel(s, x, y - 8 * q.n) else PixelOf(q.attr, x)
  {
    hide Addr, PixelOf;
    var b := x / 4;
    assert q.InRect(y, b) <==> q.left <= x / 8 <= q.right && q.top <= y / 8 <= q.bottom;
    LineRange(y, b);
    assert s'[Addr(y, b)] == Shifted(s, q, y, b);
  }

  // ---------------------------------------------------------------- the one-shot clear

  /** 16000 bytes from the start of video memory, as if the two banks were one. */
  ghost predicate Cleared(s: seq<byte>, s': seq<byte>, attr: byte) {
    |s'| == |s| && forall k | 0 <= k < |s| :: s'[k] == if k < 16000 then attr else s[k]
  }

  /** The pixels of the odd bank that lie beyond those bytes: two scan lines and part of a third. */
  predicate Missed(x: nat, y: nat) { y == 197 || y == 199 || (y == 195 && x >= 192) }

  /** The clear fills every pixel but the missed ones, which it leaves as they were. */
  lemma PixelsCleared(s: seq<byte>, s': seq<byte>, attr: byte, x: nat, y: nat)
    requires |s| >= 0x4000 && Cleared(s, s', attr) && x < 320 && y < LINES
    ensures ReadPixel(s', x, y) == if Missed(x, y) then ReadPixel(s, x, y) else PixelOf(attr, x)
  {
    LineRange(y, x / 4);
    assert Addr(y, x / 4) < 16000 <==> !Missed(x, y);
    hide Addr, PixelOf;
  }

  /** Bytes the clear gets wrong: those between the banks, and the end of the odd bank. */
  predicate Wronged(k: int) { 8000 <= k < BANK || 16000 <= k < BANK + 8000 }

  /** The clear does what the loop would do exactly in memories where those bytes hold the fill already. */
  lemma ClearExact(s: seq<byte>, s': seq<byte>, q: Request)
    requires |s| >= 0x4000 && q.Clamped() && q.Clears() && Cleared(s, s', q.attr)
    ensures Scrolled(s, s', q.(up := true)) <==> forall k | 0 <= k < |s| && Wronged(k) :: s[k] == q.attr
  {
    var p := q.(up := true);
    if forall k | 0 <= k < |s| && Wronged(k) :: s[k] == q.attr {
      hide Addr;
      forall y, b {:trigger Addr(y, b)} | OnLine(y, b) ensures 0 <= Addr(y, b) < |s| && s'[Addr(y, b)] == Shifted(s, p, y, b) {
        LineRange(y, b);
      }
      forall k | 0 <= k < |s| && OffScreen(k) ensures s'[k] == s[k] {}
    }
    if Scrolled(s, s', p) {
      forall k | 0 <= k < |s| && Wronged(k) ensures s[k] == q.attr {
        if k >= 16000 { EndOfOddBank(s, s', p, k); }
      }
    }
  }

  lemma EndOfOddBank(s: seq<byte>, s': seq<byte>, p: Request, k: nat)
    requires |s| >= 0x4000 && p.Ok() && p.Clears() && Scrolled(s, s', p) && 16000 <= k < BANK + 8000
    ensures s'[k] == p.attr
  {
    var y, b := 2 * ((k - BANK) / 80) + 1, (k - BANK) % 80;
    assert OnLine(y, b) && Addr(y, b) == k;
    hide Addr;
  }

  /** A black screen with one pixel set in the last scan line is not cleared. */
  lemma ClearMissesLastLine(s: seq<byte>, s': seq<byte>)
    requires |s| >= 0x4000 && Cleared(s, s', 0) && s[Addr(199, 0)] == 192
    ensures ReadPixel(s', 0, 199) == 3
  {
    PixelsCleared(s, s', 0, 0, 199);
  }

  /** Filling with a solid colour makes every vacated pixel that colour. */
  lemma SolidFill(colour: nat, x: nat)
    requires colour < 4
    ensures PixelOf(85 * colour, x) == colour
  {
    assert colour == 0 || colour == 1 || colour == 2 || colour == 3;
    assert x % 4 == 0 || x % 4 == 1 || x % 4 == 2 || x % 4 == 3;
  }
}
