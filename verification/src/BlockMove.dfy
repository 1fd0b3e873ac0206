/**
 The INT 15h AH=87h block move (src/base/core/int.c).  Guest-physical pages are mapped one by
 one to host frames, so the move is cut into chunks that stay within a page on both sides.
 */
module BlockMove {
  import opened Basics

  const PAGE_SIZE := 4096

  /** Which host frame, if any, each physical page is mapped to (physaddr_to_unixaddr). */
  type Mapping = seq<Option<nat>>

  predicate Mapped(m: Mapping, a: nat) { a / PAGE_SIZE < |m| && m[a / PAGE_SIZE].Some? }

  /** The host address of a mapped physical address. */
  function Host(m: Mapping, a: nat): nat
    requires Mapped(m, a)
  {
    m[a / PAGE_SIZE].value * PAGE_SIZE + a % PAGE_SIZE
  }

  /** No frame stands for two pages, and every frame lies in host memory. */
  predicate MappingOk(m: Mapping, hostLen: nat) {
    (forall p, q | 0 <= p < q < |m| :: m[p].Some? && m[q].Some? ==> m[p].value != m[q].value) &&
    (forall p | 0 <= p < |m| :: m[p].Some? ==> (m[p].value + 1) * PAGE_SIZE <= hostLen)
  }

  lemma HostInjective(m: Mapping, a: nat, b: nat, hostLen: nat)
    requires MappingOk(m, hostLen) && Mapped(m, a) && Mapped(m, b)
    ensures Host(m, a) == Host(m, b) <==> a == b
    ensures Host(m, a) < hostLen
  {
  }

  /** Within a page, host addresses run along with physical ones. */
  lemma HostRuns(m: Mapping, a: nat, i: nat, hostLen: nat)
    requires MappingOk(m, hostLen) && Mapped(m, a) && i < PAGE_SIZE - a % PAGE_SIZE
    ensures Mapped(m, a + i) && Host(m, a + i) == Host(m, a) + i < hostLen
  {
  }

  // ---------------------------------------------------------------- specification

  /** Every address of a range is mapped. */
  predicate AllMapped(m: Mapping, a: nat, n: nat) { forall x | a <= x < a + n :: Mapped(m, x) }

  function HostOf(m: Mapping, a: nat): nat { if Mapped(m, a) then Host(m, a) else 0 }

  /** The byte at a physical address. */
  function Fetch(h: seq<byte>, m: Mapping, a: nat): byte { if HostOf(m, a) < |h| then h[HostOf(m, a)] else 0 }

  /** Is host address `k` one of the `n` bytes from physical address `a` on? */
  ghost predicate Within(m: Mapping, a: nat, n: nat, k: nat) { exists x | a <= x < a + n :: HostOf(m, x) == k }

  /** Host memory after `n` bytes moved from `src` to `dst`: those bytes copied, nothing else changed. */
  ghost predicate Copied(h: seq<byte>, h': seq<byte>, m: Mapping, src: nat, dst: nat, n: nat) {
    |h'| == |h| &&
    (forall x {:trigger Fetch(h', m, x)} | dst <= x < dst + n :: Fetch(h', m, x) == Fetch(h, m, x - dst + src)) &&
    (forall k | 0 <= k < |h| && !Within(m, dst, n, k) :: h'[k] == h[k])
  }

  predicate Apart(src: nat, dst: nat, n: nat) { src + n <= dst || dst + n <= src }

  /** What the call demands before it moves anything; the arithmetic is that of 32-bit unsigned. */
  predicate Accepts(src: nat, dst: nat, srcLimit: nat, dstLimit: nat, length: nat, top: nat) {
    var last := if length == 0 then 0xffff_ffff else length - 1;
    srcLimit >= last && dstLimit >= last &&
    (src + length) % 0x1_0000_0000 <= top && (dst + length) % 0x1_0000_0000 <= top
  }

  /** The last byte of the range lies in memory, or the end of the range wraps past 4 GB to an address that does. */
  predicate Ends(a: nat, length: nat, top: nat) {
    a + length - 1 < top || 0x1_0000_0000 <= a + length <= 0x1_0000_0000 + top
  }

  /** Exactly which moves are accepted: the last byte of each range is within its limit and in memory. */
  lemma AcceptsExact(src: nat, dst: nat, srcLimit: nat, dstLimit: nat, length: nat, top: nat)
    requires src <= 0xffff_ffff && dst <= 0xffff_ffff && 1 <= length <= 0x1_fffe
    ensures Accepts(src, dst, srcLimit, dstLimit, length, top) <==>
            length - 1 <= srcLimit && length - 1 <= dstLimit && Ends(src, length, top) && Ends(dst, length, top)
  {
    Wrapped(src + length);
    Wrapped(dst + length);
  }

  lemma Wrapped(x: nat)
    requires x < 0x2_0000_0000
    ensures x % 0x1_0000_0000 == if x < 0x1_0000_0000 then x else x - 0x1_0000_0000
  {
  }

  /** A range that ends at 4 GB is accepted however little memory there is. */
  lemma EndsAtFourGigabytes(top: nat)
    requires top >= 2
    ensures Accepts(0xffff_fffe, 0, 1, 1, 2, top)
  {
  }

  /** A move of no words at all is refused: the limit checks wrap around. */
  lemma EmptyMoveRefused(src: nat, dst: nat, srcLimit: nat, dstLimit: nat, top: nat)
    requires srcLimit <= 0xf_ffff
    ensures !Accepts(src, dst, srcLimit, dstLimit, 0, top)
  {
  }

  // ---------------------------------------------------------------- one chunk

  /** memcpy */
  method CopyBytes(host: array<byte>, d: nat, s: nat, n: nat)
    requires d + n <= host.Length && s + n <= host.Length && (d + n <= s || s + n <= d)
    modifies host
    ensures forall k | 0 <= k < host.Length :: host[k] == old(if d <= k < d + n then host[k - d + s] else host[k])
  {
    for j := 0 to n
      invariant forall k | 0 <= k < host.Length :: host[k] == old(if d <= k < d + j then host[k - d + s] else host[k])
    {
      host[d + j] := host[s + j];
    }
  }

  /** Bytes to the next page boundary: a whole page when already on one. */
  function ToBoundary(a: nat): (n: nat)
    ensures 1 <= n <= PAGE_SIZE && n == PAGE_SIZE - a % PAGE_SIZE
  {
    var aligned := (a + PAGE_SIZE - 1) / PAGE_SIZE * PAGE_SIZE;
    if aligned == a then PAGE_SIZE else aligned - a
  }

  /** A run of bytes that does not cross a page boundary. */
  predicate InPage(a: nat, n: nat) { a % 4096 + n <= 4096 }

  function Min(a: nat, b: nat): nat { if a < b then a else b }

  /** Disjoint physical ranges within one page each are disjoint in host memory. */
  lemma ChunkApart(m: Mapping, src: nat, dst: nat, n: nat, hostLen: nat)
    requires MappingOk(m, hostLen) && Mapped(m, src) && Mapped(m, dst) && Apart(src, dst, n)
    requires n <= PAGE_SIZE - src % PAGE_SIZE && n <= PAGE_SIZE - dst % PAGE_SIZE
    ensures Host(m, dst) + n <= Host(m, src) || Host(m, src) + n <= Host(m, dst)
    ensures n > 0 ==> Host(m, src) + n <= hostLen && Host(m, dst) + n <= hostLen
  {
  }

  /** The next chunk, starting where the last one ended, extends the copy. */
  lemma ChunkCopied(h: seq<byte>, h1: seq<byte>, h2: seq<byte>, m: Mapping, src: nat, dst: nat, n: nat, t: nat)
    requires MappingOk(m, |h|) && AllMapped(m, src, n) && AllMapped(m, dst, n) && Copied(h, h1, m, src, dst, n)
    requires Mapped(m, src + n) && Mapped(m, dst + n) && Apart(src, dst, n + t)
    requires t <= PAGE_SIZE - (src + n) % PAGE_SIZE && t <= PAGE_SIZE - (dst + n) % PAGE_SIZE
    requires Host(m, src + n) + t <= |h| && Host(m, dst + n) + t <= |h| && |h2| == |h|
    requires var d, s := Host(m, dst + n), Host(m, src + n);
             forall k {:trigger h2[k]} | 0 <= k < |h2| :: h2[k] == if d <= k < d + t then h1[k - d + s] else h1[k]
    ensures AllMapped(m, src, n + t) && AllMapped(m, dst, n + t) && Copied(h, h2, m, src, dst, n + t)
  {
    hide MappingOk, Mapped, Host, HostOf;
    Extends(m, src, n, t, |h|);
    Extends(m, dst, n, t, |h|);
    forall x {:trigger Fetch(h2, m, x)} | dst <= x < dst + n + t ensures Fetch(h2, m, x) == Fetch(h, m, x - dst + src)
    {
      ChunkByte(h, h1, h2, m, src, dst, n, t, x);
    }
    forall k | 0 <= k < |h| && !Within(m, dst, n + t, k) ensures h2[k] == h[k] {
      var d := Host(m, dst + n);
      if d <= k < d + t {
        HostRuns(m, dst + n, k - d, |h|);
        HostOfIs(m, dst + n + (k - d));
        assert false;
      }
      assert !Within(m, dst, n, k);
    }
  }

  lemma HostOfIs(m: Mapping, a: nat)
    requires Mapped(m, a)
    ensures HostOf(m, a) == Host(m, a)
  {
  }

  lemma Extends(m: Mapping, a: nat, n: nat, t: nat, hostLen: nat)
    requires MappingOk(m, hostLen) && AllMapped(m, a, n) && Mapped(m, a + n) && t <= PAGE_SIZE - (a + n) % PAGE_SIZE
    ensures AllMapped(m, a, n + t)
  {
  }

  lemma ChunkByte(h: seq<byte>, h1: seq<byte>, h2: seq<byte>, m: Mapping, src: nat, dst: nat, n: nat, t: nat, x: nat)
    requires MappingOk(m, |h|) && AllMapped(m, src, n + t) && AllMapped(m, dst, n + t) && Copied(h, h1, m, src, dst, n)
    requires Mapped(m, src + n) && Mapped(m, dst + n) && Apart(src, dst, n + t) && dst <= x < dst + n + t
    requires t <= PAGE_SIZE - (src + n) % PAGE_SIZE && t <= PAGE_SIZE - (dst + n) % PAGE_SIZE
    requires Host(m, src + n) + t <= |h| && Host(m, dst + n) + t <= |h| && |h2| == |h|
    requires var d, s := Host(m, dst + n), Host(m, src + n);
             forall k {:trigger h2[k]} | 0 <= k < |h2| :: h2[k] == if d <= k < d + t then h1[k - d + s] else h1[k]
    ensures Fetch(h2, m, x) == Fetch(h, m, x - dst + src)
  {
    hide MappingOk, Mapped, Host, HostOf;
    var y := x - dst + src;
    HostOfIs(m, x);
    HostOfIs(m, y);
    HostInjective(m, x, y, |h|);
    HostInjective(m, y, x, |h|);
    var d, s := Host(m, dst + n), Host(m, src + n);
    if x < dst + n {
      assert Fetch(h1, m, x) == Fetch(h, m, y);
      if d <= Host(m, x) < d + t {
        var j := Host(m, x) - d;
        HostRuns(m, dst + n, j, |h|);
        HostInjective(m, x, dst + n + j, |h|);
        assert false;
      }
    } else {
      HostRuns(m, dst + n, x - (dst + n), |h|);
      HostRuns(m, src + n, x - (dst + n), |h|);
      SourceKept(h, h1, m, src, dst, n, y);
    }
  }

  /** Source bytes are not among the bytes written. */
  lemma SourceKept(h: seq<byte>, h1: seq<byte>, m: Mapping, src: nat, dst: nat, n: nat, y: nat)
    requires MappingOk(m, |h|) && AllMapped(m, dst, n) && Copied(h, h1, m, src, dst, n)
    requires Mapped(m, y) && !(dst <= y < dst + n)
    ensures Host(m, y) < |h| && h1[Host(m, y)] == h[Host(m, y)]
  {
  }

  // ---------------------------------------------------------------- the call

  /** The parts of the machine the call uses. */
  class Machine {
    const host: array<byte>
    const pages: Mapping
    var a20: bool
    var ax: nat
    var carry: bool

    ghost predicate Ready()
      reads this
    {
      MappingOk(pages, host.Length)
    }

    constructor (host: array<byte>, pages: Mapping, a20: bool)
      requires MappingOk(pages, host.Length)
      ensures Ready() && this.host == host && this.pages == pages && this.a20 == a20
    {
      this.host, this.pages, this.a20 := host, pages, a20;
      ax, carry := 0, false;
    }

    /**
     INT 15h AH=87h with the two descriptors taken apart: `cx` words from `src` to `dst`, in a
     machine with `top` bytes of memory.  The ranges must neither overlap nor wrap past 4 GB.
     It moves the longest prefix whose pages are all mapped; that is everything, with carry
     clear, unless some page is missing.
     */
    method Move(src: nat, dst: nat, srcLimit: nat, dstLimit: nat, cx: nat, top: nat) 
      returns (ghost moved: nat, ghost chunks: seq<(nat, nat, nat)>)
      requires Ready() && cx <= 0xffff && src + 2 * cx <= 0x1_0000_0000 && dst + 2 * cx <= 0x1_0000_0000
      requires Apart(src, dst, 2 * cx)
      modifies this, host
      ensures a20 == old(a20)
      ensures forall i | 0 <= i < |chunks| :: InPage(chunks[i].0, chunks[i].2) && InPage(chunks[i].1, chunks[i].2)
      ensures Copied(old(host[..]), host[..], pages, src, dst, moved)
      ensures !Accepts(src, dst, srcLimit, dstLimit, 2 * cx, top) ==> moved == 0 && carry && ax == 0x0200
      ensures Accepts(src, dst, srcLimit, dstLimit, 2 * cx, top) ==>
                moved <= 2 * cx && AllMapped(pages, src, moved) && AllMapped(pages, dst, moved) &&
                (moved < 2 * cx ==> !Mapped(pages, src + moved) || !Mapped(pages, dst + moved)) &&
                carry == (moved < 2 * cx) && ax == if moved < 2 * cx then 0x0200 else 0
    {
      hide MappingOk, Mapped, Host, HostOf, Copied;
      moved, chunks := 0, [];
      ghost var h := host[..];
      NothingCopied(h, pages, src, dst);
      var length := 2 * cx;
      if !Accepts(src, dst, srcLimit, dstLimit, length, top) {
        ax, carry := 0x0200, true;
        return;
      }
      var oldA20 := a20;
      a20 := true;
      var s, d := src, dst;
      while length > 0
        invariant s == src + moved && d == dst + moved && length == 2 * cx - moved && moved <= 2 * cx
        invariant AllMapped(pages, src, moved) && AllMapped(pages, dst, moved)
        invariant Copied(h, host[..], pages, src, dst, moved)
        invariant forall i | 0 <= i < |chunks| :: InPage(chunks[i].0, chunks[i].2) && InPage(chunks[i].1, chunks[i].2)
        decreases length
      {
        var todo := Min(Min(ToBoundary(s), ToBoundary(d)), length);
        if !IsMapped(s) { break; }
        if !IsMapped(d) { break; }
        ghost var h1 := host[..];
        ChunkApart(pages, s, d, todo, host.Length);
        CopyBytes(host, Host(pages, d), Host(pages, s), todo);
        ChunkCopied(h, h1, host[..], pages, src, dst, moved, todo);
        chunks := chunks + [(s, d, todo)];
        s, d, length := s + todo, d + todo, length - todo;
        moved := moved + todo;
      }
      if oldA20 != a20 { a20 := oldA20; }
      if length > 0 {
        ax, carry := 0x0200, true;
      } else {
        ax, carry := 0, false;
      }
    }

    predicate IsMapped(a: nat)
      ensures IsMapped(a) == Mapped(pages, a)
    {
      a / PAGE_SIZE < |pages| && pages[a / PAGE_SIZE].Some?
    }
  }

  /** Seen through physical addresses: a byte-by-byte copy, and no other address changed. */
  lemma PhysicalCopy(h: seq<byte>, h': seq<byte>, m: Mapping, src: nat, dst: nat, n: nat, a: nat)
    requires MappingOk(m, |h|) && AllMapped(m, src, n) && AllMapped(m, dst, n) && Copied(h, h', m, src, dst, n)
    requires Mapped(m, a)
    ensures Host(m, a) < |h| && Fetch(h', m, a) == h'[Host(m, a)]
    ensures Fetch(h', m, a) == if dst <= a < dst + n then Fetch(h, m, a - dst + src) else Fetch(h, m, a)
  {
  }

  lemma NothingCopied(h: seq<byte>, m: Mapping, src: nat, dst: nat)
    ensures Copied(h, h, m, src, dst, 0)
  {
  }
}
