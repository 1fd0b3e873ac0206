/**
 Port dispatch (src/base/core/ports.c): word and double-word accesses through a table of
 handlers, some with wide entry points, some without, against the sequence of byte accesses
 they stand for.  Tracing is off.
 */
module Ports {
  import opened Basics

  /** ioport_t is 32 bits wide and handlers are given all of it; only the table lookup cuts it to 16. */
  type Port = dword

  function Next(p: Port, k: nat): Port { (p + k) % 0x1_0000_0000 }

  /** What a read yields, and the devices after it. */
  datatype Got<+V, +W> = Got(value: V, world: W)

  /** Function pointers are numbers; this says what calling them does to the devices. */
  datatype Code<!W> = Code(
    inb: (nat, Port, nat, W) -> Got<byte, W>,
    outb: (nat, Port, byte, nat, W) -> W,
    inw: (nat, Port, nat, W) -> Got<word, W>,
    outw: (nat, Port, word, nat, W) -> W,
    ind: (nat, Port, nat, W) -> Got<dword, W>,
    outd: (nat, Port, dword, nat, W) -> W)

  /** emu_iodev_t; byte functions are never null once registered. */
  datatype Handler = Handler(readb: nat, writeb: nat, readw: Option<nat>, writew: Option<nat>,
                             readd: Option<nat>, writed: Option<nat>, arg: nat)

  /** port_handler and port_handle_table */
  datatype Table = Table(handlers: seq<Handler>, handle: seq<nat>)

  predicate Formed(t: Table) {
    |t.handle| == 0x1_0000 && forall i | 0 <= i < 0x1_0000 :: t.handle[i] < |t.handlers|
  }

  /** EMU_HANDLER */
  function At(t: Table, p: Port): Handler
    requires Formed(t)
  {
    t.handlers[t.handle[p % 0x1_0000]]
  }

  // ---------------------------------------------------------------- the entry points

  function InB<W>(c: Code<W>, t: Table, p: Port, w: W): Got<byte, W>
    requires Formed(t)
  {
    c.inb(At(t, p).readb, p, At(t, p).arg, w)
  }

  function OutB<W>(c: Code<W>, t: Table, p: Port, b: byte, w: W): W
    requires Formed(t)
  {
    c.outb(At(t, p).writeb, p, b, At(t, p).arg, w)
  }

  predicate ReadTogether(t: Table, p: Port, n: nat)
    requires Formed(t)
  {
    forall k | 0 <= k < n :: At(t, Next(p, k)).readb == At(t, p).readb
  }

  predicate WriteTogether(t: Table, p: Port, n: nat)
    requires Formed(t)
  {
    forall k | 0 <= k < n :: At(t, Next(p, k)).writeb == At(t, p).writeb
  }

  /** The two parts shifted together; their bits do not meet, so `|` is a sum. */
  function Joined(lo: byte, hi: byte): (r: word) { var h: int := hi; lo + 0x100 * h }

  function WordsJoined(lo: word, hi: word): (r: dword) { var h: int := hi; lo + 0x1_0000 * h }

  /** A word read as two bytes, the low port first. */
  function InPair<W>(c: Code<W>, t: Table, p: Port, w: W): Got<word, W>
    requires Formed(t)
  {
    var lo := InB(c, t, p, w);
    var hi := InB(c, t, Next(p, 1), lo.world);
    Got(Joined(lo.value, hi.value), hi.world)
  }

  function OutPair<W>(c: Code<W>, t: Table, p: Port, v: word, w: W): W
    requires Formed(t)
  {
    OutB(c, t, Next(p, 1), v / 0x100, OutB(c, t, p, v % 0x100, w))
  }

  function InW<W>(c: Code<W>, t: Table, p: Port, w: W): Got<word, W>
    requires Formed(t)
  {
    if At(t, p).readw.Some? && ReadTogether(t, p, 2) then c.inw(At(t, p).readw.value, p, At(t, p).arg, w)
    else InPair(c, t, p, w)
  }

  function OutW<W>(c: Code<W>, t: Table, p: Port, v: word, w: W): W
    requires Formed(t)
  {
    if At(t, p).writew.Some? && WriteTogether(t, p, 2) then c.outw(At(t, p).writew.value, p, v, At(t, p).arg, w)
    else OutPair(c, t, p, v, w)
  }

  function InD<W>(c: Code<W>, t: Table, p: Port, w: W): Got<dword, W>
    requires Formed(t)
  {
    if At(t, p).readd.Some? && ReadTogether(t, p, 4) then c.ind(At(t, p).readd.value, p, At(t, p).arg, w)
    else
      var lo := InW(c, t, p, w);
      var hi := InW(c, t, Next(p, 2), lo.world);
      Got(WordsJoined(lo.value, hi.value), hi.world)
  }

  function OutD<W>(c: Code<W>, t: Table, p: Port, v: dword, w: W): W
    requires Formed(t)
  {
    if At(t, p).writed.Some? && WriteTogether(t, p, 4) then c.outd(At(t, p).writed.value, p, v, At(t, p).arg, w)
    else OutW(c, t, Next(p, 2), v / 0x1_0000, OutW(c, t, p, v % 0x1_0000, w))
  }

  // ---------------------------------------------------------------- byte accesses

  datatype Access = Rd(p: Port) | Wr(p: Port, b: byte)

  /** byte accesses in order, each through the handler of its own port: the bytes read, and the devices. */
  function Bytes<W>(c: Code<W>, t: Table, acts: seq<Access>, w: W): Got<seq<byte>, W>
    requires Formed(t)
    decreases acts
  {
    if acts == [] then Got([], w)
    else if acts[0].Wr? then Bytes(c, t, acts[1..], OutB(c, t, acts[0].p, acts[0].b, w))
    else
      var r := InB(c, t, acts[0].p, w);
      var rest := Bytes(c, t, acts[1..], r.world);
      Got([r.value] + rest.value, rest.world)
  }

  /** The same accesses all made through handler `h`. */
  function Own<W>(c: Code<W>, h: Handler, acts: seq<Access>, w: W): Got<seq<byte>, W>
    decreases acts
  {
    if acts == [] then Got([], w)
    else if acts[0].Wr? then Own(c, h, acts[1..], c.outb(h.writeb, acts[0].p, acts[0].b, h.arg, w))
    else
      var r := c.inb(h.readb, acts[0].p, h.arg, w);
      var rest := Own(c, h, acts[1..], r.world);
      Got([r.value] + rest.value, rest.world)
  }

  /** Reading `n` ports upwards from `p`. */
  function Reads(p: Port, n: nat): (r: seq<Access>)
    ensures |r| == n
    decreases n
  {
    if n == 0 then [] else [Rd(p)] + Reads(Next(p, 1), n - 1)
  }

  /** Writing the `n` lowest base-256 digits of `v` upwards from `p`. */
  function Writes(p: Port, n: nat, v: nat): (r: seq<Access>)
    ensures |r| == n
    decreases n
  {
    if n == 0 then [] else [Wr(p, v % 0x100)] + Writes(Next(p, 1), n - 1, v / 0x100)
  }

  /** The number whose base-256 digits are `bs`, lowest first. */
  function Value(bs: seq<byte>): nat { if bs == [] then 0 else bs[0] + 0x100 * Value(bs[1..]) }

  /** A read of `n` bytes, as the number they spell. */
  function Spelled<W>(g: Got<seq<byte>, W>): Got<nat, W> { Got(Value(g.value), g.world) }

  // ---------------------------------------------------------------- well-behaved handlers

  /** Each wide function of the handler does what its byte function does on the ports in ascending order. */
  ghost predicate HandlerAgrees<W(!new)>(c: Code<W>, h: Handler) {
    (h.readw.Some? ==> forall p, w ::
       c.inw(h.readw.value, p, h.arg, w) == Spelled(Own(c, h, Reads(p, 2), w))) &&
    (h.readd.Some? ==> forall p, w ::
       c.ind(h.readd.value, p, h.arg, w) == Spelled(Own(c, h, Reads(p, 4), w))) &&
    (h.writew.Some? ==> forall p, v: word, w ::
       c.outw(h.writew.value, p, v, h.arg, w) == Own(c, h, Writes(p, 2, v), w).world) &&
    (h.writed.Some? ==> forall p, v: dword, w ::
       c.outd(h.writed.value, p, v, h.arg, w) == Own(c, h, Writes(p, 4, v), w).world)
  }

  /** Of the `n` ports from `p` up, those that share a byte function belong to one device. */
  predicate OneDevice(t: Table, p: Port, n: nat)
    requires Formed(t)
  {
    forall j, k | 0 <= j < n && 0 <= k < n &&
      (At(t, Next(p, j)).readb == At(t, Next(p, k)).readb || At(t, Next(p, j)).writeb == At(t, Next(p, k)).writeb) ::
      At(t, Next(p, j)).arg == At(t, Next(p, k)).arg
  }

  /** What an access to the `n` ports from `p` up asks of their handlers; no other handler matters. */
  ghost predicate WellBehaved<W(!new)>(c: Code<W>, t: Table, p: Port, n: nat) {
    Formed(t) && OneDevice(t, p, n) && forall k | 0 <= k < n :: HandlerAgrees(c, At(t, Next(p, k)))
  }

  lemma Behaved<W(!new)>(c: Code<W>, t: Table, p: Port, n: nat)
    requires WellBehaved(c, t, p, n)
    ensures Formed(t)
  {
  }

  lemma PartBehaved<W(!new)>(c: Code<W>, t: Table, p: Port, n: nat, k: nat, m: nat)
    requires WellBehaved(c, t, p, n) && k + m <= n
    ensures WellBehaved(c, t, Next(p, k), m)
  {
    forall j | 0 <= j < m ensures Next(Next(p, k), j) == Next(p, k + j) { NextNext(p, k, j); }
    hide Next, At, HandlerAgrees;
    forall j | 0 <= j < m ensures HandlerAgrees(c, At(t, Next(Next(p, k), j))) {
      assert HandlerAgrees(c, At(t, Next(p, k + j)));
    }
  }

  lemma HalvesBehave<W(!new)>(c: Code<W>, t: Table, p: Port)
    requires WellBehaved(c, t, p, 4)
    ensures WellBehaved(c, t, p, 2) && WellBehaved(c, t, Next(p, 2), 2)
  {
    hide WellBehaved;
    NextZero(p);
    PartBehaved(c, t, p, 4, 0, 2);
    PartBehaved(c, t, p, 4, 2, 2);
  }

  // ---------------------------------------------------------------- theorems

  lemma {:induction false} BytesConcat<W>(c: Code<W>, t: Table, a: seq<Access>, b: seq<Access>, w: W)
    requires Formed(t)
    ensures var r := Bytes(c, t, a, w);
            var s := Bytes(c, t, b, r.world);
            Bytes(c, t, a + b, w) == Got(r.value + s.value, s.world)
    decreases a
  {
    if a == [] {
      assert a + b == b;
      var s := Bytes(c, t, b, w).value;
      assert [] + s == s;
    } else {
      assert (a + b)[1..] == a[1..] + b;
      var w' := if a[0].Wr? then OutB(c, t, a[0].p, a[0].b, w) else InB(c, t, a[0].p, w).world;
      BytesConcat(c, t, a[1..], b, w');
      if a[0].Rd? {
        var r := Bytes(c, t, a[1..], w');
        var s := Bytes(c, t, b, r.world);
        var x := InB(c, t, a[0].p, w).value;
        assert [x] + (r.value + s.value) == [x] + r.value + s.value;
      }
    }
  }

  lemma NextZero(p: Port)
    ensures Next(p, 0) == p
  {
  }

  lemma NextNext(p: Port, j: nat, k: nat)
    ensures Next(Next(p, j), k) == Next(p, j + k)
  {
  }

  lemma {:induction false} ReadsSplit(p: Port, m: nat, n: nat)
    ensures Reads(p, m + n) == Reads(p, m) + Reads(Next(p, m), n)
    decreases m
  {
    if m > 0 {
      NextNext(p, 1, m - 1);
      ReadsSplit(Next(p, 1), m - 1, n);
    }
  }

  /** Ports whose handlers share the read function might as well all use the first one's handler. */
  lemma {:induction false} SharedReads<W>(c: Code<W>, t: Table, h: Handler, p: Port, n: nat, w: W)
    requires Formed(t)
    requires forall k | 0 <= k < n :: At(t, Next(p, k)).readb == h.readb && At(t, Next(p, k)).arg == h.arg
    ensures Bytes(c, t, Reads(p, n), w) == Own(c, h, Reads(p, n), w)
    decreases n
  {
    if n > 0 {
      assert Next(p, 0) == p;
      forall k | 0 <= k < n - 1
        ensures At(t, Next(Next(p, 1), k)).readb == h.readb && At(t, Next(Next(p, 1), k)).arg == h.arg
      {
        NextNext(p, 1, k);
      }
      hide Next, At, Formed;
      SharedReads(c, t, h, Next(p, 1), n - 1, InB(c, t, p, w).world);
    }
  }

  lemma {:induction false} SharedWrites<W>(c: Code<W>, t: Table, h: Handler, p: Port, n: nat, v: nat, w: W)
    requires Formed(t)
    requires forall k | 0 <= k < n :: At(t, Next(p, k)).writeb == h.writeb && At(t, Next(p, k)).arg == h.arg
    ensures Bytes(c, t, Writes(p, n, v), w) == Own(c, h, Writes(p, n, v), w)
    decreases n
  {
    if n > 0 {
      assert Next(p, 0) == p;
      forall k | 0 <= k < n - 1
        ensures At(t, Next(Next(p, 1), k)).writeb == h.writeb && At(t, Next(Next(p, 1), k)).arg == h.arg
      {
        NextNext(p, 1, k);
      }
      hide Next, At, Formed;
      SharedWrites(c, t, h, Next(p, 1), n - 1, v / 0x100, OutB(c, t, p, v % 0x100, w));
    }
  }

  /** port_inw is two byte reads, low port first, whatever handlers the two ports have. */
  lemma InWBytes<W(!new)>(c: Code<W>, t: Table, p: Port, w: W)
    requires WellBehaved(c, t, p, 2)
    ensures InW(c, t, p, w) == Spelled(Bytes(c, t, Reads(p, 2), w))
  {
    var h := At(t, p);
    NextZero(p);
    if h.readw.Some? && ReadTogether(t, p, 2) {
      hide Bytes, Own, Reads, Spelled, Next;
      SharedReads(c, t, h, p, 2, w);
    } else {
      TwoReads(c, t, p, w);
    }
  }

  lemma TwoReads<W>(c: Code<W>, t: Table, p: Port, w: W)
    requires Formed(t)
    ensures var lo := InB(c, t, p, w); var hi := InB(c, t, Next(p, 1), lo.world);
            Spelled(Bytes(c, t, Reads(p, 2), w)) == Got(Joined(lo.value, hi.value), hi.world)
  {
    var lo := InB(c, t, p, w);
    var hi := InB(c, t, Next(p, 1), lo.world);
    assert Reads(p, 2) == [Rd(p), Rd(Next(p, 1))];
    var one := [Rd(Next(p, 1))];
    assert one[1..] == [] && Bytes(c, t, one[1..], hi.world) == Got([], hi.world);
    var none: seq<byte> := [];
    assert [hi.value] + none == [hi.value];
    assert Bytes(c, t, one, lo.world) == Got([hi.value], hi.world);
    assert Reads(p, 2)[1..] == one;
    assert [lo.value] + [hi.value] == [lo.value, hi.value];
    assert Bytes(c, t, Reads(p, 2), w) == Got([lo.value, hi.value], hi.world);
    assert [lo.value, hi.value][1..] == [hi.value] && Value([hi.value]) == hi.value;
  }

  lemma {:induction false} ValueConcat(a: seq<byte>, b: seq<byte>)
    requires |a| == 2
    ensures Value(a + b) == Value(a) + 0x1_0000 * Value(b)
  {
    assert (a + b)[1..] == [a[1]] + b && ([a[1]] + b)[1..] == b;
    var a0: int, a1: int := a[0], a[1];
    assert a[1..] == [a[1]] && Value([a[1]]) == a1;
    assert Value(a) == a0 + 0x100 * a1;
    assert Value([a[1]] + b) == a1 + 0x100 * Value(b);
  }

  lemma {:induction false} ReadCount<W>(c: Code<W>, t: Table, p: Port, n: nat, w: W)
    requires Formed(t)
    ensures |Bytes(c, t, Reads(p, n), w).value| == n
    decreases n
  {
    if n > 0 { ReadCount(c, t, Next(p, 1), n - 1, InB(c, t, p, w).world); }
  }

  /** port_ind is four byte reads, upwards: wide, as two words, or straddling handlers. */
  lemma InDBytes<W(!new)>(c: Code<W>, t: Table, p: Port, w: W)
    requires WellBehaved(c, t, p, 4)
    ensures InD(c, t, p, w) == Spelled(Bytes(c, t, Reads(p, 4), w))
  {
    assert Formed(t);
    hide InW, Bytes, WellBehaved, Reads, Own, Spelled;
    var h := At(t, p);
    if h.readd.Some? && ReadTogether(t, p, 4) {
      InDWide(c, t, p, w);
    } else {
      InDSplit(c, t, p, w);
    }
  }

  lemma InDWide<W(!new)>(c: Code<W>, t: Table, p: Port, w: W)
    requires WellBehaved(c, t, p, 4) && At(t, p).readd.Some? && ReadTogether(t, p, 4)
    ensures c.ind(At(t, p).readd.value, p, At(t, p).arg, w) == Spelled(Bytes(c, t, Reads(p, 4), w))
  {
    NextZero(p);
    hide Bytes, Reads, Own, Spelled, Next;
    SharedReads(c, t, At(t, p), p, 4, w);
  }

  lemma InDSplit<W(!new)>(c: Code<W>, t: Table, p: Port, w: W)
    requires WellBehaved(c, t, p, 4)
    ensures var lo := InW(c, t, p, w);
            var hi := InW(c, t, Next(p, 2), lo.world);
            Spelled(Bytes(c, t, Reads(p, 4), w)) == Got(WordsJoined(lo.value, hi.value), hi.world)
  {
    hide *;
    Behaved(c, t, p, 4);
    HalvesBehave(c, t, p);
    InWBytes(c, t, p, w);
    var x := Bytes(c, t, Reads(p, 2), w);
    var lo := InW(c, t, p, w);
    SpelledIs(x);
    InWBytes(c, t, Next(p, 2), x.world);
    var y := Bytes(c, t, Reads(Next(p, 2), 2), x.world);
    ReadsSplit(p, 2, 2);
    BytesConcat(c, t, Reads(p, 2), Reads(Next(p, 2), 2), w);
    ReadCount(c, t, p, 2, w);
    SpelledJoin(x, y, lo, InW(c, t, Next(p, 2), lo.world));
  }

  lemma SpelledIs<W>(g: Got<seq<byte>, W>)
    ensures Spelled(g).value == Value(g.value) && Spelled(g).world == g.world
  {
  }

  lemma SpelledJoin<W>(x: Got<seq<byte>, W>, y: Got<seq<byte>, W>, lo: Got<word, W>, hi: Got<word, W>)
    requires |x.value| == 2 && lo == Spelled(x) && hi == Spelled(y)
    ensures Spelled(Got(x.value + y.value, y.world)) == Got(WordsJoined(lo.value, hi.value), hi.world)
  {
    hide Value;
    ValueConcat(x.value, y.value);
  }

  /** port_outw is two byte writes, low byte to the low port first. */
  lemma OutWBytes<W(!new)>(c: Code<W>, t: Table, p: Port, v: word, w: W)
    requires WellBehaved(c, t, p, 2)
    ensures OutW(c, t, p, v, w) == Bytes(c, t, Writes(p, 2, v), w).world
  {
    var h := At(t, p);
    NextZero(p);
    if h.writew.Some? && WriteTogether(t, p, 2) {
      hide Bytes, Own, Writes, Next;
      SharedWrites(c, t, h, p, 2, v, w);
    } else {
      TwoWrites(c, t, p, v, w);
    }
  }

  lemma TwoWrites<W>(c: Code<W>, t: Table, p: Port, v: word, w: W)
    requires Formed(t)
    ensures OutPair(c, t, p, v, w) == Bytes(c, t, Writes(p, 2, v), w).world
  {
    hide Formed, OutB;
    var one := [Wr(Next(p, 1), v / 0x100)];
    assert Writes(p, 2, v)[1..] == one;
    var w' := OutB(c, t, p, v % 0x100, w);
    assert one[1..] == [] && Bytes(c, t, one[1..], OutPair(c, t, p, v, w)).world == OutPair(c, t, p, v, w);
    assert Bytes(c, t, one, w').world == OutPair(c, t, p, v, w);
  }

  lemma WritesTwo(p: Port, n: nat, v: nat)
    ensures Writes(p, n + 2, v) ==
            [Wr(p, v % 0x100), Wr(Next(p, 1), v / 0x100 % 0x100)] + Writes(Next(p, 2), n, v / 0x100 / 0x100)
  {
    NextNext(p, 1, 1);
    var u := v / 0x100;
    assert Writes(p, n + 2, v) == [Wr(p, v % 0x100)] + Writes(Next(p, 1), n + 1, u);
    assert Writes(Next(p, 1), n + 1, u) == [Wr(Next(p, 1), u % 0x100)] + Writes(Next(p, 2), n, u / 0x100);
    hide Writes, Next;
  }

  lemma HalfDigits(v: dword)
    ensures v % 0x1_0000 % 0x100 == v % 0x100 && v % 0x1_0000 / 0x100 % 0x100 == v / 0x100 % 0x100
    ensures v / 0x100 / 0x100 == v / 0x1_0000
  {
  }

  lemma WritesSplit(p: Port, v: dword)
    ensures Writes(p, 4, v) == Writes(p, 2, v % 0x1_0000) + Writes(Next(p, 2), 2, v / 0x1_0000)
  {
    var u := v % 0x1_0000;
    HalfDigits(v);
    WritesTwo(p, 2, v);
    WritesTwo(p, 0, u);
    assert Writes(Next(p, 2), 0, u / 0x100 / 0x100) == [];
  }

  /** port_outd is four byte writes, upwards. */
  lemma OutDBytes<W(!new)>(c: Code<W>, t: Table, p: Port, v: dword, w: W)
    requires WellBehaved(c, t, p, 4)
    ensures OutD(c, t, p, v, w) == Bytes(c, t, Writes(p, 4, v), w).world
  {
    Behaved(c, t, p, 4);
    NextZero(p);
    var h := At(t, p);
    if h.writed.Some? && WriteTogether(t, p, 4) {
      hide Bytes, Own, Writes, Next;
      SharedWrites(c, t, h, p, 4, v, w);
    } else {
      hide OutW, Bytes, WellBehaved, Writes, Next, Formed;
      WordWrites(c, t, p, v, w);
    }
  }

  /** Two word writes are four byte writes. */
  lemma WordWrites<W(!new)>(c: Code<W>, t: Table, p: Port, v: dword, w: W)
    requires WellBehaved(c, t, p, 4)
    ensures OutW(c, t, Next(p, 2), v / 0x1_0000, OutW(c, t, p, v % 0x1_0000, w)) == Bytes(c, t, Writes(p, 4, v), w).world
  {
    hide OutW, Bytes, WellBehaved, Writes, Next, Formed;
    Behaved(c, t, p, 4);
    HalvesBehave(c, t, p);
    OutWBytes(c, t, p, v % 0x1_0000, w);
    OutWBytes(c, t, Next(p, 2), v / 0x1_0000, OutW(c, t, p, v % 0x1_0000, w));
    WritesSplit(p, v);
    BytesConcat(c, t, Writes(p, 2, v % 0x1_0000), Writes(Next(p, 2), 2, v / 0x1_0000), w);
  }

  /** The byte accesses written out: which port each goes to, in which order, and which digit it is. */
  lemma WordSteps<W(!new)>(c: Code<W>, t: Table, p: Port, v: word, w: W)
    requires WellBehaved(c, t, p, 2)
    ensures Formed(t)
    ensures var b0 := InB(c, t, p, w);
            var b1 := InB(c, t, (p + 1) % 0x1_0000_0000, b0.world);
            var v0: int, v1: int := b0.value, b1.value;
            InW(c, t, p, w).world == b1.world && InW(c, t, p, w).value == v0 + 0x100 * v1
    ensures OutW(c, t, p, v, w) == OutB(c, t, (p + 1) % 0x1_0000_0000, v / 0x100, OutB(c, t, p, v % 0x100, w))
  {
    Behaved(c, t, p, 2);
    hide WellBehaved, InB, OutB, InW, OutW, Bytes, Reads, Writes, Spelled, Formed;
    InWBytes(c, t, p, w);
    TwoReads(c, t, p, w);
    OutWBytes(c, t, p, v, w);
    TwoWrites(c, t, p, v, w);
  }

  lemma DwordSteps<W(!new)>(c: Code<W>, t: Table, p: Port, v: dword, w: W)
    requires WellBehaved(c, t, p, 4)
    ensures Formed(t)
    ensures var b0 := InB(c, t, p, w);
            var b1 := InB(c, t, (p + 1) % 0x1_0000_0000, b0.world);
            var b2 := InB(c, t, (p + 2) % 0x1_0000_0000, b1.world);
            var b3 := InB(c, t, (p + 3) % 0x1_0000_0000, b2.world);
            var v0: int, v1: int, v2: int, v3: int := b0.value, b1.value, b2.value, b3.value;
            InD(c, t, p, w).world == b3.world && InD(c, t, p, w).value == v0 + 0x100 * v1 + 0x1_0000 * v2 + 0x100_0000 * v3
    ensures var w1 := OutB(c, t, p, v % 0x100, w);
            var w2 := OutB(c, t, (p + 1) % 0x1_0000_0000, v / 0x100 % 0x100, w1);
            var w3 := OutB(c, t, (p + 2) % 0x1_0000_0000, v / 0x1_0000 % 0x100, w2);
            OutD(c, t, p, v, w) == OutB(c, t, (p + 3) % 0x1_0000_0000, v / 0x100_0000, w3)
  {
    Behaved(c, t, p, 4);
    hide WellBehaved, InB, OutB, InD, OutD, InW, OutW, Bytes, Reads, Writes, Spelled, Formed;
    HalvesBehave(c, t, p);
    var q: int := Next(p, 2);
    assert (q + 1) % 0x1_0000_0000 == (p + 3) % 0x1_0000_0000;
    InDBytes(c, t, p, w);
    InDSplit(c, t, p, w);
    WordSteps(c, t, p, v % 0x1_0000, w);
    WordSteps(c, t, q, v / 0x1_0000, InW(c, t, p, w).world);
    OutDBytes(c, t, p, v, w);
    WordWrites(c, t, p, v, w);
    WordSteps(c, t, q, v / 0x1_0000, OutW(c, t, p, v % 0x1_0000, w));
    QuarterDigits(v);
  }

  lemma QuarterDigits(v: dword)
    ensures v % 0x1_0000 % 0x100 == v % 0x100 && v % 0x1_0000 / 0x100 == v / 0x100 % 0x100
    ensures v / 0x1_0000 / 0x100 == v / 0x100_0000
  {
  }

  // ---------------------------------------------------------------- ports that hold a byte

  /** The four ports from `p` up are cells: reading tells a byte and changes no cell, writing sets one and no other. */
  ghost predicate Cells<W(!new)>(c: Code<W>, t: Table, p: Port, cell: (W, nat) -> byte) {
    Formed(t) &&
    (forall j: nat, w | j < 4 :: InB(c, t, Next(p, j), w).value == cell(w, j)) &&
    (forall j: nat, k: nat, w | j < 4 && k < 4 :: cell(InB(c, t, Next(p, j), w).world, k) == cell(w, k)) &&
    (forall j: nat, b: byte, k: nat, w | j < 4 && k < 4 ::
       cell(OutB(c, t, Next(p, j), b, w), k) == if j == k then b else cell(w, k))
  }

  function Digits(v: nat, n: nat): (r: seq<byte>) { seq(n, k requires 0 <= k => Digit(v, k)) }

  /** Base-256 digit `k`. */
  function Digit(v: nat, k: nat): byte { if k == 0 then v % 0x100 else Digit(v / 0x100, k - 1) }

  /** Writing digits to the cells from `i` up sets exactly those. */
  lemma {:induction false} WritesSet<W(!new)>(c: Code<W>, t: Table, p: Port, cell: (W, nat) -> byte,
                                              i: nat, n: nat, v: nat, w: W, k: nat)
    requires Cells(c, t, p, cell) && i + n <= 4 && k < 4
    ensures cell(Bytes(c, t, Writes(Next(p, i), n, v), w).world, k) ==
            if i <= k < i + n then Digit(v, k - i) else cell(w, k)
    decreases n
  {
    hide *;
    CellsFormed(c, t, p, cell);
    if n == 0 {
      WritesNone(c, t, Next(p, i), v, w);
    } else {
      var w' := OutB(c, t, Next(p, i), v % 0x100, w);
      NextNext(p, i, 1);
      WritesOne(c, t, Next(p, i), n, v, w);
      CellWritten(c, t, p, cell, i, v % 0x100, w, k);
      DigitStep(v, if k >= i then k - i else 0);
      WritesSet(c, t, p, cell, i + 1, n - 1, v / 0x100, w', k);
    }
  }

  lemma CellsFormed<W(!new)>(c: Code<W>, t: Table, p: Port, cell: (W, nat) -> byte)
    requires Cells(c, t, p, cell)
    ensures Formed(t)
  {
  }

  lemma CellWritten<W(!new)>(c: Code<W>, t: Table, p: Port, cell: (W, nat) -> byte, i: nat, b: byte, w: W, k: nat)
    requires Cells(c, t, p, cell) && i < 4 && k < 4
    ensures cell(OutB(c, t, Next(p, i), b, w), k) == if i == k then b else cell(w, k)
  {
    hide Formed, Next, OutB, InB;
  }

  lemma DigitStep(v: nat, k: nat)
    ensures Digit(v, k) == if k == 0 then v % 0x100 else Digit(v / 0x100, k - 1)
  {
  }

  lemma WritesNone<W>(c: Code<W>, t: Table, p: Port, v: nat, w: W)
    requires Formed(t)
    ensures Bytes(c, t, Writes(p, 0, v), w).world == w
  {
  }

  lemma WritesOne<W>(c: Code<W>, t: Table, p: Port, n: nat, v: nat, w: W)
    requires Formed(t) && n > 0
    ensures Bytes(c, t, Writes(p, n, v), w) ==
            Bytes(c, t, Writes(Next(p, 1), n - 1, v / 0x100), OutB(c, t, p, v % 0x100, w))
  {
    hide Formed, Next, OutB;
    assert Writes(p, n, v)[1..] == Writes(Next(p, 1), n - 1, v / 0x100);
  }

  lemma {:induction false} ReadsTell<W(!new)>(c: Code<W>, t: Table, p: Port, cell: (W, nat) -> byte,
                                              i: nat, n: nat, w: W, v: nat)
    requires Cells(c, t, p, cell) && i + n <= 4
    requires forall k: nat | k < n :: cell(w, i + k) == Digit(v, k)
    ensures Bytes(c, t, Reads(Next(p, i), n), w).value == Digits(v, n)
    decreases n
  {
    if n > 0 {
      var w' := InB(c, t, Next(p, i), w).world;
      NextNext(p, i, 1);
      forall k: nat | k < n - 1 ensures cell(w', i + 1 + k) == Digit(v / 0x100, k) {
        assert cell(w, i + (k + 1)) == Digit(v, k + 1);
        assert cell(w', i + 1 + k) == cell(w, i + 1 + k);
      }
      assert cell(w, i + 0) == Digit(v, 0);
      DigitsMore(v, n);
      assert Reads(Next(p, i), n)[1..] == Reads(Next(p, i + 1), n - 1);
      hide Next, Formed, InB, Digits, Digit;
      ReadsTell(c, t, p, cell, i + 1, n - 1, w', v / 0x100);
    }
  }

  lemma DigitsMore(v: nat, n: nat)
    requires n > 0
    ensures Digits(v, n) == [Digit(v, 0)] + Digits(v / 0x100, n - 1)
  {
  }

  lemma {:induction false} DigitsSpell(v: nat, n: nat)
    ensures Value(Digits(v, n)) == v % Power(n)
    decreases n
  {
    if n > 0 {
      assert Digits(v, n)[1..] == Digits(v / 0x100, n - 1);
      DigitsSpell(v / 0x100, n - 1);
      SplitDigit(v, Power(n - 1));
    }
  }

  lemma DwordSpells(v: dword)
    ensures Value(Digits(v, 4)) == v && Value(Digits(v, 2)) == v % 0x1_0000
  {
    hide Value, Digits;
    DigitsSpell(v, 4);
    DigitsSpell(v, 2);
    assert Power(1) == 0x100 && Power(2) == 0x1_0000 && Power(3) == 0x100_0000 && Power(4) == 0x1_0000_0000;
  }

  function Power(n: nat): (r: int)
    ensures r > 0
  {
    if n == 0 then 1 else 0x100 * Power(n - 1)
  }

  lemma SplitDigit(v: nat, m: nat)
    requires m > 0
    ensures v % (0x100 * m) == v % 0x100 + 0x100 * (v / 0x100 % m)
  {
    var q, r := v / 0x100 / m, v / 0x100 % m;
    assert v / 0x100 == m * q + r;
    var low := v % 0x100 + 0x100 * r;
    assert v == (0x100 * m) * q + low by {
      assert v == 0x100 * (v / 0x100) + v % 0x100;
      assert 0x100 * (m * q) == (0x100 * m) * q;
    }
    Remainder(v, 0x100 * m, q, low);
  }

  lemma Remainder(v: int, m: int, q: int, r: int)
    requires 0 <= r < m && v == m * q + r
    ensures v % m == r
  {
    var d := v / m - q;
    assert v == m * (v / m) + v % m;
    assert m * d == r - v % m by { assert m * (v / m) - m * q == m * d; }
    assert d >= 1 ==> m * d >= m;
    assert d <= -1 ==> m * d <= -m;
  }

  /**
   On ports that hold bytes, a double word written reads back as itself, as its two words, and
   as itself after its words were written apart: for every mix of handlers under the four ports.
   */
  lemma WrittenReadsBack<W(!new)>(c: Code<W>, t: Table, p: Port, cell: (W, nat) -> byte, v: dword, w: W)
    requires WellBehaved(c, t, p, 4) && Cells(c, t, p, cell)
    ensures InD(c, t, p, OutD(c, t, p, v, w)).value == v
    ensures InW(c, t, p, OutD(c, t, p, v, w)).value == v % 0x1_0000
    ensures InD(c, t, p, OutW(c, t, Next(p, 2), v / 0x1_0000, OutW(c, t, p, v % 0x1_0000, w))).value == v
  {
    hide *;
    Behaved(c, t, p, 4);
    var w' := OutD(c, t, p, v, w);
    OutDBytes(c, t, p, v, w);
    WordWrites(c, t, p, v, w);
    NextZero(p);
    forall k: nat | k < 4 ensures cell(w', k) == Digit(v, k) {
      WritesSet(c, t, p, cell, 0, 4, v, w, k);
    }
    CellsRead(c, t, p, cell, v, w');
  }

  lemma CellsRead<W(!new)>(c: Code<W>, t: Table, p: Port, cell: (W, nat) -> byte, v: dword, w: W)
    requires WellBehaved(c, t, p, 4) && Cells(c, t, p, cell)
    requires forall k: nat | k < 4 :: cell(w, k) == Digit(v, k)
    ensures InD(c, t, p, w).value == v && InW(c, t, p, w).value == v % 0x1_0000
  {
    hide *;
    Behaved(c, t, p, 4);
    HalvesBehave(c, t, p);
    NextZero(p);
    forall k: nat | k < 4 ensures cell(w, 0 + k) == Digit(v, k) {}
    InDBytes(c, t, p, w);
    ReadsTell(c, t, p, cell, 0, 4, w, v);
    InWBytes(c, t, p, w);
    ReadsTell(c, t, p, cell, 0, 2, w, v);
    SpelledIs(Bytes(c, t, Reads(p, 4), w));
    SpelledIs(Bytes(c, t, Reads(p, 2), w));
    DwordSpells(v);
  }

  // ---------------------------------------------------------------- string instructions

  /** `n` word reads of one port. */
  function Words<W>(c: Code<W>, t: Table, p: Port, n: nat, w: W): (r: Got<seq<word>, W>)
    requires Formed(t)
    ensures |r.value| == n
    decreases n
  {
    if n == 0 then Got([], w)
    else
      var before := Words(c, t, p, n - 1, w);
      var last := InW(c, t, p, before.world);
      Got(before.value + [last.value], last.world)
  }

  /** Writing the words to one port in order. */
  function WordsOut<W>(c: Code<W>, t: Table, p: Port, vs: seq<word>, w: W): W
    requires Formed(t)
    decreases |vs|
  {
    if vs == [] then w else OutW(c, t, p, vs[|vs| - 1], WordsOut(c, t, p, vs[..|vs| - 1], w))
  }

  /** Where there is no wide function, the pair the string instructions make is what the single access does. */
  lemma NarrowIn<W>(c: Code<W>, t: Table, p: Port, w: W)
    requires Formed(t)
    ensures At(t, p).readw.None? ==> InW(c, t, p, w) == InPair(c, t, p, w)
  {
  }

  lemma NarrowOut<W>(c: Code<W>, t: Table, p: Port, v: word, w: W)
    requires Formed(t)
    ensures At(t, p).writew.None? ==> OutW(c, t, p, v, w) == OutPair(c, t, p, v, w)
  {
  }

  function ManyReads(p: Port, n: nat): (r: seq<Access>)
  {
    if n == 0 then [] else ManyReads(p, n - 1) + Reads(p, 2)
  }

  function ManyWrites(p: Port, vs: seq<word>): seq<Access>
  {
    if vs == [] then [] else ManyWrites(p, vs[..|vs| - 1]) + Writes(p, 2, vs[|vs| - 1])
  }

  /** REP INSW is 2n byte reads, alternating between the two ports; word k is spelled by bytes 2k and 2k+1. */
  lemma {:induction false} WordsBytes<W(!new)>(c: Code<W>, t: Table, p: Port, n: nat, w: W)
    requires WellBehaved(c, t, p, 2)
    ensures var r := Bytes(c, t, ManyReads(p, n), w);
            Words(c, t, p, n, w).world == r.world && SpelledBy(Words(c, t, p, n, w).value, r.value)
    decreases n
  {
    hide InW, WellBehaved, Bytes, Reads, Formed, Joined, Next;
    Behaved(c, t, p, 2);
    if n == 0 {
      NoBytes(c, t, w);
    } else {
      WordsBytes(c, t, p, n - 1, w);
      var before := Words(c, t, p, n - 1, w);
      InWBytes(c, t, p, before.world);
      BytesConcat(c, t, ManyReads(p, n - 1), Reads(p, 2), w);
      ReadCount(c, t, p, 2, before.world);
      var two := Bytes(c, t, Reads(p, 2), before.world);
      SpelledIs(two);
      TwoSpell(two.value);
      hide Spelled;
      PairUp(before.value, Bytes(c, t, ManyReads(p, n - 1), w).value, two.value);
    }
  }

  lemma NoBytes<W>(c: Code<W>, t: Table, w: W)
    requires Formed(t)
    ensures Bytes(c, t, [], w) == Got([], w)
  {
  }

  /** The words are spelled by the bytes, two by two. */
  predicate SpelledBy(words: seq<word>, bytes: seq<byte>) {
    |bytes| == 2 * |words| &&
    forall k | 0 <= k < |words| :: words[k] == Joined(bytes[2 * k], bytes[2 * k + 1])
  }

  lemma PairUp(words: seq<word>, bytes: seq<byte>, two: seq<byte>)
    requires SpelledBy(words, bytes) && |two| == 2
    ensures SpelledBy(words + [Joined(two[0], two[1])], bytes + two)
  {
    hide Joined;
    var more := words + [Joined(two[0], two[1])];
    forall k | 0 <= k < |more| ensures more[k] == Joined((bytes + two)[2 * k], (bytes + two)[2 * k + 1]) {
      if k < |words| { assert words[k] == Joined(bytes[2 * k], bytes[2 * k + 1]); }
    }
  }

  lemma TwoSpell(bs: seq<byte>)
    requires |bs| == 2
    ensures Value(bs) == Joined(bs[0], bs[1])
  {
    assert bs[1..] == [bs[1]] && Value([bs[1]]) == bs[1];
  }

  lemma {:induction false} WordsOutBytes<W(!new)>(c: Code<W>, t: Table, p: Port, vs: seq<word>, w: W)
    requires WellBehaved(c, t, p, 2)
    ensures WordsOut(c, t, p, vs, w) == Bytes(c, t, ManyWrites(p, vs), w).world
    decreases |vs|
  {
    if vs != [] {
      var front := vs[..|vs| - 1];
      WordsOutBytes(c, t, p, front, w);
      OutWBytes(c, t, p, vs[|vs| - 1], WordsOut(c, t, p, front, w));
      BytesConcat(c, t, ManyWrites(p, front), Writes(p, 2, vs[|vs| - 1]), w);
    }
  }

  /** The emulator's side of the ports: the tables, and the devices behind them. */
  class Bus<W> {
    const code: Code<W>
    const table: Table
    var world: W

    constructor (code: Code<W>, table: Table, world: W)
      ensures this.code == code && this.table == table && this.world == world
    {
      this.code, this.table, this.world := code, table, world;
    }

    /** port_inb */
    method ReadByte(p: Port) returns (v: byte)
      requires Formed(table)
      modifies this
      ensures Got(v, world) == InB(code, table, p, old(world))
    {
      var h := At(table, p);
      var r := code.inb(h.readb, p, h.arg, world);
      v, world := r.value, r.world;
    }

    /** port_outb */
    method WriteByte(p: Port, b: byte)
      requires Formed(table)
      modifies this
      ensures world == OutB(code, table, p, b, old(world))
    {
      var h := At(table, p);
      world := code.outb(h.writeb, p, b, h.arg, world);
    }

    method ReadPair(p: Port) returns (v: word)
      requires Formed(table)
      modifies this
      ensures Got(v, world) == InPair(code, table, p, old(world))
    {
      var lo := ReadByte(p);
      var hi := ReadByte(Next(p, 1));
      v := Joined(lo, hi);
    }

    method WritePair(p: Port, v: word)
      requires Formed(table)
      modifies this
      ensures world == OutPair(code, table, p, v, old(world))
    {
      WriteByte(p, v % 0x100);
      WriteByte(Next(p, 1), v / 0x100);
    }

    /** port_inw */
    method ReadWord(p: Port) returns (v: word)
      requires Formed(table)
      modifies this
      ensures Got(v, world) == InW(code, table, p, old(world))
    {
      var h := At(table, p);
      assert Next(p, 0) == p;
      if h.readw.Some? && h.readb == At(table, Next(p, 1)).readb {
        var r := code.inw(h.readw.value, p, h.arg, world);
        v, world := r.value, r.world;
      } else {
        v := ReadPair(p);
      }
    }

    /** port_outw */
    method WriteWord(p: Port, v: word)
      requires Formed(table)
      modifies this
      ensures world == OutW(code, table, p, v, old(world))
    {
      var h := At(table, p);
      assert Next(p, 0) == p;
      if h.writew.Some? && h.writeb == At(table, Next(p, 1)).writeb {
        world := code.outw(h.writew.value, p, v, h.arg, world);
      } else {
        WritePair(p, v);
      }
    }

    /** port_ind */
    method ReadDword(p: Port) returns (v: dword)
      requires Formed(table)
      modifies this
      ensures Got(v, world) == InD(code, table, p, old(world))
    {
      hide InW;
      var h := At(table, p);
      assert Next(p, 0) == p;
      if h.readd.Some? && h.readb == At(table, Next(p, 1)).readb && h.readb == At(table, Next(p, 2)).readb &&
         h.readb == At(table, Next(p, 3)).readb {
        var r := code.ind(h.readd.value, p, h.arg, world);
        v, world := r.value, r.world;
      } else {
        var lo := ReadWord(p);
        var hi := ReadWord(Next(p, 2));
        v := WordsJoined(lo, hi);
      }
    }

    /** port_outd */
    method WriteDword(p: Port, v: dword)
      requires Formed(table)
      modifies this
      ensures world == OutD(code, table, p, v, old(world))
    {
      hide OutW;
      var h := At(table, p);
      assert Next(p, 0) == p;
      if h.writed.Some? && h.writeb == At(table, Next(p, 1)).writeb && h.writeb == At(table, Next(p, 2)).writeb &&
         h.writeb == At(table, Next(p, 3)).writeb {
        world := code.outd(h.writed.value, p, v, h.arg, world);
      } else {
        WriteWord(p, v % 0x1_0000);
        WriteWord(Next(p, 2), v / 0x1_0000);
      }
    }

    /** port_rep_inw: `count` words go to mem[base], mem[base+1] ... or, with DF set, downwards from mem[base]. */
    method RepReadWords(p: Port, mem: array<word>, base: int, df: bool, count: nat) returns (moved: int)
      requires Formed(table)
      requires count > 0 ==> 0 <= base < mem.Length && 0 <= (if df then base - (count - 1) else base + count - 1) < mem.Length
      modifies this, mem
      ensures moved == (if df then -2 * count else 2 * count)
      ensures var r := Words(code, table, p, count, old(world));
              world == r.world &&
              (forall k | 0 <= k < count :: mem[if df then base - k else base + k] == r.value[k])
      ensures forall i | 0 <= i < mem.Length && (if df then i <= base - count || i > base else i < base || i >= base + count) ::
                mem[i] == old(mem[i])
    {
      hide InW;
      ghost var w := world;
      var incr := if df then -1 else 1;
      var dest := base;
      if count == 0 { return 0; }
      var wide := At(table, p).readw.Some?;
      var done := 0;
      while done < count
        invariant 0 <= done <= count && dest == base + incr * done
        invariant world == Words(code, table, p, done, w).world
        invariant forall k | 0 <= k < done :: mem[base + incr * k] == Words(code, table, p, done, w).value[k]
        invariant forall i | 0 <= i < mem.Length && (if df then i <= dest || i > base else i < base || i >= dest) ::
                    mem[i] == old(mem[i])
      {
        ghost var earlier := Words(code, table, p, done, w);
        NarrowIn(code, table, p, world);
        var v: word;
        if wide {
          v := ReadWord(p);
        } else {
          v := ReadPair(p);
        }
        mem[dest] := v;
        dest := dest + incr;
        done := done + 1;
      }
      moved := 2 * (dest - base);
    }

    /** port_rep_outw */
    method RepWriteWords(p: Port, mem: array<word>, base: int, df: bool, count: nat) returns (moved: int)
      requires Formed(table)
      requires count > 0 ==> 0 <= base < mem.Length && 0 <= (if df then base - (count - 1) else base + count - 1) < mem.Length
      modifies this
      ensures moved == (if df then -2 * count else 2 * count)
      ensures world == WordsOut(code, table, p, Taken(mem[..], base, df, count), old(world))
    {
      hide OutW;
      ghost var w := world;
      var incr := if df then -1 else 1;
      var dest := base;
      if count == 0 { return 0; }
      var wide := At(table, p).writew.Some?;
      var done := 0;
      while done < count
        invariant 0 <= done <= count && dest == base + incr * done
        invariant world == WordsOut(code, table, p, Taken(mem[..], base, df, done), w)
      {
        ghost var earlier := Taken(mem[..], base, df, done);
        NarrowOut(code, table, p, mem[dest], world);
        if wide {
          WriteWord(p, mem[dest]);
        } else {
          WritePair(p, mem[dest]);
        }
        assert Taken(mem[..], base, df, done + 1) == earlier + [mem[dest]];
        dest := dest + incr;
        done := done + 1;
      }
      moved := 2 * (dest - base);
    }
  }

  /** The `count` words that start at `base` and go up, or down with DF set. */
  function Taken(mem: seq<word>, base: int, df: bool, count: nat): (r: seq<word>)
    requires count > 0 ==> 0 <= base < |mem| && 0 <= (if df then base - (count - 1) else base + count - 1) < |mem|
  {
    seq(count, k requires 0 <= k < count => mem[if df then base - k else base + k])
  }
}
