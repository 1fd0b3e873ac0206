/**
 Registration of port handlers (port_register_handler in src/base/core/ports.c): devices are
 given a slot by name and then the ports of their range, one by one, as long as these are free.
 */
module PortTable {
  import opened Basics
  import opened Ports

  const MAX_DEVICES := 254

  /** port_not_avail_inb and port_not_avail_outb */
  const NOT_AVAIL: nat := 0

  /** emu_iodev_t as a device fills it in: any function may be null. */
  datatype Device = Device(name: string, readb: Option<nat>, writeb: Option<nat>, readw: Option<nat>, writew: Option<nat>,
                           readd: Option<nat>, writed: Option<nat>, arg: nat, start: nat, last: int)
  {
    /** Ports are 16 bits wide; an empty range is allowed. */
    predicate InTable() { last < 0x1_0000 }

    predicate Covers(p: int) { start <= p <= last }
  }

  /** The first port_handles slots of port_handler with their names, and port_handle_table. */
  datatype Registry = Registry(names: seq<string>, table: Table)

  /** Slot 0 stands for free ports; names tell the slots apart, and a slot number fits in a byte. */
  predicate Proper(g: Registry) {
    Formed(g.table) && |g.names| == |g.table.handlers| && 1 <= |g.names| <= MAX_DEVICES &&
    forall j, k | 0 <= j < k < |g.names| :: g.names[j] != g.names[k]
  }

  predicate Free(g: Registry, p: int)
    requires Formed(g.table) && 0 <= p < 0x1_0000
  {
    g.table.handle[p] == 0
  }

  // ---------------------------------------------------------------- operations

  /** The first slot of that name, or the first unused one. */
  function Find(names: seq<string>, name: string): (k: nat)
    ensures k <= |names| && (k < |names| ==> names[k] == name) && forall j | 0 <= j < k :: names[j] != name
    decreases |names|
  {
    if names == [] || names[0] == name then 0
    else
      var k := Find(names[1..], name);
      assert forall j | 1 <= j <= k :: names[j] == names[1..][j - 1];
      k + 1
  }

  /** What goes into a new slot: missing byte functions are replaced. */
  function Complete(d: Device): Handler {
    Handler(if d.readb.Some? then d.readb.value else NOT_AVAIL, if d.writeb.Some? then d.writeb.value else NOT_AVAIL,
            d.readw, d.writew, d.readd, d.writed, d.arg)
  }

  /** The slot for a device; one with the same name keeps the functions it has. */
  function Added(g: Registry, d: Device): Registry {
    if Find(g.names, d.name) < |g.names| then g
    else Registry(g.names + [d.name], g.table.(handlers := g.table.handlers + [Complete(d)]))
  }

  /** The first port from `i` on that is not free, or the one after the range. */
  function FirstTaken(handle: seq<nat>, i: nat, last: int): (k: int)
    requires last < |handle|
    ensures i <= k && (k <= last ==> handle[k] != 0) && (k > last ==> k == i || k == last + 1)
    ensures forall p | i <= p < k && p <= last :: handle[p] == 0
    decreases last + 1 - i
  {
    if i > last || handle[i] != 0 then i else FirstTaken(handle, i + 1, last)
  }

  /** The table with slot `h` at ports a <= p < b. */
  function Assigned(handle: seq<nat>, a: int, b: int, h: nat): (r: seq<nat>)
    ensures |r| == |handle|
  {
    seq(|handle|, p requires 0 <= p < |handle| => if a <= p < b then h else handle[p])
  }

  datatype Answer = Registered | Conflict | TooMany

  datatype Answered = Answered(g: Registry, answer: Answer)

  /** TooMany ends the program; a conflict leaves the ports before it with the device. */
  function Register(g: Registry, d: Device): Answered
    requires Formed(g.table) && d.InTable()
  {
    var h := Find(g.names, d.name);
    if h == |g.names| >= MAX_DEVICES then Answered(g, TooMany)
    else
      var stop := FirstTaken(g.table.handle, d.start, d.last);
      var g1 := Added(g, d);
      Answered(g1.(table := g1.table.(handle := Assigned(g.table.handle, d.start, stop, h))),
               if stop > d.last then Registered else Conflict)
  }

  // ---------------------------------------------------------------- one registration

  lemma RegisterProper(g: Registry, d: Device)
    requires Proper(g) && d.InTable()
    ensures Proper(Register(g, d).g)
  {
    hide Find;
  }

  /** The handler registered under a name. */
  function Named(g: Registry, name: string): Handler
    requires Proper(g) && name in g.names
  {
    g.table.handlers[Find(g.names, name)]
  }

  /** No registration takes a slot, its name or its functions away. */
  lemma SlotsStay(g: Registry, d: Device, k: nat)
    requires Proper(g) && d.InTable() && k < |g.names|
    ensures var r := Register(g, d).g; k < |r.names| && r.names[k] == g.names[k] && |r.table.handlers| == |r.names| && r.table.handlers[k] == g.table.handlers[k]
  {
    RegisterProper(g, d);
    hide Find;
  }

  /** The handlers of the names known before are the same; a new name has the device's own functions. */
  lemma NamedStays(g: Registry, d: Device, name: string)
    requires Proper(g) && d.InTable() && name in g.names
    ensures var r := Register(g, d).g; Proper(r) && name in r.names && Named(r, name) == Named(g, name)
  {
    RegisterProper(g, d);
    var k := Find(g.names, name);
    SlotsStay(g, d, k);
    SlotOf(Register(g, d).g, name, k);
    hide Register;
  }

  lemma SlotOf(g: Registry, name: string, k: nat)
    requires Proper(g) && k < |g.names| && g.names[k] == name
    ensures Find(g.names, name) == k
  {
    hide Find;
  }

  /** The ports passed before the first taken one are those with only free ports from the start up to them. */
  lemma Reached(g: Registry, d: Device, q: int)
    requires Proper(g) && d.InTable() && q <= d.last
    ensures q < FirstTaken(g.table.handle, d.start, d.last) <==> forall i | d.start <= i <= q :: Free(g, i)
  {
    var stop := FirstTaken(g.table.handle, d.start, d.last);
    if stop <= q { assert !Free(g, stop); }
  }

  /** Exactly when a registration is refused. */
  lemma RegisterAnswer(g: Registry, d: Device)
    requires Proper(g) && d.InTable()
    ensures var a := Register(g, d).answer;
            (a == TooMany <==> d.name !in g.names && |g.names| == 254) &&
            (a == Registered <==> a != TooMany && forall p | d.start <= p <= d.last :: Free(g, p))
  {
    Reached(g, d, d.last);
    hide Find;
  }

  /** Whether or not it ran into a conflict: the name is known then, to its own functions if it was new. */
  lemma RegisterName(g: Registry, d: Device)
    requires Proper(g) && d.InTable() && Register(g, d).answer != TooMany
    ensures var r := Register(g, d).g;
            Proper(r) && d.name in r.names && Named(r, d.name) == if d.name in g.names then Named(g, d.name) else Complete(d)
  {
    RegisterProper(g, d);
    if d.name in g.names {
      NamedStays(g, d, d.name);
    } else {
      var r := Register(g, d).g;
      assert r.names[|g.names|] == d.name;
      SlotOf(r, d.name, |g.names|);
    }
  }

  /**
   The table lookup after a registration: the ports of the range, up to the first one already
   taken, lead to the handler of that name; every other port leads where it did.
   */
  lemma RegisterLookup(g: Registry, d: Device, p: Port)
    requires Proper(g) && d.InTable() && Register(g, d).answer != TooMany
    ensures var r, q := Register(g, d).g, p % 0x1_0000;
            Proper(r) && d.name in r.names &&
            At(r.table, p) ==
              if d.Covers(q) && forall i | d.start <= i <= q :: Free(g, i) then Named(r, d.name) else At(g.table, p)
  {
    RegisterName(g, d);
    var r, q := Register(g, d).g, p % 0x1_0000;
    var stop := FirstTaken(g.table.handle, d.start, d.last);
    if d.Covers(q) { Reached(g, d, q); }
    if !(d.start <= q < stop) { SlotsStay(g, d, g.table.handle[q]); } else { SlotFound(g, d); }
    hide Find;
  }

  lemma SlotFound(g: Registry, d: Device)
    requires Proper(g) && d.InTable() && Register(g, d).answer != TooMany
    ensures Find(Register(g, d).g.names, d.name) == Find(g.names, d.name)
  {
    RegisterName(g, d);
    var r, k := Register(g, d).g, Find(g.names, d.name);
    assert r.names[k] == d.name;
    SlotOf(r, d.name, k);
  }

  // ---------------------------------------------------------------- many registrations

  predicate InTables(ds: seq<Device>) { forall k | 0 <= k < |ds| :: ds[k].InTable() }

  function RegisterAll(g: Registry, ds: seq<Device>): (r: Registry)
    requires Proper(g) && InTables(ds)
    ensures Proper(r)
    decreases |ds|
  {
    if ds == [] then g
    else
      RegisterProper(g, ds[0]);
      RegisterAll(Register(g, ds[0]).g, ds[1..])
  }

  predicate AllRegistered(g: Registry, ds: seq<Device>)
    requires Proper(g) && InTables(ds)
    decreases |ds|
  {
    ds == [] ||
    (RegisterProper(g, ds[0]);
     Register(g, ds[0]).answer == Registered && AllRegistered(Register(g, ds[0]).g, ds[1..]))
  }

  /** Whatever is registered later, a name keeps its handler. */
  lemma {:induction false} NameKept(g: Registry, ds: seq<Device>, name: string)
    requires Proper(g) && InTables(ds) && name in g.names
    ensures name in RegisterAll(g, ds).names && Named(RegisterAll(g, ds), name) == Named(g, name)
    decreases |ds|
  {
    if ds != [] {
      NamedStays(g, ds[0], name);
      hide Register, Proper;
      NameKept(Register(g, ds[0]).g, ds[1..], name);
    }
  }

  /** Whatever is registered later, and whether or not it is refused, a port that is taken keeps its handler. */
  lemma {:induction false} PortKept(g: Registry, ds: seq<Device>, p: Port)
    requires Proper(g) && InTables(ds) && !Free(g, p % 0x1_0000)
    ensures !Free(RegisterAll(g, ds), p % 0x1_0000) && At(RegisterAll(g, ds).table, p) == At(g.table, p)
    decreases |ds|
  {
    if ds != [] {
      PortStays(g, ds[0], p);
      hide Register, Proper;
      PortKept(Register(g, ds[0]).g, ds[1..], p);
    }
  }

  lemma PortStays(g: Registry, d: Device, p: Port)
    requires Proper(g) && d.InTable() && !Free(g, p % 0x1_0000)
    ensures var r := Register(g, d).g; Proper(r) && !Free(r, p % 0x1_0000) && At(r.table, p) == At(g.table, p)
  {
    RegisterProper(g, d);
    var q := p % 0x1_0000;
    if Register(g, d).answer != TooMany && d.Covers(q) { Reached(g, d, q); }
    SlotsStay(g, d, g.table.handle[q]);
    hide Find;
  }

  predicate FreeFor(g: Registry, d: Device)
    requires Formed(g.table) && d.InTable()
  {
    forall p | d.start <= p <= d.last :: Free(g, p)
  }

  predicate Disjoint(d: Device, e: Device) {
    d.start > d.last || e.start > e.last || d.last < e.start || e.last < d.start
  }

  /** After a registration under a name other than that of slot 0, the ports of its range are free no more. */
  lemma FreeAfter(g: Registry, d: Device, p: int)
    requires Proper(g) && d.InTable() && d.name != g.names[0] && Register(g, d).answer == Registered && 0 <= p < 0x1_0000
    ensures var r := Register(g, d).g; Proper(r) && (Free(r, p) <==> Free(g, p) && !d.Covers(p))
  {
    RegisterProper(g, d);
    if d.Covers(p) { Reached(g, d, d.last); RegisterAnswer(g, d); }
    hide Find;
  }

  lemma FreeForAfter(g: Registry, d: Device, e: Device)
    requires Proper(g) && d.InTable() && e.InTable() && d.name != g.names[0] && Register(g, d).answer == Registered
    ensures var r := Register(g, d).g; Proper(r) && (FreeFor(r, e) <==> FreeFor(g, e) && Disjoint(d, e))
  {
    RegisterProper(g, d);
    hide Register, Free, Proper;
    var r := Register(g, d).g;
    assert Formed(g.table) && Formed(r.table) by { ProperFormed(g); ProperFormed(r); }
    forall p | 0 <= p < 0x1_0000 ensures Free(r, p) <==> Free(g, p) && !d.Covers(p) { FreeAfter(g, d, p); }
    if !Disjoint(d, e) {
      var p := if d.start < e.start then e.start else d.start;
      assert d.Covers(p) && e.Covers(p) && !Free(r, p);
    }
  }

  lemma ProperFormed(g: Registry)
    requires Proper(g)
    ensures Formed(g.table)
  {
  }

  predicate AllFree(g: Registry, ds: seq<Device>)
    requires Formed(g.table) && InTables(ds)
  {
    forall k | 0 <= k < |ds| :: FreeFor(g, ds[k])
  }

  predicate AllDisjoint(ds: seq<Device>) { forall j, k | 0 <= j < k < |ds| :: Disjoint(ds[j], ds[k]) }

  /**
   A list of devices, none of them named as slot 0 is and few enough for the slots, is
   registered without complaint exactly if their ports were free and no two ranges overlap.
   */
  lemma {:induction false} AllRegisteredExact(g: Registry, ds: seq<Device>)
    requires Proper(g) && InTables(ds) && |g.names| + |ds| <= 254 && forall k | 0 <= k < |ds| :: ds[k].name != g.names[0]
    ensures AllRegistered(g, ds) <==> AllFree(g, ds) && AllDisjoint(ds)
    decreases |ds|
  {
    if ds != [] {
      var d, rest, r := ds[0], ds[1..], Register(g, ds[0]).g;
      RegisterProper(g, d);
      RegisterAnswer(g, d);
      Grows(g, d);
      hide Register, Free, Proper, Find, Disjoint, Formed;
      ProperFormed(g);
      ProperFormed(r);
      AllRegisteredExact(r, rest);
      if Register(g, d).answer == Registered {
        forall k | 0 <= k < |rest| ensures FreeFor(r, rest[k]) <==> FreeFor(g, ds[k + 1]) && Disjoint(d, ds[k + 1]) {
          FreeForAfter(g, d, rest[k]);
        }
        FirstAndRest(g, r, ds);
      } else {
        assert !FreeFor(g, ds[0]);
      }
    }
  }

  lemma Grows(g: Registry, d: Device)
    requires Proper(g) && d.InTable()
    ensures var r := Register(g, d).g; |g.names| <= |r.names| <= |g.names| + 1 && r.names[0] == g.names[0]
  {
  }

  lemma FirstAndRest(g: Registry, r: Registry, ds: seq<Device>)
    requires Formed(g.table) && Formed(r.table) && InTables(ds) && ds != [] && FreeFor(g, ds[0])
    requires forall k | 0 <= k < |ds| - 1 :: FreeFor(r, ds[1..][k]) <==> FreeFor(g, ds[k + 1]) && Disjoint(ds[0], ds[k + 1])
    ensures AllFree(r, ds[1..]) && AllDisjoint(ds[1..]) <==> AllFree(g, ds) && AllDisjoint(ds)
  {
    hide Formed, FreeFor, Disjoint;
    var rest := ds[1..];
    assert forall k | 1 <= k < |ds| :: ds[k] == rest[k - 1];
    if AllFree(r, rest) && AllDisjoint(rest) {
      forall k | 0 <= k < |ds| ensures FreeFor(g, ds[k]) { if k > 0 { assert FreeFor(r, rest[k - 1]); } }
      forall j, k | 0 <= j < k < |ds| ensures Disjoint(ds[j], ds[k]) {
        assert FreeFor(r, rest[k - 1]);
        if j > 0 { assert Disjoint(rest[j - 1], rest[k - 1]); }
      }
    }
    if AllFree(g, ds) && AllDisjoint(ds) {
      forall k | 0 <= k < |rest| ensures FreeFor(r, rest[k]) { assert FreeFor(g, ds[k + 1]) && Disjoint(ds[0], ds[k + 1]); }
      forall j, k | 0 <= j < k < |rest| ensures Disjoint(rest[j], rest[k]) { assert Disjoint(ds[j + 1], ds[k + 1]); }
    }
  }

  /** After they were all registered, a port leads to the handler of the device whose range it is in. */
  lemma {:induction false} LookupOwn(g: Registry, ds: seq<Device>, k: nat, p: Port)
    requires Proper(g) && InTables(ds) && AllRegistered(g, ds) && k < |ds| && ds[k].name != g.names[0]
    requires ds[k].Covers(p % 0x1_0000)
    ensures var r := RegisterAll(g, ds); ds[k].name in r.names && At(r.table, p) == Named(r, ds[k].name)
    decreases |ds|
  {
    var d, r := ds[0], Register(g, ds[0]).g;
    RegisterProper(g, d);
    Grows(g, d);
    if k > 0 {
      hide Register, Proper;
      LookupOwn(r, ds[1..], k - 1, p);
    } else {
      RegisterAnswer(g, d);
      RegisterLookup(g, d, p);
      FreeAfter(g, d, p % 0x1_0000);
      hide Register, Proper, At, Named;
      PortKept(r, ds[1..], p);
      NameKept(r, ds[1..], d.name);
    }
  }

  /** A port in none of the ranges leads where it did. */
  lemma {:induction false} LookupOther(g: Registry, ds: seq<Device>, p: Port)
    requires Proper(g) && InTables(ds) && forall k | 0 <= k < |ds| :: !ds[k].Covers(p % 0x1_0000)
    ensures At(RegisterAll(g, ds).table, p) == At(g.table, p)
    decreases |ds|
  {
    if ds != [] {
      var d := ds[0];
      RegisterProper(g, d);
      if Register(g, d).answer != TooMany { RegisterLookup(g, d, p); }
      assert At(Register(g, d).g.table, p) == At(g.table, p);
      hide Register, Proper, At;
      LookupOther(Register(g, d).g, ds[1..], p);
    }
  }

  /** A name belongs to the first device registered under it, later ones share its functions. */
  lemma {:induction false} FirstOfName(g: Registry, ds: seq<Device>, k: nat)
    requires Proper(g) && InTables(ds) && AllRegistered(g, ds) && k < |ds|
    requires ds[k].name !in g.names && forall j | 0 <= j < k :: ds[j].name != ds[k].name
    ensures ds[k].name in RegisterAll(g, ds).names && Named(RegisterAll(g, ds), ds[k].name) == Complete(ds[k])
    decreases |ds|
  {
    var d, r := ds[0], Register(g, ds[0]).g;
    RegisterProper(g, d);
    if k > 0 {
      assert ds[k].name !in r.names;
      hide Register, Proper;
      FirstOfName(r, ds[1..], k - 1);
    } else {
      RegisterName(g, d);
      hide Register, Proper;
      NameKept(r, ds[1..], d.name);
    }
  }

  // ---------------------------------------------------------------- access through the table

  /**
   A device that was the first of its name, registered along with any others: a double-word
   read within its range is four byte reads of that device, if its wide functions agree with its
   byte functions.
   */
  lemma RegisteredReads<W(!new)>(c: Code<W>, g: Registry, ds: seq<Device>, k: nat, p: Port, w: W)
    requires Proper(g) && InTables(ds) && AllRegistered(g, ds) && k < |ds|
    requires ds[k].name !in g.names && forall j | 0 <= j < k :: ds[j].name != ds[k].name
    requires ds[k].start <= p && p + 3 <= ds[k].last && HandlerAgrees(c, Complete(ds[k]))
    ensures Formed(RegisterAll(g, ds).table)
    ensures InD(c, RegisterAll(g, ds).table, p, w) == Spelled(Own(c, Complete(ds[k]), Reads(p, 4), w))
    ensures forall v: dword :: OutD(c, RegisterAll(g, ds).table, p, v, w) == Own(c, Complete(ds[k]), Writes(p, 4, v), w).world
  {
    var r, h := RegisterAll(g, ds), Complete(ds[k]);
    ProperFormed(r);
    assert g.names[0] in g.names;
    FirstOfName(g, ds, k);
    forall i | 0 <= i < 4 ensures At(r.table, Next(p, i)) == h {
      LookupOwn(g, ds, k, Next(p, i));
    }
    hide Proper, AllRegistered, HandlerAgrees, At, RegisterAll, Complete, InD, OutD, Own, Bytes, Spelled, Reads, Writes;
    assert WellBehaved(c, r.table, p, 4);
    InDBytes(c, r.table, p, w);
    SharedReads(c, r.table, h, p, 4, w);
    forall v: dword ensures OutD(c, r.table, p, v, w) == Own(c, h, Writes(p, 4, v), w).world {
      OutDBytes(c, r.table, p, v, w);
      SharedWrites(c, r.table, h, p, 4, v, w);
    }
  }

  // ---------------------------------------------------------------- in place

  /** port_handler and port_handle_table, changed in place. */
  class Registrar {
    var names: seq<string>
    var handlers: seq<Handler>
    const handle: array<nat>

    /** How the tables start: slot 0 for every port. */
    constructor (name: string, none: Handler)
      ensures Proper(View()) && View().names == [name] && fresh(handle)
      ensures forall p: Port :: At(View().table, p) == none
    {
      names, handlers := [name], [none];
      handle := new nat[0x1_0000](_ => 0);
    }

    ghost function View(): Registry
      reads this, handle
    {
      Registry(names, Table(handlers, handle[..]))
    }

    /** The search by name. */
    method FindSlot(name: string) returns (k: nat)
      ensures k == Find(names, name)
    {
      k := 0;
      while k < |names| && names[k] != name
        invariant k <= |names| && forall j | 0 <= j < k :: names[j] != name
      {
        k := k + 1;
      }
    }

    /** port_register_handler */
    method RegisterHandler(d: Device) returns (answer: Answer)
      requires Proper(View()) && d.InTable()
      modifies this, handle
      ensures Proper(View()) && Answered(View(), answer) == Register(old(View()), d)
    {
      hide Find;
      RegisterProper(View(), d);
      ghost var before, g := handle[..], View();
      var h := FindSlot(d.name);
      if h == |names| {
        if |names| >= MAX_DEVICES { return TooMany; }
        names := names + [d.name];
        var readb := if d.readb.Some? then d.readb.value else NOT_AVAIL;
        var writeb := if d.writeb.Some? then d.writeb.value else NOT_AVAIL;
        handlers := handlers + [Handler(readb, writeb, d.readw, d.writew, d.readd, d.writed, d.arg)];
      }
      ghost var g1 := Added(g, d);
      assert View() == g1;
      var i := d.start;
      assert handle[..] == Assigned(before, d.start, i, h);
      while i <= d.last
        invariant names == g1.names && handlers == g1.table.handlers
        invariant d.start <= i && (i <= d.last + 1 || i == d.start)
        invariant handle[..] == Assigned(before, d.start, i, h)
        invariant FirstTaken(before, d.start, d.last) == FirstTaken(before, i, d.last)
        decreases d.last + 1 - i
      {
        if handle[i] != 0 { return Conflict; }
        handle[i] := h;
        i := i + 1;
      }
      answer := Registered;
    }
  }
}
