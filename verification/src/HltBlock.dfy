/**
 The allocator of HLT entry points (src/base/core/hlt.c): a table maps every offset of the
 block to a handler slot, registrations take the first free run of offsets, and slots at the
 end of the handler array are given back when they fall free.
 */
module HltBlock {
  import opened Basics

  const MAX_HLT_HANDLERS := 100
  const MAX_HLT_BLK_SIZE := 4096

  /** A handler slot; a `free` one has hlt_default as its function. */
  datatype Handler = Handler(free: bool, start: nat, len: nat)

  /** The allocator's data: the table `ids`, the handler slots in use, and the block's size is |ids|. */
  datatype Block = Block(ids: seq<nat>, hs: seq<Handler>)

  predicate Live(b: Block, h: nat) { 1 <= h < |b.hs| && !b.hs[h].free }

  predicate Covers(x: Handler, o: int) { x.start <= o < x.start + x.len }

  /**
   The table sends an offset to the live handler whose range contains it, and to slot 0 if
   there is none; the last slot in use is a live one.
   */
  predicate Ok(b: Block) {
    1 <= |b.hs| <= MAX_HLT_HANDLERS && |b.ids| <= MAX_HLT_BLK_SIZE && b.hs[0].free &&
    (forall h | 0 <= h < |b.hs| && Live(b, h) :: b.hs[h].start + b.hs[h].len <= |b.ids|) &&
    (forall o | 0 <= o < |b.ids| :: b.ids[o] == 0 || Live(b, b.ids[o])) &&
    (forall o, h | 0 <= o < |b.ids| && 0 <= h < |b.hs| && Live(b, h) :: b.ids[o] == h <==> Covers(b.hs[h], o)) &&
    (|b.hs| > 1 ==> Live(b, |b.hs| - 1))
  }

  /** No offset has two handlers. */
  lemma Disjoint(b: Block, g: nat, h: nat, o: nat)
    requires Ok(b) && Live(b, g) && Live(b, h) && Covers(b.hs[g], o) && Covers(b.hs[h], o)
    ensures g == h
  {
    assert b.ids[o] == g && b.ids[o] == h;
  }

  /** hlt_handle passes a live handler an offset within its range, and serves the rest from slot 0. */
  lemma Dispatch(b: Block, o: nat)
    requires Ok(b) && o < |b.ids|
    ensures b.ids[o] < |b.hs|
    ensures b.ids[o] != 0 ==> Live(b, b.ids[o]) && 0 <= o - b.hs[b.ids[o]].start < b.hs[b.ids[o]].len
    ensures b.ids[o] == 0 <==> forall h | 0 <= h < |b.hs| :: Live(b, h) ==> !Covers(b.hs[h], o)
  {
  }

  // ---------------------------------------------------------------- first fit

  predicate FreeRun(ids: seq<nat>, i: nat, len: nat) {
    i + len <= |ids| && forall o | i <= o < i + len :: ids[o] == 0
  }

  /** Naive first fit: try every start in turn. */
  function FirstFit(ids: seq<nat>, len: nat, from: nat): Option<nat>
    decreases if from <= |ids| then |ids| - from else 0
  {
    if from + len > |ids| then None
    else if FreeRun(ids, from, len) then Some(from)
    else if from == |ids| then None
    else FirstFit(ids, len, from + 1)
  }

  lemma {:induction false} FirstFitIs(ids: seq<nat>, len: nat, from: nat)
    ensures var f := FirstFit(ids, len, from);
            if f.Some? then from <= f.value && FreeRun(ids, f.value, len) && forall k | from <= k < f.value :: !FreeRun(ids, k, len)
            else forall k | from <= k :: !FreeRun(ids, k, len)
    decreases if from <= |ids| then |ids| - from else 0
  {
    if from + len <= |ids| && !FreeRun(ids, from, len) && from < |ids| {
      FirstFitIs(ids, len, from + 1);
    }
  }

  /** Starts with no free run can be skipped. */
  lemma {:induction false} FirstFitSkip(ids: seq<nat>, len: nat, from: nat, n: nat)
    requires forall k | from <= k < from + n :: !FreeRun(ids, k, len)
    ensures FirstFit(ids, len, from) == FirstFit(ids, len, from + n)
    decreases n
  {
    if n > 0 {
      FirstFitSkip(ids, len, from + 1, n - 1);
    }
  }

  // ---------------------------------------------------------------- effects

  function Claim(ids: seq<nat>, start: nat, len: nat, h: nat): seq<nat> {
    seq(|ids|, o requires 0 <= o < |ids| => if start <= o < start + len then h else ids[o])
  }

  /** Registering a handler of `len` offsets at `start`, in the next slot. */
  function Registered(b: Block, start: nat, len: nat): Block {
    Block(Claim(b.ids, start, len, |b.hs|), b.hs + [Handler(false, start, len)])
  }

  lemma RegisteredOk(b: Block, start: nat, len: nat)
    requires Ok(b) && FreeRun(b.ids, start, len) && |b.hs| < MAX_HLT_HANDLERS
    ensures Ok(Registered(b, start, len)) && Live(Registered(b, start, len), |b.hs|)
    ensures forall h :: Live(Registered(b, start, len), h) <==> Live(b, h) || h == |b.hs|
    ensures var r := Registered(b, start, len);
            |r.ids| == |b.ids| && b.hs <= r.hs && |r.hs| == |b.hs| + 1 && r.hs[|b.hs|].start == start && r.hs[|b.hs|].len == len &&
            (forall o | 0 <= o < |b.ids| :: r.ids[o] == if start <= o < start + len then |b.hs| else b.ids[o])
  {
  }

  /** Drops trailing free slots. */
  function Trim(hs: seq<Handler>): (r: seq<Handler>)
    ensures r <= hs && (r != [] ==> !r[|r| - 1].free)
    ensures forall h | |r| <= h < |hs| :: hs[h].free
  {
    if hs == [] || !hs[|hs| - 1].free then hs else Trim(hs[..|hs| - 1])
  }

  /** Unregistering the handler found at `start`. */
  function Unregistered(b: Block, start: nat): Block
    requires start < |b.ids| && b.ids[start] < |b.hs|
  {
    var h := b.ids[start];
    Block(Claim(b.ids, start, b.hs[h].len, 0), Trim(b.hs[h := b.hs[h].(free := true)]))
  }

  /** Unregistering undoes the latest registration exactly if there was another handler before it. */
  lemma UnregisterUndoes(b: Block, start: nat, len: nat)
    requires Ok(b) && len > 0 && FreeRun(b.ids, start, len) && |b.hs| < MAX_HLT_HANDLERS
    ensures var r := Registered(b, start, len); r.ids[start] < |r.hs| && (Unregistered(r, start) == b <==> |b.hs| > 1)
    ensures Unregistered(Registered(b, start, len), start).ids == b.ids
  {
    var r := Registered(b, start, len);
    var u := Unregistered(r, start);
    assert u.ids == b.ids;
    var hs := r.hs[|b.hs| := r.hs[|b.hs|].(free := true)];
    assert hs[..|b.hs|] == b.hs;
    assert u.hs == Trim(b.hs);
    if |b.hs| == 1 { assert b.hs[..0] == []; }
  }

  /** Trimming drops no live slot and keeps the rest in place. */
  lemma TrimLive(b: Block, h0: nat)
    requires Ok(b) && Live(b, h0)
    ensures var hs := Trim(b.hs[h0 := b.hs[h0].(free := true)]);
            (forall h: nat :: Live(Block(b.ids, hs), h) <==> Live(b, h) && h != h0) &&
            (forall h | 0 <= h < |hs| && h != h0 :: hs[h] == b.hs[h]) &&
            |hs| <= |b.hs| && (|hs| > 0 <==> exists g: nat :: g != h0 && Live(b, g))
  {
    var full := b.hs[h0 := b.hs[h0].(free := true)];
    var hs := Trim(full);
    forall h: nat ensures Live(Block(b.ids, hs), h) <==> Live(b, h) && h != h0 {
      if 1 <= h < |b.hs| { assert h < |hs| ==> hs[h] == full[h]; }
    }
    if |hs| > 0 {
      assert hs[|hs| - 1] == full[|hs| - 1];
      assert Live(b, |hs| - 1) && |hs| - 1 != h0;
    }
    if g: nat :| g != h0 && Live(b, g) {
      assert Live(Block(b.ids, hs), g);
    }
  }

  lemma UnregisteredTable(b: Block, start: nat)
    requires Ok(b) && start < |b.ids| && b.ids[start] != 0 && b.hs[b.ids[start]].start == start
    ensures var c := Unregistered(b, start);
            forall o | 0 <= o < |c.ids| :: c.ids[o] == if b.ids[o] == b.ids[start] then 0 else b.ids[o]
  {
  }

  /**
   Unregistering keeps the table right, removing exactly the handler found, if and only if
   it is named by its start and another handler stays registered.
   */
  lemma UnregisterExact(b: Block, start: nat)
    requires Ok(b) && start < |b.ids| && b.ids[start] != 0
    ensures var c, h0 := Unregistered(b, start), b.ids[start];
            (Ok(c) <==> b.hs[h0].start == start && exists g: nat :: g != h0 && Live(b, g)) &&
            (forall h: nat :: Live(c, h) <==> Live(b, h) && h != h0)
  {
    var c, h0 := Unregistered(b, start), b.ids[start];
    assert Live(b, h0);
    TrimLive(b, h0);
    SameLive(c, Block(b.ids, c.hs));
    if b.hs[h0].start != start {
      var o := b.hs[h0].start;
      assert Covers(b.hs[h0], start);
      assert b.ids[o] == h0 && c.ids[o] == h0 && !Live(c, h0);
    } else if exists g: nat :: g != h0 && Live(b, g) {
      UnregisteredTable(b, start);
      StaysOk(b, c, h0);
    }
  }

  lemma SameLive(b: Block, c: Block)
    requires b.hs == c.hs
    ensures forall h: nat :: Live(b, h) <==> Live(c, h)
  {
  }

  lemma StaysOk(b: Block, c: Block, h0: nat)
    requires Ok(b) && Live(b, h0) && |c.ids| == |b.ids| && 0 < |c.hs| <= |b.hs| && c.hs[0].free
    requires !c.hs[|c.hs| - 1].free || |c.hs| == 1
    requires forall o | 0 <= o < |c.ids| :: c.ids[o] == if b.ids[o] == h0 then 0 else b.ids[o]
    requires forall h: nat :: Live(c, h) <==> Live(b, h) && h != h0
    requires forall h | 0 <= h < |c.hs| && h != h0 :: c.hs[h] == b.hs[h]
    ensures Ok(c)
  {
  }

  // ---------------------------------------------------------------- runs

  datatype Call = Register(len: nat) | Unregister(start: nat)

  /** A registration that finds no slot or no room changes nothing (the source reports an error). */
  function Step(b: Block, call: Call): Block {
    match call
    case Register(len) =>
      var f := FirstFit(b.ids, len, 0);
      if |b.hs| >= MAX_HLT_HANDLERS || f.None? then b else Registered(b, f.value, len)
    case Unregister(start) =>
      if start < |b.ids| && 0 < b.ids[start] < |b.hs| then Unregistered(b, start) else b
  }

  /** The caller names handlers by their start and keeps one registered. */
  predicate Fair(b: Block, call: Call) {
    call.Unregister? && call.start < |b.ids| && 0 < b.ids[call.start] < |b.hs| ==>
      b.hs[b.ids[call.start]].start == call.start &&
      exists g: nat | g < |b.hs| :: g != b.ids[call.start] && Live(b, g)
  }

  function Run(b: Block, calls: seq<Call>): Block
    decreases calls
  {
    if calls == [] then b else Run(Step(b, calls[0]), calls[1..])
  }

  predicate FairRun(b: Block, calls: seq<Call>)
    decreases calls
  {
    calls == [] || (Fair(b, calls[0]) && FairRun(Step(b, calls[0]), calls[1..]))
  }

  function Initial(size: nat): Block { Block(seq(size, _ => 0), [Handler(true, 0, 0)]) }

  /** Registering one handler and unregistering it leaves no slot at all; the next registration would fail its assertion. */
  lemma LastHandlerLost()
    ensures var b := Step(Initial(16), Register(4));
            var c := Step(b, Unregister(0));
            Ok(b) && Live(b, 1) && c.hs == [] && !Ok(c)
  {
    var a := Initial(16);
    assert FreeRun(a.ids, 0, 4) && FirstFit(a.ids, 4, 0) == Some(0);
    InitialOk(16);
    RegisteredOk(a, 0, 4);
    var b := Registered(a, 0, 4);
    var hs := b.hs[1 := b.hs[1].(free := true)];
    assert hs[..1] == [Handler(true, 0, 0)] && hs[..1][..0] == [];
    assert Trim(hs) == [];
  }

  /** Unregistering a handler by its second offset leaves its first offset on a dead slot, and a neighbour without its own. */
  lemma InnerOffset()
    ensures var b := Step(Step(Initial(16), Register(2)), Register(1));
            var c := Step(b, Unregister(1));
            Ok(b) && c.ids[0] == 1 && !Live(c, 1) && Live(c, 2) && Covers(c.hs[2], 2) && c.ids[2] == 0 && !Ok(c)
  {
    hide FirstFit;
    TwoHandlers();
    hide Registered;
    var b := Step(Step(Initial(16), Register(2)), Register(1));
    var hs := b.hs[1 := b.hs[1].(free := true)];
    assert Trim(hs) == hs;
    var c := Step(b, Unregister(1));
    assert c == Unregistered(b, 1);
  }

  lemma TwoHandlers()
    ensures var b := Step(Step(Initial(16), Register(2)), Register(1));
            Ok(b) && |b.ids| == 16 && b.ids[0] == 1 && b.ids[1] == 1 && b.ids[2] == 2 &&
            b.hs == [Handler(true, 0, 0), Handler(false, 0, 2), Handler(false, 2, 1)]
  {
    var a := Initial(16);
    assert FreeRun(a.ids, 0, 2) && FirstFit(a.ids, 2, 0) == Some(0);
    InitialOk(16);
    RegisteredOk(a, 0, 2);
    var a' := Registered(a, 0, 2);
    assert a'.ids[0] == 1 && a'.ids[1] == 1 && !FreeRun(a'.ids, 0, 1) && !FreeRun(a'.ids, 1, 1) && FreeRun(a'.ids, 2, 1);
    assert FirstFit(a'.ids, 1, 1) == Some(2);
    assert FirstFit(a'.ids, 1, 0) == Some(2);
    RegisteredOk(a', 2, 1);
  }

  /** In every run of fair calls the table is right. */
  lemma {:induction false} EveryRun(b: Block, calls: seq<Call>)
    requires Ok(b) && FairRun(b, calls)
    ensures Ok(Run(b, calls))
    decreases calls
  {
    if calls != [] {
      StepOk(b, calls[0]);
      EveryRun(Step(b, calls[0]), calls[1..]);
    }
  }

  lemma StepOk(b: Block, call: Call)
    requires Ok(b) && Fair(b, call)
    ensures Ok(Step(b, call))
  {
    match call
    case Register(len) =>
      FirstFitIs(b.ids, len, 0);
      var f := FirstFit(b.ids, len, 0);
      if |b.hs| < MAX_HLT_HANDLERS && f.Some? { RegisteredOk(b, f.value, len); }
    case Unregister(start) =>
      if start < |b.ids| && b.ids[start] != 0 {
        assert Live(b, b.ids[start]);
        UnregisterExact(b, start);
      }
  }

  lemma InitialOk(size: nat)
    requires size <= MAX_HLT_BLK_SIZE
    ensures Ok(Initial(size))
  {
  }

  // ---------------------------------------------------------------- in place

  /** The state hlt_init allocates. */
  class HltState {
    const ids: array<nat>
    const handlers: array<Handler>
    var count: nat
    const size: nat

    ghost predicate Ready()
      reads this
    {
      ids.Length == MAX_HLT_BLK_SIZE && handlers.Length == MAX_HLT_HANDLERS &&
      size <= MAX_HLT_BLK_SIZE && count <= MAX_HLT_HANDLERS
    }

    ghost function View(): Block
      requires Ready()
      reads this, ids, handlers
    {
      Block(ids[..size], handlers[..count])
    }

    constructor (size: nat)
      requires size <= MAX_HLT_BLK_SIZE
      ensures Ready() && View() == Initial(size) && fresh(ids) && fresh(handlers)
    {
      this.size := size;
      ids := new nat[MAX_HLT_BLK_SIZE](_ => 0);
      handlers := new Handler[MAX_HLT_HANDLERS](_ => Handler(true, 0, 0));
      count := 1;
    }

    /** The search loop of hlt_register_handler, which skips ahead past the first conflict. */
    method Search(len: nat) returns (f: Option<nat>)
      requires Ready()
      ensures f == FirstFit(ids[..size], len, 0)
    {
      ghost var s := ids[..size];
      var i := 0;
      while i + len <= size
        invariant FirstFit(s, len, i) == FirstFit(s, len, 0)
        decreases size + 1 - i
      {
        var j, start := 0, i;
        while j < len && ids[i + j] == 0
          invariant j <= len && forall o | i <= o < i + j :: s[o] == 0
        {
          j := j + 1;
        }
        if j == len { return Some(i); }
        forall k | i <= k < i + j + 1 ensures !FreeRun(s, k, len) {
          assert s[i + j] != 0;
        }
        FirstFitSkip(s, len, i, j + 1);
        i := i + j + 1;
      }
      f := None;
    }

    /** hlt_register_handler; None stands for the error return. */
    method RegisterHandler(len: nat) returns (start: Option<nat>)
      requires Ready() && Ok(View())
      modifies this`count, ids, handlers
      ensures Ready() && Ok(View()) && View() == Step(old(View()), Register(len))
      ensures start == if old(count) >= 100 then None else FirstFit(old(ids[..size]), len, 0)
    {
      hide Ok, FirstFit;
      ghost var b := View();
      StepOk(b, Register(len));
      if count >= MAX_HLT_HANDLERS { return None; }
      start := Search(len);
      if start.None? { return; }
      FirstFitIs(b.ids, len, 0);
      var handle := count;
      count := count + 1;
      handlers[handle] := Handler(false, start.value, len);
      assert handlers[..count] == b.hs + [Handler(false, start.value, len)];
      SetRange(start.value, len, handle);
      assert View() == Registered(b, start.value, len);
    }

    /** Writes `v` over a range of the table. */
    method SetRange(start: nat, len: nat, v: nat)
      requires Ready() && start + len <= MAX_HLT_BLK_SIZE
      modifies ids
      ensures ids[..size] == Claim(old(ids[..size]), start, len, v)
    {
      for j := 0 to len
        invariant forall o | 0 <= o < size :: ids[o] == if start <= o < start + j then v else old(ids[o])
      {
        ids[start + j] := v;
      }
      assert ids[..size] == Claim(old(ids[..size]), start, len, v);
    }

    /** hlt_unregister_handler; the range it clears must lie within the C array, of which the block is a part. */
    method UnregisterHandler(start: nat) returns (ok: bool)
      requires Ready() && Ok(View()) && start < size
      requires ids[start] < count ==> start + handlers[ids[start]].len <= MAX_HLT_BLK_SIZE
      modifies this`count, ids, handlers
      ensures Ready() && View() == Step(old(View()), Unregister(start))
      ensures Fair(old(View()), Unregister(start)) ==> Ok(View())
      ensures ok <==> old(ids[start]) != 0
    {
      ghost var b := View();
      if Fair(b, Unregister(start)) { StepOk(b, Unregister(start)); }
      Dispatch(b, start);
      hide Ok, Fair;
      var handle := ids[start];
      if handle == 0 { return false; }
      var h := handlers[handle];
      SetRange(start, h.len, 0);
      handlers[handle] := h.(free := true);
      TrimCount();
      ok := true;
    }

    /** The loop that gives back trailing free slots. */
    method TrimCount()
      requires Ready()
      modifies this`count
      ensures Ready() && handlers[..count] == Trim(old(handlers[..count]))
    {
      while count > 0 && handlers[count - 1].free
        invariant Ready() && Trim(handlers[..count]) == Trim(old(handlers[..count]))
        decreases count
      {
        assert handlers[..count][..count - 1] == handlers[..count - 1];
        count := count - 1;
      }
    }

    /** hlt_handle: which slot serves an offset, and the offset it is given. */
    method Handle(offs: nat) returns (handle: nat, rel: int)
      requires Ready() && Ok(View()) && offs < size
      ensures handle < count && handle == ids[offs] && rel == offs - handlers[handle].start
      ensures if handle != 0 then Live(View(), handle) && 0 <= rel < handlers[handle].len
              else forall h | 0 <= h < count :: Live(View(), h) ==> !Covers(View().hs[h], offs)
    {
      Dispatch(View(), offs);
      handle := ids[offs];
      rel := offs - handlers[handle].start;
    }
  }
}
