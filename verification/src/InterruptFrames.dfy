/**
 Faked INT/CALL and IRET/RETF frames (src/base/core/int.c with the 16-bit stack macros and flag
 macros of src/include/cpu.h, debugger not compiled in).  The stack pointer is 16 bits wide and
 every byte of a frame is placed on its own, so a frame may wrap through offset zero.
 The reference behaviour is that of INT n and IRET in real-address mode, Intel 64 and IA-32
 Architectures Software Developer's Manual, volume 2.
 */
module InterruptFrames {
  import opened Basics

  const TF: bv32 := 0x100
  const IF: bv32 := 0x200
  const IOPL: bv32 := 0x3000
  const NT: bv32 := 0x4000
  const AC: bv32 := 0x4_0000
  const VIF: bv32 := 0x8_0000

  /** Registers and the 64K stack segment; `am` says that CR0.AM counts as set. */
  datatype Cpu = Cpu(cs: bv16, ip: bv16, sp: word, eflags: bv32, stack: seq<bv8>, am: bool)

  predicate Ok(c: Cpu) { |c.stack| == 0x10000 }

  function Wrap(x: int): word { x % 0x10000 }

  // ---------------------------------------------------------------- pushw, popw

  function Hi(v: bv16): bv8 { (v >> 8) as bv8 }

  function Lo(v: bv16): bv8 { (v & 0xff) as bv8 }

  function Join(h: bv8, l: bv8): bv16 { ((h as bv16) << 8) | (l as bv16) }

  lemma JoinSplit(v: bv16)
    ensures Join(Hi(v), Lo(v)) == v
  {
  }

  function Push(c: Cpu, v: bv16): Cpu
    requires Ok(c)
  {
    c.(stack := c.stack[Wrap(c.sp - 1) := Hi(v)][Wrap(c.sp - 2) := Lo(v)], sp := Wrap(c.sp - 2))
  }

  /** The byte `k` above the stack pointer. */
  function ByteAt(c: Cpu, k: int): bv8
    requires Ok(c)
  {
    c.stack[Wrap(c.sp + k)]
  }

  function Top(c: Cpu, at: int): bv16
    requires Ok(c)
  {
    Join(ByteAt(c, at + 1), ByteAt(c, at))
  }

  /** A pushed word is at the stack pointer, and everything else moved up by two. */
  lemma PushBytes(c: Cpu, v: bv16)
    requires Ok(c)
    ensures Ok(Push(c, v)) && Push(c, v).sp == Wrap(c.sp - 2)
    ensures Push(c, v).eflags == c.eflags && Push(c, v).am == c.am
    ensures ByteAt(Push(c, v), 0) == Lo(v) && ByteAt(Push(c, v), 1) == Hi(v)
    ensures forall k | 2 <= k < 0x10000 :: ByteAt(Push(c, v), k) == ByteAt(c, k - 2)
  {
    hide Hi, Lo, Wrap;
    var d := Push(c, v);
    WrapAdd(c.sp - 2, 0);
    WrapAdd(c.sp - 2, 1);
    WrapDiffer(c.sp - 1, c.sp - 2);
    forall k | 2 <= k < 0x10000 ensures ByteAt(d, k) == ByteAt(c, k - 2) {
      WrapAdd(c.sp - 2, k);
      WrapDiffer(c.sp + k - 2, c.sp - 1);
      WrapDiffer(c.sp + k - 2, c.sp - 2);
    }
  }

  lemma WrapAdd(a: int, k: int)
    ensures Wrap(Wrap(a) + k) == Wrap(a + k)
  {
  }

  // ---------------------------------------------------------------- flags

  /** read_FLAGS: the interrupt flag as the guest sees it is VIF. */
  function ReadFlags(f: bv32): bv32 { if f & VIF != 0 then f | IF else f & !IF }

  function LowWord(f: bv32): bv16 { (f & 0xffff) as bv16 }

  /** set_FLAGS */
  function SetFlags(n: bv16): bv32 {
    var f := (n as bv32) | IF | IOPL;
    if (n as bv32) & IF != 0 then f | VIF else f & !VIF
  }

  /** What entering an interrupt clears. */
  function EnterFlags(f: bv32, am: bool): bv32 {
    var g := f & !TF & !NT;
    (if am then g & !AC else g) & !VIF
  }

  // ---------------------------------------------------------------- frames

  function FakeIntTo(c: Cpu, cs: bv16, ip: bv16): Cpu
    requires Ok(c)
  {
    var c1 := Push(Push(Push(c, LowWord(ReadFlags(c.eflags))), c.cs), c.ip);
    c1.(cs := cs, ip := ip, eflags := EnterFlags(c.eflags, c.am))
  }

  function FakeCallTo(c: Cpu, cs: bv16, ip: bv16): Cpu
    requires Ok(c)
  {
    Push(Push(c, c.cs), c.ip).(cs := cs, ip := ip)
  }

  function FakeRetf(c: Cpu): Cpu
    requires Ok(c)
  {
    c.(ip := Top(c, 0), cs := Top(c, 2), sp := Wrap(c.sp + 4))
  }

  function FakeIret(c: Cpu): Cpu
    requires Ok(c)
  {
    c.(ip := Top(c, 0), cs := Top(c, 2), eflags := SetFlags(Top(c, 4)), sp := Wrap(c.sp + 6))
  }

  /** do_ret_from_int: keeps the flags the handler returns, but for VIF, TF and NT. */
  function RetFromInt(c: Cpu): Cpu
    requires Ok(c)
  {
    c.(ip := Top(c, 0), cs := Top(c, 2), eflags := PoppedFlags(c.eflags, Top(c, 4)), sp := Wrap(c.sp + 6))
  }

  function Extended(fl: bv16): bv32 { fl as bv32 }

  function PoppedFlags(g: bv32, fl: bv16): bv32 { ReturnedFlags(g, Extended(fl)) }

  function ReturnedFlags(g: bv32, n: bv32): bv32 {
    (if n & IF != 0 then g | VIF else g & !VIF) | (n & (TF | NT))
  }

  // ---------------------------------------------------------------- what code may do

  /** How a frame is left. */
  datatype Kind = IntIret | IntRet | CallRetf

  /**
   Real-mode code between entering and leaving frames: it may enter further frames, write
   below the stack pointer, change flags and jump.
   */
  datatype Op =
    | Enter(kind: Kind, cs: bv16, ip: bv16, body: seq<Op>)
    | Scratch(below: nat, v: bv8)
    | Flags(f: bv32)
    | Jump(cs: bv16, ip: bv16)

  function FrameSize(k: Kind): nat { if k.CallRetf? then 4 else 6 }

  function Open(c: Cpu, k: Kind, cs: bv16, ip: bv16): (c': Cpu)
    requires Ok(c)
    ensures Ok(c') && c'.am == c.am
  {
    if k.CallRetf? then FakeCallTo(c, cs, ip) else FakeIntTo(c, cs, ip)
  }

  function Close(c: Cpu, k: Kind): (c': Cpu)
    requires Ok(c)
    ensures Ok(c') && c'.sp == Wrap(c.sp + FrameSize(k)) && c'.stack == c.stack && c'.am == c.am
  {
    match k case IntIret => FakeIret(c) case IntRet => RetFromInt(c) case CallRetf => FakeRetf(c)
  }

  function Exec(c: Cpu, op: Op): (c': Cpu)
    requires Ok(c)
    ensures Ok(c') && c'.am == c.am
    decreases op, 0
  {
    match op
    case Enter(k, cs, ip, body) => Close(ExecAll(Open(c, k, cs, ip), body), k)
    case Scratch(below, v) => c.(stack := c.stack[Wrap(c.sp - 1 - below) := v])
    case Flags(f) => c.(eflags := f)
    case Jump(cs, ip) => c.(cs := cs, ip := ip)
  }

  function ExecAll(c: Cpu, ops: seq<Op>): (c': Cpu)
    requires Ok(c)
    ensures Ok(c') && c'.am == c.am
    decreases ops, 0
  {
    if ops == [] then c else ExecAll(Exec(c, ops[0]), ops[1..])
  }

  /** With `used` bytes of open frames, the code fits in 64K and leaves those frames alone. */
  predicate Fits(op: Op, used: nat)
    decreases op, 0
  {
    match op
    case Enter(k, _, _, body) => used + FrameSize(k) <= 0x10000 && FitsAll(body, used + FrameSize(k))
    case Scratch(below, _) => used + below < 0x10000
    case _ => true
  }

  predicate FitsAll(ops: seq<Op>, used: nat)
    decreases ops, 0
  {
    ops == [] || (Fits(ops[0], used) && FitsAll(ops[1..], used))
  }

  // ---------------------------------------------------------------- open frames survive

  /** The `used` bytes from the stack pointer up are the same in both. */
  ghost predicate SameFrames(c: Cpu, c': Cpu, used: nat)
    requires Ok(c) && Ok(c')
  {
    c.sp == c'.sp && forall k | 0 <= k < used :: ByteAt(c, k) == ByteAt(c', k)
  }

  lemma WrapDiffer(a: int, b: int)
    requires 0 < a - b < 0x10000
    ensures Wrap(a) != Wrap(b)
  {
  }

  /** The words a frame consists of, from the stack pointer up. */
  function FrameOf(c: Cpu, k: Kind): seq<bv16> {
    if k.CallRetf? then [c.ip, c.cs] else [c.ip, c.cs, LowWord(ReadFlags(c.eflags))]
  }

  ghost predicate Holds(c: Cpu, words: seq<bv16>)
    requires Ok(c)
  {
    forall j | 0 <= j < |words| :: ByteAt(c, 2 * j) == Lo(words[j]) && ByteAt(c, 2 * j + 1) == Hi(words[j])
  }

  /** Opening a frame puts its words on top and shifts the rest up unchanged. */
  lemma OpenFrame(c: Cpu, k: Kind, cs: bv16, ip: bv16)
    requires Ok(c)
    ensures var d := Open(c, k, cs, ip);
            d.sp == Wrap(c.sp - FrameSize(k)) && d.cs == cs && d.ip == ip && d.am == c.am &&
            d.eflags == (if k.CallRetf? then c.eflags else EnterFlags(c.eflags, c.am)) &&
            Holds(d, FrameOf(c, k)) &&
            forall j | FrameSize(k) <= j < 0x10000 :: ByteAt(d, j) == ByteAt(c, j - FrameSize(k))
  {
    hide Hi, Lo, LowWord, ReadFlags, Push, Wrap, EnterFlags;
    var d := Open(c, k, cs, ip);
    if k.CallRetf? {
      PushTwo(c, c.cs, c.ip);
      SameBytes(d, Push(Push(c, c.cs), c.ip));
    } else {
      var fl := LowWord(ReadFlags(c.eflags));
      PushBytes(c, fl);
      PushTwo(Push(c, fl), c.cs, c.ip);
      SameBytes(d, Push(Push(Push(c, fl), c.cs), c.ip));
      WrapAdd(c.sp - 2, -4);
    }
  }

  lemma PushTwo(c: Cpu, v: bv16, w: bv16)
    requires Ok(c)
    ensures Ok(Push(c, v))
    ensures var d := Push(Push(c, v), w);
            Ok(d) && d.sp == Wrap(c.sp - 4) && d.eflags == c.eflags && d.am == c.am &&
            ByteAt(d, 0) == Lo(w) && ByteAt(d, 1) == Hi(w) && ByteAt(d, 2) == Lo(v) && ByteAt(d, 3) == Hi(v) &&
            forall j | 4 <= j < 0x10000 :: ByteAt(d, j) == ByteAt(c, j - 4)
  {
    hide Hi, Lo, Push, Wrap, ByteAt;
    var c1 := Push(c, v);
    PushBytes(c, v);
    PushBytes(c1, w);
    WrapAdd(c.sp - 2, -2);
    forall j | 4 <= j < 0x10000 ensures ByteAt(Push(c1, w), j) == ByteAt(c, j - 4) {
      assert ByteAt(Push(c1, w), j) == ByteAt(c1, j - 2);
    }
  }

  lemma SameBytes(c: Cpu, d: Cpu)
    requires Ok(c) && Ok(d) && c.sp == d.sp && c.stack == d.stack
    ensures forall j :: ByteAt(c, j) == ByteAt(d, j)
  {
  }

  /** Closing a frame takes its words from the top, whatever the code in between did elsewhere. */
  lemma CloseFrame(c: Cpu, d: Cpu, k: Kind)
    requires Ok(c) && Ok(d) && Holds(d, FrameOf(c, k))
    ensures var e := Close(d, k);
            e.cs == c.cs && e.ip == c.ip && e.stack == d.stack &&
            (k.IntIret? ==> e.eflags == SetFlags(LowWord(ReadFlags(c.eflags)))) &&
            (k.CallRetf? ==> e.eflags == d.eflags)
  {
    hide Hi, Lo, Join, LowWord, ReadFlags, SetFlags, ByteAt, Wrap;
    var words := FrameOf(c, k);
    assert ByteAt(d, 0) == Lo(words[0]) && ByteAt(d, 0 + 1) == Hi(words[0]);
    assert ByteAt(d, 2 * 1) == Lo(words[1]) && ByteAt(d, 2 * 1 + 1) == Hi(words[1]);
    JoinSplit(words[0]);
    JoinSplit(words[1]);
    if !k.CallRetf? {
      assert ByteAt(d, 2 * 2) == Lo(words[2]) && ByteAt(d, 2 * 2 + 1) == Hi(words[2]);
      JoinSplit(words[2]);
    }
  }

  /** INT followed by IRET: the low word comes back with IF and IOPL forced on, VIF as it was. */
  lemma IretFlags(f: bv32)
    ensures SetFlags(LowWord(ReadFlags(f))) == (f & 0xffff) | IF | IOPL | (f & VIF)
  {
    hide LowWord, ReadFlags;
    Widen(ReadFlags(f));
    IretBits(f);
  }

  lemma Widen(g: bv32)
    ensures LowWord(g) as bv32 == g & 0xffff
  {
  }

  lemma IretBits(f: bv32)
    ensures var n := ReadFlags(f) & 0xffff;
            (if n & IF != 0 then n | IF | IOPL | VIF else (n | IF | IOPL) & !VIF) == (f & 0xffff) | IF | IOPL | (f & VIF)
  {
    if f & 0x8_0000 != 0 {
      assert f & 0x8_0000 == 0x8_0000;
    }
  }

  // ---------------------------------------------------------------- nesting

  /**
   Leaving a frame restores CS, IP and SP and keeps every frame opened before it, whatever
   properly nested code ran inside, wherever SP wraps; IRET also restores VIF and the low word
   of the flags but for the bits it forces on.
   */
  lemma NestedFrame(c: Cpu, op: Op, used: nat)
    requires Ok(c) && op.Enter? && Fits(op, used)
    ensures var e := Exec(c, op);
            e.cs == c.cs && e.ip == c.ip && SameFrames(c, e, used) &&
            (op.kind.IntIret? ==> e.eflags == (c.eflags & 0xffff) | IF | IOPL | (c.eflags & VIF))
    decreases op, 0
  {
    var k, size := op.kind, FrameSize(op.kind);
    OpenFrame(c, k, op.cs, op.ip);
    var d := Open(c, k, op.cs, op.ip);
    var d' := ExecAll(d, op.body);
    NestedCode(d, op.body, used + size);
    FrameSurvives(c, d, d', k, used);
    CloseFrame(c, d', k);
    IretFlags(c.eflags);
    ClosedStack(c, d, d', k, used);
  }

  lemma FrameSurvives(c: Cpu, d: Cpu, d': Cpu, k: Kind, used: nat)
    requires Ok(c) && Ok(d) && Ok(d') && Holds(d, FrameOf(c, k)) && SameFrames(d, d', used + FrameSize(k))
    ensures Holds(d', FrameOf(c, k))
  {
  }

  lemma ClosedStack(c: Cpu, d: Cpu, d': Cpu, k: Kind, used: nat)
    requires Ok(c) && Ok(d) && Ok(d') && used + FrameSize(k) <= 0x10000
    requires d.sp == Wrap(c.sp - FrameSize(k)) && SameFrames(d, d', used + FrameSize(k))
    requires forall j | FrameSize(k) <= j < 0x10000 :: ByteAt(d, j) == ByteAt(c, j - FrameSize(k))
    ensures SameFrames(c, Close(d', k), used)
  {
    hide Join, SetFlags, Wrap;
    var e, size := Close(d', k), FrameSize(k);
    WrapAdd(c.sp - size, size);
    WrapSmall(c.sp);
    forall j | 0 <= j < used ensures ByteAt(c, j) == ByteAt(e, j) {
      assert ByteAt(d, j + size) == ByteAt(c, j) && ByteAt(d, j + size) == ByteAt(d', j + size);
      WrapAdd(d'.sp + size, j);
      WrapAdd(c.sp - size, j + size);
      WrapAdd(c.sp - size, size);
    }
  }

  lemma WrapSmall(x: word)
    ensures Wrap(x) == x
  {
  }

  /** Properly nested code returns SP and keeps every open frame. */
  lemma NestedCode(c: Cpu, ops: seq<Op>, used: nat)
    requires Ok(c) && FitsAll(ops, used) && used <= 0x10000
    ensures SameFrames(c, ExecAll(c, ops), used)
    decreases ops, 0
  {
    hide ByteAt, Wrap;
    if ops != [] {
      var c1 := Exec(c, ops[0]);
      NestedStep(c, ops[0], used);
      NestedCode(c1, ops[1..], used);
      var c2 := ExecAll(c1, ops[1..]);
      forall k | 0 <= k < used ensures ByteAt(c, k) == ByteAt(c2, k) {
        assert ByteAt(c, k) == ByteAt(c1, k) && ByteAt(c1, k) == ByteAt(c2, k);
      }
    }
  }

  lemma NestedStep(c: Cpu, op: Op, used: nat)
    requires Ok(c) && Fits(op, used) && used <= 0x10000
    ensures SameFrames(c, Exec(c, op), used)
    decreases op, 1
  {
    match op
    case Enter(_, _, _, _) => NestedFrame(c, op, used);
    case Scratch(below, v) =>
      hide Wrap;
      forall k | 0 <= k < used ensures ByteAt(c, k) == ByteAt(Exec(c, op), k) {
        WrapDiffer(c.sp + k, c.sp - 1 - below);
      }
    case _ =>
  }

  /** Frames alone, without code that sets flags in between. */
  predicate Quiet(ops: seq<Op>)
    decreases ops
  {
    ops == [] || (!ops[0].Flags? && (ops[0].Enter? ==> Quiet(ops[0].body)) && Quiet(ops[1..]))
  }

  /** Both flag registers agree on VIF, TF and NT. */
  predicate SameMask(f: bv32, g: bv32) { f & (VIF | TF | NT) == g & (VIF | TF | NT) }

  /** Quiet code returns VIF, TF and NT, through any nesting of INT, CALL and their returns. */
  lemma QuietFlags(c: Cpu, ops: seq<Op>, used: nat)
    requires Ok(c) && FitsAll(ops, used) && used <= 0x10000 && Quiet(ops)
    ensures SameMask(ExecAll(c, ops).eflags, c.eflags)
    decreases ops, 0
  {
    if ops != [] {
      hide SameMask, Exec;
      QuietStep(c, ops[0], used);
      QuietFlags(Exec(c, ops[0]), ops[1..], used);
      MaskTrans(ExecAll(c, ops).eflags, Exec(c, ops[0]).eflags, c.eflags);
    }
  }

  lemma MaskTrans(f: bv32, g: bv32, h: bv32)
    requires SameMask(f, g) && SameMask(g, h)
    ensures SameMask(f, h)
  {
  }

  lemma QuietStep(c: Cpu, op: Op, used: nat)
    requires Ok(c) && Fits(op, used) && used <= 0x10000 && !op.Flags? && (op.Enter? ==> Quiet(op.body))
    ensures SameMask(Exec(c, op).eflags, c.eflags)
    decreases op, 1
  {
    hide SameMask, EnterFlags, SameFrames, Holds, FrameOf, Open, Close, ByteAt, Exec;
    ExecIs(c, op);
    if op.Enter? {
      var k := op.kind;
      var d := Open(c, k, op.cs, op.ip);
      OpenFrame(c, k, op.cs, op.ip);
      var d' := ExecAll(d, op.body);
      QuietFlags(d, op.body, used + FrameSize(k));
      NestedCode(d, op.body, used + FrameSize(k));
      FrameSurvives(c, d, d', k, used);
      CloseMask(c, d, d', k);
    } else {
      SelfMask(c.eflags);
    }
  }

  lemma ExecIs(c: Cpu, op: Op)
    requires Ok(c)
    ensures op.Enter? ==> Exec(c, op) == Close(ExecAll(Open(c, op.kind, op.cs, op.ip), op.body), op.kind)
    ensures !op.Enter? && !op.Flags? ==> Exec(c, op).eflags == c.eflags
  {
    hide Open, Close, ExecAll;
  }

  lemma SelfMask(f: bv32)
    ensures SameMask(f, f)
  {
  }

  lemma CloseMask(c: Cpu, d: Cpu, d': Cpu, k: Kind)
    requires Ok(c) && Ok(d') && Holds(d', FrameOf(c, k)) && SameMask(d'.eflags, d.eflags)
    requires d.eflags == if k.CallRetf? then c.eflags else EnterFlags(c.eflags, c.am)
    ensures SameMask(Close(d', k).eflags, c.eflags)
  {
    hide SameMask, EnterFlags, Holds, FrameOf, SetFlags, LowWord, ReadFlags, Restored, FakeIret, RetFromInt, FakeRetf;
    CloseFrame(c, d', k);
    if k.IntIret? {
      IretMask(c.eflags);
    } else if k.IntRet? {
      RetFlags(c, d');
      RetMask(RetFromInt(d').eflags, c.eflags, d'.eflags, c.am);
    }
  }

  lemma IretMask(f: bv32)
    ensures SameMask(SetFlags(LowWord(ReadFlags(f))), f)
  {
    hide SetFlags, LowWord, ReadFlags;
    IretFlags(f);
  }

  lemma RetMask(h: bv32, f: bv32, g: bv32, am: bool)
    requires Restored(h, f, g) && SameMask(g, EnterFlags(f, am))
    ensures SameMask(h, f)
  {
    hide EnterFlags, Restored;
    EntryBits(f, am);
    RestoredBits(h, f, g);
  }

  lemma RestoredBits(h: bv32, f: bv32, g: bv32)
    requires Restored(h, f, g) && g & (TF | NT) == 0
    ensures SameMask(h, f)
  {
  }

  // ---------------------------------------------------------------- entry, bit by bit and byte by byte

  /** Entering an interrupt clears VIF, TF and NT, and AC if CR0.AM counts as set, and changes no other bit. */
  lemma EntryBits(f: bv32, am: bool)
    ensures var g := EnterFlags(f, am);
            g & (VIF | TF | NT) == 0 && g & TF == 0 && g & NT == 0 && g & VIF == 0 &&
            g & AC == (if am then 0 else f & AC) &&
            g & !(VIF | TF | NT | AC) == f & !(VIF | TF | NT | AC)
  {
  }

  /** The same as two masks. */
  lemma EntryMask(f: bv32)
    ensures EnterFlags(f, true) == f & 0xfff3_beff && EnterFlags(f, false) == f & 0xfff7_beff
  {
  }

  /** So the handler runs with interrupts off and untraced, until it sets flags itself, whatever frames it enters. */
  lemma MaskedInside(c: Cpu, k: Kind, cs: bv16, ip: bv16, ops: seq<Op>, used: nat)
    requires Ok(c) && !k.CallRetf? && used + 6 <= 0x10000 && FitsAll(ops, used + 6) && Quiet(ops)
    ensures var g := ExecAll(Open(c, k, cs, ip), ops).eflags;
            g & VIF == 0 && g & TF == 0 && g & NT == 0 && ReadFlags(g) & IF == 0
  {
    hide EnterFlags, Open, ReadFlags, Holds, FrameOf;
    OpenFrame(c, k, cs, ip);
    var d := Open(c, k, cs, ip);
    QuietFlags(d, ops, used + 6);
    EntryBits(c.eflags, c.am);
    MaskedBits(ExecAll(d, ops).eflags, EnterFlags(c.eflags, c.am));
  }

  lemma MaskedBits(g: bv32, f: bv32)
    requires SameMask(g, f) && f & (VIF | TF | NT) == 0
    ensures g & VIF == 0 && g & TF == 0 && g & NT == 0 && ReadFlags(g) & IF == 0
  {
  }

  /** The word pushed: the low flags, with VIF in the place of IF. */
  lemma PushedBits(f: bv32)
    ensures f & VIF == 0 ==> Pushed(f) == f & 0xfdff
    ensures f & VIF != 0 ==> Pushed(f) == (f & 0xfdff) | IF
  {
    hide ReadFlags;
    ReadBits(f);
    IfOff(f);
    IfOn(f);
  }

  lemma ReadBits(f: bv32)
    ensures f & VIF == 0 ==> ReadFlags(f) == f & !IF
    ensures f & VIF != 0 ==> ReadFlags(f) == f | IF
  {
  }

  lemma IfOff(f: bv32)
    ensures (f & !IF) & 0xffff == f & 0xfdff
  {
  }

  lemma IfOn(f: bv32)
    ensures (f | IF) & 0xffff == (f & 0xfdff) | IF
  {
  }

  /** Any word popped by IRET: its bits with IF and IOPL forced on, VIF from its IF, and nothing above but VIF. */
  lemma SetBits(n: bv16)
    ensures var g := SetFlags(n);
            g & 0xffff == Extended(n) | IF | IOPL && (g & VIF != 0 <==> Extended(n) & IF != 0) && g & !(VIF | 0xffff) == 0
  {
  }

  /** Words are kept low byte first. */
  lemma LowByteFirst(v: bv16)
    ensures Lo(v) as bv16 == v & 0xff && Hi(v) as bv16 == v >> 8
  {
  }

  /** The frame of an interrupt in memory: IP at the new SP, then CS, then the flags; of a call: IP, then CS. */
  lemma FrameLayout(c: Cpu, cs: bv16, ip: bv16)
    requires Ok(c)
    ensures var d := FakeIntTo(c, cs, ip);
            Ok(d) && d.sp == Wrap(c.sp - 6) && d.cs == cs && d.ip == ip &&
            ByteAt(d, 0) == Lo(c.ip) && ByteAt(d, 1) == Hi(c.ip) && ByteAt(d, 2) == Lo(c.cs) && ByteAt(d, 3) == Hi(c.cs) &&
            ByteAt(d, 4) == Lo(LowWord(ReadFlags(c.eflags))) && ByteAt(d, 5) == Hi(LowWord(ReadFlags(c.eflags)))
    ensures var d := FakeCallTo(c, cs, ip);
            Ok(d) && d.sp == Wrap(c.sp - 4) && d.cs == cs && d.ip == ip && d.eflags == c.eflags &&
            ByteAt(d, 0) == Lo(c.ip) && ByteAt(d, 1) == Hi(c.ip) && ByteAt(d, 2) == Lo(c.cs) && ByteAt(d, 3) == Hi(c.cs)
  {
    hide Hi, Lo, LowWord, ReadFlags, ByteAt, EnterFlags, FakeIntTo, FakeCallTo, Wrap;
    LayoutOf(c, IntIret, cs, ip);
    LayoutOf(c, CallRetf, cs, ip);
  }

  lemma LayoutOf(c: Cpu, k: Kind, cs: bv16, ip: bv16)
    requires Ok(c)
    ensures var d, w := Open(c, k, cs, ip), FrameOf(c, k);
            d == (if k.CallRetf? then FakeCallTo(c, cs, ip) else FakeIntTo(c, cs, ip)) &&
            d.sp == Wrap(c.sp - FrameSize(k)) && d.cs == cs && d.ip == ip && (k.CallRetf? ==> d.eflags == c.eflags) &&
            ByteAt(d, 0) == Lo(w[0]) && ByteAt(d, 1) == Hi(w[0]) && ByteAt(d, 2) == Lo(w[1]) && ByteAt(d, 3) == Hi(w[1]) &&
            (|w| == 3 ==> ByteAt(d, 4) == Lo(w[2]) && ByteAt(d, 5) == Hi(w[2]))
  {
    hide Hi, Lo, LowWord, ReadFlags, ByteAt, EnterFlags, FakeIntTo, FakeCallTo, Wrap;
    OpenFrame(c, k, cs, ip);
    var d, w := Open(c, k, cs, ip), FrameOf(c, k);
    assert ByteAt(d, 2 * 0) == Lo(w[0]) && ByteAt(d, 2 * 0 + 1) == Hi(w[0]);
    assert ByteAt(d, 2 * 1) == Lo(w[1]) && ByteAt(d, 2 * 1 + 1) == Hi(w[1]);
    if |w| == 3 { assert ByteAt(d, 2 * 2) == Lo(w[2]) && ByteAt(d, 2 * 2 + 1) == Hi(w[2]); }
  }

  /** Stack offsets are taken modulo 64K. */
  lemma WrapIs(x: int)
    ensures 0 <= Wrap(x) < 0x10000 && (x - Wrap(x)) % 0x10000 == 0
  {
  }

  /** Flags `h` after a return: VIF as in `f`, TF and NT set where `f` or `g` has them, the rest as in `g`. */
  predicate Restored(h: bv32, f: bv32, g: bv32) {
    h & VIF == f & VIF && h & (TF | NT) == (g | f) & (TF | NT) && h & !(VIF | TF | NT) == g & !(VIF | TF | NT)
  }

  /** do_ret_from_int also returns VIF, and sets TF and NT again if they were set. */
  lemma RetFlags(c: Cpu, d: Cpu)
    requires Ok(c) && Ok(d) && Holds(d, FrameOf(c, IntRet))
    ensures Restored(RetFromInt(d).eflags, c.eflags, d.eflags)
  {
    hide ReturnedFlags, Top, Pushed, Holds, FrameOf, Restored, Extended;
    RetWord(c, d);
    RetBits(c.eflags, d.eflags);
  }

  /** The flags an interrupt pushes. */
  function Pushed(f: bv32): bv32 { ReadFlags(f) & 0xffff }

  lemma RetWord(c: Cpu, d: Cpu)
    requires Ok(c) && Ok(d) && Holds(d, FrameOf(c, IntRet))
    ensures Extended(Top(d, 4)) == Pushed(c.eflags)
  {
    hide Hi, Lo, Join, LowWord, ReadFlags, ByteAt, Extended, Pushed;
    var words := FrameOf(c, IntRet);
    assert ByteAt(d, 2 * 2) == Lo(words[2]) && ByteAt(d, 2 * 2 + 1) == Hi(words[2]);
    JoinSplit(words[2]);
    PushedWord(c.eflags);
  }

  lemma PushedWord(f: bv32)
    ensures Extended(LowWord(ReadFlags(f))) == Pushed(f)
  {
    hide ReadFlags, LowWord;
    Widen(ReadFlags(f));
  }

  lemma RetBits(f: bv32, g: bv32)
    ensures Restored(ReturnedFlags(g, Pushed(f)), f, g)
  {
    hide ReturnedFlags, Pushed;
    RetVif(f, g);
    RetTrace(f, g);
    RetOthers(f, g);
  }

  lemma RetVif(f: bv32, g: bv32)
    ensures ReturnedFlags(g, Pushed(f)) & VIF == f & VIF
  {
  }

  lemma RetTrace(f: bv32, g: bv32)
    ensures ReturnedFlags(g, Pushed(f)) & (TF | NT) == (g | f) & (TF | NT)
  {
  }

  lemma RetOthers(f: bv32, g: bv32)
    ensures ReturnedFlags(g, Pushed(f)) & !(VIF | TF | NT) == g & !(VIF | TF | NT)
  {
  }

  // ---------------------------------------------------------------- in memory

  /** With SP moved up by `n`, the top is what was `n` above. */
  lemma Above(c: Cpu, d: Cpu, n: nat)
    requires Ok(c) && d.stack == c.stack && d.sp == Wrap(c.sp + n)
    ensures Top(d, 0) == Top(c, n)
  {
  }

  /** Guest memory and the registers; the stack segment starts at `base`. */
  class Machine {
    const mem: array<bv8>
    const base: nat
    const am: bool
    var cs: bv16
    var ip: bv16
    var sp: word
    var eflags: bv32

    ghost predicate Ready()
      reads this
    {
      base + 0x10000 <= mem.Length
    }

    ghost function State(): Cpu
      requires Ready()
      reads this, mem
    {
      Cpu(cs, ip, sp, eflags, mem[base..base + 0x10000], am)
    }

    constructor (mem: array<bv8>, base: nat, am: bool)
      requires base + 0x10000 <= mem.Length
      ensures Ready() && this.mem == mem && this.base == base && this.am == am
    {
      this.mem, this.base, this.am := mem, base, am;
    }

    /** pushw: the high byte first, each at its own wrapped offset. */
    method Pushw(val: bv16)
      requires Ready()
      modifies this`sp, mem
      ensures Ready() && State() == Push(old(State()), val)
      ensures mem[..base] == old(mem[..base]) && mem[base + 0x10000..] == old(mem[base + 0x10000..])
    {
      hide Hi, Lo, Wrap;
      PushByte(Hi(val));
      PushByte(Lo(val));
      WrapAdd(old(sp) - 1, -1);
    }

    method PushByte(b: bv8)
      requires Ready()
      modifies this`sp, mem
      ensures Ready() && sp == Wrap(old(sp) - 1)
      ensures mem[base..base + 0x10000] == old(mem[base..base + 0x10000])[sp := b]
      ensures mem[..base] == old(mem[..base]) && mem[base + 0x10000..] == old(mem[base + 0x10000..])
    {
      sp := Wrap(sp - 1);
      mem[base + sp] := b;
    }

    /** popw */
    method Popw() returns (v: bv16)
      requires Ready()
      modifies this`sp
      ensures Ready() && v == old(Top(State(), 0)) && State() == old(State()).(sp := Wrap(old(sp) + 2))
    {
      hide Join;
      var lo := mem[base + sp];
      sp := Wrap(sp + 1);
      var hi := mem[base + sp];
      sp := Wrap(sp + 1);
      v := Join(hi, lo);
    }

    method IntTo(newCs: bv16, newIp: bv16)
      requires Ready()
      modifies this, mem
      ensures Ready() && State() == FakeIntTo(old(State()), newCs, newIp)
      ensures eflags & VIF == 0 && eflags & TF == 0 && eflags & NT == 0
      ensures mem[..base] == old(mem[..base]) && mem[base + 0x10000..] == old(mem[base + 0x10000..])
    {
      hide LowWord, ReadFlags, EnterFlags, Push;
      Pushw(LowWord(ReadFlags(eflags)));
      Pushw(cs);
      Pushw(ip);
      EntryBits(eflags, am);
      eflags := EnterFlags(eflags, am);
      cs, ip := newCs, newIp;
    }

    method CallTo(newCs: bv16, newIp: bv16)
      requires Ready()
      modifies this, mem
      ensures Ready() && State() == FakeCallTo(old(State()), newCs, newIp)
      ensures mem[..base] == old(mem[..base]) && mem[base + 0x10000..] == old(mem[base + 0x10000..])
    {
      hide Push;
      Pushw(cs);
      Pushw(ip);
      cs, ip := newCs, newIp;
    }

    method Retf()
      requires Ready()
      modifies this
      ensures Ready() && State() == FakeRetf(old(State()))
    {
      hide Join, Wrap, ByteAt;
      ghost var c := State();
      ip := Popw();
      Above(c, c.(sp := Wrap(c.sp + 2), ip := ip), 2);
      cs := Popw();
      WrapAdd(c.sp + 2, 2);
    }

    method Iret()
      requires Ready()
      modifies this
      ensures Ready() && State() == FakeIret(old(State()))
    {
      hide Join, SetFlags, Wrap, ByteAt;
      ghost var c := State();
      ip := Popw();
      Above(c, c.(sp := Wrap(c.sp + 2), ip := ip), 2);
      cs := Popw();
      WrapAdd(c.sp + 2, 2);
      Above(c, c.(sp := Wrap(c.sp + 4), ip := ip, cs := cs), 4);
      var fl := Popw();
      WrapAdd(c.sp + 4, 2);
      eflags := SetFlags(fl);
    }

    /** do_ret_from_int */
    method ReturnFromInt()
      requires Ready()
      modifies this
      ensures Ready() && State() == RetFromInt(old(State()))
    {
      hide Join, PoppedFlags, Wrap, ByteAt;
      ghost var c := State();
      ip := Popw();
      Above(c, c.(sp := Wrap(c.sp + 2), ip := ip), 2);
      cs := Popw();
      WrapAdd(c.sp + 2, 2);
      Above(c, c.(sp := Wrap(c.sp + 4), ip := ip, cs := cs), 4);
      var fl := Popw();
      WrapAdd(c.sp + 4, 2);
      eflags := PoppedFlags(eflags, fl);
    }
  }
}
