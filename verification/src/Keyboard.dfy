/**
 The BIOS keyboard buffer (src/base/bios/int16.c): a ring of words between START and END that
 always keeps one word free, filled by store_key and emptied by get_key, which translates or
 drops keys for callers that know only the old keyboard.
 */
module Keyboard {
  import opened Basics

  /** do_extended; None is the ditched key. */
  function Translate(key: word, extended: bool): Option<word> {
    var scan, ch := key / 256, key % 256;
    if extended || key == 0x00e0 then Some(key)
    else if ch == 0xe0 then
      if scan == 0x23 then Some(0x00e0) else if scan >= 0x85 then None else Some(key - ch)
    else if ch == 0 && (scan == 0x01 || scan == 0x0e || 0x1a <= scan < 0x1d || 0x27 <= scan < 0x2a || scan == 0x2b ||
                        0x33 <= scan < 0x36 || scan == 0x37 || scan == 0x4a || scan == 0x4c || scan == 0x4e) then None
    else if key == 0xe02f then Some(0x352f)
    else if key == 0xe00d || key == 0xe00a then Some(ch + 0x1c00)
    else if scan >= 0x85 then None else Some(key)
  }

  /** Translation hands out no scan code from 0x85 up, and touches nothing for extended callers. */
  lemma TranslateHides(key: word)
    ensures Translate(key, true) == Some(key)
    ensures Translate(key, false).Some? ==> Translate(key, false).value / 256 < 0x85
  {
  }

  /** Scan codes that, with character 0, only the new keyboard has. */
  const NewPlain: set<int> :=
    {0x01, 0x0e, 0x1a, 0x1b, 0x1c, 0x27, 0x28, 0x29, 0x2b, 0x33, 0x34, 0x35, 0x37, 0x4a, 0x4c, 0x4e}

  /** The keys an old caller is not to see. */
  predicate New(key: word) {
    var scan, ch := key / 256, key % 256;
    (ch == 0 && scan in NewPlain) || (scan >= 0x85 && key != 0xe02f && key != 0xe00d && key != 0xe00a)
  }

  /**
   For callers that know only the old keyboard: a key is ditched exactly if it is one of the new
   ones; a grey key keeps its scan code and loses its character; the keypad's slash and Enter
   become the main ones; small er becomes its bare character; every other key comes out as it is.
   */
  lemma TranslateExact(key: word)
    ensures var t, scan, ch := Translate(key, false), key / 256, key % 256;
            (t.None? <==> New(key)) &&
            (ch == 0xe0 && scan < 0x85 && scan != 0x23 && scan != 0 ==> t == Some(scan * 256)) &&
            (key == 0x23e0 || key == 0x00e0 ==> t == Some(0x00e0)) &&
            (key == 0xe02f ==> t == Some(0x352f)) &&
            (key == 0xe00d ==> t == Some(0x1c0d)) && (key == 0xe00a ==> t == Some(0x1c0a)) &&
            (ch != 0xe0 && key !in {0xe02f, 0xe00d, 0xe00a} && !New(key) ==> t == Some(key)) &&
            (t.Some? && t.value % 256 == 0xe0 ==> t.value == 0x00e0)
  {
  }

  /** A stream of keys as a caller sees it: translated, without the ditched ones. */
  function Stream(keys: seq<word>, extended: bool): seq<word> {
    if keys == [] then []
    else
      var k := Translate(keys[0], extended);
      (if k.Some? then [k.value] else []) + Stream(keys[1..], extended)
  }

  lemma Assoc(a: seq<word>, b: seq<word>, c: seq<word>)
    ensures a + (b + c) == a + b + c
  {
  }

  lemma {:induction false} StreamAppend(a: seq<word>, b: seq<word>, extended: bool)
    ensures Stream(a + b, extended) == Stream(a, extended) + Stream(b, extended)
  {
    hide Translate;
    if a == [] {
      assert a + b == b;
    } else {
      StreamAppend(a[1..], b, extended);
      assert (a + b)[1..] == a[1..] + b && (a + b)[0] == a[0];
      var k := Translate(a[0], extended);
      var first := if k.Some? then [k.value] else [];
      Assoc(first, Stream(a[1..], extended), Stream(b, extended));
    }
  }

  // ---------------------------------------------------------------- get_key on a queue

  /**
   How get_key ends: with a key; with the zero the INT 15h hook asks for; with "no key" (a
   check of an empty buffer); or it waits (a blocking read), to go on when it wakes up.
   */
  datatype Got = Key(key: word) | HookZero | NoKey | Waits

  datatype Result = Result(got: Got, rest: seq<word>)

  function Get(q: seq<word>, blocking: bool, extended: bool, hook: bool): Result {
    if q == [] then Result(if hook then HookZero else if blocking then Waits else NoKey, [])
    else
      match Translate(q[0], extended)
      case None => Get(q[1..], blocking, extended, hook)
      case Some(k) => Result(Key(k), if k == 0 || blocking then q[1..] else q)
  }

  /** Was the key that came out also taken out of the buffer? */
  predicate Taken(g: Got, blocking: bool) { g.Key? && (blocking || g.key == 0) }

  /** Whatever get_key takes is the front of the stream, and nothing else of the stream is lost. */
  lemma {:induction false} GetStream(q: seq<word>, blocking: bool, extended: bool, hook: bool)
    ensures var r := Get(q, blocking, extended, hook);
            Stream(q, extended) == (if Taken(r.got, blocking) then [r.got.key] else []) + Stream(r.rest, extended) &&
            (r.got.Key? <==> Stream(q, extended) != []) &&
            (r.got.Key? ==> r.got.key == Stream(q, extended)[0])
  {
    hide Translate;
    if q != [] && Translate(q[0], extended).None? {
      GetStream(q[1..], blocking, extended, hook);
    }
  }

  /** With no key for the caller, the new ones are gone from the buffer and the hook decides, or the kind of call. */
  lemma {:induction false} GetNothing(q: seq<word>, blocking: bool, extended: bool, hook: bool)
    ensures var r := Get(q, blocking, extended, hook);
            Stream(q, extended) == [] ==>
              r.rest == [] && r.got == (if hook then HookZero else if blocking then Waits else NoKey)
  {
    hide Translate;
    if q != [] && Translate(q[0], extended).None? { GetNothing(q[1..], blocking, extended, hook); }
  }

  /** What stays in the buffer: all from the key handed out on, or all after it if it was taken out. */
  lemma {:induction false} GetRest(q: seq<word>, blocking: bool, extended: bool, hook: bool) returns (k: nat)
    requires Get(q, blocking, extended, hook).got.Key?
    ensures var r := Get(q, blocking, extended, hook);
            k < |q| && Translate(q[k], extended) == Some(r.got.key) && (forall j | 0 <= j < k :: Translate(q[j], extended).None?) &&
            r.rest == if blocking || r.got.key == 0 then q[k + 1..] else q[k..]
  {
    hide Translate;
    if Translate(q[0], extended).None? {
      k := GetRest(q[1..], blocking, extended, hook);
      k := k + 1;
    } else {
      k := 0;
    }
  }

  /** A check that reports a nonzero key is followed by a read of that key, whatever is stored meanwhile. */
  lemma {:induction false} CheckThenRead(q: seq<word>, more: seq<word>, extended: bool, h1: bool, h2: bool)
    ensures var c := Get(q, false, extended, h1);
            c.got.Key? && c.got.key != 0 ==>
              c.rest != [] &&
              var r := Get(c.rest + more, true, extended, h2);
              r.got == c.got && r.rest == c.rest[1..] + more
  {
    hide Translate;
    if q != [] {
      if Translate(q[0], extended).None? {
        CheckThenRead(q[1..], more, extended, h1, h2);
      } else {
        assert (q + more)[1..] == q[1..] + more;
      }
    }
  }

  // ---------------------------------------------------------------- runs

  datatype Event = Store(key: word) | Read(hook: bool) | Check(hook: bool)

  /** Buffer, keys accepted so far and keys taken out so far. */
  datatype State = State(q: seq<word>, stored: seq<word>, taken: seq<word>)

  function Step(s: State, e: Event, extended: bool, capacity: nat): State {
    match e
    case Store(k) => if |s.q| == capacity then s else State(s.q + [k], s.stored + [k], s.taken)
    case Read(hook) =>
      var r := Get(s.q, true, extended, hook);
      State(r.rest, s.stored, if r.got.Key? then s.taken + [r.got.key] else s.taken)
    case Check(hook) =>
      var r := Get(s.q, false, extended, hook);
      State(r.rest, s.stored, if Taken(r.got, false) then s.taken + [r.got.key] else s.taken)
  }

  function Run(s: State, es: seq<Event>, extended: bool, capacity: nat): State
    decreases es
  {
    if es == [] then s else Run(Step(s, es[0], extended, capacity), es[1..], extended, capacity)
  }

  /** Every accepted key is either taken, in order, or still to come, or was ditched. */
  predicate Fifo(s: State, extended: bool) {
    s.taken + Stream(s.q, extended) == Stream(s.stored, extended)
  }

  /**
   Over any interleaving of stores, blocking reads and checks of one kind, the keys handed out
   are the accepted keys in the order stored, translated, without the ditched ones.
   */
  lemma {:induction false} FifoRun(s: State, es: seq<Event>, extended: bool, capacity: nat)
    requires Fifo(s, extended)
    ensures Fifo(Run(s, es, extended, capacity), extended)
    decreases es
  {
    if es != [] {
      FifoStep(s, es[0], extended, capacity);
      FifoRun(Step(s, es[0], extended, capacity), es[1..], extended, capacity);
    }
  }

  lemma FifoStep(s: State, e: Event, extended: bool, capacity: nat)
    requires Fifo(s, extended)
    ensures Fifo(Step(s, e, extended, capacity), extended)
  {
    hide Get, Stream;
    if e.Store? {
      StreamAppend(s.q, [e.key], extended);
      StreamAppend(s.stored, [e.key], extended);
      var one := Stream([e.key], extended);
      assert s.taken + (Stream(s.q, extended) + one) == s.taken + Stream(s.q, extended) + one;
    } else {
      var r := Get(s.q, e.Read?, extended, e.hook);
      GetStream(s.q, e.Read?, extended, e.hook);
      var rest := Stream(r.rest, extended);
      if Taken(r.got, e.Read?) {
        assert s.taken + ([r.got.key] + rest) == s.taken + [r.got.key] + rest;
      } else {
        assert [] + rest == rest;
      }
    }
  }

  /** From an empty buffer: what was handed out is a prefix of the stream of what was stored. */
  lemma FifoFromEmpty(es: seq<Event>, extended: bool, capacity: nat)
    ensures var s := Run(State([], [], []), es, extended, capacity);
            s.taken <= Stream(s.stored, extended) && (s.q == [] ==> s.taken == Stream(s.stored, extended))
  {
    FifoRun(State([], [], []), es, extended, capacity);
  }

  // ---------------------------------------------------------------- the ring

  /** The buffer as the BIOS data area keeps it; pointers are byte offsets. */
  class Buffer {
    const words: array<word>
    const start: nat
    const end: nat
    var head: nat
    var tail: nat

    ghost predicate Ready()
      reads this
    {
      start < end && (end - start) % 2 == 0 && words.Length == (end - start) / 2 && Points(head) && Points(tail)
    }

    predicate Points(p: nat) { start <= p < end && (p - start) % 2 == 0 }

    function Index(p: nat): (i: nat)
      requires start < end && Points(p) && words.Length == (end - start) / 2 && (end - start) % 2 == 0
      ensures i < words.Length
    {
      (p - start) / 2
    }

    /** The keys held, oldest first. */
    ghost function Contents(): seq<word>
      requires Ready()
      reads this, words
    {
      var h, t := Index(head), Index(tail);
      if h <= t then words[h..t] else words[h..] + words[..t]
    }

    constructor (start: nat, end: nat)
      requires start < end && (end - start) % 2 == 0
      ensures Ready() && Contents() == [] && fresh(words) && this.start == start && this.end == end
    {
      this.start, this.end := start, end;
      words := new word[(end - start) / 2](_ => 0);
      head, tail := start, start;
    }

    function Next(p: nat): (q: nat)
      requires start < end && Points(p) && (end - start) % 2 == 0
      ensures Points(q)
    {
      if p + 2 == end then start else p + 2
    }

    /** store_key: refused exactly when the buffer holds all the keys it can. */
    method StoreKey(key: word) returns (ok: bool)
      requires Ready()
      modifies this`tail, words
      ensures Ready() && |old(Contents())| <= (end - start) / 2 - 1
      ensures ok <==> |old(Contents())| < (end - start) / 2 - 1
      ensures Contents() == if ok then old(Contents()) + [key] else old(Contents())
    {
      var next := Next(tail);
      if head == next { return false; }
      ghost var h, t := Index(head), Index(tail);
      words[Index(tail)] := key;
      tail := next;
      ok := true;
      if h <= t && next != start {
        assert words[h..t + 1] == old(words[h..t]) + [key];
      } else if h <= t {
        assert words[h..] == old(words[h..t]) + [key];
        assert words[..0] == [];
      } else {
        assert words[..t + 1] == old(words[..t]) + [key];
      }
    }

    /** Drops the oldest key. */
    method Advance()
      requires Ready() && head != tail
      modifies this`head
      ensures Ready() && old(Contents()) != [] && Contents() == old(Contents())[1..]
    {
      head := Next(head);
    }

    /** get_key, up to the point where it ends or waits. */
    method GetKey(blocking: bool, extended: bool, hook: bool) returns (got: Got)
      requires Ready()
      modifies this`head
      ensures Ready() && Result(got, Contents()) == Get(old(Contents()), blocking, extended, hook)
    {
      ghost var q := Contents();
      while true
        invariant Ready() && Get(Contents(), blocking, extended, hook) == Get(q, blocking, extended, hook)
        decreases |Contents()|
      {
        if head == tail { return if hook then HookZero else if blocking then Waits else NoKey; }
        FrontIs();
        var key := Translate(words[Index(head)], extended);
        if key.None? || key.value == 0 || blocking { Advance(); }
        if key.Some? { return Key(key.value); }
      }
    }

    lemma FrontIs()
      requires Ready() && head != tail
      ensures Contents() != [] && Contents()[0] == words[Index(head)]
    {
    }
  }
}
