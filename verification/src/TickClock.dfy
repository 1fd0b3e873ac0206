/**
 The INT 1Ah tick clock in PIT mode (src/base/core/int.c, AH=0 and AH=1).  The count of timer
 ticks since start-up only grows; two offsets turn it into the time of day, one moved back by
 whole days as midnights are reported, the other set by the user.
 */
module TickClock {

  const TICKS_IN_A_DAY: nat := 1573042

  /** sys_base_ticks and usr_delta_ticks. */
  datatype Offsets = Offsets(base: int, delta: int)

  /** The ticks the clock shows, midnights not yet reported included, when `now` ticks have elapsed. */
  function Total(o: Offsets, now: nat): int { now + o.base + o.delta }

  /** What AH=0 returns: midnights in AX, ticks in CX:DX. */
  datatype Reading = Reading(ax: nat, cx: nat, dx: nat)

  function Rollover(o: Offsets, now: nat): nat
    requires Total(o, now) >= 0
  {
    Total(o, now) / TICKS_IN_A_DAY
  }

  /** `day_rollover * TICKS_IN_A_DAY`, a product of 32-bit signed integers. */
  function Product(rollover: nat): int {
    Signed(rollover * TICKS_IN_A_DAY)
  }

  /** A number cut to 32 bits and read as a signed one. */
  function Signed(x: int): int { (x + 0x8000_0000) % 0x1_0000_0000 - 0x8000_0000 }

  lemma SignedIs(x: int)
    ensures -0x8000_0000 <= Signed(x) < 0x8000_0000 && (x - Signed(x)) % 0x1_0000_0000 == 0
    ensures Signed(x) == x <==> -0x8000_0000 <= x < 0x8000_0000
    ensures x >= 0 ==> Signed(x) <= x
  {
  }

  /** The largest number of midnights whose ticks still fit. */
  const MAX_ROLLOVER := 1365

  lemma ProductExact(rollover: nat)
    ensures Product(rollover) == rollover * TICKS_IN_A_DAY <==> rollover <= 1365
    ensures -0x8000_0000 <= Product(rollover) < 0x8000_0000 && (rollover * TICKS_IN_A_DAY - Product(rollover)) % 0x1_0000_0000 == 0
    ensures Product(rollover) <= rollover * TICKS_IN_A_DAY
  {
    hide Signed;
    SignedIs(rollover * TICKS_IN_A_DAY);
  }

  function AfterRead(o: Offsets, now: nat): Offsets
    requires Total(o, now) >= 0
  {
    o.(base := o.base - Product(Rollover(o, now)))
  }

  function Report(o: Offsets, now: nat): Reading
    requires Total(o, now) >= 0
  {
    var t := Total(o, now) % TICKS_IN_A_DAY;
    Reading(Rollover(o, now) % 0x10000, t / 0x10000, t % 0x10000)
  }

  function Shown(r: Reading): nat { r.cx * 0x10000 + r.dx }

  /** The least offset not below the old one, by whole days, that makes the system time non-negative. */
  function Normalised(base: int, now: nat): int
    decreases if now + base < 0 then -(now + base) else 0
  {
    if now + base < 0 then Normalised(base + TICKS_IN_A_DAY, now) else base
  }

  lemma {:induction false} NormalisedIs(base: int, now: nat)
    ensures var b := Normalised(base, now);
            b >= base && now + b >= 0 && (b > base ==> now + b < TICKS_IN_A_DAY) &&
            (b - base) % TICKS_IN_A_DAY == 0
    decreases if now + base < 0 then -(now + base) else 0
  {
    if now + base < 0 {
      NormalisedIs(base + TICKS_IN_A_DAY, now);
      var b := Normalised(base, now);
      assert b - base == (b - (base + TICKS_IN_A_DAY)) + TICKS_IN_A_DAY;
    }
  }

  function AfterSet(o: Offsets, now: nat, ticks: nat): Offsets {
    var b := Normalised(o.base, now);
    Offsets(b, ticks - (now + b))
  }

  // ---------------------------------------------------------------- single calls

  /** A read shows the total of the day and counts the whole days; the total stays non-negative. */
  lemma ReadSplits(o: Offsets, now: nat)
    requires Total(o, now) >= 0
    ensures Shown(Report(o, now)) == Total(o, now) % TICKS_IN_A_DAY
    ensures Total(o, now) == Rollover(o, now) * TICKS_IN_A_DAY + Shown(Report(o, now))
    ensures Total(AfterRead(o, now), now) >= Shown(Report(o, now)) && AfterRead(o, now).delta == o.delta
    ensures var r := Report(o, now);
            r.ax <= 0xffff && r.cx <= 0xffff && r.dx <= 0xffff &&
            (Total(o, now) < 0x1_0000 * TICKS_IN_A_DAY ==> Total(o, now) == r.ax * TICKS_IN_A_DAY + r.cx * 0x1_0000 + r.dx)
  {
    hide Product;
    ProductExact(Rollover(o, now));
  }

  /**
   It also takes the days it reports off the clock, so that they are reported once, exactly
   when they are not more than MAX_ROLLOVER.
   */
  lemma ReadExact(o: Offsets, now: nat)
    requires Total(o, now) >= 0
    ensures Total(AfterRead(o, now), now) == Shown(Report(o, now)) <==> Total(o, now) < (MAX_ROLLOVER + 1) * TICKS_IN_A_DAY
  {
    hide Product;
    ProductExact(Rollover(o, now));
    ReadSplits(o, now);
  }

  /** The largest time that can be set is 2730 days: after one read the clock still shows all of it, and more. */
  lemma OverflowExample()
    ensures var s := AfterSet(Offsets(0, 0), 0, 0xffff_ffff);
            Rollover(s, 0) == 2730 && Total(AfterRead(s, 0), 0) == 0xffff_ffff + 562636
  {
  }

  /** A read at the instant of a set returns the value set, modulo a day. */
  lemma ReadAfterSet(o: Offsets, now: nat, ticks: nat)
    ensures Total(AfterSet(o, now, ticks), now) == ticks
    ensures Shown(Report(AfterSet(o, now, ticks), now)) == ticks % TICKS_IN_A_DAY
  {
  }

  // ---------------------------------------------------------------- runs

  datatype Call = Read(now: nat) | Set(now: nat, ticks: nat)

  /** The offsets, the time of the last call, and the midnights reported since the last set. */
  datatype State = State(o: Offsets, now: nat, reported: nat)

  predicate Ok(s: State) { Total(s.o, s.now) >= 0 }

  function Step(s: State, c: Call): (r: State)
    requires Ok(s) && s.now <= c.now
    ensures Ok(r) && r.now == c.now
  {
    match c
    case Read(now) => ReadSplits(s.o, now); State(AfterRead(s.o, now), now, s.reported + Rollover(s.o, now))
    case Set(now, ticks) => ReadAfterSet(s.o, now, ticks); State(AfterSet(s.o, now, ticks), now, 0)
  }

  /** Calls with times that never run backwards. */
  predicate Ordered(from: nat, cs: seq<Call>)
    decreases cs
  {
    cs == [] || (from <= cs[0].now && Ordered(cs[0].now, cs[1..]))
  }

  /** At no read of the run have more than MAX_ROLLOVER midnights to be reported. */
  predicate Timely(s: State, cs: seq<Call>)
    requires Ok(s) && Ordered(s.now, cs)
    decreases cs
  {
    cs == [] ||
    ((cs[0].Read? ==> Total(s.o, cs[0].now) < (MAX_ROLLOVER + 1) * TICKS_IN_A_DAY) &&
     Timely(Step(s, cs[0]), cs[1..]))
  }

  function Run(s: State, cs: seq<Call>): (r: State)
    requires Ok(s) && Ordered(s.now, cs)
    ensures Ok(r) && s.now <= r.now
    decreases cs
  {
    if cs == [] then s else Run(Step(s, cs[0]), cs[1..])
  }

  /** The ticks a run accounts for: the midnights it reports and the total still shown at its end. */
  function Accounted(s: State, r: State): int { (r.reported - s.reported) * TICKS_IN_A_DAY + Total(r.o, r.now) }

  /**
   Between sets: the midnights reported, in ticks, and the total still shown never fall short of
   the total at the start and the time that has passed, and make up exactly that if and only if
   every read was timely.
   */
  lemma {:induction false} TicksConserved(s: State, cs: seq<Call>)
    requires Ok(s) && Ordered(s.now, cs) && forall k | 0 <= k < |cs| :: cs[k].Read?
    ensures var r := Run(s, cs); var due := Total(s.o, s.now) + (r.now - s.now);
            Accounted(s, r) >= due && (Accounted(s, r) == due <==> Timely(s, cs))
    decreases cs
  {
    if cs != [] {
      hide Report, AfterRead, Rollover, Shown;
      ReadSplits(s.o, cs[0].now);
      ReadExact(s.o, cs[0].now);
      OneRead(s, cs[0]);
      TicksConserved(Step(s, cs[0]), cs[1..]);
    }
  }

  lemma OneRead(s: State, c: Call)
    requires Ok(s) && s.now <= c.now && c.Read?
    ensures var r := Step(s, c);
            Accounted(s, r) - (Total(s.o, s.now) + (r.now - s.now)) == Total(r.o, r.now) - Shown(Report(s.o, c.now)) >= 0
    ensures Step(s, c).o == AfterRead(s.o, c.now)
  {
    hide Report, AfterRead, Rollover, Shown;
    ReadSplits(s.o, c.now);
  }

  /** From a set on, whatever ran before it: its value plus the time since, exactly if every read was timely. */
  lemma SinceSet(s: State, now: nat, ticks: nat, later: seq<Call>)
    requires Ok(s) && s.now <= now && Ordered(now, later) && forall k | 0 <= k < |later| :: later[k].Read?
    ensures var r := Run(s, [Set(now, ticks)] + later);
            r.reported * TICKS_IN_A_DAY + Total(r.o, r.now) == ticks + (r.now - now) <==>
            Timely(Step(s, Set(now, ticks)), later)
  {
    var s1 := Step(s, Set(now, ticks));
    ReadAfterSet(s.o, now, ticks);
    assert ([Set(now, ticks)] + later)[1..] == later;
    hide Report, AfterRead, AfterSet;
    TicksConserved(s1, later);
  }

  // ---------------------------------------------------------------- in place

  class Clock {
    var base: int
    var delta: int

    ghost function Now(): Offsets
      reads this
    {
      Offsets(base, delta)
    }

    constructor (base: int, delta: int)
      ensures Now() == Offsets(base, delta)
    {
      this.base, this.delta := base, delta;
    }

    /** AH=0 */
    method ReadTime(now: nat) returns (r: Reading)
      requires Total(Now(), now) >= 0
      modifies this`base
      ensures r == Report(old(Now()), now) && Now() == AfterRead(old(Now()), now)
      ensures var total := old(Total(Now(), now));
              Shown(r) == total % TICKS_IN_A_DAY && r.ax == total / TICKS_IN_A_DAY % 0x10000 &&
              Total(Now(), now) >= Shown(r) &&
              (Total(Now(), now) == Shown(r) <==> total < (MAX_ROLLOVER + 1) * TICKS_IN_A_DAY)
    {
      ReadSplits(Now(), now);
      ReadExact(Now(), now);
      hide Product;
      var last := now + (base + delta);
      var rollover := last / TICKS_IN_A_DAY;
      last := last % TICKS_IN_A_DAY;
      base := base - Product(rollover);
      r := Reading(rollover % 0x10000, last / 0x10000 % 0x10000, last % 0x10000);
    }

    /** AH=1: the loop catches up with days subtracted by reads while a user offset was in force. */
    method SetTime(now: nat, cx: nat, dx: nat)
      requires cx < 0x10000 && dx < 0x10000
      modifies this
      ensures Now() == AfterSet(old(Now()), now, cx * 0x10000 + dx)
    {
      var t := now + base;
      if t < 0 { base := base + TICKS_IN_A_DAY; }
      while t < 0
        invariant t < 0 ==> base == t - now + TICKS_IN_A_DAY
        invariant t >= 0 ==> base == t - now
        invariant Normalised(base, now) == Normalised(old(base), now)
        decreases if t < 0 then -t else 0
      {
        t := now + base;
        if t < 0 { base := base + TICKS_IN_A_DAY; }
      }
      delta := cx * 0x10000 + dx - t;
    }
  }
}
