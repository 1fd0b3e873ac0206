/**
 Revectored interrupts (src/base/core/int.c): some vectors are handled by the emulator itself
 until DOS takes them over through a redirect entry, once after each reset.  No debugger is
 attached, so mhp_revectored() is never true.
 */
module Revector {
  import opened Basics

  type Vector = v: int | 0 <= v < 256

  const E6: Vector := 0xe6

  /** A real-mode pointer, as far as it matters here; `Entry(v)` is the redirect entry of vector `v`. */
  datatype Far = Entry(v: Vector) | MouseDriver | BiosE6 | Other(n: nat)

  /** What setup_interrupts goes by: is the internal mouse driver in use? */
  datatype Config = Config(mouse: bool)

  /** cur_rvc_setup() == REVECT, for a value of config.int_hooks. */
  predicate Hooking(hooks: int) { hooks == -1 || hooks == 1 }

  /** interrupt_function[REVECT] is not null: always set, or only while int_hooks selects it. */
  predicate HasHandler(c: Config, hooks: int, v: Vector) {
    v == 0x21 || v == E6 || (c.mouse && v == 0x33) || ((v == 0x28 || v == 0x2f) && Hooking(hooks))
  }

  /** revect_function and unrevect_function are set, whatever int_hooks says. */
  predicate HasUnrevect(c: Config, v: Vector) {
    v == 0x21 || v == 0x28 || v == 0x2f || v == E6 || (c.mouse && v == 0x33)
  }

  /**
   int_revectored, the hooked flags, the interrupt vector table, the saved chain vectors,
   config.force_revect and config.int_hooks; and two histories: how often each redirect entry
   was handed out since the reset, and the vectors for which somebody other than the emulator
   supplied the vector's own entry while it was not theirs.
   */
  datatype State = State(revectored: seq<bool>, hooked: seq<bool>, ivt: seq<Far>, chain: seq<Far>, force: int, hooks: int,
                         handed: seq<nat>, foreign: set<Vector>)

  predicate Sized(s: State) {
    |s.revectored| == |s.hooked| == |s.ivt| == |s.chain| == |s.handed| == 256
  }

  // ---------------------------------------------------------------- operations

  /** revect_setup: the vector table still holds what it held before the reset. */
  function RevectSetup(c: Config, s: State): (r: State)
    requires Sized(s)
    ensures Sized(r)
  {
    s.(revectored := seq(256, v requires 0 <= v < 256 => s.force != 0 && HasHandler(c, s.hooks, v)),
       hooked := seq(256, _ => false), handed := seq(256, _ => 0))
  }

  /** A table such as bios_setup writes: every vector is set, none to a redirect entry. */
  predicate BiosTable(ivt: seq<Far>) { |ivt| == 256 && forall v | 0 <= v < 256 :: !ivt[v].Entry? }

  /** post_hook: dosemu_reset, which reaches revect_setup, and then bios_setup. */
  function Reset(c: Config, s: State, ivt: seq<Far>): (r: State)
    requires Sized(s) && BiosTable(ivt)
    ensures Sized(r)
  {
    RevectSetup(c, s).(ivt := ivt)
  }

  /** What do_int finds on a vector: one of its two assertions fails, or where it goes. */
  datatype Outcome = NoHandler | AlreadyHooked | NotRevectored | Revectored(s: State)

  /** do_int on vector `v`, as far as revectoring goes. */
  function DoInt(c: Config, s: State, v: Vector): Outcome
    requires Sized(s)
  {
    if !s.revectored[v] then NotRevectored
    else if !HasHandler(c, s.hooks, v) then NoHandler
    else if s.hooked[v] then AlreadyHooked
    else Revectored(s.(chain := s.chain[v := if v == E6 then BiosE6 else s.ivt[v]]))
  }

  predicate Kept(s: State, v: Vector) { s.force == 1 && v == E6 }

  datatype Handed = Handed(s: State, entry: Option<Far>)

  /** The vector's unrevect function, for a caller who names the handler to chain to. */
  function Unrevect(c: Config, s: State, v: Vector, prev: Far): (r: Handed)
    requires Sized(s)
    ensures Sized(r.s)
  {
    if !HasUnrevect(c, v) || s.hooked[v] || Kept(s, v) then Handed(s, None)
    else
      var chained := if v == E6 then BiosE6 else prev;
      Handed(s.(hooked := s.hooked[v := true], revectored := s.revectored[v := false],
                chain := s.chain[v := chained], handed := s.handed[v := s.handed[v] + 1],
                foreign := if chained == Entry(v) then s.foreign + {v} else s.foreign),
             Some(if v == 0x33 then MouseDriver else Entry(v)))
  }

  /** unrevect_simple: redirects the vector in place, if it has a handler. */
  function UnrevectSimple(c: Config, s: State, v: Vector): (r: Handed)
    requires Sized(s)
    ensures Sized(r.s)
  {
    if s.hooked[v] || !HasHandler(c, s.hooks, v) || Kept(s, v) then Handed(s, None)
    else
      Handed(s.(hooked := s.hooked[v := true], revectored := s.revectored[v := false],
                chain := s.chain[v := s.ivt[v]], ivt := s.ivt[v := Entry(v)],
                handed := s.handed[v := s.handed[v] + 1]), Some(Entry(v)))
  }

  /** post_boot_unrevect */
  function PostBoot(c: Config, s: State): (r: State)
    requires Sized(s)
    ensures Sized(r)
  {
    var s1 := UnrevectSimple(c, UnrevectSimple(c, UnrevectSimple(c, s, 0x21).s, 0x28).s, 0x2f).s;
    var m := UnrevectSimple(c, s1, 0x33);
    var s2 := if m.entry.Some? then m.s.(ivt := m.s.ivt[0x33 := MouseDriver]) else m.s;
    Unrevect(c, s2, E6, BiosE6).s
  }

  /** int_try_disable_revect */
  function TryDisable(s: State): (r: State)
    requires Sized(s)
    ensures Sized(r)
  {
    if s.force != -1 then s else s.(force := 0, revectored := seq(256, _ => false))
  }

  /** What booting fdpp does: try to disable revectoring, and then let automatic int_hooks follow it. */
  function FdppBoot(s: State): (r: State)
    requires Sized(s)
    ensures Sized(r)
  {
    var d := TryDisable(s);
    if d.hooks == -1 then d.(hooks := d.force) else d
  }

  /** Anybody may write the vector table; a redirect entry is DOS's to install once it was handed out. */
  function SetVector(s: State, v: Vector, p: Far): (r: State)
    requires Sized(s)
    ensures Sized(r)
  {
    s.(ivt := s.ivt[v := p],
       foreign := if p == Entry(v) && !s.hooked[v] then s.foreign + {v} else s.foreign)
  }

  // ---------------------------------------------------------------- runs

  datatype Event =
    | EReset(ivt: seq<Far>)
    | EInt(v: Vector)
    | EUnrevect(v: Vector, prev: Far)
    | EPostBoot
    | ETryDisable
    | EFdppBoot
    | ESetVector(v: Vector, p: Far)

  /** None: an assertion of do_int failed.  A table that bios_setup cannot write changes nothing. */
  function Step(c: Config, s: State, e: Event): (r: Option<State>)
    requires Sized(s)
    ensures r.Some? ==> Sized(r.value)
  {
    match e
    case EReset(ivt) => Some(if BiosTable(ivt) then Reset(c, s, ivt) else s)
    case EInt(v) =>
      var o := DoInt(c, s, v);
      if o.Revectored? then Some(o.s) else if o.NotRevectored? then Some(s) else None
    case EUnrevect(v, prev) => Some(Unrevect(c, s, v, prev).s)
    case EPostBoot => Some(PostBoot(c, s))
    case ETryDisable => Some(TryDisable(s))
    case EFdppBoot => Some(FdppBoot(s))
    case ESetVector(v, p) => Some(SetVector(s, v, p))
  }

  function Run(c: Config, s: State, es: seq<Event>): (r: Option<State>)
    requires Sized(s)
    ensures r.Some? ==> Sized(r.value)
    decreases es
  {
    if es == [] then Some(s)
    else
      var r := Step(c, s, es[0]);
      if r.None? then None else Run(c, r.value, es[1..])
  }

  /** Nothing revectored or hooked yet: how the program starts, with its two settings. */
  function Fresh(force: int, hooks: int): (s: State)
    ensures Sized(s)
  {
    State(seq(256, _ => false), seq(256, _ => false), seq(256, _ => Other(0)), seq(256, _ => Other(0)), force, hooks,
          seq(256, _ => 0), {})
  }

  predicate VectorOk(c: Config, s: State, v: Vector)
    requires Sized(s)
  {
    (s.revectored[v] ==> HasHandler(c, s.hooks, v) && !s.hooked[v] && s.force != 0) &&
    s.handed[v] == (if s.hooked[v] then 1 else 0) &&
    (s.chain[v] == Entry(v) ==> v in s.foreign) &&
    (s.ivt[v] == Entry(v) ==> s.hooked[v] || v in s.foreign)
  }

  /** Automatic int_hooks goes with the three values of force_revect that have a meaning. */
  predicate Settled(force: int, hooks: int) { hooks == -1 ==> -1 <= force <= 1 }

  /**
   A revectored vector has a handler and is not hooked, a redirect entry has been handed out at
   most once since the reset, and a chain that leads back to its own entry was laid by somebody
   else.
   */
  ghost predicate Ok(c: Config, s: State) {
    Sized(s) && Settled(s.force, s.hooks) && forall v: Vector :: VectorOk(c, s, v)
  }

  lemma UnrevectOk(c: Config, s: State, v: Vector, prev: Far)
    requires Ok(c, s)
    ensures Ok(c, Unrevect(c, s, v, prev).s)
    ensures Unrevect(c, s, v, prev).entry.Some? <==> HasUnrevect(c, v) && s.handed[v] == 0 && !(s.force == 1 && v == 0xe6)
  {
    assert VectorOk(c, s, v);
    var r := Unrevect(c, s, v, prev).s;
    forall u: Vector ensures VectorOk(c, r, u) { assert VectorOk(c, s, u); }
  }

  lemma SimpleOk(c: Config, s: State, v: Vector)
    requires Ok(c, s)
    ensures Ok(c, UnrevectSimple(c, s, v).s)
    ensures UnrevectSimple(c, s, v).entry.Some? <==> HasHandler(c, s.hooks, v) && s.handed[v] == 0 && !(s.force == 1 && v == 0xe6)
  {
    assert VectorOk(c, s, v);
    var r := UnrevectSimple(c, s, v).s;
    forall u: Vector ensures VectorOk(c, r, u) { assert VectorOk(c, s, u); }
  }

  lemma PostBootOk(c: Config, s: State)
    requires Ok(c, s)
    ensures Ok(c, PostBoot(c, s))
  {
    hide Ok, UnrevectSimple, Unrevect;
    OkSized(c, s);
    var a := UnrevectSimple(c, s, 0x21).s;
    SimpleOk(c, s, 0x21);
    var b := UnrevectSimple(c, a, 0x28).s;
    SimpleOk(c, a, 0x28);
    var d := UnrevectSimple(c, b, 0x2f).s;
    SimpleOk(c, b, 0x2f);
    var m := UnrevectSimple(c, d, 0x33);
    SimpleOk(c, d, 0x33);
    var e := if m.entry.Some? then m.s.(ivt := m.s.ivt[0x33 := MouseDriver]) else m.s;
    MouseOk(c, m.s);
    UnrevectOk(c, e, E6, BiosE6);
  }

  lemma OkSized(c: Config, s: State)
    requires Ok(c, s)
    ensures Sized(s)
  {
  }

  lemma MouseOk(c: Config, s: State)
    requires Ok(c, s)
    ensures Ok(c, s.(ivt := s.ivt[0x33 := MouseDriver]))
  {
    var r := s.(ivt := s.ivt[0x33 := MouseDriver]);
    forall u: Vector ensures VectorOk(c, r, u) { assert VectorOk(c, s, u); }
  }

  /** A reset makes any settled state sound: only chains saved before it are carried over. */
  lemma ResetSound(c: Config, s: State, ivt: seq<Far>)
    requires Sized(s) && BiosTable(ivt) && Settled(s.force, s.hooks)
    requires forall v: Vector :: s.chain[v] == Entry(v) ==> v in s.foreign
    ensures Ok(c, Reset(c, s, ivt))
  {
    var r := Reset(c, s, ivt);
    forall u: Vector ensures VectorOk(c, r, u) {}
  }

  /** revect_setup alone would do exactly if no vector still led to its own entry (by the emulator's doing). */
  lemma SetupNeedsBios(c: Config, s: State)
    requires Ok(c, s)
    ensures Ok(c, RevectSetup(c, s)) <==> forall v: Vector :: s.ivt[v] == Entry(v) ==> v in s.foreign
  {
    var r := RevectSetup(c, s);
    if forall v: Vector :: s.ivt[v] == Entry(v) ==> v in s.foreign {
      forall u: Vector ensures VectorOk(c, r, u) { assert VectorOk(c, s, u); }
    } else {
      var v: Vector :| s.ivt[v] == Entry(v) && v !in s.foreign;
      assert !VectorOk(c, r, v);
    }
  }

  /** A boot, then revect_setup without bios_setup, then an interrupt: INT 21h is chained to itself. */
  lemma SetupAloneLoops(c: Config)
    ensures var booted := PostBoot(c, RevectSetup(c, Fresh(1, 1)));
            var o := DoInt(c, RevectSetup(c, booted), 0x21);
            o.Revectored? && o.s.chain[0x21] == Entry(0x21) && o.s.foreign == {}
  {
    var s := RevectSetup(c, Fresh(1, 1));
    var a := UnrevectSimple(c, s, 0x21).s;
    assert a.ivt[0x21] == Entry(0x21) && a.foreign == {};
    SimpleKeeps(c, a, 0x28, 0x21);
    var b := UnrevectSimple(c, a, 0x28).s;
    SimpleKeeps(c, b, 0x2f, 0x21);
    var d := UnrevectSimple(c, b, 0x2f).s;
    SimpleKeeps(c, d, 0x33, 0x21);
    hide UnrevectSimple;
  }

  lemma SimpleKeeps(c: Config, s: State, u: Vector, v: Vector)
    requires Sized(s) && u != v
    ensures var r := UnrevectSimple(c, s, u).s;
            r.ivt[v] == s.ivt[v] && r.foreign == s.foreign && r.force == s.force && r.hooks == s.hooks
  {
  }

  lemma FdppOk(c: Config, s: State)
    requires Ok(c, s)
    ensures Ok(c, FdppBoot(s))
  {
    var r := FdppBoot(s);
    forall u: Vector ensures VectorOk(c, r, u) { assert VectorOk(c, s, u); }
  }

  /** One step: no assertion fails and the invariant holds. */
  lemma StepOk(c: Config, s: State, e: Event)
    requires Ok(c, s)
    ensures Step(c, s, e).Some? && Ok(c, Step(c, s, e).value)
  {
    match e
    case EReset(ivt) =>
      if BiosTable(ivt) {
        forall v: Vector ensures s.chain[v] == Entry(v) ==> v in s.foreign { assert VectorOk(c, s, v); }
        ResetSound(c, s, ivt);
      }
    case EInt(v) =>
      assert VectorOk(c, s, v);
      var o := DoInt(c, s, v);
      if o.Revectored? {
        forall u: Vector ensures VectorOk(c, o.s, u) { assert VectorOk(c, s, u); }
      }
    case EUnrevect(v, prev) => UnrevectOk(c, s, v, prev);
    case EPostBoot => PostBootOk(c, s);
    case ETryDisable =>
      forall u: Vector ensures VectorOk(c, TryDisable(s), u) { assert VectorOk(c, s, u); }
    case EFdppBoot => FdppOk(c, s);
    case ESetVector(v, p) =>
      forall u: Vector ensures VectorOk(c, SetVector(s, v, p), u) { assert VectorOk(c, s, u); }
  }

  /** Over any run from a sound state, no assertion of do_int fails. */
  lemma {:induction false} EveryRun(c: Config, s: State, es: seq<Event>)
    requires Ok(c, s)
    ensures Run(c, s, es).Some? && Ok(c, Run(c, s, es).value)
    decreases es
  {
    if es != [] {
      hide Ok, Step;
      OkSized(c, s);
      StepOk(c, s, es[0]);
      EveryRun(c, Step(c, s, es[0]).value, es[1..]);
    }
  }

  lemma FreshOk(c: Config, force: int, hooks: int)
    requires Settled(force, hooks)
    ensures Ok(c, Fresh(force, hooks))
  {
    forall v: Vector ensures VectorOk(c, Fresh(force, hooks), v) {}
  }

  /** Somebody other than the emulator supplies vector `v`'s own entry, which is not theirs to use. */
  predicate Supplies(s: State, e: Event, v: Vector)
    requires Sized(s)
  {
    !s.hooked[v] &&
    ((e.ESetVector? && e.v == v && e.p == Entry(v)) || (e.EUnrevect? && e.v == v && e.prev == Entry(v)))
  }

  /** Nobody does so in this run. */
  predicate Innocent(c: Config, s: State, es: seq<Event>, v: Vector)
    requires Sized(s)
    decreases es
  {
    es == [] ||
    (!Supplies(s, es[0], v) &&
     var r := Step(c, s, es[0]); r.Some? ==> Innocent(c, r.value, es[1..], v))
  }

  /** Only such events are blamed. */
  lemma {:induction false} OnlyForeign(c: Config, s: State, es: seq<Event>, v: Vector)
    requires Sized(s) && Run(c, s, es).Some? && Innocent(c, s, es, v)
    ensures v in Run(c, s, es).value.foreign ==> v in s.foreign
    decreases es
  {
    if es != [] {
      hide Step;
      StepForeign(c, s, es[0], v);
      OnlyForeign(c, Step(c, s, es[0]).value, es[1..], v);
    }
  }

  lemma StepForeign(c: Config, s: State, e: Event, v: Vector)
    requires Sized(s) && Step(c, s, e).Some? && !Supplies(s, e, v)
    ensures v in Step(c, s, e).value.foreign ==> v in s.foreign
  {
    if e.EPostBoot? {
      SimpleForeign(c, s, 0x21);
      var a := UnrevectSimple(c, s, 0x21).s;
      SimpleForeign(c, a, 0x28);
      var b := UnrevectSimple(c, a, 0x28).s;
      SimpleForeign(c, b, 0x2f);
      var d := UnrevectSimple(c, b, 0x2f).s;
      SimpleForeign(c, d, 0x33);
      hide UnrevectSimple;
    }
  }

  lemma SimpleForeign(c: Config, s: State, u: Vector)
    requires Sized(s)
    ensures UnrevectSimple(c, s, u).s.foreign == s.foreign
  {
  }

  /**
   From the start of the program: unless somebody else supplied a vector's own entry, its saved
   chain never leads back to it, whatever resets, boots and interrupts happen.  (DOS may of
   course install an entry it was given.)
   */
  lemma NoSelfChain(c: Config, force: int, hooks: int, es: seq<Event>, v: Vector)
    requires Settled(force, hooks) && Innocent(c, Fresh(force, hooks), es, v)
    ensures var r := Run(c, Fresh(force, hooks), es); r.Some? && r.value.chain[v] != Entry(v)
  {
    FreshOk(c, force, hooks);
    EveryRun(c, Fresh(force, hooks), es);
    OnlyForeign(c, Fresh(force, hooks), es, v);
    assert VectorOk(c, Run(c, Fresh(force, hooks), es).value, v);
  }

  /** The settings with which no run at all fails an assertion of do_int are exactly the settled ones. */
  lemma SettingsExact(c: Config, force: int, hooks: int)
    ensures (forall es :: Run(c, Fresh(force, hooks), es).Some?) <==> Settled(force, hooks)
  {
    var s := Fresh(force, hooks);
    if Settled(force, hooks) {
      FreshOk(c, force, hooks);
      forall es ensures Run(c, s, es).Some? { EveryRun(c, s, es); }
    } else {
      UnsettledFails(c, force);
    }
  }

  /** With automatic int_hooks and, say, force_revect set to 2, booting fdpp leaves INT 28h without its handler. */
  lemma UnsettledFails(c: Config, force: int)
    requires force < -1 || force > 1
    ensures Run(c, Fresh(force, -1), [EReset(seq(256, _ => Other(0))), EFdppBoot, EInt(0x28)]).None?
  {
    var bios := seq(256, _ => Other(0));
    var s := Fresh(force, -1);
    var es := [EReset(bios), EFdppBoot, EInt(0x28)];
    assert es[1..] == [EFdppBoot, EInt(0x28)] && es[1..][1..] == [EInt(0x28)];
    var a := Step(c, s, EReset(bios)).value;
    assert a.revectored[0x28] && a.hooks == -1 && a.force == force;
    var b := Step(c, a, EFdppBoot).value;
    assert b.revectored[0x28] && b.hooks == force;
    assert Run(c, b, [EInt(0x28)]).None?;
    assert Run(c, a, es[1..]) == Run(c, b, [EInt(0x28)]);
    assert Run(c, s, es) == Run(c, a, es[1..]);
  }

  /** Once hooked, a vector stays with DOS until the next reset: asking again yields nothing. */
  lemma HandedOnce(c: Config, s: State, v: Vector, a: Far, b: Far)
    requires Ok(c, s)
    ensures Unrevect(c, s, v, a).entry.Some? ==> Unrevect(c, Unrevect(c, s, v, a).s, v, b).entry.None?
    ensures UnrevectSimple(c, s, v).entry.Some? ==> Unrevect(c, UnrevectSimple(c, s, v).s, v, b).entry.None?
  {
  }

  /** After booting, every vector with a handler belongs to DOS, except the helper interrupt if it is kept. */
  lemma PostBootHooks(c: Config, s: State, v: Vector)
    requires Ok(c, s) && HasHandler(c, s.hooks, v) && !Kept(s, v)
    ensures PostBoot(c, s).hooked[v] && !PostBoot(c, s).revectored[v] && PostBoot(c, s).handed[v] == 1
  {
    PostBootOk(c, s);
    HookedAfter(c, s, v);
    assert VectorOk(c, PostBoot(c, s), v);
  }

  lemma HookedAfter(c: Config, s: State, v: Vector)
    requires Sized(s) && HasHandler(c, s.hooks, v) && !Kept(s, v)
    ensures PostBoot(c, s).hooked[v]
  {
    hide UnrevectSimple;
    SimpleHooks(c, s, 0x21, v);
    var a := UnrevectSimple(c, s, 0x21).s;
    SimpleHooks(c, a, 0x28, v);
    var b := UnrevectSimple(c, a, 0x28).s;
    SimpleHooks(c, b, 0x2f, v);
    var d := UnrevectSimple(c, b, 0x2f).s;
    SimpleHooks(c, d, 0x33, v);
  }

  lemma SimpleHooks(c: Config, s: State, u: Vector, v: Vector)
    requires Sized(s)
    ensures var r := UnrevectSimple(c, s, u).s;
            r.force == s.force && r.hooks == s.hooks && (s.hooked[v] ==> r.hooked[v]) &&
            (u == v && HasHandler(c, s.hooks, v) && !Kept(s, v) ==> r.hooked[v])
  {
  }

  // ---------------------------------------------------------------- whom a vector chains to

  /** The vectors the emulator hooks, and which of them lose their handler when int_hooks is off. */
  lemma HookTable(c: Config, hooks: int, v: Vector)
    ensures HasUnrevect(c, v) <==> v in {0x21, 0x28, 0x2f, 0xe6} || (c.mouse && v == 0x33)
    ensures HasHandler(c, hooks, v) <==> HasUnrevect(c, v) && (v in {0x28, 0x2f} ==> hooks in {-1, 1})
  {
  }

  /** Only vector `v` may have a new chain or a new place in the table. */
  predicate OnlyVector(s: State, r: State, v: Vector)
    requires Sized(s) && Sized(r)
  {
    forall u: Vector | u != v ::
      r.chain[u] == s.chain[u] && r.ivt[u] == s.ivt[u] && r.hooked[u] == s.hooked[u] && r.revectored[u] == s.revectored[u]
  }

  /** Hooking in place: the chain is the table entry that was replaced, and the redirect entry takes its place. */
  lemma SimpleChains(c: Config, s: State, v: Vector)
    requires Sized(s)
    ensures var h := UnrevectSimple(c, s, v);
            OnlyVector(s, h.s, v) &&
            if h.entry.None? then h.s == s
            else h.entry == Some(Entry(v)) && !s.hooked[v] && h.s.chain[v] == s.ivt[v] && h.s.ivt[v] == Entry(v) && h.s.hooked[v] && !h.s.revectored[v]
  {
  }

  /** Hooking for DOS: the chain is the handler DOS names (the BIOS for the helper interrupt); the table is DOS's to write. */
  lemma UnrevectChains(c: Config, s: State, v: Vector, prev: Far)
    requires Sized(s)
    ensures var h := Unrevect(c, s, v, prev);
            OnlyVector(s, h.s, v) && h.s.ivt == s.ivt &&
            if h.entry.None? then h.s == s
            else h.entry == Some(if v == 0x33 then MouseDriver else Entry(v)) && !s.hooked[v] &&
                 h.s.chain[v] == (if v == 0xe6 then BiosE6 else prev) && h.s.hooked[v] && !h.s.revectored[v]
  {
  }

  /** A revectored interrupt: the handler in the table is saved as the chain, and nothing else changes. */
  lemma IntChains(c: Config, s: State, v: Vector)
    requires Sized(s) && DoInt(c, s, v).Revectored?
    ensures var r := DoInt(c, s, v).s;
            Sized(r) && OnlyVector(s, r, v) && r.ivt == s.ivt && r.hooked == s.hooked && r.revectored == s.revectored &&
            r.chain[v] == if v == 0xe6 then BiosE6 else s.ivt[v]
  {
  }

  /** After booting: each vector hooked chains to what the table held before, the helper interrupt to the BIOS. */
  lemma PostBootChains(c: Config, s: State, v: Vector)
    requires Sized(s)
    ensures var r := PostBoot(c, s);
            if r.hooked[v] && !s.hooked[v] then
              r.chain[v] == (if v == 0xe6 then BiosE6 else s.ivt[v]) &&
              r.ivt[v] == (if v == 0xe6 then s.ivt[v] else if v == 0x33 then MouseDriver else Entry(v))
            else r.chain[v] == s.chain[v] && r.ivt[v] == s.ivt[v]
  {
    hide UnrevectSimple, Unrevect;
    SimpleAt(c, s, 0x21, v);
    var a := UnrevectSimple(c, s, 0x21).s;
    SimpleAt(c, a, 0x28, v);
    var b := UnrevectSimple(c, a, 0x28).s;
    SimpleAt(c, b, 0x2f, v);
    var d := UnrevectSimple(c, b, 0x2f).s;
    SimpleAt(c, d, 0x33, v);
    var m := UnrevectSimple(c, d, 0x33);
    var e := if m.entry.Some? then m.s.(ivt := m.s.ivt[0x33 := MouseDriver]) else m.s;
    UnrevectAt(c, e, E6, BiosE6, v);
  }

  /** Everything about vector `v` is as before. */
  predicate SameAt(s: State, r: State, v: Vector)
    requires Sized(s) && Sized(r)
  {
    r.chain[v] == s.chain[v] && r.ivt[v] == s.ivt[v] && r.hooked[v] == s.hooked[v]
  }

  lemma SimpleAt(c: Config, s: State, u: Vector, v: Vector)
    requires Sized(s)
    ensures var h := UnrevectSimple(c, s, u);
            if h.entry.Some? && u == v
            then !s.hooked[v] && h.s.hooked[v] && h.s.chain[v] == s.ivt[v] && h.s.ivt[v] == Entry(v)
            else SameAt(s, h.s, v)
  {
  }

  lemma UnrevectAt(c: Config, s: State, u: Vector, prev: Far, v: Vector)
    requires Sized(s)
    ensures var h := Unrevect(c, s, u, prev);
            if h.entry.Some? && u == v
            then !s.hooked[v] && h.s.hooked[v] && h.s.chain[v] == (if v == 0xe6 then BiosE6 else prev) && h.s.ivt[v] == s.ivt[v]
            else SameAt(s, h.s, v)
  {
  }

  /** Until the next reset the chain of a hooked vector stays the handler it was given, whatever happens. */
  lemma {:induction false} ChainStays(c: Config, s: State, es: seq<Event>, v: Vector)
    requires Ok(c, s) && s.hooked[v] && forall k | 0 <= k < |es| :: !es[k].EReset?
    ensures Run(c, s, es).Some? && Run(c, s, es).value.hooked[v] && Run(c, s, es).value.chain[v] == s.chain[v]
    decreases es
  {
    if es != [] {
      hide Ok, Step;
      OkSized(c, s);
      StepOk(c, s, es[0]);
      StepKeepsChain(c, s, es[0], v);
      ChainStays(c, Step(c, s, es[0]).value, es[1..], v);
    }
  }

  lemma StepKeepsChain(c: Config, s: State, e: Event, v: Vector)
    requires Ok(c, s) && s.hooked[v] && !e.EReset?
    ensures Step(c, s, e).Some? && Step(c, s, e).value.hooked[v] && Step(c, s, e).value.chain[v] == s.chain[v]
  {
    hide PostBoot, Ok, Unrevect;
    OkSized(c, s);
    StepOk(c, s, e);
    match e
    case EInt(u) => IntKeepsChain(c, s, u, v);
    case EPostBoot => PostBootChains(c, s, v); PostBootStays(c, s, v);
    case EUnrevect(u, prev) => UnrevectAt(c, s, u, prev, v);
    case ETryDisable =>
    case EFdppBoot =>
    case ESetVector(_, _) =>
  }

  /** A hooked vector is not revectored, so an interrupt leaves its chain alone. */
  lemma IntKeepsChain(c: Config, s: State, u: Vector, v: Vector)
    requires Ok(c, s) && s.hooked[v]
    ensures DoInt(c, s, u).Revectored? ==> DoInt(c, s, u).s.hooked == s.hooked && DoInt(c, s, u).s.chain[v] == s.chain[v]
  {
    assert VectorOk(c, s, v);
  }

  lemma PostBootStays(c: Config, s: State, v: Vector)
    requires Sized(s) && s.hooked[v]
    ensures PostBoot(c, s).hooked[v]
  {
    hide UnrevectSimple;
    SimpleHooks(c, s, 0x21, v);
    var a := UnrevectSimple(c, s, 0x21).s;
    SimpleHooks(c, a, 0x28, v);
    var b := UnrevectSimple(c, a, 0x28).s;
    SimpleHooks(c, b, 0x2f, v);
    var d := UnrevectSimple(c, b, 0x2f).s;
    SimpleHooks(c, d, 0x33, v);
  }

  /** Anybody's write of the vector table changes that entry and no other. */
  lemma VectorSet(s: State, v: Vector, p: Far)
    requires Sized(s)
    ensures var r := SetVector(s, v, p);
            r.ivt == s.ivt[v := p] && r.chain == s.chain && r.hooked == s.hooked && r.revectored == s.revectored
  {
  }

  // ---------------------------------------------------------------- who handles a vector

  /** The emulator handles `v` itself exactly if revectoring is on, it has a handler and DOS has not taken the vector. */
  predicate Exact(c: Config, s: State, v: Vector)
    requires Sized(s)
  {
    s.revectored[v] <==> s.force != 0 && HasHandler(c, s.hooks, v) && !s.hooked[v]
  }

  ghost predicate AllExact(c: Config, s: State) {
    Sized(s) && forall v: Vector :: Exact(c, s, v)
  }

  /** From a reset on, over every run with any further resets, boots, interrupts and requests. */
  lemma HandledExact(c: Config, s: State, ivt: seq<Far>, es: seq<Event>, v: Vector)
    requires Ok(c, s) && BiosTable(ivt)
    ensures Run(c, s, [EReset(ivt)] + es).Some?
    ensures var r := Run(c, s, [EReset(ivt)] + es).value;
            r.revectored[v] <==> r.force != 0 && HasHandler(c, r.hooks, v) && !r.hooked[v]
  {
    var a := Reset(c, s, ivt);
    StepOk(c, s, EReset(ivt));
    assert AllExact(c, a) by { forall u: Vector ensures Exact(c, a, u) {} }
    RunExact(c, a, es);
    assert ([EReset(ivt)] + es)[1..] == es;
    assert Step(c, s, EReset(ivt)) == Some(a);
    assert Run(c, s, [EReset(ivt)] + es) == Run(c, a, es);
    assert Exact(c, Run(c, a, es).value, v);
  }

  lemma {:induction false} RunExact(c: Config, s: State, es: seq<Event>)
    requires Ok(c, s) && AllExact(c, s)
    ensures Run(c, s, es).Some? && AllExact(c, Run(c, s, es).value)
    decreases es
  {
    if es != [] {
      hide Ok, Step, AllExact;
      OkSized(c, s);
      StepOk(c, s, es[0]);
      StepExact(c, s, es[0]);
      RunExact(c, Step(c, s, es[0]).value, es[1..]);
    }
  }

  lemma StepExact(c: Config, s: State, e: Event)
    requires Ok(c, s) && AllExact(c, s)
    ensures Step(c, s, e).Some? && AllExact(c, Step(c, s, e).value)
  {
    StepOk(c, s, e);
    if e.EPostBoot? {
      PostBootExact(c, s);
    } else {
      hide PostBoot;
      var r := Step(c, s, e).value;
      forall v: Vector ensures Exact(c, r, v) { assert Exact(c, s, v); }
    }
  }

  lemma PostBootExact(c: Config, s: State)
    requires AllExact(c, s)
    ensures AllExact(c, PostBoot(c, s))
  {
    var a := UnrevectSimple(c, s, 0x21).s;
    SimpleExact(c, s, 0x21);
    var b := UnrevectSimple(c, a, 0x28).s;
    SimpleExact(c, a, 0x28);
    var d := UnrevectSimple(c, b, 0x2f).s;
    SimpleExact(c, b, 0x2f);
    var m := UnrevectSimple(c, d, 0x33);
    SimpleExact(c, d, 0x33);
    hide UnrevectSimple;
    var e := if m.entry.Some? then m.s.(ivt := m.s.ivt[0x33 := MouseDriver]) else m.s;
    var r := Unrevect(c, e, E6, BiosE6).s;
    forall v: Vector ensures Exact(c, r, v) { assert Exact(c, m.s, v); }
  }

  lemma SimpleExact(c: Config, s: State, u: Vector)
    requires AllExact(c, s)
    ensures AllExact(c, UnrevectSimple(c, s, u).s)
  {
    forall v: Vector ensures Exact(c, UnrevectSimple(c, s, u).s, v) { assert Exact(c, s, v); }
  }

  /** A reset: nothing is hooked or handed out, the table is the BIOS's, and the two settings and the chains stay. */
  lemma ResetExact(c: Config, s: State, ivt: seq<Far>, v: Vector)
    requires Sized(s) && BiosTable(ivt)
    ensures var r := Reset(c, s, ivt);
            !r.hooked[v] && r.handed[v] == 0 && r.ivt == ivt && r.chain == s.chain && r.force == s.force && r.hooks == s.hooks &&
            (r.revectored[v] <==> s.force != 0 && HasHandler(c, s.hooks, v))
  {
  }

  /** Booting fdpp: automatic revectoring goes off altogether, and automatic hooks then follow it. */
  lemma FdppExact(s: State, v: Vector)
    requires Sized(s)
    ensures var r := FdppBoot(s);
            r.force == (if s.force == -1 then 0 else s.force) && r.hooks == (if s.hooks == -1 then r.force else s.hooks) &&
            r.revectored[v] == (s.revectored[v] && s.force != -1) && r.hooked == s.hooked && r.chain == s.chain && r.ivt == s.ivt
  {
  }

  // ---------------------------------------------------------------- in place

  /** The static data of int.c that revectoring uses, and the guest's vector table. */
  class Machine {
    const mouse: bool
    const revectored: array<bool>
    const hooked: array<bool>
    const ivt: array<Far>
    const chain: array<Far>
    var force: int
    var hooks: int
    ghost var handed: seq<nat>
    ghost var foreign: set<Vector>

    ghost predicate Ready()
      reads this
    {
      revectored.Length == 256 && hooked.Length == 256 && ivt.Length == 256 && chain.Length == 256 &&
      revectored != hooked && ivt != chain && |handed| == 256
    }

    ghost function View(): (s: State)
      requires Ready()
      reads this, revectored, hooked, ivt, chain
      ensures Sized(s)
    {
      State(revectored[..], hooked[..], ivt[..], chain[..], force, hooks, handed, foreign)
    }

    constructor (mouse: bool, force: int, hooks: int)
      ensures Ready() && View() == Fresh(force, hooks) && this.mouse == mouse
      ensures fresh(revectored) && fresh(hooked) && fresh(ivt) && fresh(chain)
    {
      this.mouse, this.force, this.hooks := mouse, force, hooks;
      revectored := new bool[256](_ => false);
      hooked := new bool[256](_ => false);
      ivt := new Far[256](_ => Other(0));
      chain := new Far[256](_ => Other(0));
      handed := seq(256, _ => 0);
      foreign := {};
    }

    /** revect_setup */
    method SetUpRevectoring()
      requires Ready()
      modifies this`handed, revectored, hooked
      ensures Ready() && View() == RevectSetup(Config(mouse), old(View()))
    {
      for i := 0 to 256
        invariant forall k | 0 <= k < i :: !revectored[k]
        modifies revectored
      {
        revectored[i] := false;
      }
      if force != 0 {
        for i := 0 to 256
          invariant forall k | 0 <= k < 256 :: revectored[k] == (k < i && HasHandler(Config(mouse), hooks, k))
          modifies revectored
        {
          if HasHandler(Config(mouse), hooks, i) { revectored[i] := true; }
        }
      }
      for i := 0 to 256
        invariant forall k | 0 <= k < i :: !hooked[k]
        invariant forall k | 0 <= k < 256 :: revectored[k] == (force != 0 && HasHandler(Config(mouse), hooks, k))
        modifies hooked
      {
        hooked[i] := false;
      }
      handed := seq(256, _ => 0);
    }

    /** post_hook: the reset, then the vector table that bios_setup writes. */
    method PostHook(bios: seq<Far>)
      requires Ready() && BiosTable(bios)
      modifies this`handed, revectored, hooked, ivt
      ensures Ready() && View() == Reset(Config(mouse), old(View()), bios)
    {
      hide RevectSetup;
      SetUpRevectoring();
      for i := 0 to 256
        invariant forall k | 0 <= k < i :: ivt[k] == bios[k]
        modifies ivt
      {
        ivt[i] := bios[i];
      }
      assert ivt[..] == bios;
    }

    /** The revectoring part of do_int; in a sound state both its assertions hold. */
    method Interrupt(v: Vector) returns (done: bool)
      requires Ready() && Ok(Config(mouse), View())
      modifies chain
      ensures Ready() && Some(View()) == Step(Config(mouse), old(View()), EInt(v)) && Ok(Config(mouse), View())
      ensures done == revectored[v]
    {
      ghost var s := View();
      StepOk(Config(mouse), s, EInt(v));
      done := revectored[v];
      if done {
        assert VectorOk(Config(mouse), s, v);
        assert HasHandler(Config(mouse), hooks, v);
        assert !hooked[v];
        chain[v] := if v == E6 then BiosE6 else ivt[v];
      }
    }

    /** The bit of a vector that is not revectored is left alone. */
    method ClearRevectored(v: Vector)
      requires Ready()
      modifies revectored
      ensures revectored[..] == old(revectored[..])[v := false]
    {
      if revectored[v] { revectored[v] := false; }
    }

    /** int<x>_unrevect and its fixups */
    method Hook(v: Vector, prev: Far) returns (entry: Option<Far>)
      requires Ready()
      modifies this`handed, this`foreign, revectored, hooked, chain
      ensures Ready() && Handed(View(), entry) == Unrevect(Config(mouse), old(View()), v, prev)
    {
      hide HasUnrevect;
      if !HasUnrevect(Config(mouse), v) || hooked[v] || (force == 1 && v == E6) { return None; }
      ghost var s := View();
      hooked[v] := true;
      ClearRevectored(v);
      var chained := if v == E6 then BiosE6 else prev;
      chain[v] := chained;
      assert chain[..] == s.chain[v := chained] && ivt[..] == s.ivt;
      handed := handed[v := handed[v] + 1];
      if chained == Entry(v) { foreign := foreign + {v}; }
      entry := Some(if v == 0x33 then MouseDriver else Entry(v));
    }

    /** int<x>_unrevect_simple */
    method HookInPlace(v: Vector) returns (ok: bool)
      requires Ready()
      modifies this`handed, revectored, hooked, chain, ivt
      ensures Ready() && View() == UnrevectSimple(Config(mouse), old(View()), v).s
      ensures ok == UnrevectSimple(Config(mouse), old(View()), v).entry.Some?
    {
      hide HasHandler;
      if hooked[v] || !HasHandler(Config(mouse), hooks, v) || (force == 1 && v == E6) { return false; }
      hooked[v] := true;
      revectored[v] := false;
      chain[v] := ivt[v];
      ivt[v] := Entry(v);
      handed := handed[v := handed[v] + 1];
      ok := true;
    }

    /** post_boot_unrevect */
    method AfterBoot()
      requires Ready()
      modifies this, revectored, hooked, chain, ivt
      ensures Ready() && View() == PostBoot(Config(mouse), old(View()))
    {
      hide UnrevectSimple, Unrevect;
      var a := HookInPlace(0x21);
      a := HookInPlace(0x28);
      a := HookInPlace(0x2f);
      a := HookInPlace(0x33);
      if a { ivt[0x33] := MouseDriver; }
      var e := Hook(E6, BiosE6);
    }

    /** int_try_disable_revect */
    method DisableRevect()
      requires Ready()
      modifies this`force, revectored
      ensures Ready() && View() == TryDisable(old(View()))
    {
      if force != -1 { return; }
      force := 0;
      for i := 0 to 256
        invariant forall k | 0 <= k < i :: !revectored[k]
        modifies revectored
      {
        if revectored[i] { revectored[i] := false; }
      }
    }

    /** The two settings, when fdpp is booted. */
    method BootFdpp()
      requires Ready()
      modifies this`force, this`hooks, revectored
      ensures Ready() && View() == FdppBoot(old(View()))
    {
      DisableRevect();
      if hooks == -1 { hooks := force; }
    }

    /** DOS_SUBHELPER_RVC_NEXT_VEC: the next vector DOS should take over, if any; its assertion holds. */
    method NextVector(after: Option<Vector>) returns (next: Option<Vector>)
      ensures var start := if after.None? then 0 else after.value + 1;
              if next.Some? then
                start <= next.value && HasHandler(Config(mouse), hooks, next.value) && !(force == 1 && next.value == E6) &&
                forall u: Vector :: start <= u < next.value ==> !HasHandler(Config(mouse), hooks, u) || (force == 1 && u == E6)
              else forall u: Vector :: start <= u ==> !HasHandler(Config(mouse), hooks, u) || (force == 1 && u == E6)
      ensures next.Some? ==> HasUnrevect(Config(mouse), next.value)
    {
      var start := if after.None? then 0 else after.value + 1;
      var i := start;
      while i < 256
        invariant start <= i <= 256
        invariant forall u: Vector :: start <= u < i ==> !HasHandler(Config(mouse), hooks, u) || (force == 1 && u == E6)
      {
        if !(force == 1 && i == E6) && HasHandler(Config(mouse), hooks, i) { return Some(i); }
        i := i + 1;
      }
      next := None;
    }
  }
}
