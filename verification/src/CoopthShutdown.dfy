/**
 coopth_unsafe_shutdown and coopth_done, when bodies obey cancellation and, on their way out,
 start, run and cancel no other thread (coopth_done itself asserts that much).
 */
module CoopthShutdown {
  import opened Basics
  import opened CoopthModel
  import opened CoopthInvariant
  import opened CoopthRuns

  /** Calls that start, run, attach, detach and cancel nothing. */
  predicate Mild(a: Act) {
    a.WakeUp? || a.SetClass? || a.SetDetached? || a.SetPost? || a.CallPost? || a.AddPost? || a.SetCancel?
  }

  /** A burst of a cancelled body: mild calls at most, and it runs to its end. */
  predicate Obedient(b: Burst) { b.ret.Finish? && forall k | 0 <= k < |b.acts| :: Mild(b.acts[k]) }

  predicate AllObedient(bs: seq<Burst>) { forall k | 0 <= k < |bs| :: Obedient(bs[k]) }

  /** No burst calls the scheduler at all. */
  predicate AllSilent(bs: seq<Burst>) { forall k | 0 <= k < |bs| :: bs[k].acts == [] }

  /** The program stopped at a check aimed at callers. */
  predicate Refused(r: Out) { r.Halt? && (r.why.Fatal? || r.why.Contract?) }

  /** Two states of a slot that count alike. */
  predicate Kin(x: Inst, y: Inst) {
    y.attached == x.attached && y.busy == x.busy && (y.st.Free? <==> x.st.Free?)
  }

  /** Only slot (t, i) changed in kind, and perhaps the count of live instances of thread t. */
  predicate Touches(w: World, w': World, t: nat, i: nat) {
    t < |w.thr| == |w'.thr| && i < |w.thr[t].pth| && |w'.cs| == |w.cs| &&
    (forall u | 0 <= u < |w.thr| :: |w'.thr[u].pth| == |w.thr[u].pth| && (u != t ==> w'.thr[u].cur == w.thr[u].cur)) &&
    w'.thr[t].cur <= w.thr[t].cur <= w'.thr[t].cur + 1 &&
    (forall u, j | 0 <= u < |w.thr| && 0 <= j < |w.thr[u].pth| && !(u == t && j == i) :: Kin(Get(w, u, j), Get(w', u, j)))
  }

  /** The newest instance of thread t is gone; every other instance is as before. */
  predicate Popped(w: World, w': World, t: nat) {
    t < |w.thr| && 0 < w.thr[t].cur && Touches(w, w', t, w.thr[t].cur - 1) && w'.thr[t].cur == w.thr[t].cur - 1
  }

  lemma TouchesTrans(a: World, b: World, c: World, t: nat, i: nat)
    requires Touches(a, b, t, i) && Touches(b, c, t, i) && c.thr[t].cur <= a.thr[t].cur <= c.thr[t].cur + 1
    ensures Touches(a, c, t, i)
  {
    forall u, j | 0 <= u < |a.thr| && 0 <= j < |a.thr[u].pth| && !(u == t && j == i) ensures Kin(Get(a, u, j), Get(c, u, j)) {
      assert Kin(Get(a, u, j), Get(b, u, j)) && Kin(Get(b, u, j), Get(c, u, j));
    }
  }

  lemma PoppedCounts(w: World, w': World, t: nat)
    requires Inv(w) && Inv(w') && Popped(w, w', t)
    ensures w.thr[t].cur - 1 < |w.thr[t].pth|
    ensures w'.total == w.total - 1
    ensures w'.joinable == w.joinable - Bit(Get(w, t, w.thr[t].cur - 1).attached)
  {
    hide Inv, Where;
    CountFacts(w);
    CountFacts(w');
    var p := (t, w.thr[t].cur - 1);
    forall q | q != p
      ensures (q in Where(w.thr, KLive) <==> q in Where(w'.thr, KLive)) &&
              (q in Where(w.thr, KAttached) <==> q in Where(w'.thr, KAttached))
    {
      LiveWhere(w, q);
      LiveWhere(w', q);
      PoppedAt(w, w', t, q);
    }
    LiveWhere(w, p);
    LiveWhere(w', p);
    Remainder(Where(w.thr, KLive), Where(w'.thr, KLive), p);
    Remainder(Where(w.thr, KAttached), Where(w'.thr, KAttached), p);
  }

  lemma PoppedAt(w: World, w': World, t: nat, q: (nat, nat))
    requires Popped(w, w', t) && q != (t, w.thr[t].cur - 1)
    ensures q.0 < |w.thr| ==>
              (q.1 < w'.thr[q.0].cur <==> q.1 < w.thr[q.0].cur) && |w'.thr[q.0].pth| == |w.thr[q.0].pth| &&
              (q.1 < |w.thr[q.0].pth| ==> Kin(Get(w, q.0, q.1), Get(w', q.0, q.1)))
  {
  }

  // ---------------------------------------------------------------- mild calls

  /** Nothing changed in kind, slot (t, i) included, and it is as cancelled as before. */
  predicate Alike(w: World, w': World, t: nat, i: nat) {
    Touches(w, w', t, i) && w'.thr[t].cur == w.thr[t].cur && Kin(Get(w, t, i), Get(w', t, i)) &&
    Get(w', t, i).cancelled == Get(w, t, i).cancelled
  }

  lemma SlotAlike(w: World, w': World, u: nat, k: nat, t: nat, i: nat)
    requires t < |w.thr| && i < |w.thr[t].pth| && u < |w.thr| && k < |w.thr[u].pth|
    requires |w'.thr| == |w.thr| && k < |w'.thr[u].pth| && w'.thr == Put(w, u, k, Get(w', u, k)).thr && |w'.cs| == |w.cs|
    requires Kin(Get(w, u, k), Get(w', u, k)) && Get(w', u, k).cancelled == Get(w, u, k).cancelled
    ensures Alike(w, w', t, i)
  {
  }

  lemma FlagAlike(w: World, w': World, u: nat, t: nat, i: nat)
    requires t < |w.thr| && i < |w.thr[t].pth| && u < |w.thr| == |w'.thr| && |w'.cs| == |w.cs|
    requires w'.thr == w.thr[u := w'.thr[u]] && w'.thr[u].pth == w.thr[u].pth && w'.thr[u].cur == w.thr[u].cur
    ensures Alike(w, w', t, i)
  {
  }

  lemma SameAlike(w: World, t: nat, i: nat)
    requires t < |w.thr| && i < |w.thr[t].pth|
    ensures Alike(w, w, t, i)
  {
  }

  /** A mild call changes no slot in kind. */
  lemma MildKin(w: World, cur: Option<(nat, nat)>, a: Act, t: nat, i: nat)
    requires Mild(a) && t < |w.thr| && i < |w.thr[t].pth|
    ensures var r := Exec(w, cur, a); if r.Ok? then Alike(w, r.w, t, i) else Refused(r)
  {
    hide Exec, Alike;
    if a.WakeUp? || a.AddPost? || a.SetCancel? { SlotKin(w, cur, a, t, i); } else { FlagKin(w, cur, a, t, i); }
  }

  lemma SlotKin(w: World, cur: Option<(nat, nat)>, a: Act, t: nat, i: nat)
    requires (a.WakeUp? || a.AddPost? || a.SetCancel?) && t < |w.thr| && i < |w.thr[t].pth|
    ensures var r := Exec(w, cur, a); if r.Ok? then Alike(w, r.w, t, i) else Refused(r)
  {
    hide StartThread, ThreadRun, DoCancel, DoDetach, UnsafeShutdown, CoopthDone, Callf, Alike, CallPostInternal;
    var r := Exec(w, cur, a);
    SameAlike(w, t, i);
    if r.Ok? {
      match a
      case WakeUp(u) => if r.w != w { SlotAlike(w, r.w, u, w.thr[u].cur - 1, t, i); }
      case AddPost(h) => SlotAlike(w, r.w, cur.value.0, cur.value.1, t, i);
      case SetCancel(d) => SlotAlike(w, r.w, cur.value.0, cur.value.1, t, i);
    }
  }

  lemma FlagKin(w: World, cur: Option<(nat, nat)>, a: Act, t: nat, i: nat)
    requires SetsFlags(a) && t < |w.thr| && i < |w.thr[t].pth|
    ensures var r := Exec(w, cur, a); if r.Ok? then Alike(w, r.w, t, i) else Refused(r)
  {
    hide StartThread, ThreadRun, DoCancel, DoDetach, UnsafeShutdown, CoopthDone, Callf, Alike, Awake, AddPostHandler, AnyAttached;
    var r := Exec(w, cur, a);
    SameAlike(w, t, i);
    if r.Ok? { FlagAlike(w, r.w, a.tid, t, i); }
  }

  lemma {:induction false} MildActs(w: World, cur: Option<(nat, nat)>, acts: seq<Act>, t: nat, i: nat)
    requires t < |w.thr| && i < |w.thr[t].pth| && forall k | 0 <= k < |acts| :: Mild(acts[k])
    ensures var r := ExecActs(w, cur, acts); if r.Ok? then Alike(w, r.w, t, i) else Refused(r)
    decreases |acts|
  {
    hide Exec, Touches;
    if acts == [] {
      SameAlike(w, t, i);
    } else {
      MildKin(w, cur, acts[0], t, i);
      var r := Exec(w, cur, acts[0]);
      if r.Ok? {
        TouchesShape(w, r.w, t, i);
        MildActs(r.w, cur, acts[1..], t, i);
        if ExecActs(r.w, cur, acts[1..]).Ok? { TouchesTrans(w, r.w, ExecActs(r.w, cur, acts[1..]).w, t, i); }
      }
    }
  }

  lemma TouchesShape(w: World, w': World, t: nat, i: nat)
    requires Touches(w, w', t, i)
    ensures t < |w.thr| == |w'.thr| && i < |w.thr[t].pth| == |w'.thr[t].pth| && |w'.cs| == |w.cs|
  {
  }

  // ---------------------------------------------------------------- cancelling one instance

  lemma DelPops(w: World, w': World, t: nat, i: nat)
    requires Valid(w, t, i) && i == w.thr[t].cur - 1 && |w'.thr| == |w.thr| && |w'.cs| == |w.cs|
    requires w'.thr == w.thr[t := w'.thr[t]] && w'.thr[t].cur == i
    requires w'.thr[t].pth == w.thr[t].pth[i := Get(w, t, i).(st := Free)]
    ensures Popped(w, w', t)
  {
  }

  /** do_del_thread of a cancelled newest instance cannot be refused. */
  lemma DeadDeletes(w: World, t: nat, i: nat)
    requires Inv(w) && LiveAt(w, t, i) && i == w.thr[t].cur - 1 && Get(w, t, i).cancelled
    requires !Get(w, t, i).attached && !Get(w, t, i).busy
    ensures DelThread(w, t, i).Ok? && Popped(w, DelThread(w, t, i).w, t)
    ensures Valid(DelThread(w, t, i).w, t, i) && Get(DelThread(w, t, i).w, t, i).st.Free?
  {
    hide Inv, Popped;
    FreeSlotInv(w, t, i);
    LiveFacts(w, t, i);
    DelFields(w, t, i);
    DelPops(w, DelThread(w, t, i).w, t, i);
  }

  /** The end of a cancelled body, once its calls are done. */
  lemma EndPops(w: World, w1: World, t: nat, i: nat)
    requires Inv(w) && LiveAt(w, t, i) && i == w.thr[t].cur - 1 && !Get(w, t, i).busy && !Get(w, t, i).attached
    requires Inv(w1) && Calm(w1) && Stable(Enter(w, t, i), w1) && LiveAt(w1, t, i) && Get(w1, t, i).busy
    requires Get(w1, t, i).cancelled && !Get(w1, t, i).attached && w1.thr[t].cur == w.thr[t].cur && Touches(w, w1, t, i)
    ensures var r := EndBurst(Exit(w1, t, i), t, i, Finish);
            r.Ok? && Popped(w, r.w, t) && Valid(r.w, t, i) && Get(r.w, t, i).st.Free?
  {
    hide Inv, Calm, Stable, DelThread, Touches;
    LiveFacts(w, t, i);
    ExitGood(w, w1, t, i);
    var e := Exit(w1, t, i);
    DeadDeletes(e, t, i);
    PutTouches(w1, e, t, i);
    TouchesTrans(w, w1, e, t, i);
    TouchesTrans(w, e, DelThread(e, t, i).w, t, i);
  }

  /** Running an obedient cancelled body deletes it, unless one of its calls is refused. */
  lemma ObedientDies(w: World, t: nat, i: nat, b: Burst)
    requires Inv(w) && Calm(w) && LiveAt(w, t, i) && i == w.thr[t].cur - 1 && Get(w, t, i).cancelled
    requires !Get(w, t, i).attached && !Get(w, t, i).busy && Get(w, t, i).st != Switch(DONE) && Obedient(b)
    ensures var r := RunToDeath(w, t, i, b);
            if r.Ok? then Popped(w, r.w, t) else Refused(r) && b.acts != []
  {
    hide Inv, Calm, Stable, EndBurst, ExecActs, Popped, Touches, Exit;
    LiveFacts(w, t, i);
    EnterGood(w, t, i);
    var e := Enter(w, t, i);
    PutTouches(w, e, t, i);
    if !Get(w, t, i).started {
      SameStable(e);
      EndPops(w, e, t, i);
    } else {
      NoActs(e, Some((t, i)), b.acts);
      MildActs(e, Some((t, i)), b.acts, t, i);
      ExecActsGood(e, Some((t, i)), b.acts);
      var r := ExecActs(e, Some((t, i)), b.acts);
      if r.Ok? {
        CurStable(e, r.w, Some((t, i)));
        TouchesTrans(w, e, r.w, t, i);
        EndPops(w, r.w, t, i);
      }
    }
  }

  lemma NoActs(w: World, cur: Option<(nat, nat)>, acts: seq<Act>)
    ensures acts == [] ==> ExecActs(w, cur, acts).Ok?
  {
  }

  /** do_cancel of a detached newest instance removes exactly that instance. */
  lemma CancelPops(w: World, t: nat, b: Burst)
    requires Inv(w) && Calm(w) && HasCurrent(w, t) && Obedient(b)
    requires !Get(w, t, w.thr[t].cur - 1).attached && !Get(w, t, w.thr[t].cur - 1).busy
    ensures var r := DoCancel(w, t, w.thr[t].cur - 1, b);
            if r.Ok? then Popped(w, r.w, t) else Refused(r) && b.acts != []
  {
    hide Inv, Calm, Stable, RunToDeath, Touches;
    TopLive(w, t);
    var i := w.thr[t].cur - 1;
    TidyAt(w, t, i);
    var x := Get(w, t, i).(cancelled := true);
    UpdateGood(w, t, i, x);
    var w1 := Put(w, t, i, x);
    PutTouches(w, w1, t, i);
    ObedientDies(w1, t, i, b);
    if RunToDeath(w1, t, i, b).Ok? { TouchesTrans(w, w1, RunToDeath(w1, t, i, b).w, t, i); }
  }

  /** What the forced detach of an attached newest instance touches. */
  lemma DetachTouches(w: World, t: nat, i: nat)
    requires Inv(w) && Calm(w) && LiveAt(w, t, i) && i == w.thr[t].cur - 1
    requires Get(w, t, i).attached && Get(w, t, i).cancelled && !Get(w, t, i).busy
    ensures var r := DetachSw(w, t, i);
            r.Ok? && Touches(w, r.w, t, i) &&
            (if Get(w, t, i).st == Switch(DONE) then r.w.thr[t].cur == i
             else r.w.thr[t].cur == i + 1 && Get(r.w, t, i).cancelled && !Get(r.w, t, i).busy)
  {
    hide Inv, Calm, CalmBut, Stable, Retf, DelThread, DoSwitch, DetachSw, JoinableDec;
    LiveFacts(w, t, i);
    TidyAt(w, t, i);
    RetfGood(w, t, i);
    RetfTouches(w, t, i);
    DetachIsRetf(w, t, i);
    DetachSwIs(w, t, i);
    var w2, st := Retf(w, t, i).w, Get(w, t, i).st;
    if st == Switch(DONE) {
      DeadDeletes(w2, t, i);
    } else if st.Switch? && !st.idx.DETACH? {
      SwitchTouches(w2, t, i);
    }
  }

  lemma RetfTouches(w: World, t: nat, i: nat)
    requires Valid(w, t, i) && Retf(w, t, i).Ok?
    ensures Touches(w, Retf(w, t, i).w, t, i) && Retf(w, t, i).w.thr[t].cur == w.thr[t].cur
  {
  }

  lemma SwitchTouches(w: World, t: nat, i: nat)
    requires Valid(w, t, i) && Get(w, t, i).st.Switch? && !Get(w, t, i).attached && Get(w, t, i).st.idx !in {DETACH, DONE}
    ensures var r := DoSwitch(w, t, i);
            r.Ok? && Touches(w, r.w, t, i) && r.w.thr[t].cur == w.thr[t].cur &&
            Get(r.w, t, i).cancelled == Get(w, t, i).cancelled && Get(r.w, t, i).busy == Get(w, t, i).busy
  {
    hide DoSwitch, SwLeave, SwDone, Touches;
    SwitchIs(w, t, i);
    if Get(w, t, i).st.idx.LEAVE? {
      LeaveTouches(w, t, i);
    } else {
      PutTouches(w, SetState(w, t, i, Running), t, i);
    }
  }

  lemma LeaveTouches(w: World, t: nat, i: nat)
    requires Valid(w, t, i) && Get(w, t, i).st == Switch(LEAVE) && !Get(w, t, i).attached
    ensures var r := DoSwitch(w, t, i);
            r.Ok? && Touches(w, r.w, t, i) && r.w.thr[t].cur == w.thr[t].cur &&
            Get(r.w, t, i).cancelled == Get(w, t, i).cancelled && Get(r.w, t, i).busy == Get(w, t, i).busy
  {
    hide Touches;
    PutTouches(w, DoSwitch(w, t, i).w, t, i);
  }

  lemma PutTouches(w: World, w': World, t: nat, i: nat)
    requires Valid(w, t, i) && |w'.thr| == |w.thr| && i < |w'.thr[t].pth| && |w'.cs| == |w.cs|
    requires w'.thr == Put(w, t, i, Get(w', t, i)).thr
    ensures Touches(w, w', t, i)
  {
  }

  /** One restart of coopth_unsafe_shutdown removes exactly the attached instance it found. */
  lemma CancelDetachPops(w: World, t: nat, b: Burst)
    requires Inv(w) && Calm(w) && HasCurrent(w, t) && Obedient(b)
    requires Get(w, t, w.thr[t].cur - 1).attached && !Get(w, t, w.thr[t].cur - 1).busy
    ensures var r := CancelDetach(w, t, w.thr[t].cur - 1, b);
            if r.Ok? then Popped(w, r.w, t) else Refused(r) && b.acts != []
  {
    hide Inv, Calm, Stable, DoCancel, DetachSw, RunToDeath, Touches;
    TopLive(w, t);
    var i := w.thr[t].cur - 1;
    DoCancelGood(w, t, i, b);
    CancelAttached(w, t, i, b);
    var w1 := DoCancel(w, t, i, b).w;
    CancelTouches(w, t, i, b);
    DetachTouches(w1, t, i);
    DetachSwGood(w1, t, i);
    var w2 := DetachSw(w1, t, i).w;
    TouchesShape(w, w1, t, i);
    TouchesShape(w1, w2, t, i);
    TouchesTrans(w, w1, w2, t, i);
    SlotFacts(w, t, 0);
    SlotFacts(w2, t, i);
    if Get(w1, t, i).st != Switch(DONE) {
      ObedientDies(w2, t, i, b);
      if RunToDeath(w2, t, i, b).Ok? { TouchesTrans(w, w2, RunToDeath(w2, t, i, b).w, t, i); }
    }
  }

  lemma CancelTouches(w: World, t: nat, i: nat, b: Burst)
    requires Valid(w, t, i) && Get(w, t, i).attached
    ensures var r := DoCancel(w, t, i, b);
            r.Ok? && Touches(w, r.w, t, i) && r.w.thr[t].cur == w.thr[t].cur
  {
  }

  // ---------------------------------------------------------------- the two loops

  lemma {:induction false} FindTopNone(w: World, attached: bool, own: Option<nat>, k: nat)
    requires FindTop(w, attached, own, k).None?
    ensures forall m | k <= m < |w.active| ::
              var t := w.active[m];
              HasCurrent(w, t) && own != Some(t) ==> Get(w, t, w.thr[t].cur - 1).attached != attached
    decreases |w.active| - k
  {
    if k < |w.active| { FindTopNone(w, attached, own, k + 1); }
  }

  /** No instance of the given kind is the one executing, or below it on the host stack. */
  predicate NoneBusy(w: World, attached: bool) {
    forall t, i | 0 <= t < |w.thr| && 0 <= i < |w.thr[t].pth| && Get(w, t, i).attached == attached && i < w.thr[t].cur ::
      !Get(w, t, i).busy
  }

  lemma PoppedQuiet(w: World, w': World, t: nat, attached: bool)
    requires Inv(w) && Inv(w') && Popped(w, w', t) && NoneBusy(w, attached)
    ensures NoneBusy(w', attached)
  {
    hide Inv;
    forall u, j | 0 <= u < |w'.thr| && 0 <= j < |w'.thr[u].pth| && Get(w', u, j).attached == attached && j < w'.thr[u].cur
      ensures !Get(w', u, j).busy
    {
      SlotFacts(w, u, 0);
      SlotFacts(w', u, 0);
      assert Kin(Get(w, u, j), Get(w', u, j));
    }
  }

  /** The newest instance of the thread calling the shutdown is not attached. */
  predicate OwnDetached(w: World, own: Option<nat>) {
    own.Some? ==> own.value < |w.thr| && HasCurrent(w, own.value) && !Get(w, own.value, w.thr[own.value].cur - 1).attached
  }

  /**
   coopth_unsafe_shutdown ends after removing `joinable - joinable'` instances, all of them
   attached: threads_total and threads_joinable drop together, and no active thread has an
   attached newest instance any more.  It cannot stop half-way but in a call a body makes.
   */
  lemma {:induction false} ShutdownEnds(w: World, cur: Option<(nat, nat)>, bs: seq<Burst>)
    requires Inv(w) && Calm(w) && NoneBusy(w, true) && OwnDetached(w, OwnTid(w, cur))
    requires AllObedient(bs) && |bs| >= w.joinable
    ensures var r := UnsafeShutdown(w, cur, bs);
            (AllSilent(bs) ==> r.Ok?) &&
            if r.Halt? then Refused(r)
            else Inv(r.w) && r.w.total - w.total == r.w.joinable - w.joinable <= 0 &&
                 forall m | 0 <= m < |r.w.active| ::
                   HasCurrent(r.w, r.w.active[m]) && !Get(r.w, r.w.active[m], r.w.thr[r.w.active[m]].cur - 1).attached
    decreases bs
  {
    hide Inv, Calm, Stable, FindTop, CancelDetach, Popped;
    FindTopIs(w, true, None, 0);
    var f := FindTop(w, true, None, 0);
    if f.None? {
      FindTopNone(w, true, None, 0);
      ActiveCurrent(w);
    } else {
      var t := f.value;
      var i := w.thr[t].cur - 1;
      TopLive(w, t);
      AttachedCounts(w, t, i);
      CancelDetachPops(w, t, bs[0]);
      CancelDetachGood(w, t, i, bs[0]);
      if CancelDetach(w, t, i, bs[0]).Ok? {
        var w1 := CancelDetach(w, t, i, bs[0]).w;
        PoppedCounts(w, w1, t);
        PoppedQuiet(w, w1, t, true);
        OwnKept(w, w1, t, cur);
        ShutdownEnds(w1, cur, bs[1..]);
      }
    }
  }

  lemma ActiveCurrent(w: World)
    requires Inv(w)
    ensures forall m | 0 <= m < |w.active| :: HasCurrent(w, w.active[m])
  {
    hide Counts, PostsOk, FramesOk;
    forall m | 0 <= m < |w.active| ensures HasCurrent(w, w.active[m]) {
      assert w.active[m] in w.active;
      ThrFacts(w, w.active[m]);
    }
  }

  lemma AttachedCounts(w: World, t: nat, i: nat)
    requires Inv(w) && LiveAt(w, t, i)
    ensures Get(w, t, i).attached ==> w.joinable > 0
  {
    hide ActiveOk, PostsOk, FramesOk;
    LiveFacts(w, t, i);
    if Get(w, t, i).attached {
      MemberCounts(w.thr, t, i, KAttached);
    }
  }

  lemma OwnKept(w: World, w': World, t: nat, cur: Option<(nat, nat)>)
    requires Inv(w) && Inv(w') && Stable(w, w') && Popped(w, w', t) && OwnDetached(w, OwnTid(w, cur))
    requires OwnTid(w, cur) != Some(t)
    ensures OwnTid(w', cur) == OwnTid(w, cur) && OwnDetached(w', OwnTid(w', cur))
  {
    hide Counts, ActiveOk, PostsOk, Shape;
    var own := OwnTid(w, cur);
    if own.Some? {
      SlotFacts(w', own.value, 0);
      assert Kin(Get(w, own.value, w.thr[own.value].cur - 1), Get(w', own.value, w.thr[own.value].cur - 1));
    }
  }

  /** In every thread, detached instances are newer than attached ones. */
  predicate DetachedOnTop(w: World) {
    forall t, i, j | 0 <= t < |w.thr| && 0 <= i < j < w.thr[t].cur && j < |w.thr[t].pth| ::
      Get(w, t, j).attached ==> Get(w, t, i).attached
  }

  lemma OnTopKept(w: World, w': World, t: nat)
    requires Inv(w) && Inv(w') && Popped(w, w', t) && !Get(w, t, w.thr[t].cur - 1).attached
    ensures DetachedOnTop(w') <==> DetachedOnTop(w)
  {
    hide Inv;
    forall u, j | 0 <= u < |w.thr| && 0 <= j < w'.thr[u].cur
      ensures j < |w.thr[u].pth| && j < |w'.thr[u].pth| && Get(w', u, j).attached == Get(w, u, j).attached
    {
      SlotFacts(w, u, 0);
      SlotFacts(w', u, 0);
      assert Kin(Get(w, u, j), Get(w', u, j));
    }
    if DetachedOnTop(w') {
      forall u, i, j | 0 <= u < |w.thr| && 0 <= i < j < w.thr[u].cur && j < |w.thr[u].pth| && Get(w, u, j).attached
        ensures Get(w, u, i).attached
      {
        assert j < w'.thr[u].cur;
        assert Get(w', u, j).attached ==> Get(w', u, i).attached;
      }
    }
    if DetachedOnTop(w) {
      forall u, i, j | 0 <= u < |w'.thr| && 0 <= i < j < w'.thr[u].cur && j < |w'.thr[u].pth| && Get(w', u, j).attached
        ensures Get(w', u, i).attached
      {
        assert Get(w, u, j).attached ==> Get(w, u, i).attached;
      }
    }
  }

  /** With an attached newest instance in every thread, totals agree iff detached ones are on top. */
  lemma AllAttached(w: World)
    requires Inv(w) && FindTop(w, false, None, 0).None?
    ensures w.joinable <= w.total && (w.total == w.joinable <==> DetachedOnTop(w))
  {
    hide Inv;
    TotalsAgree(w);
    FindTopNone(w, false, None, 0);
    ActiveCurrent(w);
    if DetachedOnTop(w) {
      forall t, i | 0 <= t < |w.thr| && 0 <= i < w.thr[t].cur ensures AttachedAt(w, t, i) {
        ActiveIndex(w, t);
        assert Get(w, t, w.thr[t].cur - 1).attached;
      }
    }
    if EveryAttached(w) {
      forall t, i, j | 0 <= t < |w.thr| && 0 <= i < j < w.thr[t].cur && j < |w.thr[t].pth| && Get(w, t, j).attached
        ensures Get(w, t, i).attached
      {
        assert AttachedAt(w, t, i);
      }
    }
  }

  lemma ActiveIndex(w: World, t: nat)
    requires Inv(w) && t < |w.thr| && 0 < w.thr[t].cur
    ensures HasCurrent(w, t) && exists m :: 0 <= m < |w.active| && w.active[m] == t
  {
  }

  predicate EveryAttached(w: World) {
    forall t, i | 0 <= t < |w.thr| && 0 <= i < w.thr[t].cur :: AttachedAt(w, t, i)
  }

  predicate AttachedAt(w: World, t: nat, i: nat)
    requires t < |w.thr|
  {
    i < |w.thr[t].pth| && Get(w, t, i).attached
  }

  lemma TotalsAgree(w: World)
    requires Inv(w)
    ensures w.joinable <= w.total && (w.total == w.joinable <==> EveryAttached(w))
  {
    hide Inv, Where;
    var a, b := Where(w.thr, KAttached), Where(w.thr, KLive);
    CountFacts(w);
    forall p ensures p in a ==> p in b { LiveWhere(w, p); }
    Subset(a, b);
    if a == b {
      forall t, i | 0 <= t < |w.thr| && 0 <= i < w.thr[t].cur ensures AttachedAt(w, t, i) {
        LiveWhere(w, (t, i));
        assert (t, i) in b;
      }
      assert EveryAttached(w);
    }
    if EveryAttached(w) {
      forall p | p in b ensures p in a {
        LiveWhere(w, p);
        ThrFacts(w, p.0);
        assert AttachedAt(w, p.0, p.1);
      }
      assert b <= a;
      assert a == b;
    }
  }

  /**
   coopth_done called by the main program: each restart drops threads_total by one, and (unless
   a body makes a call that is refused) it gets past its last assertion, total equal to
   joinable, exactly when no thread has a detached instance under an attached one.
   */
  lemma {:induction false} DoneEnds(w: World, bs: seq<Burst>)
    requires Inv(w) && Calm(w) && NoneBusy(w, false)
    requires AllObedient(bs) && |bs| >= w.total - w.joinable
    ensures var r := CoopthDone(w, None, bs);
            (r.Ok? ==> DetachedOnTop(w) && Inv(r.w) && r.w.total == r.w.joinable == w.joinable) &&
            (AllSilent(bs) && DetachedOnTop(w) ==> r.Ok?) &&
            (r.Halt? ==> Refused(r))
    decreases bs
  {
    hide Inv, Calm, Stable, FindTop, DoCancel, Popped, DetachedOnTop;
    FindTopIs(w, false, None, 0);
    var f := FindTop(w, false, None, 0);
    assert OwnTid(w, None) == None && SelfDetached(w, None) == 0;
    if f.None? {
      AllAttached(w);
    } else {
      var t := f.value;
      var i := w.thr[t].cur - 1;
      TopLive(w, t);
      DetachedCounts(w, t, i);
      CancelPops(w, t, bs[0]);
      DoCancelGood(w, t, i, bs[0]);
      if DoCancel(w, t, i, bs[0]).Ok? {
        var w1 := DoCancel(w, t, i, bs[0]).w;
        PoppedCounts(w, w1, t);
        PoppedQuiet(w, w1, t, false);
        OnTopKept(w, w1, t);
        DoneEnds(w1, bs[1..]);
      }
    }
  }

  lemma DetachedCounts(w: World, t: nat, i: nat)
    requires Inv(w) && LiveAt(w, t, i) && !Get(w, t, i).attached
    ensures w.joinable < w.total
  {
    hide Inv;
    TotalsAgree(w);
    assert !AttachedAt(w, t, i);
  }

  /**
   Whoever calls coopth_done, and whatever bodies do on their way out: once it returns, the total
   exceeds the joinable count by the one detached instance the caller may have been running in at
   the call, and no thread but the caller's has a detached newest instance.
   */
  lemma DoneMeans(w: World, cur: Option<(nat, nat)>, bs: seq<Burst>)
    requires CoopthDone(w, cur, bs).Ok?
    ensures var v := CoopthDone(w, cur, bs).w;
            var inside := w.threadRunning != 0 && cur.Some? && Valid(w, cur.value.0, cur.value.1);
            v.total - v.joinable == (if inside && !Get(w, cur.value.0, cur.value.1).attached then 1 else 0) &&
            forall m | 0 <= m < |v.active| ::
              var t := v.active[m];
              HasCurrent(v, t) && !(w.threadRunning != 0 && cur.Some? && cur.value.0 == t) ==> Get(v, t, v.thr[t].cur - 1).attached
  {
    DoneReturns(w, OwnTid(w, cur), SelfDetached(w, cur), bs);
    var v := CoopthDone(w, cur, bs).w;
    FindTopNone(v, false, OwnTid(w, cur), 0);
  }

  lemma {:induction false} DoneReturns(w: World, own: Option<nat>, itd: int, bs: seq<Burst>)
    requires DoneFrom(w, own, itd, bs).Ok?
    ensures var v := DoneFrom(w, own, itd, bs).w; v.total == v.joinable + itd && FindTop(v, false, own, 0).None?
    decreases bs
  {
    hide FindTop, DoCancel;
    var f := FindTop(w, false, own, 0);
    if f.Some? {
      DoneReturns(DoCancel(w, f.value, w.thr[f.value].cur - 1, bs[0]).w, own, itd, bs[1..]);
    }
  }
}
