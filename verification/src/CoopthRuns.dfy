/**
 Whole runs of the scheduler: the invariant holds after every script, however deeply bodies
 run each other, and what thread_run, nested counters and post handlers do follows from it.
 */
module CoopthRuns {
  import opened Basics
  import opened CoopthModel
  import opened CoopthInvariant

  /** The coroutine executing the current script is a live, busy one (or the main program). */
  predicate CurOk(w: World, cur: Option<(nat, nat)>) {
    cur.None? || (LiveAt(w, cur.value.0, cur.value.1) && Get(w, cur.value.0, cur.value.1).busy)
  }

  lemma CurStable(w: World, w': World, cur: Option<(nat, nat)>)
    requires CurOk(w, cur) && Inv(w) && Inv(w') && Stable(w, w')
    ensures CurOk(w', cur)
  {
  }

  /** A thread with a current instance has a live newest slot. */
  lemma TopLive(w: World, t: nat)
    requires Inv(w) && HasCurrent(w, t)
    ensures LiveAt(w, t, w.thr[t].cur - 1) && SlotOk(Get(w, t, w.thr[t].cur - 1), true)
  {
  }

  // ---------------------------------------------------------------- small steps

  lemma UpdateGood(w: World, t: nat, i: nat, x: Inst)
    requires Inv(w) && Calm(w) && LiveAt(w, t, i)
    requires SlotOk(x, true) && Tidy(x) && SameBusy(Get(w, t, i), x)
    requires x == Get(w, t, i).(st := x.st, cancelled := x.cancelled, cancDisabled := x.cancDisabled)
    ensures Good(w, Ok(Put(w, t, i, x)))
  {
    hide Inv, Calm, CalmBut, Stable;
    TidyAt(w, t, i);
    LiveFacts(w, t, i);
    PutInv(w, Put(w, t, i, x), t, i, x);
    PutStable(w, Put(w, t, i, x), t, i, x);
  }

  lemma AwakeGood(w: World, t: nat, i: nat)
    requires Inv(w) && Calm(w) && LiveAt(w, t, i)
    ensures Good(w, Ok(Awake(w, t, i))) && LiveAt(Awake(w, t, i), t, i)
    ensures Get(Awake(w, t, i), t, i) ==
            if Get(w, t, i).st.Sleeping? then Get(w, t, i).(st := Switch(AWAKEN)) else Get(w, t, i)
    ensures Awake(w, t, i).total == w.total && Awake(w, t, i).joinable == w.joinable
  {
    hide Inv, Calm, Stable;
    TidyAt(w, t, i);
    LiveFacts(w, t, i);
    if Get(w, t, i).st.Sleeping? {
      UpdateGood(w, t, i, Get(w, t, i).(st := Switch(AWAKEN)));
    } else {
      SameStable(w);
    }
  }

  lemma SameStable(w: World)
    ensures Stable(w, w)
  {
  }

  lemma FlagsCounts(w: World, t: nat, th: Thr)
    requires Shape(w) && Counts(w) && t < |w.thr| && th.pth == w.thr[t].pth
    requires th.cls == w.thr[t].cls || !AnyAttached(th)
    ensures Counts(w.(thr := w.thr[t := th]))
  {
    var w' := w.(thr := w.thr[t := th]);
    forall k: Kind ensures Where(w'.thr, k) == Where(w.thr, k) {
      assert forall p | p in Slots(|w.thr|) :: IsAt(w'.thr, k, p) == IsAt(w.thr, k, p);
    }
  }

  /** Flags of a thread that no counter depends on. */
  lemma FlagsGood(w: World, t: nat, th: Thr)
    requires Inv(w) && Calm(w) && t < |w.thr|
    requires th == w.thr[t].(detached := th.detached, post := th.post, cls := th.cls, postPth := th.postPth)
    requires th.cls < CTCL_MAX && (th.postPth == w.thr[t].postPth || th.postPth.None?)
    requires th.cls == w.thr[t].cls || !AnyAttached(th)
    ensures Good(w, Ok(w.(thr := w.thr[t := th])))
  {
    hide Counts;
    var w' := w.(thr := w.thr[t := th]);
    assert ThrOk(w.thr[t]);
    FlagsCounts(w, t, th);
    forall u, j | 0 <= u < |w'.thr| && 0 <= j < |w'.thr[u].pth|
      ensures InstRecord(w', u, j) && Tidy(Get(w', u, j)) && SameBusy(Get(w, u, j), Get(w', u, j))
    {
      assert InstRecord(w, u, j) && Tidy(Get(w, u, j));
    }
    forall v | 0 <= v < |w'.hist| ensures LogOk(w', v) { assert LogOk(w, v); }
    forall u | 0 <= u < |w'.thr| ensures DeferredOk(w', u) { assert DeferredOk(w, u); }
  }

  lemma ThrFacts(w: World, t: nat)
    requires Inv(w) && t < |w.thr|
    ensures ThrOk(w.thr[t])
  {
  }

  lemma LogAside(w: World, w': World)
    requires Inv(w) && w' == w.(log := w'.log)
    ensures Shape(w') && ActiveOk(w') && Counts(w') && FramesOk(w')
  {
  }

  lemma CallPostGood(w: World, t: nat)
    requires Inv(w) && Calm(w) && t < |w.thr|
    ensures Good(w, CallPostInternal(w, t))
  {
    hide Inv, Calm, Stable;
    ThrFacts(w, t);
    var th, r := w.thr[t], CallPostInternal(w, t);
    SameStable(w);
    if r.Ok? && th.postPth.Some? {
      CustomCallGood(w, t, th.postPth.value);
      var w1 := DoCallPost(w, t, th.postPth.value);
      FlagsGood(w1, t, th.(postPth := None));
      StableTrans(w, w1, r.w);
    }
  }

  /** Handler calls made for a custom thread are outside every account kept here. */
  lemma CustomCallGood(w: World, t: nat, i: nat)
    requires Inv(w) && Calm(w) && Valid(w, t, i) && w.thr[t].everCustom && w.thr[t].postPth == Some(i)
    ensures Good(w, Ok(DoCallPost(w, t, i)))
  {
    hide Counts, ActiveOk, FramesOk, Shape;
    LogAside(w, DoCallPost(w, t, i));
    var w', x := DoCallPost(w, t, i), Get(w, t, i);
    var evs := PostEvents(x.uid, w.thr[t].post, x.posts);
    assert DeferredOk(w, t);
    LogStep(w, w', x.uid, w.hist[x.uid], evs);
    forall u, j | 0 <= u < |w'.thr| && 0 <= j < |w'.thr[u].pth|
      ensures InstRecord(w', u, j) && Tidy(Get(w', u, j))
    {
      assert InstRecord(w, u, j) && Tidy(Get(w, u, j));
    }
    forall u | 0 <= u < |w'.thr| ensures DeferredOk(w', u) { assert DeferredOk(w, u); }
  }

  // ---------------------------------------------------------------- bursts and thread_run

  lemma EnterGood(w: World, t: nat, i: nat)
    requires Inv(w) && Calm(w) && LiveAt(w, t, i) && !Get(w, t, i).busy && Get(w, t, i).st != Switch(DONE)
    ensures var w' := Enter(w, t, i);
            Inv(w') && Calm(w') && CurOk(w', Some((t, i))) && w'.frames == w.frames &&
            w'.thr == w.thr[t := w.thr[t].(pth := w.thr[t].pth[i := Get(w, t, i).(busy := true, started := true)])]
  {
    hide Inv, Calm, CalmBut, Stable;
    LiveFacts(w, t, i);
    TidyAt(w, t, i);
    var x := Get(w, t, i).(busy := true, started := true);
    PutInv(w, Enter(w, t, i), t, i, x);
    PutStable(w, Enter(w, t, i), t, i, x);
  }

  /** After the coroutine stopped, its slot is as stable as if it had not run. */
  lemma ExitGood(w: World, w1: World, t: nat, i: nat)
    requires Inv(w) && LiveAt(w, t, i) && !Get(w, t, i).busy
    requires Inv(w1) && Calm(w1) && LiveAt(w1, t, i) && Stable(Enter(w, t, i), w1) && Get(w1, t, i).busy
    ensures var w' := Exit(w1, t, i);
            Inv(w') && Calm(w') && LiveAt(w', t, i) && Stable(w, w') && !Get(w', t, i).busy &&
            Get(w', t, i) == Get(w1, t, i).(busy := false)
  {
    hide Inv, Calm, CalmBut;
    LiveFacts(w1, t, i);
    TidyAt(w1, t, i);
    var x, w' := Get(w1, t, i).(busy := false), Exit(w1, t, i);
    PutInv(w1, w', t, i, x);
    PutStable(w1, w', t, i, x);
    forall u, j | 0 <= u < |w.thr| && 0 <= j < |w.thr[u].pth| && j < |w'.thr[u].pth|
      ensures SameBusy(Get(w, u, j), Get(w', u, j))
    {
      SlotFacts(w1, u, 0);
      SlotFacts(w, u, 0);
      assert SameBusy(Get(Enter(w, t, i), u, j), Get(w1, u, j));
    }
  }

  lemma RunBurstGood(w: World, t: nat, i: nat, b: Burst)
    requires Inv(w) && Calm(w) && LiveAt(w, t, i) && Get(w, t, i).st != Switch(DONE)
    ensures GoodBut(w, t, i, RunBurst(w, t, i, b))
    ensures RunBurst(w, t, i, b).Ok? ==> Stopped(Get(RunBurst(w, t, i, b).w, t, i))
    ensures RunBurst(w, t, i, b).Ok? && Get(w, t, i).left ==> Get(RunBurst(w, t, i, b).w, t, i).st.Free?
    decreases b, 0
  {
    hide Inv, Calm, CalmBut, Stable, EndBurst, Enter, Exit;
    LiveFacts(w, t, i);
    var x := Get(w, t, i);
    if !x.busy {
      EnterGood(w, t, i);
      var w0 := Enter(w, t, i);
      if !x.started && x.cancelled {
        SameStable(w0);
        EndOf(w, w0, t, i, Finish);
      } else {
        ExecActsGood(w0, Some((t, i)), b.acts);
        var r := ExecActs(w0, Some((t, i)), b.acts);
        if r.Ok? {
          CurStable(w0, r.w, Some((t, i)));
          EndOf(w, r.w, t, i, b.ret);
        }
      }
    }
  }

  lemma EndOf(w: World, w1: World, t: nat, i: nat, ret: Ret)
    requires Inv(w) && LiveAt(w, t, i) && !Get(w, t, i).busy
    requires Inv(w1) && Calm(w1) && CurOk(w1, Some((t, i))) && Stable(Enter(w, t, i), w1)
    ensures var r := EndBurst(Exit(w1, t, i), t, i, ret);
            GoodBut(w, t, i, r) && (r.Ok? ==> Stopped(Get(r.w, t, i))) &&
            (r.Ok? && Get(w, t, i).left ==> Get(r.w, t, i).st.Free?)
  {
    hide Inv, Calm, CalmBut, EndBurst;
    LiveFacts(w, t, i);
    LiveFacts(w1, t, i);
    var w2 := Exit(w1, t, i);
    var r := EndBurst(w2, t, i, ret);
    assert SameBusy(Get(Enter(w, t, i), t, i), Get(w1, t, i));
    ExitGood(w, w1, t, i);
    EndBurstGood(w2, t, i, ret);
    if r.Ok? {
      StableTrans(w, w2, r.w);
    }
  }

  lemma PushGood(w: World, t: nat, i: nat)
    requires Inv(w) && Calm(w) && LiveAt(w, t, i)
    ensures Inv(PushFrame(w, t, i)) && Calm(PushFrame(w, t, i))
  {
    hide Counts, ActiveOk, PostsOk, Calm;
    var w' := PushFrame(w, t, i);
    assert ThrOk(w.thr[t]) && SlotOk(w.thr[t].pth[i], true);
    assert w'.frames[..|w'.frames| - 1] == w.frames;
    SameSlots(w, w');
  }

  /** Frames and running counters are independent of everything else. */
  lemma SameSlots(w: World, w': World)
    requires Inv(w)
    requires w' == w.(frames := w'.frames, threadRunning := w'.threadRunning,
                      joinableRunning := w'.joinableRunning, leftRunning := w'.leftRunning)
    ensures Shape(w') && Counts(w') && ActiveOk(w') && PostsOk(w')
    ensures Calm(w) ==> Calm(w')
    ensures forall t, i :: CalmBut(w, t, i) ==> CalmBut(w', t, i)
  {
    forall u, j | 0 <= u < |w'.thr| && 0 <= j < |w'.thr[u].pth|
      ensures InstRecord(w', u, j) && Get(w', u, j) == Get(w, u, j)
    {
      assert InstRecord(w, u, j);
    }
    forall v | 0 <= v < |w'.hist| ensures LogOk(w', v) { assert LogOk(w, v); }
    forall u | 0 <= u < |w'.thr| ensures DeferredOk(w', u) { assert DeferredOk(w, u); }
  }

  lemma RunStepGood(w: World, t: nat, i: nat, b: Burst)
    requires Inv(w) && Calm(w) && LiveAt(w, t, i) && Get(w, t, i).st.Running?
    ensures GoodBut(w, t, i, RunStep(w, t, i, b))
    ensures RunStep(w, t, i, b).Ok? ==> Stopped(Get(RunStep(w, t, i, b).w, t, i))
    ensures RunStep(w, t, i, b).Ok? && Get(w, t, i).left ==> Get(RunStep(w, t, i, b).w, t, i).st.Free?
    decreases b, 1
  {
    hide Inv, Calm, CalmBut, Stable, RunBurst;
    LiveFacts(w, t, i);
    var w0 := PushFrame(w, t, i);
    PushGood(w, t, i);
    RunBurstGood(w0, t, i, b);
    var r := RunBurst(w0, t, i, b);
    if r.Ok? {
      PopGood(w, r.w, t, i);
    }
  }

  lemma PopGood(w: World, w1: World, t: nat, i: nat)
    requires Inv(w) && LiveAt(w, t, i)
    requires Inv(w1) && CalmBut(w1, t, i) && Stable(PushFrame(w, t, i), w1)
    ensures w1.frames != [] && Valid(w1, t, i)
    ensures var w' := PopFrame(w1, w.joinableRunning, w.leftRunning);
            Inv(w') && CalmBut(w', t, i) && Stable(w, w') && Get(w', t, i) == Get(w1, t, i)
  {
    hide Counts, ActiveOk, PostsOk, CalmBut;
    assert ThrOk(w1.thr[t]);
    var w' := PopFrame(w1, w.joinableRunning, w.leftRunning);
    assert w'.frames == w.frames;
    SameSlots(w1, w');
    forall u, j | 0 <= u < |w.thr| && 0 <= j < |w.thr[u].pth| && j < |w'.thr[u].pth|
      ensures SameBusy(Get(w, u, j), Get(w', u, j))
    {
      assert SameBusy(Get(PushFrame(w, t, i), u, j), Get(w1, u, j));
    }
  }

  /** How far thread_run can still go from an instance in this state. */
  function MaxSteps(x: Inst): nat {
    match x.st
    case Running => if x.left then 1 else 3
    case Switch(idx) => if idx.LEAVE? then 2 else if idx.DETACH? || idx.DONE? then 1 else 4
    case _ => 1
  }

  function MaxBursts(x: Inst): nat {
    match x.st
    case Running => if x.left then 1 else 2
    case Switch(idx) => if idx.LEAVE? then 1 else if idx.DETACH? || idx.DONE? then 0 else 2
    case _ => 0
  }

  /** The instance thread_run works on: tidy, except for an atomic leave to be carried out. */
  predicate Ready(w: World, t: nat, i: nat) {
    LiveAt(w, t, i) && CalmBut(w, t, i) && Tidy(Get(w, t, i).(atomic := false)) &&
    (Get(w, t, i).atomic ==> Get(w, t, i).st == Switch(LEAVE) && !Get(w, t, i).attached)
  }

  /** What thread_run guarantees, whatever the bodies do. */
  ghost predicate RunOk(w: World, t: nat, i: nat, o: RunOut)
    requires t < |w.thr| && i < |w.thr[t].pth|
  {
    Good(w, o.out) &&
    o.steps <= MaxSteps(Get(w, t, i)) && o.bursts <= MaxBursts(Get(w, t, i)) &&
    (o.out.Ok? ==>
       i < |o.out.w.thr[t].pth| &&
       var y := Get(o.out.w, t, i);
       !y.st.Running? && (y.st.Free? || !y.left) &&
       (Get(w, t, i).st == Switch(LEAVE) || Get(w, t, i).left ==> y.st.Free?))
  }

  lemma ThreadRunGood(w: World, t: nat, i: nat, bs: seq<Burst>)
    requires Inv(w) && Ready(w, t, i)
    ensures RunOk(w, t, i, ThreadRun(w, t, i, bs))
    decreases bs, if Get(w, t, i).st.Switch? then 2 else 1
  {
    hide Inv, Calm, CalmBut, Stable, RunStep, SwitchStep;
    LiveFacts(w, t, i);
    if Get(w, t, i).st.Sleeping? {
      CalmFromBut(w, t, i);
      SameStable(w);
    } else if Get(w, t, i).st.Running? {
      if bs != [] {
        CalmFromBut(w, t, i);
        RunStepGood(w, t, i, bs[0]);
        var r := RunStep(w, t, i, bs[0]);
        if r.Ok? {
          StableAt(w, r.w, t, i);
          AfterStep(w, r.w, t, i);
          if Again(Get(r.w, t, i)) { ThreadRunGood(r.w, t, i, bs[1..]); }
        }
        RunningCase(w, t, i, bs);
      }
    } else {
      SwitchStepGood(w, t, i);
      var r := SwitchStep(w, t, i);
      if r.Ok? {
        AfterSwitchStep(w, r.w, t, i);
        if Again(Get(r.w, t, i)) { ThreadRunGood(r.w, t, i, bs); }
      }
      SwitchCase(w, t, i, bs);
    }
  }

  lemma RunningCase(w: World, t: nat, i: nat, bs: seq<Burst>)
    requires Inv(w) && Ready(w, t, i) && Get(w, t, i).st.Running? && bs != []
    requires var r := RunStep(w, t, i, bs[0]);
             GoodBut(w, t, i, r) &&
             (r.Ok? ==> Valid(r.w, t, i) && Stopped(Get(r.w, t, i)) &&
                        (Get(w, t, i).left ==> Get(r.w, t, i).st.Free?) &&
                        (!Get(r.w, t, i).st.Free? ==> !Get(r.w, t, i).left) &&
                        (Again(Get(r.w, t, i)) ==> Ready(r.w, t, i) && RunOk(r.w, t, i, ThreadRun(r.w, t, i, bs[1..]))))
    ensures RunOk(w, t, i, ThreadRun(w, t, i, bs))
  {
    hide Inv, Calm, CalmBut, Stable, RunStep;
    var r := RunStep(w, t, i, bs[0]);
    if r.Ok? {
      if Again(Get(r.w, t, i)) {
        RunOnward(w, r.w, t, i, ThreadRun(r.w, t, i, bs[1..]));
      } else {
        CalmFromBut(r.w, t, i);
      }
    }
  }

  lemma SwitchCase(w: World, t: nat, i: nat, bs: seq<Burst>)
    requires Inv(w) && Ready(w, t, i) && Get(w, t, i).st.Switch?
    requires var r := SwitchStep(w, t, i);
             Good(w, r) &&
             (r.Ok? ==> Get(r.w, t, i) == AfterSwitch(Get(w, t, i).(atomic := false)) &&
                        (!Get(r.w, t, i).st.Free? && Get(r.w, t, i).left ==> Get(w, t, i).st == Switch(LEAVE)) &&
                        (Again(Get(r.w, t, i)) ==> Ready(r.w, t, i) && RunOk(r.w, t, i, ThreadRun(r.w, t, i, bs))))
    ensures RunOk(w, t, i, ThreadRun(w, t, i, bs))
  {
    hide Inv, Calm, CalmBut, Stable, SwitchStep;
    var r := SwitchStep(w, t, i);
    if r.Ok? && Again(Get(r.w, t, i)) {
      RunOnward(w, r.w, t, i, ThreadRun(r.w, t, i, bs));
    }
  }

  lemma AfterStep(w: World, w1: World, t: nat, i: nat)
    requires Inv(w) && LiveAt(w, t, i) && Inv(w1) && CalmBut(w1, t, i) && Stable(w, w1)
    requires Valid(w1, t, i) && Stopped(Get(w1, t, i))
    ensures Again(Get(w1, t, i)) ==> Ready(w1, t, i)
    ensures !Get(w1, t, i).st.Free? ==> !Get(w1, t, i).left
  {
  }

  lemma AfterSwitchStep(w: World, w1: World, t: nat, i: nat)
    requires Inv(w) && Ready(w, t, i) && Get(w, t, i).st.Switch? && Inv(w1) && Calm(w1)
    requires Valid(w1, t, i) && Get(w1, t, i) == AfterSwitch(Get(w, t, i).(atomic := false))
    ensures Again(Get(w1, t, i)) ==> Ready(w1, t, i)
    ensures !Get(w1, t, i).st.Free? && Get(w1, t, i).left ==> Get(w, t, i).st == Switch(LEAVE)
  {
    hide Inv, Calm;
    LiveFacts(w, t, i);
    SlotFacts(w1, t, i);
    TidyAt(w1, t, i);
  }

  lemma RunOnward(w: World, w1: World, t: nat, i: nat, o: RunOut)
    requires Inv(w) && Inv(w1) && Stable(w, w1) && LiveAt(w, t, i) && LiveAt(w1, t, i) && RunOk(w1, t, i, o)
    ensures Good(w, o.out)
  {
    hide Inv, Calm, Stable;
    if o.out.Ok? {
      StableTrans(w, w1, o.out.w);
    }
  }

  // ---------------------------------------------------------------- detach, cancel, shutdown

  /** do_detach takes the slot off the joinable ones just as coopth_retf does. */
  lemma DetachIsRetf(w: World, t: nat, i: nat)
    requires Inv(w) && LiveAt(w, t, i) && Get(w, t, i).attached
    ensures JoinableDec(Put(w, t, i, Get(w, t, i).(attached := false)), w.thr[t].cls) == Retf(w, t, i)
  {
    hide PostsOk, FramesOk, ActiveOk;
  }

  lemma DetachDone(w: World, w2: World, t: nat, i: nat)
    requires Inv(w) && Inv(w2) && LiveAt(w2, t, i) && CalmBut(w2, t, i) && Stable(w, w2)
    requires !Get(w2, t, i).attached && !Get(w2, t, i).busy && !Get(w2, t, i).atomic
    ensures Good(w, DelThread(w2, t, i))
    ensures DelThread(w2, t, i).Ok? ==>
              Get(DelThread(w2, t, i).w, t, i) == Get(w2, t, i).(st := Free)
  {
    hide Inv, Calm, CalmBut, Stable, DelThread, FreeSlot;
    LiveFacts(w2, t, i);
    DelInv(w2, t, i);
    if DelThread(w2, t, i).Ok? {
      DelFields(w2, t, i);
      StableTrans(w, w2, DelThread(w2, t, i).w);
    }
  }

  /** detach_sw for the other pending switches, once the slot is off the joinable ones. */
  lemma DetachSwitch(w: World, w2: World, t: nat, i: nat)
    requires Inv(w) && Inv(w2) && LiveAt(w2, t, i) && CalmBut(w2, t, i) && Stable(w, w2)
    requires !Get(w2, t, i).attached && !Get(w2, t, i).atomic && Get(w2, t, i).st.Switch?
    requires Get(w2, t, i).st.idx !in {DETACH, DONE}
    ensures Good(w, DoSwitch(w2, t, i))
    ensures DoSwitch(w2, t, i).Ok? ==>
              Get(DoSwitch(w2, t, i).w, t, i) == AfterSwitch(Get(w2, t, i))
  {
    hide Inv, Calm, CalmBut, Stable, DoSwitch;
    DoSwitchGood(w2, t, i);
    if DoSwitch(w2, t, i).Ok? {
      StableTrans(w, w2, DoSwitch(w2, t, i).w);
    }
  }

  /** What do_detach does after that, by the state it finds. */
  lemma DetachSwIs(w: World, t: nat, i: nat)
    requires Valid(w, t, i) && Retf(w, t, i).Ok?
    requires JoinableDec(Put(w, t, i, Get(w, t, i).(attached := false)), w.thr[t].cls) == Retf(w, t, i)
    ensures var w2, st := Retf(w, t, i).w, Get(w, t, i).st;
            DetachSw(w, t, i) ==
              if !st.Switch? then Ok(w2)
              else if st.idx.DETACH? then Ok(SetState(w2, t, i, Running))
              else if st.idx.DONE? then DelThread(w2, t, i)
              else DoSwitch(w2, t, i)
  {
  }

  lemma DetachSwGood(w: World, t: nat, i: nat)
    requires Inv(w) && Calm(w) && LiveAt(w, t, i) && Get(w, t, i).attached
    ensures Good(w, DetachSw(w, t, i))
    ensures DetachSw(w, t, i).Ok? ==>
              var y := Get(DetachSw(w, t, i).w, t, i);
              !y.attached && !y.st.Switch? && (y.st.Free? <==> Get(w, t, i).st == Switch(DONE))
  {
    hide Inv, Calm, CalmBut, Stable, DetachSw, Retf, DoSwitch, DelThread, SetState, JoinableDec;
    LiveFacts(w, t, i);
    TidyAt(w, t, i);
    var x := Get(w, t, i);
    RetfGood(w, t, i);
    DetachIsRetf(w, t, i);
    DetachSwIs(w, t, i);
    var w2 := Retf(w, t, i).w;
    if !x.st.Switch? {
      CalmFromBut(w2, t, i);
    } else if x.st.idx.DETACH? {
      SetStateGood(w2, t, i, Running);
      StableTrans(w, w2, SetState(w2, t, i, Running));
    } else if x.st.idx.DONE? {
      DetachDone(w, w2, t, i);
    } else {
      DetachSwitch(w, w2, t, i);
    }
  }

  lemma RunToDeathGood(w: World, t: nat, i: nat, b: Burst)
    requires Inv(w) && Calm(w) && LiveAt(w, t, i) && Get(w, t, i).st != Switch(DONE)
    ensures Good(w, RunToDeath(w, t, i, b))
    decreases b, 1, 0
  {
    hide Inv, Calm, CalmBut, Stable, RunBurst;
    RunBurstGood(w, t, i, b);
    var r := RunBurst(w, t, i, b);
    if r.Ok? {
      StableAt(w, r.w, t, i);
      if Get(r.w, t, i).st.Free? {
        CalmFromBut(r.w, t, i);
      }
    }
  }

  lemma DoDetachGood(w: World, t: nat, i: nat, b: Burst)
    requires Inv(w) && Calm(w) && LiveAt(w, t, i) && Get(w, t, i).attached
    ensures Good(w, DoDetach(w, t, i, b))
    decreases b, 1
  {
    hide Inv, Calm, CalmBut, Stable, DetachSw, RunToDeath;
    LiveFacts(w, t, i);
    DetachSwGood(w, t, i);
    var r := DetachSw(w, t, i);
    if r.Ok? {
      StableAt(w, r.w, t, i);
      SlotFacts(r.w, t, i);
      if !Get(r.w, t, i).st.Free? && Get(w, t, i).cancelled {
        RunToDeathGood(r.w, t, i, b);
        if RunToDeath(r.w, t, i, b).Ok? {
          StableTrans(w, r.w, RunToDeath(r.w, t, i, b).w);
        }
      }
    }
  }

  lemma DoCancelGood(w: World, t: nat, i: nat, b: Burst)
    requires Inv(w) && Calm(w) && LiveAt(w, t, i)
    ensures Good(w, DoCancel(w, t, i, b))
    decreases b, 2
  {
    hide Inv, Calm, CalmBut, Stable, RunToDeath, Awake;
    LiveFacts(w, t, i);
    TidyAt(w, t, i);
    var x := Get(w, t, i).(cancelled := true);
    var w1 := Put(w, t, i, x);
    UpdateGood(w, t, i, x);
    if x.attached {
      AwakeGood(w1, t, i);
      StableTrans(w, w1, Awake(w1, t, i));
    } else {
      RunToDeathGood(w1, t, i, b);
      if RunToDeath(w1, t, i, b).Ok? {
        StableTrans(w, w1, RunToDeath(w1, t, i, b).w);
      }
    }
  }

  lemma FindTopIs(w: World, attached: bool, own: Option<nat>, k: nat)
    ensures FindTop(w, attached, own, k).Some? ==>
              var t := FindTop(w, attached, own, k).value;
              HasCurrent(w, t) && own != Some(t) && Get(w, t, w.thr[t].cur - 1).attached == attached
    decreases |w.active| - k
  {
    if k < |w.active| { FindTopIs(w, attached, own, k + 1); }
  }

  /** Cancelling an attached instance only marks it (and wakes it up). */
  lemma CancelAttached(w: World, t: nat, i: nat, b: Burst)
    requires Inv(w) && Calm(w) && LiveAt(w, t, i) && Get(w, t, i).attached
    ensures var r := DoCancel(w, t, i, b);
            r.Ok? && LiveAt(r.w, t, i) && r.w.total == w.total && r.w.joinable == w.joinable &&
            Get(r.w, t, i) == Get(w, t, i).(cancelled := true,
                                            st := if Get(w, t, i).st.Sleeping? then Switch(AWAKEN) else Get(w, t, i).st)
  {
    hide Inv, Calm;
  }

  lemma CancelDetachGood(w: World, t: nat, i: nat, b: Burst)
    requires Inv(w) && Calm(w) && LiveAt(w, t, i) && Get(w, t, i).attached
    ensures Good(w, CancelDetach(w, t, i, b))
    decreases b, 3
  {
    hide Inv, Calm, Stable, DoCancel, DoDetach;
    DoCancelGood(w, t, i, b);
    CancelAttached(w, t, i, b);
    var w1 := DoCancel(w, t, i, b).w;
    DoDetachGood(w1, t, i, b);
    if DoDetach(w1, t, i, b).Ok? {
      StableTrans(w, w1, DoDetach(w1, t, i, b).w);
    }
  }

  lemma ShutdownGood(w: World, cur: Option<(nat, nat)>, bs: seq<Burst>)
    requires Inv(w) && Calm(w)
    ensures Good(w, UnsafeShutdown(w, cur, bs))
    decreases bs, 3
  {
    hide Inv, Calm, Stable, CancelDetach, FindTop;
    FindTopIs(w, true, None, 0);
    SameStable(w);
    var f := FindTop(w, true, None, 0);
    if f.Some? && OwnTid(w, cur) != f && bs != [] {
      var t := f.value;
      TopLive(w, t);
      CancelDetachGood(w, t, w.thr[t].cur - 1, bs[0]);
      var r := CancelDetach(w, t, w.thr[t].cur - 1, bs[0]);
      if r.Ok? {
        ShutdownGood(r.w, cur, bs[1..]);
        if UnsafeShutdown(r.w, cur, bs[1..]).Ok? {
          StableTrans(w, r.w, UnsafeShutdown(r.w, cur, bs[1..]).w);
        }
      }
    }
  }

  lemma DoneGood(w: World, cur: Option<(nat, nat)>, bs: seq<Burst>)
    requires Inv(w) && Calm(w)
    ensures Good(w, CoopthDone(w, cur, bs))
    decreases bs, 4
  {
    DoneFromGood(w, OwnTid(w, cur), SelfDetached(w, cur), bs);
  }

  lemma DoneFromGood(w: World, own: Option<nat>, itd: int, bs: seq<Burst>)
    requires Inv(w) && Calm(w)
    ensures Good(w, DoneFrom(w, own, itd, bs))
    decreases bs, 3
  {
    hide Inv, Calm, Stable, DoCancel, FindTop;
    FindTopIs(w, false, own, 0);
    SameStable(w);
    var f := FindTop(w, false, own, 0);
    if f.Some? && bs != [] {
      var t := f.value;
      var i := w.thr[t].cur - 1;
      TopLive(w, t);
      DoCancelGood(w, t, i, bs[0]);
      var r := DoCancel(w, t, i, bs[0]);
      if r.Ok? && r.w.total == w.total - 1 {
        DoneFromGood(r.w, own, itd, bs[1..]);
        if DoneFrom(r.w, own, itd, bs[1..]).Ok? {
          StableTrans(w, r.w, DoneFrom(r.w, own, itd, bs[1..]).w);
        }
      }
    }
  }

  // ---------------------------------------------------------------- scripts

  lemma AddPostGood(w: World, t: nat, i: nat, h: int)
    requires Inv(w) && Calm(w) && LiveAt(w, t, i)
    ensures Good(w, Ok(AddPostHandler(w, t, i, h)))
  {
    hide Inv, Calm, CalmBut, Stable;
    LiveFacts(w, t, i);
    TidyAt(w, t, i);
    var x, w' := Get(w, t, i), AddPostHandler(w, t, i, h);
    var y := x.(posts := x.posts + [h]);
    PutStable(w, w', t, i, y);
    if x.left {
      LeftPutInv(w, w', t, i, y);
    } else {
      PostsPut(w, w', t, i, y, y.posts);
    }
  }

  /** Once left, an instance's handlers have run; what it adds later is never called. */
  lemma LeftPutInv(w: World, w': World, t: nat, i: nat, x: Inst)
    requires Inv(w) && LiveAt(w, t, i) && Get(w, t, i).left
    requires w' == Put(w, t, i, x) && x == Get(w, t, i).(posts := x.posts)
    ensures Inv(w')
  {
    hide Shape, Counts, ActiveOk, PostsOk;
    LiveFacts(w, t, i);
    assert Shape(w) && Counts(w);
    PutCounts(w, w', t, i, x);
    PutShape(w, w', t, i, x);
    PutPosts(w, w', t, i, x);
  }

  lemma RunTopGood(w: World, t: nat, bs: seq<Burst>)
    requires Inv(w) && Calm(w) && HasCurrent(w, t)
    ensures Good(w, ThreadRun(w, t, w.thr[t].cur - 1, bs).out)
    decreases bs, 4
  {
    hide Inv, Calm, Stable, ThreadRun;
    TopLive(w, t);
    TidyAt(w, t, w.thr[t].cur - 1);
    ThreadRunGood(w, t, w.thr[t].cur - 1, bs);
  }

  predicate RunsBodies(a: Act) {
    a.RunAttached? || a.RunDetached? || a.Cancel? || a.UnsafeDetach? || a.Shutdown? || a.ShutDone?
  }

  predicate SetsFlags(a: Act) { a.SetClass? || a.SetDetached? || a.SetPost? || a.CallPost? }

  lemma FlagActGood(w: World, cur: Option<(nat, nat)>, a: Act)
    requires Inv(w) && Calm(w) && SetsFlags(a)
    ensures Good(w, Exec(w, cur, a))
  {
    hide Inv, Calm, Stable, CallPostInternal;
    if a.tid < |w.thr| {
      var th := w.thr[a.tid];
      ThrFacts(w, a.tid);
      match a
      case SetClass(t, c) => if c < CTCL_MAX && !AnyAttached(th) { FlagsGood(w, t, th.(cls := c)); }
      case SetDetached(t) => FlagsGood(w, t, th.(detached := true));
      case SetPost(t, on) => FlagsGood(w, t, th.(post := on));
      case CallPost(t) => CallPostGood(w, t);
    }
  }

  lemma PlainActGood(w: World, cur: Option<(nat, nat)>, a: Act)
    requires Inv(w) && Calm(w) && CurOk(w, cur) && !RunsBodies(a) && !SetsFlags(a)
    ensures Good(w, Exec(w, cur, a))
  {
    hide Inv, Calm, Stable, StartThread, Callf, Awake, AddPostHandler;
    match a
    case Start(t, custom) => StartInv(w, t, custom);
    case WakeUp(t) => if HasCurrent(w, t) { TopLive(w, t); AwakeGood(w, t, w.thr[t].cur - 1); }
    case AttachToCur(t) =>
      if HasCurrent(w, t) && !Get(w, t, w.thr[t].cur - 1).attached && !Get(w, t, w.thr[t].cur - 1).left {
        TopLive(w, t);
        AttachGood(w, t, w.thr[t].cur - 1);
      }
    case AddPost(h) => if cur.Some? { AddPostGood(w, cur.value.0, cur.value.1, h); }
    case SetCancel(d) => if cur.Some? { SetCancelGood(w, cur.value.0, cur.value.1, d); }
  }

  lemma ExecGood(w: World, cur: Option<(nat, nat)>, a: Act)
    requires Inv(w) && Calm(w) && CurOk(w, cur)
    ensures Good(w, Exec(w, cur, a))
    decreases a, 0
  {
    hide Inv, Calm, Stable, ThreadRun, DoCancel, DoDetach, UnsafeShutdown, CoopthDone;
    if SetsFlags(a) {
      FlagActGood(w, cur, a);
    } else if !RunsBodies(a) {
      PlainActGood(w, cur, a);
    } else if a.Shutdown? {
      ShutdownGood(w, cur, a.bursts);
    } else if a.ShutDone? {
      DoneGood(w, cur, a.bursts);
    } else if HasCurrent(w, a.tid) {
      SameStable(w);
      TopLive(w, a.tid);
      match a
      case RunAttached(t, bs) => RunTopGood(w, t, bs);
      case RunDetached(t, bs) => DetachedCount(w); RunTopGood(w, t, bs);
      case Cancel(t, b) => DoCancelGood(w, t, w.thr[t].cur - 1, b);
      case UnsafeDetach(t, b) =>
        if Get(w, t, w.thr[t].cur - 1).attached { DoDetachGood(w, t, w.thr[t].cur - 1, b); }
    }
  }

  lemma SetCancelGood(w: World, t: nat, i: nat, d: bool)
    requires Inv(w) && Calm(w) && LiveAt(w, t, i)
    ensures Good(w, Ok(Put(w, t, i, Get(w, t, i).(cancDisabled := d))))
  {
    hide Inv, Calm, Stable;
    LiveFacts(w, t, i);
    TidyAt(w, t, i);
    UpdateGood(w, t, i, Get(w, t, i).(cancDisabled := d));
  }

  /** DETACHED_RUNNING counts the open frames entered neither attached nor left. */
  lemma {:induction false} DetachedRunning(fs: seq<Frame>)
    requires forall k | 0 <= k < |fs| :: !(fs[k].attached && fs[k].left)
    ensures |fs| - CountAttached(fs) - CountLeft(fs) == CountDetached(fs)
  {
    if fs != [] {
      DetachedRunning(fs[..|fs| - 1]);
    }
  }

  lemma DetachedCount(w: World)
    requires Inv(w)
    ensures w.threadRunning - w.joinableRunning - w.leftRunning == CountDetached(w.frames)
  {
    hide Shape, Counts, ActiveOk, PostsOk;
    DetachedRunning(w.frames);
  }

  lemma ExecActsGood(w: World, cur: Option<(nat, nat)>, acts: seq<Act>)
    requires Inv(w) && Calm(w) && CurOk(w, cur)
    ensures Good(w, ExecActs(w, cur, acts))
    decreases acts, 0
  {
    hide Inv, Calm, Stable, Exec;
    SameStable(w);
    if acts != [] {
      ExecGood(w, cur, acts[0]);
      var r := Exec(w, cur, acts[0]);
      if r.Ok? {
        CurStable(w, r.w, cur);
        ExecActsGood(r.w, cur, acts[1..]);
        if ExecActs(r.w, cur, acts[1..]).Ok? {
          StableTrans(w, r.w, ExecActs(r.w, cur, acts[1..]).w);
        }
      }
    }
  }
}
