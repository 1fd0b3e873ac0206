/**
 What the scheduler does to a body, told from outside: which runs resume it and which do not,
 what each way of giving control back leads to, and what each call changes.
 */
module CoopthBehaviour {
  import opened Basics
  import opened CoopthModel
  import opened CoopthInvariant
  import opened CoopthRuns
  import opened CoopthScheduler

  // ---------------------------------------------------------------- the end of a burst

  /** The body itself ran, and did not end before its first instruction because it was cancelled. */
  predicate Ran(x: Inst) { x.started || !x.cancelled }

  /** What a body that gave control back with `ret` is left as, when it was `x` on doing so. */
  predicate LeftAs(x: Inst, ret: Ret, y: Inst) {
    (ret.Sleep? ==> y == x.(st := Sleeping)) &&
    (ret.Yield? ==> y == x.(st := Switch(YIELD))) &&
    (ret.Wait? ==> x.attached && y == x.(st := Switch(WAIT))) &&
    (ret.Sched? ==> x.attached && y == x.(st := Switch(SCHED))) &&
    (ret.Detach? ==> x.attached && y == x.(st := Switch(DETACH))) &&
    (ret.Attach? ==> !x.attached && y == x.(attached := true, st := Switch(ATTACH))) &&
    (ret.Leave? ==> y == x.(st := Switch(LEAVE))) &&
    (ret.Abandon? ==> y == x.(posts := [], atomic := !x.attached, st := Switch(LEAVE))) &&
    (ret.Finish? ==> y == x.(st := if x.attached then Switch(DONE) else Free))
  }

  /** Every way a body may end its burst, and that no other is let through once it has left or is to be cancelled. */
  lemma BurstEnds(w: World, t: nat, i: nat, ret: Ret)
    requires Valid(w, t, i)
    ensures var x, r := Get(w, t, i), EndBurst(w, t, i, ret);
            (r.Ok? ==> Valid(r.w, t, i) && LeftAs(x, ret, Get(r.w, t, i))) &&
            (!ret.Finish? && (x.left || (x.cancelled && !x.cancDisabled)) ==> r == Halt(Fatal))
  {
    hide Without;
    var x := Get(w, t, i);
    if MayReturn(x, ret) && ret.Finish? && !x.attached { Freed(w, t, i); }
  }

  lemma Freed(w: World, t: nat, i: nat)
    requires Valid(w, t, i)
    ensures var r := DelThread(w, t, i);
            r.Ok? ==> Valid(r.w, t, i) && Get(r.w, t, i) == Get(w, t, i).(st := Free)
  {
    hide Without;
  }

  /** The same of a whole burst: its calls first, then its end. */
  lemma BurstLeaves(w: World, t: nat, i: nat, b: Burst)
    requires Valid(w, t, i) && Ran(Get(w, t, i)) && RunBurst(w, t, i, b).Ok?
    ensures var a := ExecActs(Enter(w, t, i), Some((t, i)), b.acts);
            a.Ok? && Valid(a.w, t, i) && Valid(RunBurst(w, t, i, b).w, t, i) &&
            LeftAs(Get(a.w, t, i).(busy := false), b.ret, Get(RunBurst(w, t, i, b).w, t, i))
  {
    hide EndBurst, ExecActs;
    var a := ExecActs(Enter(w, t, i), Some((t, i)), b.acts);
    if a.Ok? && Valid(a.w, t, i) { BurstEnds(Exit(a.w, t, i), t, i, b.ret); }
  }

  // ---------------------------------------------------------------- what a run does

  /** A sleeping instance is not resumed: a run changes nothing and takes no burst. */
  lemma Dormant(w: World, t: nat, i: nat, bs: seq<Burst>)
    requires Valid(w, t, i) && Get(w, t, i).st.Sleeping?
    ensures ThreadRun(w, t, i, bs) == RunOut(Ok(w), 0, 1, 0)
  {
    hide RunStep, SwitchStep;
  }

  /** States from which the next run resumes the body at once. */
  predicate Resumable(s: State) { s in {Running, Switch(YIELD), Switch(WAIT), Switch(SCHED), Switch(ATTACH), Switch(AWAKEN)} }

  /** The world in which the body is resumed. */
  function Resuming(w: World, t: nat, i: nat): World
    requires Valid(w, t, i)
  {
    if Get(w, t, i).st.Running? then w else Put(w, t, i, Get(w, t, i).(atomic := false, st := Running))
  }

  lemma SwitchToRun(w: World, t: nat, i: nat)
    requires Valid(w, t, i) && Resumable(Get(w, t, i).st) && Get(w, t, i).st.Switch?
    ensures SwitchStep(w, t, i) == Ok(Resuming(w, t, i))
  {
    hide Retf, SwLeave, SwDone;
    var x := Get(w, t, i);
    PutTwice(w, t, i, x.(atomic := false), x.(atomic := false, st := Running));
  }

  lemma PutTwice(w: World, t: nat, i: nat, x: Inst, y: Inst)
    requires t < |w.thr| && i < |w.thr[t].pth|
    ensures Put(Put(w, t, i, x), t, i, y) == Put(w, t, i, y)
  {
    var a, b := Put(Put(w, t, i, x), t, i, y), Put(w, t, i, y);
    assert a.thr[t].pth == b.thr[t].pth;
    assert a.thr == b.thr;
  }

  /** A run resumes such a body, with nothing else changed first, and stops after that burst unless it must go on at once. */
  lemma Resumed(w: World, t: nat, i: nat, bs: seq<Burst>)
    requires Valid(w, t, i) && Resumable(Get(w, t, i).st) && bs != []
    ensures var r, o := RunStep(Resuming(w, t, i), t, i, bs[0]), ThreadRun(w, t, i, bs);
            o.bursts >= 1 &&
            (r.Halt? || (Valid(r.w, t, i) && !Again(Get(r.w, t, i))) ==> o.out == r && o.bursts == 1)
  {
    hide RunStep, SwitchStep, ThreadRun;
    if Get(w, t, i).st.Switch? {
      SwitchToRun(w, t, i);
      SwitchTurn(w, t, i, bs);
    }
    RunningTurn(Resuming(w, t, i), t, i, bs);
  }

  /** Only a detached body that abandons its thread goes on at once; any other is resumed exactly once. */
  lemma ResumedOnce(w: World, t: nat, i: nat, bs: seq<Burst>)
    requires Inv(w) && Calm(w) && LiveAt(w, t, i) && Resumable(Get(w, t, i).st) && bs != []
    requires !bs[0].ret.Abandon?
    ensures var o := ThreadRun(w, t, i, bs);
            o.bursts == 1 && o.out == RunStep(Resuming(w, t, i), t, i, bs[0])
  {
    hide Inv, Calm, Stable, RunStep, ThreadRun;
    ResumingGood(w, t, i);
    LiveFacts(w, t, i);
    NotAgain(Resuming(w, t, i), t, i, bs[0]);
    Resumed(w, t, i, bs);
  }

  lemma ResumingGood(w: World, t: nat, i: nat)
    requires Inv(w) && Calm(w) && LiveAt(w, t, i) && Resumable(Get(w, t, i).st)
    ensures var w' := Resuming(w, t, i); Inv(w') && Calm(w') && LiveAt(w', t, i) && Get(w', t, i).st.Running?
  {
    hide Inv, Calm, Stable;
    TidyAt(w, t, i);
    LiveFacts(w, t, i);
    UpdateGood(w, t, i, Get(w, t, i).(st := Running));
  }

  lemma NotAgain(w: World, t: nat, i: nat, b: Burst)
    requires Inv(w) && Calm(w) && LiveAt(w, t, i) && Get(w, t, i).st.Running? && !b.ret.Abandon?
    ensures var r := RunStep(w, t, i, b); r.Ok? ==> Valid(r.w, t, i) && !Again(Get(r.w, t, i))
  {
    hide Inv, Calm, Stable, RunBurst;
    PushGood(w, t, i);
    LiveFacts(w, t, i);
    NotAtomic(PushFrame(w, t, i), t, i, b);
  }

  lemma NotAtomic(w: World, t: nat, i: nat, b: Burst)
    requires Inv(w) && Calm(w) && LiveAt(w, t, i) && Get(w, t, i).st.Running? && !b.ret.Abandon?
    ensures var r := RunBurst(w, t, i, b); r.Ok? ==> Valid(r.w, t, i) && !Get(r.w, t, i).atomic
  {
    hide Inv, Calm, Stable, EndBurst, ExecActs;
    LiveFacts(w, t, i);
    var x := Get(w, t, i);
    if !x.busy && RunBurst(w, t, i, b).Ok? {
      EnterGood(w, t, i);
      if Ran(x) {
        BurstLeaves(w, t, i, b);
        ExecActsGood(Enter(w, t, i), Some((t, i)), b.acts);
        var a := ExecActs(Enter(w, t, i), Some((t, i)), b.acts).w;
        CurStable(Enter(w, t, i), a, Some((t, i)));
        TidyAt(a, t, i);
      } else {
        TidyAt(w, t, i);
        BurstEnds(Exit(Enter(w, t, i), t, i), t, i, Finish);
      }
    }
  }

  // ---------------------------------------------------------------- sleep

  /** Nothing anywhere in the call's scripts wakes, cancels, attaches, detaches or starts thread `t`, or shuts down. */
  predicate Spares(a: Act, t: nat)
    decreases a
  {
    match a
    case Start(u, _) => u != t
    case RunAttached(_, bs) => forall k | 0 <= k < |bs| :: BurstSpares(bs[k], t)
    case RunDetached(_, bs) => forall k | 0 <= k < |bs| :: BurstSpares(bs[k], t)
    case WakeUp(u) => u != t
    case Cancel(u, b) => u != t && BurstSpares(b, t)
    case UnsafeDetach(u, b) => u != t && BurstSpares(b, t)
    case AttachToCur(u) => u != t
    case Shutdown(_) => false
    case ShutDone(_) => false
    case _ => true
  }

  predicate BurstSpares(b: Burst, t: nat)
    decreases b
  {
    forall k | 0 <= k < |b.acts| :: Spares(b.acts[k], t)
  }

  /** The newest instance of thread `t` is asleep. */
  predicate Asleep(w: World, t: nat) {
    HasCurrent(w, t) && |w.cs| == CTCL_MAX && Get(w, t, w.thr[t].cur - 1).st.Sleeping?
  }

  /** Thread `t` has the same newest instance, exactly as it was. */
  predicate Undisturbed(w: World, w': World, t: nat) {
    |w'.thr| == |w.thr| && |w'.cs| == |w.cs| && HasCurrent(w, t) && HasCurrent(w', t) && w'.thr[t].cur == w.thr[t].cur &&
    Get(w', t, w.thr[t].cur - 1) == Get(w, t, w.thr[t].cur - 1)
  }

  /** Only thread `u` changed. */
  predicate OnlyThread(w: World, w': World, u: nat) {
    |w'.thr| == |w.thr| && |w'.cs| == |w.cs| && forall v | 0 <= v < |w.thr| && v != u :: w'.thr[v] == w.thr[v]
  }

  lemma OtherUndisturbed(w: World, w': World, u: nat, t: nat)
    requires OnlyThread(w, w', u) && u != t && HasCurrent(w, t)
    ensures Undisturbed(w, w', t)
  {
  }

  lemma UndisturbedTrans(a: World, b: World, c: World, t: nat)
    requires Undisturbed(a, b, t) && Undisturbed(b, c, t)
    ensures Undisturbed(a, c, t)
  {
  }

  // -- steps that touch one thread

  lemma DelOnly(w: World, u: nat, j: nat)
    requires Valid(w, u, j)
    ensures var r := DelThread(w, u, j); r.Ok? ==> OnlyThread(w, r.w, u)
  {
    hide Without;
  }

  lemma EndOnly(w: World, u: nat, j: nat, ret: Ret)
    requires Valid(w, u, j)
    ensures var r := EndBurst(w, u, j, ret); r.Ok? ==> OnlyThread(w, r.w, u)
  {
    hide DelThread;
    DelOnly(w, u, j);
  }

  lemma SwitchOnly(w: World, u: nat, j: nat)
    requires Valid(w, u, j) && Get(w, u, j).st.Switch?
    ensures var r := DoSwitch(w, u, j); r.Ok? ==> OnlyThread(w, r.w, u)
  {
    hide DelThread;
    if Get(w, u, j).st.idx.DONE? && Retf(w, u, j).Ok? { DelOnly(Retf(w, u, j).w, u, j); }
  }

  lemma SwitchStepOnly(w: World, u: nat, j: nat)
    requires Valid(w, u, j) && Get(w, u, j).st.Switch?
    ensures var r := SwitchStep(w, u, j); r.Ok? ==> OnlyThread(w, r.w, u)
  {
    hide DoSwitch;
    SwitchOnly(Put(w, u, j, Get(w, u, j).(atomic := false)), u, j);
  }

  lemma DetachSwOnly(w: World, u: nat, j: nat)
    requires Valid(w, u, j)
    ensures var r := DetachSw(w, u, j); r.Ok? ==> OnlyThread(w, r.w, u)
  {
    hide DelThread, DoSwitch;
    var w1 := Put(w, u, j, Get(w, u, j).(attached := false));
    var r := JoinableDec(w1, w.thr[u].cls);
    if r.Ok? {
      DelOnly(r.w, u, j);
      if Get(r.w, u, j).st.Switch? { SwitchOnly(r.w, u, j); }
    }
  }

  lemma StartOnly(w: World, u: nat, custom: bool)
    ensures var r := StartThread(w, u, custom); r.Ok? ==> OnlyThread(w, r.w, u)
  {
  }

  // -- whole scripts

  lemma BurstSpare(w: World, u: nat, j: nat, b: Burst, t: nat)
    requires Valid(w, u, j) && u != t && Asleep(w, t) && BurstSpares(b, t)
    ensures var r := RunBurst(w, u, j, b); r.Ok? ==> Undisturbed(w, r.w, t)
    decreases b, 0
  {
    hide EndBurst, ExecActs, OnlyThread, Undisturbed;
    var e := Enter(w, u, j);
    EnterOnly(w, u, j);
    OtherUndisturbed(w, e, u, t);
    StillAsleep(w, e, t);
    ActsSpare(e, Some((u, j)), b.acts, t);
    if RunBurst(w, u, j, b).Ok? {
      if Ran(Get(w, u, j)) {
        var a := ExecActs(e, Some((u, j)), b.acts).w;
        UndisturbedTrans(w, e, a, t);
        EndSpare(w, a, u, j, b.ret, t);
      } else {
        EndSpare(w, e, u, j, Finish, t);
      }
    }
  }

  lemma EnterOnly(w: World, u: nat, j: nat)
    requires Valid(w, u, j)
    ensures OnlyThread(w, Enter(w, u, j), u) && OnlyThread(w, Exit(w, u, j), u)
  {
  }

  lemma StillAsleep(w: World, w': World, t: nat)
    requires Undisturbed(w, w', t) && Asleep(w, t)
    ensures Asleep(w', t)
  {
  }

  lemma EndSpare(w: World, a: World, u: nat, j: nat, ret: Ret, t: nat)
    requires Valid(a, u, j) && u != t && Undisturbed(w, a, t)
    ensures var r := EndBurst(Exit(a, u, j), u, j, ret); r.Ok? ==> Undisturbed(w, r.w, t)
  {
    hide EndBurst;
    EnterOnly(a, u, j);
    OtherUndisturbed(a, Exit(a, u, j), u, t);
    EndOnly(Exit(a, u, j), u, j, ret);
    var r := EndBurst(Exit(a, u, j), u, j, ret);
    if r.Ok? { OtherUndisturbed(Exit(a, u, j), r.w, u, t); }
  }

  lemma StepSpare(w: World, u: nat, j: nat, b: Burst, t: nat)
    requires Valid(w, u, j) && u != t && Asleep(w, t) && BurstSpares(b, t)
    ensures var r := RunStep(w, u, j, b); r.Ok? ==> Undisturbed(w, r.w, t)
    decreases b, 1
  {
    hide RunBurst;
    BurstSpare(PushFrame(w, u, j), u, j, b, t);
  }

  lemma RunSpare(w: World, u: nat, j: nat, bs: seq<Burst>, t: nat)
    requires Valid(w, u, j) && u != t && Asleep(w, t) && forall k | 0 <= k < |bs| :: BurstSpares(bs[k], t)
    ensures var r := ThreadRun(w, u, j, bs).out; r.Ok? ==> Undisturbed(w, r.w, t)
    decreases bs, if Get(w, u, j).st.Switch? then 3 else 2
  {
    hide RunStep, SwitchStep, ThreadRun, Undisturbed, OnlyThread;
    EndTurn(w, u, j, bs);
    SelfUndisturbed(w, t);
    if Get(w, u, j).st.Running? && bs != [] {
      RunningTurn(w, u, j, bs);
      StepSpare(w, u, j, bs[0], t);
      var r := RunStep(w, u, j, bs[0]);
      if r.Ok? && Valid(r.w, u, j) && Again(Get(r.w, u, j)) {
        StillAsleep(w, r.w, t);
        RunSpare(r.w, u, j, bs[1..], t);
        if ThreadRun(r.w, u, j, bs[1..]).out.Ok? { UndisturbedTrans(w, r.w, ThreadRun(r.w, u, j, bs[1..]).out.w, t); }
      }
    } else if Get(w, u, j).st.Switch? {
      SwitchTurn(w, u, j, bs);
      SwitchStepOnly(w, u, j);
      var r := SwitchStep(w, u, j);
      if r.Ok? {
        OtherUndisturbed(w, r.w, u, t);
        if Again(Get(r.w, u, j)) {
          StillAsleep(w, r.w, t);
          RunSpare(r.w, u, j, bs, t);
          if ThreadRun(r.w, u, j, bs).out.Ok? { UndisturbedTrans(w, r.w, ThreadRun(r.w, u, j, bs).out.w, t); }
        }
      }
    }
  }

  lemma SelfUndisturbed(w: World, t: nat)
    requires HasCurrent(w, t)
    ensures Undisturbed(w, w, t)
  {
  }

  lemma DeathSpare(w: World, u: nat, j: nat, b: Burst, t: nat)
    requires Valid(w, u, j) && u != t && Asleep(w, t) && BurstSpares(b, t)
    ensures var r := RunToDeath(w, u, j, b); r.Ok? ==> Undisturbed(w, r.w, t)
    decreases b, 1, 0
  {
    hide RunBurst;
    BurstSpare(w, u, j, b, t);
  }

  lemma DetachSpare(w: World, u: nat, j: nat, b: Burst, t: nat)
    requires Valid(w, u, j) && u != t && Asleep(w, t) && BurstSpares(b, t)
    ensures var r := DoDetach(w, u, j, b); r.Ok? ==> Undisturbed(w, r.w, t)
    decreases b, 1, 1
  {
    hide DetachSw, RunToDeath, OnlyThread;
    DetachSwOnly(w, u, j);
    var d := DetachSw(w, u, j);
    if d.Ok? {
      OtherUndisturbed(w, d.w, u, t);
      if Valid(d.w, u, j) { DeathSpare(d.w, u, j, b, t); }
    }
  }

  lemma CancelSpare(w: World, u: nat, j: nat, b: Burst, t: nat)
    requires Valid(w, u, j) && u != t && Asleep(w, t) && BurstSpares(b, t)
    ensures var r := DoCancel(w, u, j, b); r.Ok? ==> Undisturbed(w, r.w, t)
    decreases b, 2
  {
    hide RunToDeath;
    DeathSpare(Put(w, u, j, Get(w, u, j).(cancelled := true)), u, j, b, t);
  }

  /** Calls that run no body touch at most the thread they name, or the caller's own. */
  lemma PlainSpare(w: World, cur: Option<(nat, nat)>, a: Act, t: nat)
    requires HasCurrent(w, t) && (cur.None? || cur.value.0 != t) && Spares(a, t) && !RunsBodies(a) && !SetsFlags(a)
    ensures var r := Exec(w, cur, a); r.Ok? ==> Undisturbed(w, r.w, t)
  {
    hide ThreadRun, DoCancel, DoDetach, UnsafeShutdown, CoopthDone, StartThread, CallPostInternal, Undisturbed;
    var r := Exec(w, cur, a);
    if r.Ok? {
      var u := if a.AddPost? || a.SetCancel? then cur.value.0 else a.tid;
      if a.Start? { StartOnly(w, u, a.custom); }
      OtherUndisturbed(w, r.w, u, t);
    }
  }

  lemma FlagSpare(w: World, cur: Option<(nat, nat)>, a: Act, t: nat)
    requires HasCurrent(w, t) && |w.cs| == CTCL_MAX && SetsFlags(a)
    ensures var r := Exec(w, cur, a); r.Ok? ==> Undisturbed(w, r.w, t)
  {
    hide ThreadRun, DoCancel, DoDetach, UnsafeShutdown, CoopthDone, StartThread, AnyAttached, PostEvents, Callf, Awake, AddPostHandler;
  }

  lemma ActSpare(w: World, cur: Option<(nat, nat)>, a: Act, t: nat)
    requires Asleep(w, t) && (cur.None? || cur.value.0 != t) && Spares(a, t)
    ensures var r := Exec(w, cur, a); r.Ok? ==> Undisturbed(w, r.w, t)
    decreases a, 0
  {
    hide ThreadRun, DoCancel, DoDetach, UnsafeShutdown, CoopthDone, Undisturbed;
    if SetsFlags(a) {
      FlagSpare(w, cur, a, t);
    } else if !RunsBodies(a) {
      PlainSpare(w, cur, a, t);
    } else {
      SelfUndisturbed(w, t);
      var u := a.tid;
      if HasCurrent(w, u) {
        var j := w.thr[u].cur - 1;
        match a
        case RunAttached(_, bs) => if u == t { Dormant(w, t, j, bs); } else { RunSpare(w, u, j, bs, t); }
        case RunDetached(_, bs) => if u == t { Dormant(w, t, j, bs); } else { RunSpare(w, u, j, bs, t); }
        case Cancel(_, b) => CancelSpare(w, u, j, b, t);
        case UnsafeDetach(_, b) => DetachSpare(w, u, j, b, t);
      }
    }
  }

  /** A sleeping instance is untouched by any script that does not wake, cancel, move or bury it, however often it is run. */
  lemma ActsSpare(w: World, cur: Option<(nat, nat)>, acts: seq<Act>, t: nat)
    requires Asleep(w, t) && (cur.None? || cur.value.0 != t) && forall k | 0 <= k < |acts| :: Spares(acts[k], t)
    ensures var r := ExecActs(w, cur, acts); r.Ok? ==> Undisturbed(w, r.w, t)
    decreases acts, 0
  {
    hide Exec, Undisturbed;
    SelfUndisturbed(w, t);
    if acts != [] {
      ActSpare(w, cur, acts[0], t);
      var r := Exec(w, cur, acts[0]);
      if r.Ok? {
        StillAsleep(w, r.w, t);
        ActsSpare(r.w, cur, acts[1..], t);
        if ExecActs(r.w, cur, acts[1..]).Ok? { UndisturbedTrans(w, r.w, ExecActs(r.w, cur, acts[1..]).w, t); }
      }
    }
  }

  /** coopth_wake_up on a sleeping instance makes it resumable and changes nothing else; on any other it does nothing. */
  lemma WakeUpWakes(w: World, cur: Option<(nat, nat)>, t: nat)
    requires HasCurrent(w, t)
    ensures var i, r := w.thr[t].cur - 1, Exec(w, cur, WakeUp(t));
            r == Ok(if Get(w, t, i).st.Sleeping? then Put(w, t, i, Get(w, t, i).(st := Switch(AWAKEN))) else w)
  {
    hide ThreadRun, DoCancel, DoDetach, UnsafeShutdown, CoopthDone, StartThread;
  }

  /**
   A body that went to sleep: whatever script follows that spares it, runs of its thread leave
   the world as it is and take no burst; after a wake-up the next run resumes it.
   */
  lemma SleepsUntilWoken(w: World, cur: Option<(nat, nat)>, acts: seq<Act>, t: nat, bs: seq<Burst>)
    requires Asleep(w, t) && (cur.None? || cur.value.0 != t) && forall k | 0 <= k < |acts| :: Spares(acts[k], t)
    requires ExecActs(w, cur, acts).Ok?
    ensures var w', i := ExecActs(w, cur, acts).w, w.thr[t].cur - 1;
            Asleep(w', t) && w'.thr[t].cur - 1 == i && Get(w', t, i) == Get(w, t, i) &&
            ThreadRun(w', t, i, bs) == RunOut(Ok(w'), 0, 1, 0) &&
            (Exec(w', cur, RunAttached(t, bs)).Ok? ==> Exec(w', cur, RunAttached(t, bs)).w == w') &&
            (Exec(w', cur, RunDetached(t, bs)).Ok? ==> Exec(w', cur, RunDetached(t, bs)).w == w') &&
            Exec(w', cur, WakeUp(t)).Ok? &&
            var v := Exec(w', cur, WakeUp(t)).w;
            Valid(v, t, i) && Resumable(Get(v, t, i).st) && (bs != [] ==> ThreadRun(v, t, i, bs).bursts >= 1)
  {
    hide ExecActs, ThreadRun;
    ActsSpare(w, cur, acts, t);
    var w', i := ExecActs(w, cur, acts).w, w.thr[t].cur - 1;
    Dormant(w', t, i, bs);
    WakeUpWakes(w', cur, t);
    RunOfSleeper(w', cur, t, bs);
    hide Exec;
    var v := Exec(w', cur, WakeUp(t)).w;
    if bs != [] { Resumed(v, t, i, bs); }
  }

  lemma RunOfSleeper(w: World, cur: Option<(nat, nat)>, t: nat, bs: seq<Burst>)
    requires Asleep(w, t)
    ensures Exec(w, cur, RunAttached(t, bs)).Ok? ==> Exec(w, cur, RunAttached(t, bs)).w == w
    ensures Exec(w, cur, RunDetached(t, bs)).Ok? ==> Exec(w, cur, RunDetached(t, bs)).w == w
  {
    hide ThreadRun, DoCancel, DoDetach, UnsafeShutdown, CoopthDone, StartThread;
    Dormant(w, t, w.thr[t].cur - 1, bs);
  }

  /** A run whose body gave control back by sleeping leaves it asleep; by yielding, waiting, scheduling or attaching, resumable. */
  lemma RunLeaves(w: World, t: nat, i: nat, bs: seq<Burst>)
    requires Inv(w) && Calm(w) && LiveAt(w, t, i) && Resumable(Get(w, t, i).st) && bs != []
    requires Ran(Get(w, t, i)) && !bs[0].ret.Abandon? && ThreadRun(w, t, i, bs).out.Ok?
    ensures var o := ThreadRun(w, t, i, bs);
            o.bursts == 1 && Valid(o.out.w, t, i) &&
            var y := Get(o.out.w, t, i);
            (bs[0].ret.Sleep? ==> y.st == Sleeping) &&
            (bs[0].ret in {Yield, Wait, Sched, Attach} ==> Resumable(y.st)) &&
            (bs[0].ret.Attach? ==> y.attached) &&
            (bs[0].ret.Detach? ==> y.st == Switch(DETACH) && y.attached) &&
            (bs[0].ret.Leave? ==> y.st == Switch(LEAVE)) &&
            (bs[0].ret.Finish? ==> y.st == Free || (y.st == Switch(DONE) && y.attached))
  {
    hide Inv, Calm, RunStep, ThreadRun;
    ResumedOnce(w, t, i, bs);
    LiveFacts(w, t, i);
    var w0 := Resuming(w, t, i);
    StepLeaves(w0, t, i, bs[0]);
  }

  /**
   From the run in which the body goes to sleep: no later run of its thread resumes it, until it
   is woken, and then the next one does.
   */
  lemma SleptRun(w: World, cur: Option<(nat, nat)>, t: nat, bs: seq<Burst>, acts: seq<Act>, later: seq<Burst>)
    requires Inv(w) && Calm(w) && HasCurrent(w, t) && (cur.None? || cur.value.0 != t)
    requires var i := w.thr[t].cur - 1; Resumable(Get(w, t, i).st) && Ran(Get(w, t, i)) && bs != [] && bs[0].ret.Sleep?
    requires var o := ThreadRun(w, t, w.thr[t].cur - 1, bs);
             o.out.Ok? && |o.out.w.thr| == |w.thr| && o.out.w.thr[t].cur == w.thr[t].cur &&
             ExecActs(o.out.w, cur, acts).Ok?
    requires forall k | 0 <= k < |acts| :: Spares(acts[k], t)
    ensures var o, i := ThreadRun(w, t, w.thr[t].cur - 1, bs), w.thr[t].cur - 1;
            var w' := ExecActs(o.out.w, cur, acts).w;
            o.bursts == 1 && Asleep(w', t) && Valid(w', t, i) && ThreadRun(w', t, i, later) == RunOut(Ok(w'), 0, 1, 0) &&
            Exec(w', cur, WakeUp(t)).Ok? &&
            var v := Exec(w', cur, WakeUp(t)).w;
            Valid(v, t, i) && (later != [] ==> ThreadRun(v, t, i, later).bursts >= 1)
  {
    hide Inv, Calm, CalmBut, Stable, ThreadRun, ExecActs, Exec;
    TopLive(w, t);
    LiveFacts(w, t, w.thr[t].cur - 1);
    RunTopGood(w, t, bs);
    RunLeaves(w, t, w.thr[t].cur - 1, bs);
    var v := ThreadRun(w, t, w.thr[t].cur - 1, bs).out.w;
    TwoClasses(v);
    SlotFacts(v, t, 0);
    SleepsUntilWoken(v, cur, acts, t, later);
  }

  lemma TwoClasses(w: World)
    requires Inv(w)
    ensures |w.cs| == CTCL_MAX
  {
  }

  lemma StepLeaves(w: World, t: nat, i: nat, b: Burst)
    requires Valid(w, t, i) && Ran(Get(w, t, i)) && RunStep(w, t, i, b).Ok?
    ensures var r := RunStep(w, t, i, b);
            Valid(r.w, t, i) && exists x :: LeftAs(x, b.ret, Get(r.w, t, i))
  {
    hide RunBurst;
    BurstLeaves(PushFrame(w, t, i), t, i, b);
  }

  // ---------------------------------------------------------------- the other switches

  /** The next run of a body that asked to be detached takes no burst: it detaches, and the run after that resumes. */
  lemma DetachRun(w: World, t: nat, i: nat, bs: seq<Burst>)
    requires Valid(w, t, i) && Get(w, t, i).st == Switch(DETACH) && SwitchStep(w, t, i).Ok?
    ensures var o := ThreadRun(w, t, i, bs);
            o.out.Ok? && o.bursts == 0 && Valid(o.out.w, t, i) &&
            Get(o.out.w, t, i) == Get(w, t, i).(atomic := false, attached := false, st := Switch(SCHED)) &&
            o.out.w.joinable == w.joinable - 1 && o.out.w.total == w.total
  {
    hide ThreadRun, RunStep, Retf;
    RetfOutcome(Put(w, t, i, Get(w, t, i).(atomic := false)), t, i);
    SwitchTurn(w, t, i, bs);
  }

  /** The next run of a finished body takes no burst: it joins it, and returns its number. */
  lemma JoinedRun(w: World, t: nat, i: nat, bs: seq<Burst>)
    requires Valid(w, t, i) && Get(w, t, i).st == Switch(DONE) && SwitchStep(w, t, i).Ok?
    ensures var o := ThreadRun(w, t, i, bs);
            o.out.Ok? && o.bursts == 0 && o.term == w.thr[t].cur && Valid(o.out.w, t, i) && Get(o.out.w, t, i).st.Free? &&
            o.out.w.joinable == w.joinable - 1 && o.out.w.total == w.total - 1
  {
    hide ThreadRun, RunStep, SwDone;
    DoneOutcome(Put(w, t, i, Get(w, t, i).(atomic := false)), t, i);
    SwitchTurn(w, t, i, bs);
  }

  /** The next run of a leaving body detaches and counts it, and resumes it in the same run. */
  lemma LeaveRun(w: World, t: nat, i: nat, bs: seq<Burst>)
    requires Valid(w, t, i) && Get(w, t, i).st == Switch(LEAVE) && SwitchStep(w, t, i).Ok? && bs != []
    ensures var v := SwitchStep(w, t, i).w;
            Valid(v, t, i) && Get(v, t, i) == Get(w, t, i).(atomic := false, attached := false, left := true, st := Running) &&
            v.threadsLeft == w.threadsLeft + 1 && v.joinable == w.joinable - Bit(Get(w, t, i).attached) &&
            ThreadRun(w, t, i, bs).bursts >= 1
  {
    hide ThreadRun, RunStep, SwLeave;
    LeaveOutcome(Put(w, t, i, Get(w, t, i).(atomic := false)), t, i);
    SwitchTurn(w, t, i, bs);
    hide SwitchStep;
    RunningTurn(SwitchStep(w, t, i).w, t, i, bs);
  }

  lemma RetfOutcome(w: World, t: nat, i: nat)
    requires Valid(w, t, i)
    ensures var r := Retf(w, t, i);
            r.Ok? ==> Valid(r.w, t, i) && Get(r.w, t, i) == Get(w, t, i).(attached := false) &&
                      r.w.joinable == w.joinable - 1 && r.w.total == w.total && r.w.threadsLeft == w.threadsLeft
  {
  }

  lemma DoneOutcome(w: World, t: nat, i: nat)
    requires Valid(w, t, i)
    ensures var r := SwDone(w, t, i);
            r.Ok? ==> Valid(r.w, t, i) && Get(r.w, t, i).st.Free? && r.w.joinable == w.joinable - 1 && r.w.total == w.total - 1
  {
    hide Retf, DelThread;
    RetfOutcome(w, t, i);
    if Retf(w, t, i).Ok? {
      Freed(Retf(w, t, i).w, t, i);
      DelTotals(Retf(w, t, i).w, t, i);
    }
  }

  lemma DelTotals(w: World, t: nat, i: nat)
    requires Valid(w, t, i)
    ensures var r := DelThread(w, t, i); r.Ok? ==> r.w.total == w.total - 1 && r.w.joinable == w.joinable
  {
    hide Without, PostEvents;
  }

  lemma LeaveOutcome(w: World, t: nat, i: nat)
    requires Valid(w, t, i)
    ensures var x, r := Get(w, t, i), SwLeave(w, t, i);
            r.Ok? ==> Valid(r.w, t, i) && Get(r.w, t, i) == x.(attached := false, left := true, st := Running) &&
                      r.w.threadsLeft == w.threadsLeft + 1 && r.w.joinable == w.joinable - Bit(x.attached)
  {
    hide Retf, PostEvents;
    RetfOutcome(w, t, i);
  }

  // ---------------------------------------------------------------- what calls change

  /** A new instance: ready to run, attached unless its thread is a detached one, and with no past. */
  lemma StartMakes(w: World, t: nat, custom: bool)
    requires t < |w.thr| && StartThread(w, t, custom).Ok?
    ensures var n, v := w.thr[t].cur, StartThread(w, t, custom).w;
            n < |w.thr[t].pth| && v.thr[t].cur == n + 1 && v.thr[t].custom == custom && |v.thr[t].pth| == |w.thr[t].pth| &&
            Get(v, t, n) == Inst(Running, !w.thr[t].detached, false, false, false, false, [], false, false, |w.hist|) &&
            (forall j | 0 <= j < |w.thr[t].pth| && j != n :: Get(v, t, j) == Get(w, t, j)) &&
            v.total == w.total + 1 && v.joinable == w.joinable + Bit(!w.thr[t].detached) &&
            v.hist == w.hist + [Record(t, n, [], Live)] && v.log == w.log
  {
  }

  /** Exactly when a start is let through: five instances a thread, ten active threads, and no custom start of a detached one. */
  lemma StartLimits(w: World, t: nat, custom: bool)
    requires Inv(w)
    ensures StartThread(w, t, custom).Ok? <==>
            t < |w.thr| && !(custom && w.thr[t].detached) && w.thr[t].cur < 5 && (w.thr[t].cur == 0 ==> |w.active| < 10)
  {
    hide Counts, ActiveOk, FramesOk;
    if t < |w.thr| { StartReady(w, t); }
  }

  lemma StartReady(w: World, t: nat)
    requires Inv(w) && t < |w.thr|
    ensures |w.thr[t].pth| == 5 && w.thr[t].cls < |w.cs|
    ensures w.thr[t].cur < 5 ==> !Get(w, t, w.thr[t].cur).attached
  {
    hide Counts, ActiveOk, FramesOk;
    assert ThrOk(w.thr[t]);
  }

  /** A caller may have five temporary handlers. */
  lemma PostLimit(w: World, cur: Option<(nat, nat)>, h: int)
    ensures Exec(w, cur, AddPost(h)).Ok? <==> InThread(w, cur) && |Get(w, cur.value.0, cur.value.1).posts| < 5
  {
  }

  /** The permanent handler comes first, then the temporary ones in the order they were added. */
  lemma PostOrder(uid: nat, permanent: bool, hs: seq<int>)
    ensures var es, p := PostEvents(uid, permanent, hs), Bit(permanent);
            |es| == p + |hs| && (permanent ==> es[0] == Permanent(uid)) &&
            forall k | 0 <= k < |hs| :: es[p + k] == Temporary(uid, hs[k])
  {
  }

  /** coopth_add_post_handler adds at the end, to the instance and to its record. */
  lemma AddPostAppends(w: World, cur: Option<(nat, nat)>, h: int)
    requires Inv(w) && CurOk(w, cur) && Exec(w, cur, AddPost(h)).Ok?
    ensures cur.Some? && var (t, i) := cur.value; var v := Exec(w, cur, AddPost(h)).w;
            Valid(w, t, i) && Valid(v, t, i) && Get(v, t, i) == Get(w, t, i).(posts := Get(w, t, i).posts + [h]) &&
            v.log == w.log && |v.hist| == |w.hist| &&
            (!Get(w, t, i).left ==>
               (Get(w, t, i).uid < |w.hist| &&
                v.hist[Get(w, t, i).uid].added == w.hist[Get(w, t, i).uid].added + [h]))
  {
    hide ThreadRun, DoCancel, DoDetach, UnsafeShutdown, CoopthDone, StartThread;
    var (t, i) := cur.value;
    InstRecordAt(w, t, i);
    hide Inv;
  }

  lemma InstRecordAt(w: World, t: nat, i: nat)
    requires Inv(w) && LiveAt(w, t, i)
    ensures Get(w, t, i).uid < |w.hist|
  {
    hide Counts, ActiveOk, FramesOk;
    assert InstRecord(w, t, i);
    assert SlotOk(Get(w, t, i), true) by { assert ThrOk(w.thr[t]); }
  }

  /**
   Deletion: the record keeps what the instance really was, and the handlers called are its own,
   all of them if it was neither cancelled nor left, none otherwise (a custom thread's are put off).
   */
  lemma DeletionTells(w: World, t: nat, i: nat)
    requires Valid(w, t, i) && DelThread(w, t, i).Ok? && Get(w, t, i).uid < |w.hist|
    ensures var x, v := Get(w, t, i), DelThread(w, t, i).w;
            |v.hist| == |w.hist| && v.hist[x.uid].fate.Gone? &&
            v.hist[x.uid].fate.cancelled == x.cancelled && v.hist[x.uid].fate.left == x.left &&
            (!x.left ==> v.hist[x.uid].fate.permanent == w.thr[t].post) &&
            v.hist[x.uid].added == w.hist[x.uid].added &&
            v.log == w.log + (if x.cancelled || x.left || w.thr[t].custom then [] else PostEvents(x.uid, w.thr[t].post, x.posts)) &&
            (w.thr[t].custom && !x.cancelled && !x.left ==> v.thr[t].postPth == Some(i))
  {
    hide Without, PostEvents;
  }

  /** Leaving calls the handlers at once and says so in the record. */
  lemma LeavingTells(w: World, t: nat, i: nat)
    requires Valid(w, t, i) && SwLeave(w, t, i).Ok? && Get(w, t, i).uid < |w.hist|
    ensures var x, v := Get(w, t, i), SwLeave(w, t, i).w;
            |v.hist| == |w.hist| && v.hist[x.uid].fate == Left(w.thr[t].post) &&
            v.log == w.log + PostEvents(x.uid, w.thr[t].post, x.posts)
  {
    hide PostEvents;
  }

  /** Cancelling an attached instance marks it, and wakes it if it sleeps; nothing else changes. */
  lemma CancelMarks(w: World, t: nat, i: nat, b: Burst)
    requires Valid(w, t, i) && Get(w, t, i).attached
    ensures var x := Get(w, t, i);
            DoCancel(w, t, i, b) ==
            Ok(Put(w, t, i, x.(cancelled := true, st := if x.st.Sleeping? then Switch(AWAKEN) else x.st)))
  {
    var x := Get(w, t, i);
    PutTwice(w, t, i, x.(cancelled := true), x.(cancelled := true, st := Switch(AWAKEN)));
    hide RunToDeath;
  }

  /** The calls that set a flag of a thread set that flag, and it is what later starts and deletions go by. */
  lemma FlagsSet(w: World, cur: Option<(nat, nat)>, t: nat, on: bool, c: nat)
    requires t < |w.thr|
    ensures Exec(w, cur, SetDetached(t)) == Ok(w.(thr := w.thr[t := w.thr[t].(detached := true)]))
    ensures Exec(w, cur, SetPost(t, on)) == Ok(w.(thr := w.thr[t := w.thr[t].(post := on)]))
    ensures Exec(w, cur, SetClass(t, c)).Ok? ==> Exec(w, cur, SetClass(t, c)).w == w.(thr := w.thr[t := w.thr[t].(cls := c)])
  {
    hide ThreadRun, DoCancel, DoDetach, UnsafeShutdown, CoopthDone, StartThread, AnyAttached;
  }

  /** Attaching from outside makes the newest instance joinable; disabling cancellation concerns the caller alone. */
  lemma OwnSet(w: World, cur: Option<(nat, nat)>, t: nat, d: bool)
    ensures HasCurrent(w, t) && Exec(w, cur, AttachToCur(t)).Ok? ==>
              var i, v := w.thr[t].cur - 1, Exec(w, cur, AttachToCur(t)).w;
              Valid(v, t, i) && Get(v, t, i) == Get(w, t, i).(attached := true) && v.joinable == w.joinable + 1 && v.total == w.total
    ensures Exec(w, cur, SetCancel(d)).Ok? ==>
              cur.Some? && Valid(w, cur.value.0, cur.value.1) &&
              Exec(w, cur, SetCancel(d)).w ==
              Put(w, cur.value.0, cur.value.1, Get(w, cur.value.0, cur.value.1).(cancDisabled := d))
  {
    hide ThreadRun, DoCancel, DoDetach, UnsafeShutdown, CoopthDone, StartThread, AnyAttached;
  }

  /** A body cannot cancel its own thread: the call is refused, or does nothing once it has left. */
  lemma CancelOwn(w: World, cur: Option<(nat, nat)>, t: nat, b: Burst)
    requires w.threadRunning != 0 && cur.Some? && cur.value.0 == t && HasCurrent(w, t)
    ensures Exec(w, cur, Cancel(t, b)) == if Get(w, t, w.thr[t].cur - 1).left then Ok(w) else Halt(Fatal)
  {
    hide ThreadRun, DoCancel, DoDetach, UnsafeShutdown, CoopthDone, StartThread, AnyAttached;
  }
}
