/**
 The scheduler as the source writes it: static data updated in place, active_tids a fixed
 array compacted by shifting, thread_run a do-while loop, shutdown a restarted scan.
 Every method is proved to compute the corresponding function of CoopthModel.
 */
module CoopthScheduler {
  import opened Basics
  import opened CoopthModel
  import opened CoopthInvariant
  import opened CoopthRuns

  /** A method that reports `h` in state `w` did what the specification `r` says. */
  ghost predicate Did(r: Out, h: Option<Why>, w: World) {
    if r.Ok? then h.None? && w == r.w else h == Some(r.why)
  }

  class Scheduler {
    var thr: seq<Thr>
    var total: int
    var joinable: int
    var threadsLeft: int
    var cs: seq<int>
    const activeTids: array<nat>
    var threadsActive: nat
    var threadRunning: int
    var joinableRunning: int
    var leftRunning: int
    var frames: seq<Frame>
    var log: seq<Event>
    var hist: seq<Record>

    ghost predicate Ready()
      reads this
    {
      activeTids.Length == MAX_ACT_THRS && threadsActive <= MAX_ACT_THRS
    }

    /** The value this object holds. */
    ghost function W(): World
      requires Ready()
      reads this, activeTids
    {
      World(thr, total, joinable, threadsLeft, cs, activeTids[..threadsActive],
            threadRunning, joinableRunning, leftRunning, frames, log, hist)
    }

    constructor (n: nat)
      ensures Ready() && W() == InitWorld(n) && fresh(activeTids)
    {
      thr := seq(n, _ => InitThr());
      total, joinable, threadsLeft, cs := 0, 0, 0, [0, 0];
      activeTids := new nat[MAX_ACT_THRS](_ => 0);
      threadsActive, threadRunning, joinableRunning, leftRunning := 0, 0, 0, 0;
      frames, log, hist := [], [], [];
    }

    method PutInst(t: nat, i: nat, x: Inst)
      requires Ready() && t < |thr| && i < |thr[t].pth|
      modifies this`thr
      ensures Ready() && W() == Put(old(W()), t, i, x)
    {
      thr := thr[t := thr[t].(pth := thr[t].pth[i := x])];
    }

    method DecJoinable(c: nat) returns (h: Option<Why>)
      requires Ready() && c < |cs|
      modifies this`joinable, this`cs
      ensures Ready() && Did(JoinableDec(old(W()), c), h, W())
    {
      if joinable == 0 { return Some(Internal(JoinableUnderflow)); }
      if cs[c] == 0 { return Some(Internal(ClassUnderflow)); }
      joinable := joinable - 1;
      cs := cs[c := cs[c] - 1];
      h := None;
    }

    /** coopth_retf */
    method DoRetf(t: nat, i: nat) returns (h: Option<Why>)
      requires Ready() && Valid(W(), t, i)
      modifies this`joinable, this`cs, this`thr
      ensures Ready() && Did(Retf(old(W()), t, i), h, W())
    {
      if !thr[t].pth[i].attached { return Some(Internal(NotAttached)); }
      h := DecJoinable(thr[t].cls);
      if h.None? {
        PutInst(t, i, thr[t].pth[i].(attached := false));
      }
    }

    /** coopth_callf */
    method DoCallf(t: nat, i: nat) returns (h: Option<Why>)
      requires Ready() && Valid(W(), t, i)
      modifies this`joinable, this`cs, this`thr
      ensures Ready() && Did(Callf(old(W()), t, i), h, W())
    {
      if thr[t].pth[i].attached { return Some(Internal(AlreadyAttached)); }
      joinable := joinable + 1;
      cs := cs[thr[t].cls := cs[thr[t].cls] + 1];
      PutInst(t, i, thr[t].pth[i].(attached := true));
      h := None;
    }

    /** do_call_post: the permanent handler, then the temporary ones in order. */
    method CallPostHandlers(t: nat, i: nat)
      requires Ready() && Valid(W(), t, i)
      modifies this`log
      ensures Ready() && W() == DoCallPost(old(W()), t, i)
    {
      var x := thr[t].pth[i];
      ghost var start := log;
      if thr[t].post {
        log := log + [Permanent(x.uid)];
      }
      ghost var perm := log;
      var k := 0;
      while k < |x.posts|
        invariant k <= |x.posts| && log == perm + TempEvents(x.uid, x.posts)[..k]
      {
        log := log + [Temporary(x.uid, x.posts[k])];
        k := k + 1;
      }
      assert TempEvents(x.uid, x.posts)[..k] == TempEvents(x.uid, x.posts);
      assert log == start + PostEvents(x.uid, thr[t].post, x.posts);
    }

    /** do_del_thread up to the handlers. */
    method Release(t: nat, i: nat) returns (h: Option<Why>)
      requires Ready() && Valid(W(), t, i) && thr[t].cur > 0
      modifies this`thr, this`threadsLeft, this`total, this`threadsActive, activeTids
      ensures Ready() && Did(FreeSlot(old(W()), t, i), h, W())
    {
      hide FreeSlot, Without, Verdict;
      ghost var w := W();
      FreeSlotIs(w, t, i);
      var x, th := thr[t].pth[i], thr[t];
      threadsLeft := threadsLeft - Bit(x.left);
      thr := thr[t := th.(cur := th.cur - 1, pth := th.pth[i := x.(st := Free)])];
      if th.cur == 1 {
        h := ShiftOut(activeTids, threadsActive, t);
        if h.Some? { return; }
        threadsActive := threadsActive - 1;
      }
      total := total - 1;
      h := None;
    }

    /** do_del_thread */
    method Del(t: nat, i: nat) returns (h: Option<Why>)
      requires Ready() && Valid(W(), t, i)
      modifies this, activeTids
      ensures Ready() && Did(DelThread(old(W()), t, i), h, W())
    {
      hide FreeSlot;
      if thr[t].cur == 0 || i != thr[t].cur - 1 { return Some(Contract); }
      var x, th := thr[t].pth[i], thr[t];
      var leftPermanent := x.uid < |hist| && hist[x.uid].fate.Left? && hist[x.uid].fate.permanent;
      ghost var w0 := W();
      h := Release(t, i);
      if h.Some? { return; }
      var fate := Gone(x.cancelled, x.left, if x.left then leftPermanent else th.post);
      SlotFreed(w0, t, i);
      if x.uid < |hist| { hist := hist[x.uid := hist[x.uid].(fate := fate)]; }
      if !x.cancelled && !x.left {
        if !thr[t].custom {
          CallPostHandlers(t, i);
        } else {
          if thr[t].postPth.Some? { return Some(PostPending); }
          thr := thr[t := thr[t].(postPth := Some(i))];
        }
      }
    }

    /** do_start */
    method Begin(t: nat, custom: bool) returns (h: Option<Why>)
      requires Ready() && t < |thr|
      modifies this`thr, this`hist, this`threadsActive, this`total, activeTids
      ensures Ready() && Did(DoStart(old(W()), t, custom), h, W())
    {
      var th := thr[t];
      if th.cur >= MAX_COOP_RECUR_DEPTH || th.cur >= |th.pth| { return Some(Fatal); }
      if th.cur == 0 && threadsActive >= MAX_ACT_THRS { return Some(Fatal); }
      var tn := th.cur;
      thr := thr[t := th.(cur := tn + 1, custom := custom, everCustom := th.everCustom || custom,
                          pth := th.pth[tn := FreshInst(|hist|)])];
      hist := hist + [Record(t, tn, [], Live)];
      if tn == 0 {
        activeTids[threadsActive] := t;
        threadsActive := threadsActive + 1;
      }
      total := total + 1;
      h := None;
    }

    /** coopth_start_internal, coopth_start_custom_internal */
    method Launch(t: nat, custom: bool) returns (h: Option<Why>)
      requires Ready()
      modifies this, activeTids
      ensures Ready() && Did(StartThread(old(W()), t, custom), h, W())
    {
      if t >= |thr| || (custom && thr[t].detached) || thr[t].cls >= |cs| { return Some(Fatal); }
      var th := thr[t];
      h := Begin(t, custom);
      if h.None? && !th.detached {
        h := DoCallf(t, th.cur);
      }
    }

    /** sw_list[sw_idx](thr, pth) */
    method TakeSwitch(t: nat, i: nat) returns (h: Option<Why>)
      requires Ready() && Valid(W(), t, i) && thr[t].pth[i].st.Switch?
      modifies this, activeTids
      ensures Ready() && Did(DoSwitch(old(W()), t, i), h, W())
    {
      hide Retf, DelThread;
      match thr[t].pth[i].st.idx {
        case DETACH =>
          h := DoRetf(t, i);
          if h.None? { PutInst(t, i, thr[t].pth[i].(st := Switch(SCHED))); }
        case LEAVE =>
          h := LeaveInst(t, i);
        case DONE =>
          h := DoRetf(t, i);
          if h.None? { h := Del(t, i); }
        case _ =>
          PutInst(t, i, thr[t].pth[i].(st := Running));
          h := None;
      }
    }

    /** sw_LEAVE */
    method LeaveInst(t: nat, i: nat) returns (h: Option<Why>)
      requires Ready() && Valid(W(), t, i)
      modifies this
      ensures Ready() && Did(SwLeave(old(W()), t, i), h, W())
    {
      hide Retf, MarkLeft;
      h := None;
      if thr[t].pth[i].attached {
        h := DoRetf(t, i);
        if h.Some? { return; }
      }
      SetLeft(t, i);
    }

    method SetLeft(t: nat, i: nat)
      requires Ready() && Valid(W(), t, i)
      modifies this`thr, this`threadsLeft, this`log, this`hist
      ensures Ready() && W() == MarkLeft(old(W()), t, i)
    {
      var x := thr[t].pth[i];
      PutInst(t, i, x.(left := true, st := Running));
      threadsLeft := threadsLeft + 1;
      CallPostHandlers(t, i);
      if x.uid < |hist| { hist := hist[x.uid := hist[x.uid].(fate := Left(thr[t].post))]; }
    }

    /** do_run_thread, after the coroutine gave control back with `r` */
    method FinishBurst(t: nat, i: nat, r: Ret) returns (h: Option<Why>)
      requires Ready() && Valid(W(), t, i)
      modifies this, activeTids
      ensures Ready() && Did(EndBurst(old(W()), t, i, r), h, W())
    {
      hide DelThread;
      var x := thr[t].pth[i];
      if !MayReturn(x, r) { return Some(Fatal); }
      if r.Finish? && !x.attached {
        h := Del(t, i);
      } else if r.Abandon? {
        PutInst(t, i, x.(posts := [], atomic := !x.attached, st := Switch(LEAVE)));
        if x.uid < |hist| { hist := hist[x.uid := hist[x.uid].(added := [])]; }
        h := None;
      } else if r.Attach? {
        h := DoCallf(t, i);
        if h.None? { PutInst(t, i, thr[t].pth[i].(st := Switch(ATTACH))); }
      } else {
        PutInst(t, i, x.(st := RetState(r)));
        h := None;
      }
    }

    /** do_run_thread: resume the coroutine, then act on what it returned. */
    method Resume(t: nat, i: nat, b: Burst) returns (h: Option<Why>)
      requires Ready() && Valid(W(), t, i)
      modifies this, activeTids
      ensures Ready() && Did(RunBurst(old(W()), t, i, b), h, W())
      decreases b, 0
    {
      hide EndBurst;
      var x := thr[t].pth[i];
      if x.busy { return Some(Contract); }
      if x.st == Switch(DONE) || x.st.Free? { return Some(Internal(DeadCoroutine)); }
      PutInst(t, i, x.(busy := true, started := true));
      var ret := Finish;
      if x.started || !x.cancelled {
        h := PerformAll(Some((t, i)), b.acts);
        if h.Some? { return; }
        if !(t < |thr| && i < |thr[t].pth| && thr[t].cls < |cs|) { return Some(Internal(InactiveThread)); }
        ret := b.ret;
      }
      PutInst(t, i, thr[t].pth[i].(busy := false));
      h := FinishBurst(t, i, ret);
    }

    /** The counters of __thread_run before a burst. */
    method OpenFrame(t: nat, i: nat)
      requires Ready() && Valid(W(), t, i)
      modifies this`threadRunning, this`joinableRunning, this`leftRunning, this`frames
      ensures Ready() && W() == PushFrame(old(W()), t, i)
    {
      var x := thr[t].pth[i];
      if x.attached { joinableRunning := joinableRunning + 1; }
      if x.left { leftRunning := leftRunning + 1; }
      threadRunning := threadRunning + 1;
      frames := frames + [Frame(t, i, x.attached, x.left)];
    }

    /** And after it: two of them are restored from the values saved before. */
    method CloseFrame(jr: int, lr: int)
      requires Ready() && frames != []
      modifies this`threadRunning, this`joinableRunning, this`leftRunning, this`frames
      ensures Ready() && W() == PopFrame(old(W()), jr, lr)
    {
      threadRunning := threadRunning - 1;
      leftRunning := lr;
      joinableRunning := jr;
      frames := frames[..|frames| - 1];
    }

    /** The RUNNING case of __thread_run. */
    method RunOnce(t: nat, i: nat, b: Burst) returns (h: Option<Why>)
      requires Ready() && Valid(W(), t, i)
      modifies this, activeTids
      ensures Ready() && Did(RunStep(old(W()), t, i, b), h, W())
      decreases b, 1
    {
      hide RunBurst, PushFrame, PopFrame;
      var x := thr[t].pth[i];
      if x.left && x.attached { return Some(Internal(LeftAttached)); }
      var jr, lr := joinableRunning, leftRunning;
      PushValid(W(), t, i);
      OpenFrame(t, i);
      h := Resume(t, i, b);
      if h.Some? { return; }
      if frames == [] || !(t < |thr| && i < |thr[t].pth| && thr[t].cls < |cs|) {
        return Some(Internal(InactiveThread));
      }
      PopValid(W(), t, i, jr, lr);
      CloseFrame(jr, lr);
      if thr[t].pth[i].st.Running? { return Some(Internal(StillRunning)); }
    }

    /** The SWITCH case of __thread_run. */
    method SwitchOnce(t: nat, i: nat) returns (h: Option<Why>)
      requires Ready() && Valid(W(), t, i) && thr[t].pth[i].st.Switch?
      modifies this, activeTids
      ensures Ready() && Did(SwitchStep(old(W()), t, i), h, W())
    {
      hide DoSwitch;
      PutInst(t, i, thr[t].pth[i].(atomic := false));
      h := TakeSwitch(t, i);
    }

    /** thread_run: the do-while loop. */
    method Run(t: nat, i: nat, bs: seq<Burst>) returns (h: Option<Why>, term: nat, steps: nat, bursts: nat)
      requires Ready() && Valid(W(), t, i)
      modifies this, activeTids
      ensures Ready()
      ensures var o := ThreadRun(old(W()), t, i, bs);
              Did(o.out, h, W()) && (h.None? ==> term == o.term) && steps == o.steps && bursts == o.bursts
      decreases bs, 2
    {
      hide ThreadRun, RunStep, SwitchStep;
      ghost var w0 := W();
      h, term, steps, bursts := None, 0, 0, 0;
      while true
        invariant Ready() && Valid(W(), t, i) && bursts <= |bs| && h.None?
        invariant Onward(ThreadRun(w0, t, i, bs), ThreadRun(W(), t, i, bs[bursts..]), steps, bursts)
        decreases |bs| - bursts, if thr[t].pth[i].st.Switch? then 1 else 0
      {
        steps := steps + 1;
        term := 0;
        var st := thr[t].pth[i].st;
        ghost var w1 := W();
        EndTurn(w1, t, i, bs[bursts..]);
        if st.Free? { return Some(Internal(InactiveThread)), 0, steps, bursts; }
        if st.Sleeping? { return None, 0, steps, bursts; }
        if st.Running? {
          if bursts == |bs| { return Some(Script), 0, steps, bursts; }
          assert bs[bursts..][0] == bs[bursts] && bs[bursts..][1..] == bs[bursts + 1..];
          RunningTurn(w1, t, i, bs[bursts..]);
          bursts := bursts + 1;
          h := RunOnce(t, i, bs[bursts - 1]);
          if h.Some? { return; }
          if !(t < |thr| && i < |thr[t].pth| && thr[t].cls < |cs|) { return Some(Internal(InactiveThread)), 0, steps, bursts; }
        } else {
          term := if st.idx.DONE? then thr[t].cur else 0;
          SwitchTurn(w1, t, i, bs[bursts..]);
          h := SwitchOnce(t, i);
          if h.Some? { return; }
        }
        if !Again(thr[t].pth[i]) { return; }
        term := 0;
      }
    }

    /** do_detach, up to the last run of a cancelled body */
    method Unhitch(t: nat, i: nat) returns (h: Option<Why>)
      requires Ready() && Valid(W(), t, i)
      modifies this, activeTids
      ensures Ready() && Did(DetachSw(old(W()), t, i), h, W())
    {
      hide DelThread, DoSwitch;
      PutInst(t, i, thr[t].pth[i].(attached := false));
      h := DecJoinable(thr[t].cls);
      if h.None? && thr[t].pth[i].st.Switch? {
        match thr[t].pth[i].st.idx {
          case DETACH => PutInst(t, i, thr[t].pth[i].(st := Running));
          case DONE => h := Del(t, i);
          case _ => h := TakeSwitch(t, i);
        }
      }
    }

    method ResumeToDeath(t: nat, i: nat, b: Burst) returns (h: Option<Why>)
      requires Ready() && Valid(W(), t, i)
      modifies this, activeTids
      ensures Ready() && Did(RunToDeath(old(W()), t, i, b), h, W())
      decreases b, 1, 0
    {
      hide RunBurst;
      h := Resume(t, i, b);
      if h.None? && !(t < |thr| && i < |thr[t].pth| && thr[t].cls < |cs| && thr[t].pth[i].st.Free?) {
        h := Some(Fatal);
      }
    }

    /** do_detach */
    method ForceDetach(t: nat, i: nat, b: Burst) returns (h: Option<Why>)
      requires Ready() && Valid(W(), t, i)
      modifies this, activeTids
      ensures Ready() && Did(DoDetach(old(W()), t, i, b), h, W())
      decreases b, 1
    {
      hide DetachSw, RunToDeath;
      var cancelled := thr[t].pth[i].cancelled;
      h := Unhitch(t, i);
      if h.Some? { return; }
      if !(t < |thr| && i < |thr[t].pth| && thr[t].cls < |cs|) { return Some(Internal(InactiveThread)); }
      if !thr[t].pth[i].st.Free? && cancelled {
        h := ResumeToDeath(t, i, b);
      }
    }

    /** do_cancel */
    method CancelInst(t: nat, i: nat, b: Burst) returns (h: Option<Why>)
      requires Ready() && Valid(W(), t, i)
      modifies this, activeTids
      ensures Ready() && Did(DoCancel(old(W()), t, i, b), h, W())
      decreases b, 2
    {
      hide RunToDeath;
      PutInst(t, i, thr[t].pth[i].(cancelled := true));
      h := None;
      if thr[t].pth[i].attached {
        if thr[t].pth[i].st.Sleeping? { PutInst(t, i, thr[t].pth[i].(st := Switch(AWAKEN))); }
      } else {
        h := ResumeToDeath(t, i, b);
      }
    }

    /** The scan both shutdown loops restart: the first active thread whose newest instance is (not) attached. */
    method Scan(attached: bool, own: Option<nat>) returns (f: Option<nat>)
      requires Ready()
      ensures f == FindTop(W(), attached, own, 0)
    {
      var k := 0;
      while k < threadsActive
        invariant k <= threadsActive && FindTop(W(), attached, own, k) == FindTop(W(), attached, own, 0)
      {
        var t := activeTids[k];
        if HasCurrentNow(t) && own != Some(t) && thr[t].pth[thr[t].cur - 1].attached == attached { return Some(t); }
        k := k + 1;
      }
      f := None;
    }

    predicate HasCurrentNow(t: nat)
      requires Ready()
      reads this, activeTids
      ensures HasCurrentNow(t) == HasCurrent(W(), t)
    {
      t < |thr| && 0 < thr[t].cur <= |thr[t].pth| && thr[t].cls < |cs|
    }

    /** coopth_unsafe_shutdown */
    method ShutdownAll(cur: Option<(nat, nat)>, bs: seq<Burst>) returns (h: Option<Why>)
      requires Ready()
      modifies this, activeTids
      ensures Ready() && Did(UnsafeShutdown(old(W()), cur, bs), h, W())
      decreases bs, 3
    {
      hide FindTop, DoCancel, DoDetach;
      ghost var w0 := W();
      var k := 0;
      while true
        invariant Ready() && k <= |bs| && UnsafeShutdown(w0, cur, bs) == UnsafeShutdown(W(), cur, bs[k..])
        decreases |bs| - k
      {
        var f := Scan(true, None);
        if f.None? { return None; }
        var t := f.value;
        if (threadRunning != 0 && cur.Some? && cur.value.0 == t) || !HasCurrentNow(t) { return Some(Fatal); }
        if k == |bs| { return Some(Script); }
        assert bs[k..][0] == bs[k] && bs[k..][1..] == bs[k + 1..];
        var i := thr[t].cur - 1;
        h := CancelInst(t, i, bs[k]);
        if h.Some? { return; }
        if !(t < |thr| && i < |thr[t].pth| && thr[t].cls < |cs|) { return Some(Internal(InactiveThread)); }
        h := ForceDetach(t, i, bs[k]);
        if h.Some? { return; }
        k := k + 1;
      }
    }

    /** coopth_done, up to the freeing of stacks */
    method DoneAll(cur: Option<(nat, nat)>, bs: seq<Burst>) returns (h: Option<Why>)
      requires Ready()
      modifies this, activeTids
      ensures Ready() && Did(CoopthDone(old(W()), cur, bs), h, W())
      decreases bs, 3
    {
      hide FindTop, DoCancel;
      ghost var w0 := W();
      var own := if threadRunning != 0 && cur.Some? then Some(cur.value.0) else None;
      var itd := 0;
      if threadRunning != 0 && cur.Some? && cur.value.0 < |thr| && cur.value.1 < |thr[cur.value.0].pth| &&
         thr[cur.value.0].cls < |cs| && !thr[cur.value.0].pth[cur.value.1].attached { itd := 1; }
      var k := 0;
      while true
        invariant Ready() && k <= |bs| && CoopthDone(w0, cur, bs) == DoneFrom(W(), own, itd, bs[k..])
        decreases |bs| - k
      {
        var f := Scan(false, own);
        if f.None? { return if total == joinable + itd then None else Some(Fatal); }
        var t := f.value;
        if !HasCurrentNow(t) { return Some(Fatal); }
        if k == |bs| { return Some(Script); }
        assert bs[k..][0] == bs[k] && bs[k..][1..] == bs[k + 1..];
        var tt := total;
        h := CancelInst(t, thr[t].cur - 1, bs[k]);
        if h.Some? { return; }
        if total != tt - 1 { return Some(Fatal); }
        k := k + 1;
      }
    }

    /** Calls that change the running instance. */
    method PerformOwn(cur: Option<(nat, nat)>, a: Act) returns (h: Option<Why>)
      requires Ready() && (a.AddPost? || a.SetCancel?)
      modifies this`thr, this`hist
      ensures Ready() && Did(Exec(old(W()), cur, a), h, W())
    {
      hide StartThread, ThreadRun, DoCancel, DoDetach, UnsafeShutdown, CoopthDone, Callf, Awake, CallPostInternal;
      if !(threadRunning != 0 && cur.Some? && cur.value.0 < |thr| && cur.value.1 < |thr[cur.value.0].pth| &&
           thr[cur.value.0].cls < |cs|) { return Some(Fatal); }
      var (t, i) := cur.value;
      var x := thr[t].pth[i];
      if a.SetCancel? {
        PutInst(t, i, x.(cancDisabled := a.disabled));
      } else {
        if |x.posts| >= MAX_POST_H { return Some(Fatal); }
        PutInst(t, i, x.(posts := x.posts + [a.handler]));
        if !x.left && x.uid < |hist| {
          hist := hist[x.uid := hist[x.uid].(added := hist[x.uid].added + [a.handler])];
        }
      }
      h := None;
    }

    /** Calls that change flags of a thread. */
    method PerformFlag(cur: Option<(nat, nat)>, a: Act) returns (h: Option<Why>)
      requires Ready() && (a.SetClass? || a.SetDetached? || a.SetPost? || a.CallPost?)
      modifies this`thr, this`log
      ensures Ready() && Did(Exec(old(W()), cur, a), h, W())
    {
      hide StartThread, ThreadRun, DoCancel, DoDetach, UnsafeShutdown, CoopthDone, Callf, Awake, AddPostHandler, AnyAttached,
           DoCallPost;
      var t := a.tid;
      if t >= |thr| { return Some(Fatal); }
      var th := thr[t];
      h := None;
      match a {
        case SetClass(_, c) =>
          if c >= CTCL_MAX { return Some(Fatal); }
          if AnyAttached(th) { return Some(Contract); }
          thr := thr[t := th.(cls := c)];
        case SetDetached(_) => thr := thr[t := th.(detached := true)];
        case SetPost(_, on) => thr := thr[t := th.(post := on)];
        case CallPost(_) => h := CallDeferred(t);
      }
    }

    /** coopth_call_post_internal */
    method CallDeferred(t: nat) returns (h: Option<Why>)
      requires Ready() && t < |thr|
      modifies this`thr, this`log
      ensures Ready() && Did(CallPostInternal(old(W()), t), h, W())
    {
      var th := thr[t];
      if !th.custom { return Some(Fatal); }
      if th.postPth.None? { return None; }
      if !(th.postPth.value < |th.pth| && th.cls < |cs|) { return Some(Fatal); }
      CallPostHandlers(t, th.postPth.value);
      thr := thr[t := th.(postPth := None)];
      h := None;
    }

    /** One call into the scheduler. */
    method Perform(cur: Option<(nat, nat)>, a: Act) returns (h: Option<Why>)
      requires Ready()
      modifies this, activeTids
      ensures Ready() && Did(Exec(old(W()), cur, a), h, W())
      decreases a, 1
    {
      hide StartThread, ThreadRun, DoCancel, DoDetach, UnsafeShutdown, CoopthDone, Callf, Awake, AddPostHandler, CallPostInternal,
           AnyAttached;
      if a.SetClass? || a.SetDetached? || a.SetPost? || a.CallPost? {
        h := PerformFlag(cur, a);
      } else if a.AddPost? || a.SetCancel? {
        h := PerformOwn(cur, a);
      } else if a.Shutdown? {
        h := ShutdownAll(cur, a.bursts);
      } else if a.ShutDone? {
        h := DoneAll(cur, a.bursts);
      } else if a.Start? {
        h := Launch(a.tid, a.custom);
      } else {
        h := PerformOn(cur, a);
      }
    }

    /** Calls about the newest instance of a thread. */
    method PerformOn(cur: Option<(nat, nat)>, a: Act) returns (h: Option<Why>)
      requires Ready()
      requires a.WakeUp? || a.AttachToCur? || a.RunAttached? || a.RunDetached? || a.Cancel? || a.UnsafeDetach?
      modifies this, activeTids
      ensures Ready() && Did(Exec(old(W()), cur, a), h, W())
      decreases a, 0
    {
      hide StartThread, ThreadRun, DoCancel, DoDetach, UnsafeShutdown, CoopthDone, Callf, AddPostHandler, CallPostInternal,
           AnyAttached;
      var t := a.tid;
      if !HasCurrentNow(t) { return Some(Fatal); }
      var i := thr[t].cur - 1;
      var x := thr[t].pth[i];
      h := None;
      match a {
        case WakeUp(_) => if x.st.Sleeping? { PutInst(t, i, x.(st := Switch(AWAKEN))); }
        case AttachToCur(_) =>
          if x.attached { return Some(Fatal); }
          if x.left { return Some(Contract); }
          h := DoCallf(t, i);
        case RunAttached(_, bs) =>
          if !x.attached { return Some(Fatal); }
          var term, steps, bursts;
          h, term, steps, bursts := Run(t, i, bs);
        case RunDetached(_, bs) =>
          var running := threadRunning - joinableRunning - leftRunning;
          if running < 0 { return Some(Internal(NegativeDetached)); }
          if running > 0 { return None; }
          if x.attached || x.left { return Some(Fatal); }
          var term, steps, bursts;
          h, term, steps, bursts := Run(t, i, bs);
        case Cancel(_, b) =>
          if threadRunning != 0 && cur.Some? && cur.value.0 == t { return if x.left then None else Some(Fatal); }
          h := CancelInst(t, i, b);
        case UnsafeDetach(_, b) =>
          if !x.attached { return Some(Fatal); }
          h := ForceDetach(t, i, b);
      }
    }

    /** A script, one call after another. */
    method PerformAll(cur: Option<(nat, nat)>, acts: seq<Act>) returns (h: Option<Why>)
      requires Ready()
      modifies this, activeTids
      ensures Ready() && Did(ExecActs(old(W()), cur, acts), h, W())
      ensures old(Inv(W()) && Calm(W()) && CurOk(W(), cur)) ==>
                if h.None? then Inv(W()) && Calm(W()) && Stable(old(W()), W()) else !h.value.Internal?
      decreases acts, 0
    {
      hide Exec, Inv, Calm, CurOk, Stable;
      ghost var w0 := W();
      if Inv(w0) && Calm(w0) && CurOk(w0, cur) { ExecActsGood(w0, cur, acts); }
      var k := 0;
      h := None;
      while k < |acts|
        invariant Ready() && k <= |acts| && h.None?
        invariant ExecActs(w0, cur, acts) == ExecActs(W(), cur, acts[k..])
      {
        assert acts[k..][0] == acts[k] && acts[k..][1..] == acts[k + 1..];
        h := Perform(cur, acts[k]);
        if h.Some? { return; }
        k := k + 1;
      }
      assert acts[k..] == [];
    }
  }

  // ---------------------------------------------------------------- turns of thread_run

  lemma PushValid(w: World, t: nat, i: nat)
    requires Valid(w, t, i)
    ensures Valid(PushFrame(w, t, i), t, i)
  {
  }

  lemma PopValid(w: World, t: nat, i: nat, jr: int, lr: int)
    requires Valid(w, t, i) && w.frames != []
    ensures Valid(PopFrame(w, jr, lr), t, i)
  {
  }

  /** A run `o` that has taken so many steps and bursts and goes on as `p`. */
  predicate Onward(o: RunOut, p: RunOut, steps: nat, bursts: nat) {
    o.out == p.out && o.term == p.term && o.steps == steps + p.steps && o.bursts == bursts + p.bursts
  }

  lemma EndTurn(w: World, t: nat, i: nat, bs: seq<Burst>)
    requires Valid(w, t, i)
    ensures Get(w, t, i).st.Free? ==> ThreadRun(w, t, i, bs) == RunOut(Halt(Internal(InactiveThread)), 0, 1, 0)
    ensures Get(w, t, i).st.Sleeping? ==> ThreadRun(w, t, i, bs) == RunOut(Ok(w), 0, 1, 0)
    ensures Get(w, t, i).st.Running? && bs == [] ==> ThreadRun(w, t, i, bs) == RunOut(Halt(Script), 0, 1, 0)
  {
    hide RunStep, SwitchStep;
  }

  lemma RunningTurn(w: World, t: nat, i: nat, bs: seq<Burst>)
    requires Valid(w, t, i) && Get(w, t, i).st.Running? && bs != []
    ensures var r, o := RunStep(w, t, i, bs[0]), ThreadRun(w, t, i, bs);
            if r.Halt? then o == RunOut(r, 0, 1, 1)
            else if !Valid(r.w, t, i) then o == RunOut(Halt(Internal(InactiveThread)), 0, 1, 1)
            else if Again(Get(r.w, t, i)) then Onward(o, ThreadRun(r.w, t, i, bs[1..]), 1, 1)
            else o == RunOut(r, 0, 1, 1)
  {
    hide RunStep, SwitchStep;
  }

  lemma SwitchTurn(w: World, t: nat, i: nat, bs: seq<Burst>)
    requires Valid(w, t, i) && Get(w, t, i).st.Switch?
    ensures var r, o := SwitchStep(w, t, i), ThreadRun(w, t, i, bs);
            if r.Halt? then o == RunOut(r, 0, 1, 0)
            else if Again(Get(r.w, t, i)) then Get(r.w, t, i).st.Running? && Onward(o, ThreadRun(r.w, t, i, bs), 1, 0)
            else o == RunOut(r, if Get(w, t, i).st.idx.DONE? then w.thr[t].cur else 0, 1, 0)
  {
    hide RunStep, SwitchStep;
  }

  /** What do_del_thread asserts of active_tids. */
  function Verdict(s: seq<nat>, t: nat): Option<Why> {
    if t !in s then Some(Internal(ActiveNotFound))
    else if multiset(s)[t] > 1 then Some(Internal(ActiveTwice)) else None
  }

  /** FreeSlot, with what the scan of active_tids finds. */
  lemma FreeSlotIs(w: World, t: nat, i: nat)
    requires Valid(w, t, i) && 0 < w.thr[t].cur
    ensures var x, th, r := Get(w, t, i), w.thr[t], FreeSlot(w, t, i);
            var w1 := w.(threadsLeft := w.threadsLeft - Bit(x.left), total := w.total - 1,
                         thr := w.thr[t := th.(cur := th.cur - 1, pth := th.pth[i := x.(st := Free)])]);
            if th.cur > 1 then r == Ok(w1)
            else if Verdict(w.active, t).Some? then r == Halt(Verdict(w.active, t).value)
            else r == Ok(w1.(active := Without(w.active, t)))
  {
    hide Without;
  }

  lemma Absent(s: seq<nat>, t: nat)
    requires t !in s
    ensures Verdict(s, t) == Some(Internal(ActiveNotFound))
  {
  }

  lemma Twice(s: seq<nat>, p: nat, i: nat, t: nat)
    requires p < i < |s| && s[p] == t && s[i] == t
    ensures Verdict(s, t) == Some(Internal(ActiveTwice))
  {
    assert s == s[..p] + [s[p]] + s[p + 1..i] + [s[i]] + s[i + 1..];
  }

  lemma Once(s: seq<nat>, p: nat, t: nat)
    requires p < |s| && s[p] == t && t !in s[..p] && t !in s[p + 1..]
    ensures Verdict(s, t) == None
  {
    assert s == s[..p] + [s[p]] + s[p + 1..];
  }

  lemma {:induction false} OnceWithout(s: seq<nat>, p: nat, t: nat)
    requires p < |s| && s[p] == t && t !in s[..p] && t !in s[p + 1..]
    ensures Without(s, t) == s[..p] + s[p + 1..]
  {
    if p == 0 {
      WithoutNone(s[1..], t);
    } else {
      assert s[1..][..p - 1] == s[..p][1..] && s[1..][p..] == s[p + 1..];
      OnceWithout(s[1..], p - 1, t);
    }
  }

  lemma {:induction false} WithoutNone(s: seq<nat>, t: nat)
    requires t !in s
    ensures Without(s, t) == s
  {
    if s != [] { WithoutNone(s[1..], t); }
  }

  /**
   The scan of do_del_thread over active_tids: entries after the one found move down by one.
   */
  method ShiftOut(a: array<nat>, n: nat, t: nat) returns (h: Option<Why>)
    requires n <= a.Length
    modifies a
    ensures h == Verdict(old(a[..n]), t)
    ensures h.None? ==> n > 0 && a[..n - 1] == Without(old(a[..n]), t)
  {
    hide Verdict, Without;
    ghost var s, p := a[..n], 0;
    var found, i := 0, 0;
    while i < n
      invariant 0 <= i <= n && 0 <= found <= 1 && (found == 0 ==> p == i) && (found == 1 ==> p < i && s[p] == t)
      invariant forall j | 0 <= j < i && j != p :: s[j] != t
      invariant forall j | 0 <= j < p :: a[j] == s[j]
      invariant forall j | p <= j < i - 1 :: a[j] == s[j + 1]
      invariant forall j | i <= j < n :: a[j] == s[j]
    {
      if a[i] == t {
        if found > 0 {
          Twice(s, p, i, t);
          return Some(Internal(ActiveTwice));
        }
        found := 1;
      } else if found > 0 {
        a[i - 1] := a[i];
      } else {
        p := p + 1;
      }
      i := i + 1;
    }
    if found == 0 {
      Absent(s, t);
      return Some(Internal(ActiveNotFound));
    }
    Once(s, p, t);
    OnceWithout(s, p, t);
    assert a[..n - 1] == s[..p] + s[p + 1..];
    h := None;
  }

  lemma SlotFreed(w: World, t: nat, i: nat)
    requires Valid(w, t, i) && 0 < w.thr[t].cur && FreeSlot(w, t, i).Ok?
    ensures var w' := FreeSlot(w, t, i).w;
            w'.hist == w.hist && |w'.thr| == |w.thr| && Get(w', t, i) == Get(w, t, i).(st := Free) &&
            w'.thr[t].custom == w.thr[t].custom && w'.thr[t].postPth == w.thr[t].postPth &&
            w'.thr[t].post == w.thr[t].post
  {
  }
}
