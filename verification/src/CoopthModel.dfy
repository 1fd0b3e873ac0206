/**
 Cooperative threads (src/base/core/coopth.c), as functions over a value `World`.

 A thread id (`Thr`) owns a LIFO of at most MAX_COOP_RECUR_DEPTH instances (`Inst`).
 What C bodies, cleanup handlers and the main loop may do is a *script*: a `Burst` is what
 one resumption of a body does (calls into the scheduler, possibly running other threads to
 any depth) and how it gives control back.  A script is any finite tree, so a statement over
 all scripts is a statement over all runs.

 An operation either returns a new world or halts.  `Halt` says why: `Internal` is an
 assertion the scheduler makes about its own data, `PostPending` is do_del_thread's assertion
 that the last instance of a custom thread has had its handlers called, `Fatal` is any other
 assertion or `exit()` the source aims at its callers, `Contract` is a caller obligation the
 source leaves unchecked, and `Script` marks a tree with too few bursts.
 */
module CoopthModel {
  import opened Basics

  const MAX_COOP_RECUR_DEPTH := 5
  const MAX_POST_H := 5
  const MAX_ACT_THRS := 10
  const CTCL_MAX := 2

  datatype Sw = SCHED | ATTACH | DETACH | LEAVE | DONE | AWAKEN | YIELD | WAIT

  datatype State = Free | Running | Sleeping | Switch(idx: Sw)

  /** How a body gives control back; `Abandon` is coopth_abandon(), `Leave` coopth_leave(). */
  datatype Ret = Yield | Wait | Sleep | Sched | Finish | Attach | Detach | Leave | Abandon

  datatype Burst = Burst(acts: seq<Act>, ret: Ret)

  datatype Act =
    | Start(tid: nat, custom: bool)
    | RunAttached(tid: nat, bursts: seq<Burst>)
    | RunDetached(tid: nat, bursts: seq<Burst>)
    | WakeUp(tid: nat)
    | Cancel(tid: nat, burst: Burst)
    | UnsafeDetach(tid: nat, burst: Burst)
    | AttachToCur(tid: nat)
    | SetClass(tid: nat, cls: nat)
    | SetDetached(tid: nat)
    | SetPost(tid: nat, on: bool)
    | CallPost(tid: nat)
    | AddPost(handler: int)
    | SetCancel(disabled: bool)
    | Shutdown(bursts: seq<Burst>)
    | ShutDone(bursts: seq<Burst>)

  /**
   One slot of a thread.  `busy` says that its coroutine is on the host stack, `started` that
   the coroutine was entered at least once; `uid` numbers instances in the order of creation.
   */
  datatype Inst = Inst(st: State, attached: bool, cancelled: bool, cancDisabled: bool,
                       left: bool, atomic: bool, posts: seq<int>,
                       busy: bool, started: bool, uid: nat)

  /** `everCustom` remembers whether the thread was ever started as a custom one. */
  datatype Thr = Thr(cur: nat, detached: bool, custom: bool, post: bool, cls: nat,
                     pth: seq<Inst>, postPth: Option<nat>, everCustom: bool)

  /** A pending activation of __thread_run, with the flags it sampled on entry. */
  datatype Frame = Frame(tid: nat, slot: nat, attached: bool, left: bool)

  /** A post handler call: the permanent one or a temporary one. */
  datatype Event = Permanent(uid: nat) | Temporary(uid: nat, handler: int)

  /** What became of an instance; `permanent` says if its thread had a permanent handler then. */
  datatype Fate = Live | Left(permanent: bool) | Gone(cancelled: bool, left: bool, permanent: bool)

  datatype Record = Record(tid: nat, slot: nat, added: seq<int>, fate: Fate)

  /** The scheduler's static data, plus histories: open frames, handler calls, instance records. */
  datatype World = World(thr: seq<Thr>, total: int, joinable: int, threadsLeft: int, cs: seq<int>,
                         active: seq<nat>,
                         threadRunning: int, joinableRunning: int, leftRunning: int,
                         frames: seq<Frame>, log: seq<Event>, hist: seq<Record>)

  datatype Why = Internal(which: Assertion) | PostPending | Fatal | Contract | Script

  datatype Assertion =
    | JoinableUnderflow | ClassUnderflow | NotAttached | AlreadyAttached | ActiveNotFound | ActiveTwice
    | LeftAttached | StillRunning | NegativeDetached | InactiveThread | DeadCoroutine

  datatype Out = Ok(w: World) | Halt(why: Why) {
    predicate IsFailure() { Halt? }
    function PropagateFailure(): Out requires Halt? { this }
    function Extract(): World requires Ok? { w }
  }

  /** Result of thread_run: outcome, its return value, and how many steps and bursts it took. */
  datatype RunOut = RunOut(out: Out, term: nat, steps: nat, bursts: nat)

  // ---------------------------------------------------------------- access

  predicate Valid(w: World, t: nat, i: nat) {
    t < |w.thr| && i < |w.thr[t].pth| && w.thr[t].cls < |w.cs|
  }

  function Get(w: World, t: nat, i: nat): Inst
    requires t < |w.thr| && i < |w.thr[t].pth|
  {
    w.thr[t].pth[i]
  }

  function Put(w: World, t: nat, i: nat, x: Inst): World
    requires t < |w.thr| && i < |w.thr[t].pth|
  {
    w.(thr := w.thr[t := w.thr[t].(pth := w.thr[t].pth[i := x])])
  }

  function Bit(b: bool): int { if b then 1 else 0 }

  /** current_thr(): the newest instance; an inactive thread ends the program. */
  predicate HasCurrent(w: World, t: nat) {
    t < |w.thr| && 0 < w.thr[t].cur <= |w.thr[t].pth| && w.thr[t].cls < |w.cs|
  }

  // ---------------------------------------------------------------- counters and attachment

  function JoinableDec(w: World, c: nat): Out
    requires c < |w.cs|
  {
    if w.joinable == 0 then Halt(Internal(JoinableUnderflow))
    else if w.cs[c] == 0 then Halt(Internal(ClassUnderflow))
    else Ok(w.(joinable := w.joinable - 1, cs := w.cs[c := w.cs[c] - 1]))
  }

  function JoinableInc(w: World, c: nat): World
    requires c < |w.cs|
  {
    w.(joinable := w.joinable + 1, cs := w.cs[c := w.cs[c] + 1])
  }

  function Retf(w: World, t: nat, i: nat): (r: Out)
    requires Valid(w, t, i)
    ensures r.Ok? ==> Valid(r.w, t, i) && Get(r.w, t, i).atomic == Get(w, t, i).atomic
  {
    if !Get(w, t, i).attached then Halt(Internal(NotAttached)) else
    var w1 :- JoinableDec(w, w.thr[t].cls);
    Ok(Put(w1, t, i, Get(w1, t, i).(attached := false)))
  }

  function Callf(w: World, t: nat, i: nat): Out
    requires Valid(w, t, i)
  {
    if Get(w, t, i).attached then Halt(Internal(AlreadyAttached)) else
    var w1 := JoinableInc(w, w.thr[t].cls);
    Ok(Put(w1, t, i, Get(w1, t, i).(attached := true)))
  }

  // ---------------------------------------------------------------- post handlers

  function TempEvents(uid: nat, hs: seq<int>): seq<Event> {
    seq(|hs|, k requires 0 <= k < |hs| => Temporary(uid, hs[k]))
  }

  /** The calls one do_call_post makes: the permanent handler, then the temporary ones in order. */
  function PostEvents(uid: nat, permanent: bool, hs: seq<int>): seq<Event> {
    (if permanent then [Permanent(uid)] else []) + TempEvents(uid, hs)
  }

  function DoCallPost(w: World, t: nat, i: nat): World
    requires Valid(w, t, i)
  {
    w.(log := w.log + PostEvents(Get(w, t, i).uid, w.thr[t].post, Get(w, t, i).posts))
  }

  function SetFate(w: World, uid: nat, f: Fate): World {
    if uid < |w.hist| then w.(hist := w.hist[uid := w.hist[uid].(fate := f)]) else w
  }

  // ---------------------------------------------------------------- deletion

  function Without(s: seq<nat>, t: nat): seq<nat> {
    if s == [] then [] else if s[0] == t then Without(s[1..], t) else [s[0]] + Without(s[1..], t)
  }

  /** do_del_thread up to the handlers: frees the slot and compacts active_tids. */
  function FreeSlot(w: World, t: nat, i: nat): (r: Out)
    requires Valid(w, t, i) && 0 < w.thr[t].cur
    ensures r.Ok? ==> Valid(r.w, t, i) && Get(r.w, t, i).atomic == Get(w, t, i).atomic
  {
    var x, th := Get(w, t, i), w.thr[t];
    var w1 := w.(threadsLeft := w.threadsLeft - Bit(x.left), total := w.total - 1,
                 thr := w.thr[t := th.(cur := th.cur - 1, pth := th.pth[i := x.(st := Free)])]);
    if th.cur > 1 then Ok(w1)
    else if t !in w.active then Halt(Internal(ActiveNotFound))
    else if multiset(w.active)[t] > 1 then Halt(Internal(ActiveTwice))
    else Ok(w1.(active := Without(w.active, t)))
  }

  function DelThread(w: World, t: nat, i: nat): (r: Out)
    requires Valid(w, t, i)
    ensures r.Ok? ==> Valid(r.w, t, i) && Get(r.w, t, i).atomic == Get(w, t, i).atomic
  {
    // an older instance never goes away under a newer one of the same thread
    if w.thr[t].cur == 0 || i != w.thr[t].cur - 1 then Halt(Contract) else
    var x := Get(w, t, i);
    var w1 :- FreeSlot(w, t, i);
    var w2 := SetFate(w1, x.uid, Gone(x.cancelled, x.left, if x.left then LeftPermanent(w, x.uid) else w.thr[t].post));
    if x.cancelled || x.left then Ok(w2)
    else if !w.thr[t].custom then Ok(DoCallPost(w2, t, i))
    else if w.thr[t].postPth.Some? then Halt(PostPending)
    else Ok(w2.(thr := w2.thr[t := w2.thr[t].(postPth := Some(i))]))
  }

  function LeftPermanent(w: World, uid: nat): bool {
    uid < |w.hist| && w.hist[uid].fate.Left? && w.hist[uid].fate.permanent
  }

  // ---------------------------------------------------------------- start

  function FreshInst(uid: nat): Inst {
    Inst(Running, false, false, false, false, false, [], false, false, uid)
  }

  function DoStart(w: World, t: nat, custom: bool): (r: Out)
    requires t < |w.thr|
    ensures r.Halt? ==> r.why.Fatal?
  {
    var th := w.thr[t];
    if th.cur >= MAX_COOP_RECUR_DEPTH || th.cur >= |th.pth| then Halt(Fatal)
    else if th.cur == 0 && |w.active| >= MAX_ACT_THRS then Halt(Fatal)
    else
      Ok(w.(thr := w.thr[t := th.(cur := th.cur + 1, custom := custom,
                                  everCustom := th.everCustom || custom,
                                  pth := th.pth[th.cur := FreshInst(|w.hist|)])],
            active := if th.cur == 0 then w.active + [t] else w.active,
            total := w.total + 1,
            hist := w.hist + [Record(t, th.cur, [], Live)]))
  }

  /** coopth_start_internal / coopth_start_custom_internal. */
  function StartThread(w: World, t: nat, custom: bool): Out {
    if t >= |w.thr| || (custom && w.thr[t].detached) || w.thr[t].cls >= |w.cs| then Halt(Fatal) else
    var w1 :- DoStart(w, t, custom);
    if w.thr[t].detached then Ok(w1) else Callf(w1, t, w.thr[t].cur)
  }

  // ---------------------------------------------------------------- switches

  function SetState(w: World, t: nat, i: nat, s: State): World
    requires Valid(w, t, i)
  {
    Put(w, t, i, Get(w, t, i).(st := s))
  }

  function SwLeave(w: World, t: nat, i: nat): (r: Out)
    requires Valid(w, t, i)
    ensures r.Ok? ==> Valid(r.w, t, i) && Get(r.w, t, i).atomic == Get(w, t, i).atomic
  {
    var w1 :- if Get(w, t, i).attached then Retf(w, t, i) else Ok(w);
    Ok(MarkLeft(w1, t, i))
  }

  function MarkLeft(w: World, t: nat, i: nat): World
    requires Valid(w, t, i)
  {
    var x := Get(w, t, i);
    var w1 := Put(w, t, i, x.(left := true, st := Running)).(threadsLeft := w.threadsLeft + 1);
    SetFate(DoCallPost(w1, t, i), x.uid, Left(w.thr[t].post))
  }

  function SwDone(w: World, t: nat, i: nat): (r: Out)
    requires Valid(w, t, i)
    ensures r.Ok? ==> Valid(r.w, t, i) && Get(r.w, t, i).atomic == Get(w, t, i).atomic
  {
    var w1 :- Retf(w, t, i);
    DelThread(w1, t, i)
  }

  /** sw_list[sw_idx](thr, pth) */
  function DoSwitch(w: World, t: nat, i: nat): (r: Out)
    requires Valid(w, t, i) && Get(w, t, i).st.Switch?
    ensures r.Ok? ==> Valid(r.w, t, i) && Get(r.w, t, i).atomic == Get(w, t, i).atomic
  {
    match Get(w, t, i).st.idx
    case DETACH => var w1 :- Retf(w, t, i); Ok(SetState(w1, t, i, Switch(SCHED)))
    case LEAVE => SwLeave(w, t, i)
    case DONE => SwDone(w, t, i)
    case _ => Ok(SetState(w, t, i, Running))
  }

  // ---------------------------------------------------------------- bursts

  /** The guards of switch_state() and of the calls that lead to it. */
  predicate MayReturn(x: Inst, r: Ret) {
    r.Finish? ||
    (!x.left && (!x.cancelled || x.cancDisabled) &&
     (r.Wait? || r.Sched? || r.Detach? ==> x.attached) &&
     (r.Attach? ==> !x.attached))
  }

  function RetState(r: Ret): State {
    match r
    case Yield => Switch(YIELD)
    case Wait => Switch(WAIT)
    case Sleep => Sleeping
    case Sched => Switch(SCHED)
    case Finish => Switch(DONE)
    case Attach => Switch(ATTACH)
    case Detach => Switch(DETACH)
    case Leave => Switch(LEAVE)
    case Abandon => Switch(LEAVE)
  }

  /** The tail of do_run_thread, once the coroutine gave control back with `r`. */
  function EndBurst(w: World, t: nat, i: nat, r: Ret): Out
    requires Valid(w, t, i)
  {
    var x := Get(w, t, i);
    if !MayReturn(x, r) then Halt(Fatal)
    else if r.Finish? && !x.attached then DelThread(w, t, i)
    else if r.Abandon? then
      Ok(DropPosts(Put(w, t, i, x.(posts := [], atomic := !x.attached, st := Switch(LEAVE))), x.uid))
    else if r.Attach? then
      var w1 :- Callf(w, t, i);
      Ok(SetState(w1, t, i, Switch(ATTACH)))
    else Ok(SetState(w, t, i, RetState(r)))
  }

  function DropPosts(w: World, uid: nat): World {
    if uid < |w.hist| then w.(hist := w.hist[uid := w.hist[uid].(added := [])]) else w
  }

  function Enter(w: World, t: nat, i: nat): World
    requires Valid(w, t, i)
  {
    Put(w, t, i, Get(w, t, i).(busy := true, started := true))
  }

  function Exit(w: World, t: nat, i: nat): World
    requires Valid(w, t, i)
  {
    Put(w, t, i, Get(w, t, i).(busy := false))
  }

  /** do_run_thread: resume the coroutine, then act on what it returned. */
  function RunBurst(w: World, t: nat, i: nat, b: Burst): Out
    requires Valid(w, t, i)
    decreases b, 0
  {
    var x := Get(w, t, i);
    if x.busy then Halt(Contract)
    else if x.st == Switch(DONE) || x.st.Free? then Halt(Internal(DeadCoroutine))
    else if !x.started && x.cancelled then EndBurst(Exit(Enter(w, t, i), t, i), t, i, Finish)
    else
      var w1 :- ExecActs(Enter(w, t, i), Some((t, i)), b.acts);
      if !Valid(w1, t, i) then Halt(Internal(InactiveThread))
      else EndBurst(Exit(w1, t, i), t, i, b.ret)
  }

  // ---------------------------------------------------------------- __thread_run, thread_run

  function PushFrame(w: World, t: nat, i: nat): World
    requires Valid(w, t, i)
  {
    var x := Get(w, t, i);
    w.(threadRunning := w.threadRunning + 1,
       joinableRunning := w.joinableRunning + Bit(x.attached),
       leftRunning := w.leftRunning + Bit(x.left),
       frames := w.frames + [Frame(t, i, x.attached, x.left)])
  }

  /** `thread_running--` and the two saved counters, as __thread_run does after the burst. */
  function PopFrame(w: World, jr: int, lr: int): World
    requires w.frames != []
  {
    w.(threadRunning := w.threadRunning - 1, joinableRunning := jr, leftRunning := lr,
       frames := w.frames[..|w.frames| - 1])
  }

  /** The RUNNING case of __thread_run. */
  function RunStep(w: World, t: nat, i: nat, b: Burst): Out
    requires Valid(w, t, i)
    decreases b, 1
  {
    if Get(w, t, i).left && Get(w, t, i).attached then Halt(Internal(LeftAttached)) else
    var w1 :- RunBurst(PushFrame(w, t, i), t, i, b);
    if w1.frames == [] || !Valid(w1, t, i) then Halt(Internal(InactiveThread)) else
    var w2 := PopFrame(w1, w.joinableRunning, w.leftRunning);
    if Get(w2, t, i).st.Running? then Halt(Internal(StillRunning)) else Ok(w2)
  }

  /** The SWITCH case of __thread_run. */
  function SwitchStep(w: World, t: nat, i: nat): (r: Out)
    requires Valid(w, t, i) && Get(w, t, i).st.Switch?
    ensures r.Ok? ==> Valid(r.w, t, i) && !Get(r.w, t, i).atomic
  {
    DoSwitch(Put(w, t, i, Get(w, t, i).(atomic := false)), t, i)
  }

  predicate Again(x: Inst) { x.st.Running? || (x.st.Switch? && x.atomic) }

  /** thread_run: the do-while loop, one burst of the script for each resumption. */
  function ThreadRun(w: World, t: nat, i: nat, bs: seq<Burst>): RunOut
    requires Valid(w, t, i)
    decreases bs, if Get(w, t, i).st.Switch? then 2 else 1
  {
    match Get(w, t, i).st
    case Free => RunOut(Halt(Internal(InactiveThread)), 0, 1, 0)
    case Sleeping => RunOut(Ok(w), 0, 1, 0)
    case Running =>
      if bs == [] then RunOut(Halt(Script), 0, 1, 0) else
      var r := RunStep(w, t, i, bs[0]);
      if r.Halt? then RunOut(r, 0, 1, 1)
      else if !Valid(r.w, t, i) then RunOut(Halt(Internal(InactiveThread)), 0, 1, 1)
      else if Again(Get(r.w, t, i)) then
        var o := ThreadRun(r.w, t, i, bs[1..]);
        RunOut(o.out, o.term, o.steps + 1, o.bursts + 1)
      else RunOut(r, 0, 1, 1)
    case Switch(idx) =>
      var r := SwitchStep(w, t, i);
      if r.Halt? then RunOut(r, 0, 1, 0)
      else if Again(Get(r.w, t, i)) then
        var o := ThreadRun(r.w, t, i, bs);
        RunOut(o.out, o.term, o.steps + 1, o.bursts)
      else RunOut(r, if idx.DONE? then w.thr[t].cur else 0, 1, 0)
  }

  // ---------------------------------------------------------------- detach and cancel

  /** do_detach up to the optional last run of a cancelled body; `None` when detach_sw deleted it. */
  function DetachSw(w: World, t: nat, i: nat): Out
    requires Valid(w, t, i)
  {
    var w1 := Put(w, t, i, Get(w, t, i).(attached := false));
    var w2 :- JoinableDec(w1, w.thr[t].cls);
    var x := Get(w2, t, i);
    if !x.st.Switch? then Ok(w2)
    else if x.st.idx.DETACH? then Ok(SetState(w2, t, i, Running))
    else if x.st.idx.DONE? then DelThread(w2, t, i)
    else DoSwitch(w2, t, i)
  }

  function DoDetach(w: World, t: nat, i: nat, b: Burst): Out
    requires Valid(w, t, i)
    decreases b, 1
  {
    var w1 :- DetachSw(w, t, i);
    if !Valid(w1, t, i) then Halt(Internal(InactiveThread))
    else if Get(w1, t, i).st.Free? || !Get(w, t, i).cancelled then Ok(w1)
    else RunToDeath(w1, t, i, b)
  }

  /** `tret = do_run_thread(...); assert(tret == COOPTH_DELETE)` */
  function RunToDeath(w: World, t: nat, i: nat, b: Burst): Out
    requires Valid(w, t, i)
    decreases b, 1, 0
  {
    var w1 :- RunBurst(w, t, i, b);
    if Valid(w1, t, i) && Get(w1, t, i).st.Free? then Ok(w1) else Halt(Fatal)
  }

  /** do_awake */
  function Awake(w: World, t: nat, i: nat): World
    requires Valid(w, t, i)
  {
    if Get(w, t, i).st.Sleeping? then SetState(w, t, i, Switch(AWAKEN)) else w
  }

  function DoCancel(w: World, t: nat, i: nat, b: Burst): Out
    requires Valid(w, t, i)
    decreases b, 2
  {
    var w1 := Put(w, t, i, Get(w, t, i).(cancelled := true));
    if Get(w, t, i).attached then Ok(Awake(w1, t, i)) else RunToDeath(w1, t, i, b)
  }

  // ---------------------------------------------------------------- shutdown

  /** Index of the first active thread, from `k` on, whose newest instance is (not) attached. */
  function FindTop(w: World, attached: bool, own: Option<nat>, k: nat): Option<nat>
    decreases |w.active| - k
  {
    if k >= |w.active| then None
    else
      var t := w.active[k];
      if HasCurrent(w, t) && own != Some(t) && Get(w, t, w.thr[t].cur - 1).attached == attached
      then Some(t) else FindTop(w, attached, own, k + 1)
  }

  function OwnTid(w: World, cur: Option<(nat, nat)>): Option<nat> {
    if w.threadRunning != 0 && cur.Some? then Some(cur.value.0) else None
  }

  /** coopth_unsafe_shutdown: one burst of the script for each restart of its loop. */
  function UnsafeShutdown(w: World, cur: Option<(nat, nat)>, bs: seq<Burst>): Out
    decreases bs, 3
  {
    match FindTop(w, true, None, 0)
    case None => Ok(w)
    case Some(t) =>
      if OwnTid(w, cur) == Some(t) || !HasCurrent(w, t) then Halt(Fatal)
      else if bs == [] then Halt(Script)
      else
        var i := w.thr[t].cur - 1;
        var w1 :- CancelDetach(w, t, i, bs[0]);
        UnsafeShutdown(w1, cur, bs[1..])
  }

  /** One restart of that loop: `do_cancel(thr, pth); do_detach(thr, pth)`. */
  function CancelDetach(w: World, t: nat, i: nat, b: Burst): Out
    requires Valid(w, t, i)
    decreases b, 3
  {
    var w1 :- DoCancel(w, t, i, b);
    if Valid(w1, t, i) then DoDetach(w1, t, i, b) else Halt(Internal(InactiveThread))
  }

  /** The detached instances a caller of coopth_done may be running in. */
  function SelfDetached(w: World, cur: Option<(nat, nat)>): int {
    if w.threadRunning != 0 && cur.Some? && Valid(w, cur.value.0, cur.value.1) &&
       !Get(w, cur.value.0, cur.value.1).attached then 1 else 0
  }

  /** coopth_done, up to the freeing of stacks; whether the caller is a detached instance is asked once. */
  function CoopthDone(w: World, cur: Option<(nat, nat)>, bs: seq<Burst>): Out
    decreases bs, 4
  {
    DoneFrom(w, OwnTid(w, cur), SelfDetached(w, cur), bs)
  }

  /** Its loop, for a caller in thread `own`. */
  function DoneFrom(w: World, own: Option<nat>, itd: int, bs: seq<Burst>): Out
    decreases bs, 3
  {
    match FindTop(w, false, own, 0)
    case None => if w.total == w.joinable + itd then Ok(w) else Halt(Fatal)
    case Some(t) =>
      if !HasCurrent(w, t) then Halt(Fatal)
      else if bs == [] then Halt(Script)
      else
        var w1 :- DoCancel(w, t, w.thr[t].cur - 1, bs[0]);
        if w1.total != w.total - 1 then Halt(Fatal) else DoneFrom(w1, own, itd, bs[1..])
  }

  // ---------------------------------------------------------------- scripts

  function ExecActs(w: World, cur: Option<(nat, nat)>, acts: seq<Act>): Out
    decreases acts, 0
  {
    if acts == [] then Ok(w) else
    var w1 :- Exec(w, cur, acts[0]);
    ExecActs(w1, cur, acts[1..])
  }

  predicate InThread(w: World, cur: Option<(nat, nat)>) {
    w.threadRunning != 0 && cur.Some? && Valid(w, cur.value.0, cur.value.1)
  }

  function AddPostHandler(w: World, t: nat, i: nat, h: int): World
    requires Valid(w, t, i)
  {
    var x := Get(w, t, i);
    var w1 := Put(w, t, i, x.(posts := x.posts + [h]));
    if x.left || x.uid >= |w.hist| then w1
    else w1.(hist := w.hist[x.uid := w.hist[x.uid].(added := w.hist[x.uid].added + [h])])
  }

  function CallPostInternal(w: World, t: nat): Out
    requires t < |w.thr|
  {
    var th := w.thr[t];
    if !th.custom then Halt(Fatal)
    else if th.postPth.None? then Ok(w)
    else if !Valid(w, t, th.postPth.value) then Halt(Fatal)
    else
      var w1 := DoCallPost(w, t, th.postPth.value);
      Ok(w1.(thr := w.thr[t := th.(postPth := None)]))
  }

  predicate AnyAttached(th: Thr) { exists i | 0 <= i < |th.pth| :: th.pth[i].attached }

  function Exec(w: World, cur: Option<(nat, nat)>, a: Act): Out
    decreases a, 0
  {
    match a
    case Start(t, custom) => StartThread(w, t, custom)
    case RunAttached(t, bs) =>
      if !HasCurrent(w, t) || !Get(w, t, w.thr[t].cur - 1).attached then Halt(Fatal)
      else ThreadRun(w, t, w.thr[t].cur - 1, bs).out
    case RunDetached(t, bs) =>
      var running := w.threadRunning - w.joinableRunning - w.leftRunning;
      if !HasCurrent(w, t) then Halt(Fatal)
      else if running < 0 then Halt(Internal(NegativeDetached))
      else if running > 0 then Ok(w)
      else
        var x := Get(w, t, w.thr[t].cur - 1);
        if x.attached || x.left then Halt(Fatal) else ThreadRun(w, t, w.thr[t].cur - 1, bs).out
    case WakeUp(t) => if HasCurrent(w, t) then Ok(Awake(w, t, w.thr[t].cur - 1)) else Halt(Fatal)
    case Cancel(t, b) =>
      if !HasCurrent(w, t) then Halt(Fatal)
      else if OwnTid(w, cur) == Some(t) then
        if Get(w, t, w.thr[t].cur - 1).left then Ok(w) else Halt(Fatal)
      else DoCancel(w, t, w.thr[t].cur - 1, b)
    case UnsafeDetach(t, b) =>
      if !HasCurrent(w, t) || !Get(w, t, w.thr[t].cur - 1).attached then Halt(Fatal)
      else DoDetach(w, t, w.thr[t].cur - 1, b)
    case AttachToCur(t) =>
      if !HasCurrent(w, t) || Get(w, t, w.thr[t].cur - 1).attached then Halt(Fatal)
      else if Get(w, t, w.thr[t].cur - 1).left then Halt(Contract)
      else Callf(w, t, w.thr[t].cur - 1)
    case SetClass(t, c) =>
      if t >= |w.thr| || c >= CTCL_MAX then Halt(Fatal)
      else if AnyAttached(w.thr[t]) then Halt(Contract)
      else Ok(w.(thr := w.thr[t := w.thr[t].(cls := c)]))
    case SetDetached(t) =>
      if t >= |w.thr| then Halt(Fatal) else Ok(w.(thr := w.thr[t := w.thr[t].(detached := true)]))
    case SetPost(t, on) =>
      if t >= |w.thr| then Halt(Fatal) else Ok(w.(thr := w.thr[t := w.thr[t].(post := on)]))
    case CallPost(t) => if t >= |w.thr| then Halt(Fatal) else CallPostInternal(w, t)
    case AddPost(h) =>
      if !InThread(w, cur) then Halt(Fatal)
      else if |Get(w, cur.value.0, cur.value.1).posts| >= MAX_POST_H then Halt(Fatal)
      else Ok(AddPostHandler(w, cur.value.0, cur.value.1, h))
    case SetCancel(d) =>
      if !InThread(w, cur) then Halt(Fatal)
      else Ok(Put(w, cur.value.0, cur.value.1, Get(w, cur.value.0, cur.value.1).(cancDisabled := d)))
    case Shutdown(bs) => UnsafeShutdown(w, cur, bs)
    case ShutDone(bs) => CoopthDone(w, cur, bs)
  }

  /** Everything at rest: `n` threads created, nothing started. */
  function InitThr(): Thr {
    Thr(0, false, false, false, 0, seq(MAX_COOP_RECUR_DEPTH, _ => FreshInst(0).(st := Free)), None, false)
  }

  function InitWorld(n: nat): World {
    World(seq(n, _ => InitThr()), 0, 0, 0, [0, 0], [], 0, 0, 0, [], [], [])
  }
}
