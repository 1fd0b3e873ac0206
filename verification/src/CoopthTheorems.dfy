/** What the scheduler promises, stated over all runs from the initial state. */
module CoopthTheorems {
  import opened Basics
  import opened CoopthModel
  import opened CoopthInvariant
  import opened CoopthRuns

  // ---------------------------------------------------------------- every run

  lemma InitInv(n: nat)
    ensures Inv(InitWorld(n)) && Calm(InitWorld(n))
  {
    var w := InitWorld(n);
    forall t | 0 <= t < |w.thr| ensures ThrOk(w.thr[t]) {}
    forall k: Kind ensures Where(w.thr, k) == {} {}
  }

  /**
   After any script run by the main program, either the run stopped at a check aimed at
   callers (never at an assertion about the scheduler's own data), or every counter and
   active_tids agree with the slots, and no frame is left open.
   */
  lemma EveryRun(n: nat, acts: seq<Act>)
    ensures var r := ExecActs(InitWorld(n), None, acts);
            if r.Halt? then !r.why.Internal?
            else Inv(r.w) && r.w.frames == [] &&
                 r.w.threadRunning == r.w.joinableRunning == r.w.leftRunning == 0
  {
    hide Shape, Counts, ActiveOk, PostsOk, Calm;
    InitInv(n);
    ExecActsGood(InitWorld(n), None, acts);
  }

  /** The invariant in the source's own terms. */
  lemma CountersAgree(w: World)
    requires Inv(w)
    ensures w.total == |Where(w.thr, KLive)| && w.joinable == |Where(w.thr, KAttached)|
    ensures w.threadsLeft == |Where(w.thr, KLeft)|
    ensures w.cs[0] == |Where(w.thr, KClass(0))| && w.cs[1] == |Where(w.thr, KClass(1))|
    ensures w.joinable == w.cs[0] + w.cs[1]
    ensures forall t, i | 0 <= t < |w.thr| && 0 <= i < MAX_COOP_RECUR_DEPTH ::
              i < |w.thr[t].pth| && (!Get(w, t, i).st.Free? <==> i < w.thr[t].cur) &&
              !(i < w.thr[t].cur && Get(w, t, i).attached && Get(w, t, i).left)
    ensures NoDup(w.active) && forall t :: t in w.active <==> 0 <= t < |w.thr| && w.thr[t].cur > 0
  {
    hide FramesOk, PostsOk;
    forall t, i | 0 <= t < |w.thr| && 0 <= i < MAX_COOP_RECUR_DEPTH
      ensures i < |w.thr[t].pth| && SlotOk(Get(w, t, i), i < w.thr[t].cur)
    {
      assert ThrOk(w.thr[t]) && SlotOk(w.thr[t].pth[i], i < w.thr[t].cur);
    }
    var a, b := Where(w.thr, KClass(0)), Where(w.thr, KClass(1));
    forall p | p in Slots(|w.thr|) ensures IsAt(w.thr, KAttached, p) <==> IsAt(w.thr, KClass(0), p) || IsAt(w.thr, KClass(1), p) {
      assert ThrOk(w.thr[p.0]);
    }
    assert Where(w.thr, KAttached) == a + b;
    assert a !! b;
  }

  // ---------------------------------------------------------------- nested runs

  /**
   At any depth of nesting, DETACHED_RUNNING is the number of open frames entered neither
   attached nor left, so coopth_run's assertion holds; and a run that returns restores all
   three counters.
   */
  lemma NestedRuns(w: World, t: nat, bs: seq<Burst>)
    requires Inv(w) && Calm(w) && HasCurrent(w, t)
    ensures w.threadRunning - w.joinableRunning - w.leftRunning == CountDetached(w.frames) >= 0
    ensures var r := ThreadRun(w, t, w.thr[t].cur - 1, bs).out;
            r.Ok? ==> r.w.threadRunning == w.threadRunning && r.w.joinableRunning == w.joinableRunning &&
                      r.w.leftRunning == w.leftRunning && r.w.frames == w.frames
  {
    hide Shape, Counts, ActiveOk, PostsOk, Calm, ThreadRun;
    DetachedRunning(w.frames);
    RunTopGood(w, t, bs);
  }

  /** Inside a burst reached through thread_run, the same holds with one more frame. */
  lemma InsideBurst(w: World, t: nat, i: nat, acts: seq<Act>)
    requires Inv(w) && Calm(w) && LiveAt(w, t, i) && !Get(w, t, i).busy && Get(w, t, i).st.Running?
    ensures var w0 := Enter(PushFrame(w, t, i), t, i);
            var r := ExecActs(w0, Some((t, i)), acts);
            if r.Halt? then !r.why.Internal?
            else Inv(r.w) && r.w.frames == w.frames + [Frame(t, i, Get(w, t, i).attached, Get(w, t, i).left)] &&
                 r.w.threadRunning == w.threadRunning + 1 && LiveAt(r.w, t, i) && Get(r.w, t, i).uid == Get(w, t, i).uid
  {
    hide Shape, Counts, ActiveOk, PostsOk, Calm, ExecActs;
    var w0 := PushFrame(w, t, i);
    PushGood(w, t, i);
    EnterGood(w0, t, i);
    var w1 := Enter(w0, t, i);
    ExecActsGood(w1, Some((t, i)), acts);
    var r := ExecActs(w1, Some((t, i)), acts);
    if r.Ok? {
      CurStable(w1, r.w, Some((t, i)));
      assert SameBusy(Get(w1, t, i), Get(r.w, t, i));
    }
  }

  // ---------------------------------------------------------------- thread_run

  /**
   thread_run takes at most four steps and two bursts, never stops in RUNNING, and does not
   return while its instance is left: a processed LEAVE ends in deletion.
   */
  lemma ThreadRunBounds(w: World, t: nat, bs: seq<Burst>)
    requires Inv(w) && Calm(w) && HasCurrent(w, t)
    ensures var i := w.thr[t].cur - 1;
            var o := ThreadRun(w, t, i, bs);
            o.steps <= 4 && o.bursts <= 2 &&
            (o.out.Ok? ==>
               t < |o.out.w.thr| && i < |o.out.w.thr[t].pth| &&
               var x, y := Get(w, t, i), Get(o.out.w, t, i);
               !y.st.Running? && (y.left ==> y.st.Free?) && (x.st == Switch(LEAVE) ==> y.st.Free?))
  {
    hide Inv, Calm, ThreadRun;
    TopLive(w, t);
    var i := w.thr[t].cur - 1;
    TidyAt(w, t, i);
    ThreadRunGood(w, t, i, bs);
  }

  // ---------------------------------------------------------------- post handlers

  /**
   Over any run: an instance that left, or ended uncancelled, has had its permanent handler
   called once and then its temporary handlers in the order added; one cancelled without
   having left has had none called; a live one that has not left, none yet.
   */
  lemma PostHandlersExactlyOnce(n: nat, acts: seq<Act>, u: nat)
    ensures var r := ExecActs(InitWorld(n), None, acts);
            r.Ok? && u < |r.w.hist| ==>
              var rec := r.w.hist[u];
              rec.tid < |r.w.thr| &&
              (!r.w.thr[rec.tid].everCustom ==>
                 Calls(r.w.log, u) ==
                   if rec.fate.Live? || (rec.fate.Gone? && rec.fate.cancelled && !rec.fate.left) then []
                   else PostEvents(u, rec.fate.permanent, rec.added))
  {
    hide Shape, Counts, ActiveOk, Calm;
    EveryRun(n, acts);
    var r := ExecActs(InitWorld(n), None, acts);
    if r.Ok? && u < |r.w.hist| {
      assert LogOk(r.w, u);
    }
  }

  /** Hence no instance's permanent handler is ever called twice. */
  lemma PermanentAtMostOnce(w: World, u: nat)
    requires Inv(w) && u < |w.hist| && w.hist[u].tid < |w.thr| && !w.thr[w.hist[u].tid].everCustom
    ensures multiset(w.log)[Permanent(u)] <= 1
    ensures multiset(w.log)[Permanent(u)] == 1 ==> [Permanent(u)] <= Calls(w.log, u)
  {
    hide Shape, Counts, ActiveOk;
    assert LogOk(w, u);
    CallsCount(w.log, u, Permanent(u));
    var evs := Calls(w.log, u);
    if evs != [] {
      var hs := TempEvents(u, w.hist[u].added);
      assert Permanent(u) !in hs;
      assert evs == hs || evs == [Permanent(u)] + hs;
    }
  }

  lemma {:induction false} CallsCount(log: seq<Event>, u: nat, e: Event)
    requires e.uid == u
    ensures multiset(log)[e] == multiset(Calls(log, u))[e]
  {
    if log != [] {
      CallsCount(log[..|log| - 1], u, e);
      assert log == log[..|log| - 1] + [log[|log| - 1]];
    }
  }

  // ---------------------------------------------------------------- custom threads

  /**
   The newest instance, detached and at rest, can always be deleted, except that a custom one
   with handlers to call must not follow another whose handlers are still uncalled: then, and
   only then, do_del_thread's assertion on post_pth fails.
   */
  lemma PostPendingExact(w: World, t: nat, i: nat)
    requires Inv(w) && LiveAt(w, t, i) && i == w.thr[t].cur - 1 && !Get(w, t, i).attached && !Get(w, t, i).busy
    ensures DelThread(w, t, i).Ok? || DelThread(w, t, i) == Halt(PostPending)
    ensures DelThread(w, t, i) == Halt(PostPending) <==>
            w.thr[t].custom && w.thr[t].postPth.Some? && !Get(w, t, i).cancelled && !Get(w, t, i).left
  {
    hide Inv, FreeSlot;
    FreeSlotInv(w, t, i);
    FreeKeepsPost(w, t, i);
  }

  lemma FreeKeepsPost(w: World, t: nat, i: nat)
    requires Valid(w, t, i) && 0 < w.thr[t].cur && FreeSlot(w, t, i).Ok?
    ensures |FreeSlot(w, t, i).w.thr| == |w.thr| && FreeSlot(w, t, i).w.thr[t].postPth == w.thr[t].postPth
  {
  }

  // ---------------------------------------------------------------- why the contracts are needed

  /** Deleting a detached instance keeps the slots in order exactly when it is the newest one. */
  lemma DeletionNeedsNewest(w: World, t: nat, i: nat)
    requires Inv(w) && LiveAt(w, t, i) && !Get(w, t, i).attached && !Get(w, t, i).busy
    ensures FreeSlot(w, t, i).Ok? && Shape(FreeSlot(w, t, i).w) <==> i == w.thr[t].cur - 1
  {
    if i == w.thr[t].cur - 1 {
      FreeSlotInv(w, t, i);
    } else if FreeSlot(w, t, i).Ok? {
      var w' := FreeSlot(w, t, i).w;
      assert !SlotOk(w'.thr[t].pth[i], i < w'.thr[t].cur);
      assert !ThrOk(w'.thr[t]);
    }
  }

  /** Changing a thread's class keeps the class counters right exactly when nothing is attached. */
  lemma ClassChangeNeedsNoneAttached(w: World, t: nat, c: nat)
    requires Inv(w) && t < |w.thr| && c < CTCL_MAX && c != w.thr[t].cls
    ensures Counts(w.(thr := w.thr[t := w.thr[t].(cls := c)])) <==> !AnyAttached(w.thr[t])
  {
    hide ActiveOk, FramesOk, PostsOk;
    var w' := w.(thr := w.thr[t := w.thr[t].(cls := c)]);
    assert ThrOk(w.thr[t]);
    if !AnyAttached(w.thr[t]) {
      forall k: Kind ensures Where(w'.thr, k) == Where(w.thr, k) {
        assert forall p | p in Slots(|w.thr|) :: IsAt(w'.thr, k, p) == IsAt(w.thr, k, p);
      }
    } else {
      var i :| 0 <= i < |w.thr[t].pth| && w.thr[t].pth[i].attached;
      var a, b := Where(w.thr, KClass(c)), Where(w'.thr, KClass(c));
      assert (t, i) in Slots(|w.thr|) && IsAt(w'.thr, KClass(c), (t, i)) && !IsAt(w.thr, KClass(c), (t, i));
      assert forall p | p in Slots(|w.thr|) :: IsAt(w.thr, KClass(c), p) ==> IsAt(w'.thr, KClass(c), p);
      Larger(a, b, (t, i));
      assert c == 0 || c == 1;
    }
  }

  lemma Larger(a: set<(nat, nat)>, b: set<(nat, nat)>, p: (nat, nat))
    requires a <= b && p in b && p !in a
    ensures |a| < |b|
  {
    Subset(a, b - {p});
  }

  /** Attaching from outside keeps "never both attached and left" exactly when the instance has not left. */
  lemma AttachNeedsNotLeft(w: World, t: nat, i: nat)
    requires Inv(w) && LiveAt(w, t, i) && !Get(w, t, i).attached
    ensures Callf(w, t, i).Ok? && Shape(Callf(w, t, i).w) <==> !Get(w, t, i).left
  {
    var w' := Callf(w, t, i).w;
    if Get(w, t, i).left {
      assert !SlotOk(w'.thr[t].pth[i], i < w'.thr[t].cur);
      assert !ThrOk(w'.thr[t]);
    } else {
      CallfInv(w, t, i);
    }
  }
}
