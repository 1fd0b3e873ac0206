/** Scripts that reach the states the exact conditions shut out. */
module CoopthExamples {
  import opened Basics
  import opened CoopthModel
  import opened CoopthInvariant
  import opened CoopthShutdown
  import opened CoopthBehaviour

  /** An attached body ready to run that nobody has cancelled. */
  predicate Fit(x: Inst) {
    x.attached && x.st.Running? && !x.busy && !x.cancelled && !x.left && !x.atomic
  }

  /** One resumption of such a body, when it does nothing but give control back. */
  lemma PlainBurst(w: World, t: nat, i: nat, ret: Ret)
    requires Valid(w, t, i) && Fit(Get(w, t, i)) && (ret.Finish? || ret.Detach?)
    ensures RunBurst(w, t, i, Burst([], ret)) == Ok(Put(w, t, i, Get(w, t, i).(started := true, st := RetState(ret))))
  {
    var x := Get(w, t, i);
    var e := Enter(w, t, i);
    assert ExecActs(e, Some((t, i)), []) == Ok(e);
    PutTwice(w, t, i, x.(busy := true, started := true), x.(started := true));
    PutTwice(w, t, i, x.(started := true), x.(started := true, st := RetState(ret)));
    assert Exit(e, t, i) == Put(w, t, i, x.(started := true));
    hide DelThread, Callf;
  }

  /** Running it leaves only its new state behind. */
  lemma PlainStep(w: World, t: nat, i: nat, ret: Ret)
    requires Valid(w, t, i) && Fit(Get(w, t, i)) && (ret.Finish? || ret.Detach?)
    ensures RunStep(w, t, i, Burst([], ret)) == Ok(Put(w, t, i, Get(w, t, i).(started := true, st := RetState(ret))))
  {
    hide RunBurst;
    PlainBurst(PushFrame(w, t, i), t, i, ret);
    assert PushFrame(w, t, i).frames[..|w.frames|] == w.frames;
  }

  lemma BurstRun(w: World, t: nat, ret: Ret)
    requires HasCurrent(w, t) && Fit(Get(w, t, w.thr[t].cur - 1)) && (ret.Finish? || ret.Detach?)
    ensures var i := w.thr[t].cur - 1;
            Exec(w, None, RunAttached(t, [Burst([], ret)])) ==
            Ok(Put(w, t, i, Get(w, t, i).(started := true, st := RetState(ret))))
  {
    hide RunStep;
    var i := w.thr[t].cur - 1;
    PlainStep(w, t, i, ret);
    assert ThreadRun(w, t, i, [Burst([], ret)]).out == RunStep(w, t, i, Burst([], ret));
  }

  /** Joining a finished body is one switch. */
  lemma JoinRun(w: World, t: nat)
    requires HasCurrent(w, t) && Get(w, t, w.thr[t].cur - 1).st.Switch? && Get(w, t, w.thr[t].cur - 1).attached
    ensures var i := w.thr[t].cur - 1;
            var r := SwitchStep(w, t, i);
            (r.Ok? ==> Valid(r.w, t, i)) &&
            ((r.Halt? || !Again(Get(r.w, t, i))) ==> Exec(w, None, RunAttached(t, [])) == r)
  {
    hide SwitchStep;
  }

  lemma Then(w: World, a: Act, acts: seq<Act>)
    ensures ExecActs(w, None, [a] + acts) ==
            if Exec(w, None, a).Ok? then ExecActs(Exec(w, None, a).w, None, acts) else Exec(w, None, a)
  {
    assert ([a] + acts)[1..] == acts;
    hide Exec;
  }

  /** One joinable thread of class 0, none of whose instances is running. */
  predicate Plain(w: World, live: nat, attached: nat) {
    |w.thr| == 1 && |w.thr[0].pth| == MAX_COOP_RECUR_DEPTH && w.thr[0].cur == live && !w.thr[0].detached &&
    w.thr[0].cls == 0 && |w.cs| == 2 && w.cs[0] == attached && w.joinable == attached && w.total == live &&
    w.active == (if live == 0 then [] else [0]) && w.threadRunning == 0
  }

  lemma StartedThread(w: World, live: nat, attached: nat, custom: bool)
    requires Plain(w, live, attached) && live < MAX_COOP_RECUR_DEPTH
    ensures var r := StartThread(w, 0, custom);
            r.Ok? && Plain(r.w, live + 1, attached + 1) && r.w.thr[0].custom == custom && r.w.thr[0].postPth == w.thr[0].postPth &&
            Get(r.w, 0, live) == FreshInst(|w.hist|).(attached := true) &&
            forall j | 0 <= j < live :: Get(r.w, 0, j) == Get(w, 0, j)
  {
  }

  lemma Started(w: World, live: nat, attached: nat, custom: bool)
    requires Plain(w, live, attached) && live < MAX_COOP_RECUR_DEPTH
    ensures var r := Exec(w, None, Start(0, custom));
            r.Ok? && Plain(r.w, live + 1, attached + 1) && r.w.thr[0].custom == custom && r.w.thr[0].postPth == w.thr[0].postPth &&
            Get(r.w, 0, live) == FreshInst(|w.hist|).(attached := true) &&
            forall j | 0 <= j < live :: Get(r.w, 0, j) == Get(w, 0, j)
  {
    hide StartThread, ThreadRun, ExecActs, UnsafeShutdown, CoopthDone;
    StartedThread(w, live, attached, custom);
    assert Exec(w, None, Start(0, custom)) == StartThread(w, 0, custom);
    hide Exec;
  }

  const End := Burst([], Finish)

  /** A custom thread is started, run and joined: its handlers are now to be called. */
  lemma CustomOnce(w: World)
    requires Plain(w, 0, 0)
    ensures var r := ExecActs(w, None, [Start(0, true), RunAttached(0, [End]), RunAttached(0, [])]);
            if w.thr[0].postPth.Some? then r == Halt(PostPending)
            else r.Ok? && Plain(r.w, 0, 0) && r.w.thr[0].postPth.Some?
  {
    hide Exec, ExecActs, ThreadRun, SwitchStep;
    var rest := [RunAttached(0, [End]), RunAttached(0, [])];
    assert [Start(0, true), RunAttached(0, [End]), RunAttached(0, [])] == [Start(0, true)] + rest;
    Then(w, Start(0, true), rest);
    Started(w, 0, 0, true);
    var w1 := Exec(w, None, Start(0, true)).w;
    assert rest == [RunAttached(0, [End])] + [RunAttached(0, [])];
    Then(w1, RunAttached(0, [End]), [RunAttached(0, [])]);
    BurstRun(w1, 0, Finish);
    var w2 := Put(w1, 0, 0, Get(w1, 0, 0).(started := true, st := Switch(DONE)));
    Joined(w2);
    JoinRun(w2, 0);
    Only(w2, RunAttached(0, []));
  }

  lemma Only(w: World, a: Act)
    ensures ExecActs(w, None, [a]) == Exec(w, None, a)
  {
    hide Exec;
    assert [a] == [a] + [];
    Then(w, a, []);
  }

  /** What joining the finished instance of a custom thread comes to. */
  lemma Joined(w: World)
    requires Plain(w, 1, 1) && w.thr[0].custom
    requires Get(w, 0, 0).st == Switch(DONE) && Get(w, 0, 0).attached && !Get(w, 0, 0).cancelled && !Get(w, 0, 0).left
    ensures var r := SwitchStep(w, 0, 0);
            if w.thr[0].postPth.Some? then r == Halt(PostPending)
            else r.Ok? && Plain(r.w, 0, 0) && r.w.thr[0].postPth.Some? && Get(r.w, 0, 0).st.Free?
  {
    var a := Put(w, 0, 0, Get(w, 0, 0).(atomic := false));
    var b := Retf(a, 0, 0).w;
    assert multiset(b.active) == multiset{0};
    assert Without(b.active, 0) == [];
  }

  /** A custom thread started, run and joined twice without coopth_call_post_internal in between. */
  lemma CustomTwice()
    ensures ExecActs(InitWorld(1), None, [Start(0, true), RunAttached(0, [End]), RunAttached(0, []),
                                          Start(0, true), RunAttached(0, [End]), RunAttached(0, [])]) == Halt(PostPending)
  {
    var w := InitWorld(1);
    var once := [Start(0, true), RunAttached(0, [End]), RunAttached(0, [])];
    var twice := [Start(0, true), RunAttached(0, [End]), RunAttached(0, []),
                  Start(0, true), RunAttached(0, [End]), RunAttached(0, [])];
    assert twice == once + once;
    CustomOnce(w);
    After(w, once, once);
    hide Exec, ExecActs;
    CustomOnce(ExecActs(w, None, once).w);
  }

  lemma {:induction false} After(w: World, a: seq<Act>, b: seq<Act>)
    ensures ExecActs(w, None, a + b) ==
            if ExecActs(w, None, a).Ok? then ExecActs(ExecActs(w, None, a).w, None, b) else ExecActs(w, None, a)
    decreases |a|
  {
    if a == [] {
      assert a + b == b;
    } else {
      assert (a + b)[1..] == a[1..] + b;
      hide Exec;
      if Exec(w, None, a[0]).Ok? { After(Exec(w, None, a[0]).w, a[1..], b); }
    }
  }

  /** Start a thread, let it detach, and start it again: an attached instance above a detached one. */
  const Buried: seq<Act> := [Start(0, false), RunAttached(0, [Burst([], Detach)]), RunAttached(0, []), Start(0, false)]

  lemma BuriedState()
    ensures var r := ExecActs(InitWorld(1), None, Buried);
            r.Ok? && Plain(r.w, 2, 1) && !Get(r.w, 0, 0).attached && Get(r.w, 0, 1).attached
  {
    hide Exec, ExecActs, ThreadRun, SwitchStep;
    var w := InitWorld(1);
    var detach := RunAttached(0, [Burst([], Detach)]);
    assert Buried == [Start(0, false)] + [detach, RunAttached(0, []), Start(0, false)];
    Then(w, Start(0, false), [detach, RunAttached(0, []), Start(0, false)]);
    Started(w, 0, 0, false);
    var w1 := Exec(w, None, Start(0, false)).w;
    assert [detach, RunAttached(0, []), Start(0, false)] == [detach] + [RunAttached(0, []), Start(0, false)];
    Then(w1, detach, [RunAttached(0, []), Start(0, false)]);
    BurstRun(w1, 0, Detach);
    Detached(Put(w1, 0, 0, Get(w1, 0, 0).(started := true, st := Switch(DETACH))));
  }

  lemma Detached(w: World)
    requires Plain(w, 1, 1) && Get(w, 0, 0).st == Switch(DETACH) && Get(w, 0, 0).attached
    ensures var r := ExecActs(w, None, [RunAttached(0, []), Start(0, false)]);
            r.Ok? && Plain(r.w, 2, 1) && !Get(r.w, 0, 0).attached && Get(r.w, 0, 1).attached
  {
    hide Exec, ExecActs, ThreadRun;
    var w3 := SwitchStep(w, 0, 0).w;
    assert Get(w3, 0, 0).st == Switch(SCHED) && !Get(w3, 0, 0).attached && !Get(w3, 0, 0).atomic && Plain(w3, 1, 0);
    hide SwitchStep;
    JoinRun(w, 0);
    assert [RunAttached(0, []), Start(0, false)] == [RunAttached(0, [])] + [Start(0, false)];
    Then(w, RunAttached(0, []), [Start(0, false)]);
    Started(w3, 1, 0, false);
    Only(w3, Start(0, false));
  }

  /** coopth_done, called in that state by the main program, fails its last assertion whatever bodies do. */
  lemma DoneFails(bs: seq<Burst>)
    ensures var r := ExecActs(InitWorld(1), None, Buried);
            r.Ok? && !DetachedOnTop(r.w) && CoopthDone(r.w, None, bs) == Halt(Fatal)
  {
    BuriedState();
    hide ExecActs;
    var w := ExecActs(InitWorld(1), None, Buried).w;
    assert Get(w, 0, 1).attached && !Get(w, 0, 0).attached;
    assert FindTop(w, false, None, 1) == None;
    assert FindTop(w, false, None, 0) == None;
  }
}
