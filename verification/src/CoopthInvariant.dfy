/**
 The scheduler's invariant and its preservation by every operation, under any script.

 The redundant counters are tied to cardinalities of sets of slots, active_tids to the
 threads with live instances, the running counters to the open frames, and the log of post
 handler calls to what became of each instance.
 */
module CoopthInvariant {
  import opened Basics
  import opened CoopthModel

  // ---------------------------------------------------------------- the invariant

  datatype Kind = KLive | KAttached | KLeft | KClass(c: nat)

  predicate Is(k: Kind, cls: nat, x: Inst) {
    match k
    case KLive => !x.st.Free?
    case KAttached => x.attached
    case KLeft => !x.st.Free? && x.left
    case KClass(c) => x.attached && cls == c
  }

  ghost function Slots(n: nat): set<(nat, nat)> {
    set t, i | 0 <= t < n && 0 <= i < MAX_COOP_RECUR_DEPTH :: (t, i)
  }

  predicate IsAt(thr: seq<Thr>, k: Kind, p: (nat, nat)) {
    p.0 < |thr| && p.1 < |thr[p.0].pth| && Is(k, thr[p.0].cls, thr[p.0].pth[p.1])
  }

  /** The slots of a given kind. */
  ghost function Where(thr: seq<Thr>, k: Kind): set<(nat, nat)> {
    set p | p in Slots(|thr|) && IsAt(thr, k, p)
  }

  predicate SlotOk(x: Inst, live: bool) {
    (live <==> !x.st.Free?) &&
    (x.st.Free? ==> !x.attached && !x.busy) &&
    (live && x.left ==> !x.attached && x.st.Running?)
  }

  predicate ThrOk(th: Thr) {
    |th.pth| == MAX_COOP_RECUR_DEPTH && th.cur <= MAX_COOP_RECUR_DEPTH && th.cls < CTCL_MAX &&
    (forall i | 0 <= i < |th.pth| :: SlotOk(th.pth[i], i < th.cur)) &&
    (!th.everCustom ==> !th.custom && th.postPth.None?)
  }

  predicate Shape(w: World) {
    |w.cs| == CTCL_MAX && forall t | 0 <= t < |w.thr| :: ThrOk(w.thr[t])
  }

  ghost predicate Counts(w: World) {
    w.total == |Where(w.thr, KLive)| &&
    w.joinable == |Where(w.thr, KAttached)| &&
    w.threadsLeft == |Where(w.thr, KLeft)| &&
    |w.cs| == CTCL_MAX &&
    w.cs[0] == |Where(w.thr, KClass(0))| &&
    w.cs[1] == |Where(w.thr, KClass(1))|
  }

  predicate NoDup(s: seq<nat>) { forall j, k | 0 <= j < k < |s| :: s[j] != s[k] }

  ghost predicate ActiveOk(w: World) {
    |w.active| <= MAX_ACT_THRS && NoDup(w.active) &&
    forall t :: t in w.active <==> 0 <= t < |w.thr| && w.thr[t].cur > 0
  }

  function CountAttached(fs: seq<Frame>): nat {
    if fs == [] then 0 else CountAttached(fs[..|fs| - 1]) + (if fs[|fs| - 1].attached then 1 else 0)
  }

  function CountLeft(fs: seq<Frame>): nat {
    if fs == [] then 0 else CountLeft(fs[..|fs| - 1]) + (if fs[|fs| - 1].left then 1 else 0)
  }

  /** Frames that were entered neither attached nor left. */
  function CountDetached(fs: seq<Frame>): nat {
    if fs == [] then 0
    else CountDetached(fs[..|fs| - 1]) + (if fs[|fs| - 1].attached || fs[|fs| - 1].left then 0 else 1)
  }

  predicate FramesOk(w: World) {
    w.threadRunning == |w.frames| &&
    w.joinableRunning == CountAttached(w.frames) &&
    w.leftRunning == CountLeft(w.frames) &&
    forall k | 0 <= k < |w.frames| :: !(w.frames[k].attached && w.frames[k].left)
  }

  /** The handler calls made on behalf of instance `u`, in order. */
  function Calls(log: seq<Event>, u: nat): seq<Event> {
    if log == [] then []
    else Calls(log[..|log| - 1], u) + (if log[|log| - 1].uid == u then [log[|log| - 1]] else [])
  }

  /** The calls instance `u` is owed: all of them exactly once, or none at all. */
  function Owed(u: nat, r: Record): seq<Event> {
    match r.fate
    case Live => []
    case Left(p) => PostEvents(u, p, r.added)
    case Gone(cancelled, left, p) => if left || !cancelled then PostEvents(u, p, r.added) else []
  }

  predicate InstRecord(w: World, t: nat, i: nat)
    requires t < |w.thr| && i < |w.thr[t].pth|
  {
    var x := Get(w, t, i);
    !x.st.Free? ==>
      x.uid < |w.hist| && w.hist[x.uid].tid == t && w.hist[x.uid].slot == i &&
      (if x.left then w.hist[x.uid].fate.Left?
       else w.hist[x.uid].fate.Live? && w.hist[x.uid].added == x.posts)
  }

  predicate LogOk(w: World, u: nat)
    requires u < |w.hist|
  {
    w.hist[u].tid < |w.thr| &&
    (!w.thr[w.hist[u].tid].everCustom ==> Calls(w.log, u) == Owed(u, w.hist[u]))
  }

  /** A deferred handler call of a custom thread is for a slot that was used by that thread. */
  predicate DeferredOk(w: World, t: nat)
    requires t < |w.thr|
  {
    w.thr[t].postPth.Some? ==>
      var i := w.thr[t].postPth.value;
      i < |w.thr[t].pth| && Get(w, t, i).uid < |w.hist| && w.hist[Get(w, t, i).uid].tid == t
  }

  ghost predicate PostsOk(w: World) {
    (forall t, i | 0 <= t < |w.thr| && 0 <= i < |w.thr[t].pth| :: InstRecord(w, t, i)) &&
    (forall u | 0 <= u < |w.hist| :: LogOk(w, u)) &&
    (forall t | 0 <= t < |w.thr| :: DeferredOk(w, t)) &&
    (forall k | 0 <= k < |w.log| :: w.log[k].uid < |w.hist|)
  }

  ghost predicate Inv(w: World) {
    Shape(w) && Counts(w) && ActiveOk(w) && FramesOk(w) && PostsOk(w)
  }

  /** No atomic switch pending, and a finished body only waits to be joined. */
  predicate Tidy(x: Inst) {
    !x.atomic && (x.st == Switch(DONE) ==> x.attached && !x.busy) && (x.st == Switch(DETACH) ==> x.attached)
  }

  predicate Calm(w: World) {
    forall u, j | 0 <= u < |w.thr| && 0 <= j < |w.thr[u].pth| :: Tidy(Get(w, u, j))
  }

  /** As Calm, except perhaps for slot (t, i), which is being worked on. */
  predicate CalmBut(w: World, t: nat, i: nat) {
    forall u, j | 0 <= u < |w.thr| && 0 <= j < |w.thr[u].pth| && !(u == t && j == i) :: Tidy(Get(w, u, j))
  }

  predicate SameBusy(x: Inst, y: Inst) {
    x.busy == y.busy &&
    (x.busy ==> x.uid == y.uid && (x.left ==> y.left) && (x.st.Running? ==> y.st.Running?))
  }

  /** What code running inside a burst cannot change: open frames and the busy instances. */
  predicate Stable(w: World, w': World) {
    |w.thr| == |w'.thr| && w.frames == w'.frames &&
    forall t, i | 0 <= t < |w.thr| && 0 <= i < |w.thr[t].pth| && i < |w'.thr[t].pth| :: SameBusy(Get(w, t, i), Get(w', t, i))
  }

  predicate LiveAt(w: World, t: nat, i: nat) {
    Valid(w, t, i) && i < w.thr[t].cur
  }

  // ---------------------------------------------------------------- counting

  lemma Remainder(a: set<(nat, nat)>, b: set<(nat, nat)>, p: (nat, nat))
    requires forall q | q != p :: q in a <==> q in b
    ensures |b| == |a| + Bit(p in b) - Bit(p in a)
  {
    var c := a - {p};
    assert c == b - {p};
    assert a == if p in a then c + {p} else c;
    assert b == if p in b then c + {p} else c;
  }

  /** Replacing one slot changes the size of each kind by the difference it makes itself. */
  lemma PutWhere(thr: seq<Thr>, t: nat, i: nat, x: Inst, th: Thr, k: Kind)
    requires t < |thr| && i < |thr[t].pth| == MAX_COOP_RECUR_DEPTH
    requires th.pth == thr[t].pth[i := x] && th.cls == thr[t].cls
    ensures |Where(thr[t := th], k)| ==
            |Where(thr, k)| + Bit(Is(k, th.cls, x)) - Bit(Is(k, th.cls, thr[t].pth[i]))
  {
    var thr', p := thr[t := th], (t, i);
    var a, b := Where(thr, k), Where(thr', k);
    assert p in Slots(|thr|);
    forall q | q in Slots(|thr|) && q != p ensures q in a <==> q in b {
      assert q.0 != t ==> thr'[q.0] == thr[q.0];
      assert q.0 == t ==> q.1 != i;
    }
    Remainder(a, b, p);
  }

  /** Counting looks at the slots and the classes only. */
  lemma SameCounts(w: World, w': World)
    requires Counts(w) && |w'.thr| == |w.thr|
    requires forall t | 0 <= t < |w.thr| :: w'.thr[t].pth == w.thr[t].pth && w'.thr[t].cls == w.thr[t].cls
    requires w'.total == w.total && w'.joinable == w.joinable && w'.threadsLeft == w.threadsLeft && w'.cs == w.cs
    ensures Counts(w')
  {
    forall k: Kind ensures Where(w'.thr, k) == Where(w.thr, k) {
      assert forall p | p in Slots(|w.thr|) :: IsAt(w'.thr, k, p) == IsAt(w.thr, k, p);
    }
  }

  /** A member of each kind makes its counter positive. */
  lemma MemberCounts(thr: seq<Thr>, t: nat, i: nat, k: Kind)
    requires t < |thr| && i < |thr[t].pth| == MAX_COOP_RECUR_DEPTH && Is(k, thr[t].cls, thr[t].pth[i])
    ensures |Where(thr, k)| > 0
  {
    assert (t, i) in Where(thr, k);
  }

  // ---------------------------------------------------------------- in-place updates of one slot

  /** The changes to the counters that go with replacing a slot's contents by `x`. */
  predicate Adjusted(w: World, w': World, t: nat, i: nat, x: Inst)
    requires Valid(w, t, i)
  {
    var y, c := Get(w, t, i), w.thr[t].cls;
    w'.total == w.total + Bit(!x.st.Free?) - Bit(!y.st.Free?) &&
    w'.joinable == w.joinable + Bit(x.attached) - Bit(y.attached) &&
    w'.threadsLeft == w.threadsLeft + Bit(!x.st.Free? && x.left) - Bit(!y.st.Free? && y.left) &&
    w'.cs == w.cs[c := w.cs[c] + Bit(x.attached) - Bit(y.attached)]
  }

  lemma PutCounts(w: World, w': World, t: nat, i: nat, x: Inst)
    requires Shape(w) && Counts(w) && Valid(w, t, i)
    requires |w'.thr| == |w.thr| && w'.thr == w.thr[t := w'.thr[t]]
    requires w'.thr[t].pth == w.thr[t].pth[i := x] && w'.thr[t].cls == w.thr[t].cls
    requires Adjusted(w, w', t, i, x)
    ensures Counts(w')
  {
    hide Where;
    var th := w'.thr[t];
    PutWhere(w.thr, t, i, x, th, KLive);
    PutWhere(w.thr, t, i, x, th, KAttached);
    PutWhere(w.thr, t, i, x, th, KLeft);
    PutWhere(w.thr, t, i, x, th, KClass(0));
    PutWhere(w.thr, t, i, x, th, KClass(1));
  }

  predicate SameHistory(w: World, w': World) {
    w'.active == w.active && w'.frames == w.frames && w'.log == w.log && w'.hist == w.hist &&
    w'.threadRunning == w.threadRunning && w'.joinableRunning == w.joinableRunning &&
    w'.leftRunning == w.leftRunning
  }

  /** Any update of a live slot that keeps it live, not newly left, with its handlers. */
  lemma PutInv(w: World, w': World, t: nat, i: nat, x: Inst)
    requires Inv(w) && LiveAt(w, t, i)
    requires w'.thr == Put(w, t, i, x).thr && Adjusted(w, w', t, i, x) && SameHistory(w, w')
    requires SlotOk(x, true) && x.uid == Get(w, t, i).uid && x.left == Get(w, t, i).left
    requires x.posts == Get(w, t, i).posts
    ensures Inv(w')
  {
    hide Shape, Counts, ActiveOk, PostsOk;
    assert Valid(w, t, i) && Shape(w) && Counts(w);
    PutCounts(w, w', t, i, x);
    PutShape(w, w', t, i, x);
    PutPosts(w, w', t, i, x);
  }

  lemma PutShape(w: World, w': World, t: nat, i: nat, x: Inst)
    requires Inv(w) && LiveAt(w, t, i) && w'.thr == Put(w, t, i, x).thr && SlotOk(x, true)
    requires |w'.cs| == |w.cs| && w'.active == w.active
    ensures Shape(w') && ActiveOk(w')
  {
  }

  lemma PutPosts(w: World, w': World, t: nat, i: nat, x: Inst)
    requires Inv(w) && LiveAt(w, t, i) && w'.thr == Put(w, t, i, x).thr && w'.hist == w.hist && w'.log == w.log
    requires x.uid == Get(w, t, i).uid && x.left == Get(w, t, i).left && !x.st.Free?
    requires !x.left ==> x.posts == Get(w, t, i).posts
    ensures PostsOk(w')
  {
    hide Counts, ActiveOk, FramesOk;
    LiveFacts(w, t, i);
    forall u, j | 0 <= u < |w'.thr| && 0 <= j < |w'.thr[u].pth| ensures InstRecord(w', u, j) {
      assert InstRecord(w, u, j);
    }
    forall u | 0 <= u < |w'.hist| ensures LogOk(w', u) { assert LogOk(w, u); }
    forall u | 0 <= u < |w'.thr| ensures DeferredOk(w', u) { assert DeferredOk(w, u); }
  }

  lemma PutStable(w: World, w': World, t: nat, i: nat, x: Inst)
    requires CalmBut(w, t, i) && Valid(w, t, i) && w'.thr == Put(w, t, i, x).thr && w'.frames == w.frames
    ensures CalmBut(w', t, i)
    ensures Tidy(x) ==> Calm(w')
    ensures SameBusy(Get(w, t, i), x) ==> Stable(w, w')
  {
    forall u, j | 0 <= u < |w'.thr| && 0 <= j < |w'.thr[u].pth| && !(u == t && j == i)
      ensures Get(w', u, j) == Get(w, u, j) && Tidy(Get(w', u, j))
    {
      assert Tidy(Get(w, u, j));
    }
  }

  lemma StableTrans(a: World, b: World, c: World)
    requires Stable(a, b) && Stable(b, c) && Inv(a) && Inv(b) && Inv(c)
    ensures Stable(a, c)
  {
  }

  lemma {:induction false} Subset(a: set<(nat, nat)>, b: set<(nat, nat)>)
    requires a <= b
    ensures |a| <= |b| && (|a| == |b| ==> a == b)
  {
    assert b == a + (b - a);
  }

  lemma LiveWhere(w: World, p: (nat, nat))
    requires Inv(w)
    ensures p in Where(w.thr, KLive) <==> p.0 < |w.thr| && p.1 < w.thr[p.0].cur
    ensures p in Where(w.thr, KAttached) <==>
            p.0 < |w.thr| && p.1 < w.thr[p.0].cur && p.1 < |w.thr[p.0].pth| && Get(w, p.0, p.1).attached
  {
  }

  lemma CountFacts(w: World)
    requires Inv(w)
    ensures w.total == |Where(w.thr, KLive)| && w.joinable == |Where(w.thr, KAttached)|
  {
  }

  /** What the invariant says about one slot. */
  lemma SlotFacts(w: World, t: nat, i: nat)
    requires Inv(w) && t < |w.thr| && i < MAX_COOP_RECUR_DEPTH
    ensures Valid(w, t, i) && |w.thr[t].pth| == MAX_COOP_RECUR_DEPTH && w.thr[t].cur <= MAX_COOP_RECUR_DEPTH
    ensures SlotOk(Get(w, t, i), i < w.thr[t].cur) && ThrOk(w.thr[t])
  {
  }

  lemma LiveFacts(w: World, t: nat, i: nat)
    requires Inv(w) && LiveAt(w, t, i)
    ensures SlotOk(Get(w, t, i), true) && ThrOk(w.thr[t])
    ensures InstRecord(w, t, i) && Get(w, t, i).uid < |w.hist| && w.hist[Get(w, t, i).uid].tid == t
  {
  }

  lemma TidyAt(w: World, t: nat, i: nat)
    requires Calm(w) && t < |w.thr| && i < |w.thr[t].pth|
    ensures Tidy(Get(w, t, i)) && CalmBut(w, t, i)
  {
  }

  /** Two stable worlds have the same slots to speak of. */
  lemma StableAt(w: World, w': World, t: nat, i: nat)
    requires Stable(w, w') && Inv(w) && Inv(w') && t < |w.thr| && i < |w.thr[t].pth|
    ensures Valid(w', t, i) && SameBusy(Get(w, t, i), Get(w', t, i))
  {
  }

  // ---------------------------------------------------------------- attach and detach

  lemma RetfInv(w: World, t: nat, i: nat)
    requires Inv(w) && LiveAt(w, t, i) && Get(w, t, i).attached
    ensures Retf(w, t, i).Ok? && Inv(Retf(w, t, i).w)
  {
    hide ActiveOk, FramesOk, PostsOk;
    LiveFacts(w, t, i);
    MemberCounts(w.thr, t, i, KAttached);
    MemberCounts(w.thr, t, i, KClass(w.thr[t].cls));
    PutInv(w, Retf(w, t, i).w, t, i, Get(w, t, i).(attached := false));
  }

  lemma CallfInv(w: World, t: nat, i: nat)
    requires Inv(w) && LiveAt(w, t, i) && !Get(w, t, i).attached && !Get(w, t, i).left
    ensures Callf(w, t, i).Ok? && Inv(Callf(w, t, i).w)
  {
    hide Counts, ActiveOk, FramesOk, PostsOk;
    LiveFacts(w, t, i);
    PutInv(w, Callf(w, t, i).w, t, i, Get(w, t, i).(attached := true));
  }

  // ---------------------------------------------------------------- the handler log

  lemma {:induction false} CallsAppend(log: seq<Event>, evs: seq<Event>, u: nat)
    ensures Calls(log + evs, u) == Calls(log, u) + Calls(evs, u)
  {
    if evs == [] {
      assert log + evs == log;
    } else {
      CallsAppend(log, evs[..|evs| - 1], u);
      assert (log + evs)[..|log + evs| - 1] == log + evs[..|evs| - 1];
    }
  }

  lemma {:induction false} CallsOfOne(evs: seq<Event>, u: nat, v: nat)
    requires forall k | 0 <= k < |evs| :: evs[k].uid == u
    ensures Calls(evs, v) == if u == v then evs else []
  {
    if evs != [] {
      CallsOfOne(evs[..|evs| - 1], u, v);
      assert evs == evs[..|evs| - 1] + [evs[|evs| - 1]];
    }
  }

  /** Logging calls of instance `u` touches no other account, and settles that of `u`. */
  lemma LogStep(w: World, w': World, u: nat, r: Record, evs: seq<Event>)
    requires PostsOk(w) && u < |w.hist|
    requires w'.hist == w.hist[u := r] && w'.log == w.log + evs && r.tid == w.hist[u].tid
    requires forall k | 0 <= k < |evs| :: evs[k].uid == u
    requires |w'.thr| == |w.thr| && forall t | 0 <= t < |w.thr| :: w'.thr[t].everCustom == w.thr[t].everCustom
    requires w.hist[u].tid < |w.thr| && !w.thr[w.hist[u].tid].everCustom ==> Owed(u, r) == Owed(u, w.hist[u]) + evs
    ensures forall v | 0 <= v < |w'.hist| :: LogOk(w', v)
    ensures forall k | 0 <= k < |w'.log| :: w'.log[k].uid < |w'.hist|
  {
    forall v | 0 <= v < |w'.hist| ensures LogOk(w', v) {
      assert LogOk(w, v);
      CallsAppend(w.log, evs, v);
      CallsOfOne(evs, u, v);
    }
  }

  // ---------------------------------------------------------------- deletion

  lemma {:induction false} WithoutMembers(s: seq<nat>, t: nat)
    ensures forall x :: x in Without(s, t) <==> x in s && x != t
    ensures |Without(s, t)| <= |s|
    ensures NoDup(s) ==> NoDup(Without(s, t))
  {
    if s != [] {
      WithoutMembers(s[1..], t);
      if NoDup(s) {
        assert NoDup(s[1..]) by {
          assert forall j, k | 0 <= j < k < |s[1..]| :: s[1..][j] == s[j + 1] && s[1..][k] == s[k + 1];
        }
        assert s[0] !in s[1..];
      }
    }
  }

  lemma {:induction false} NoDupCount(s: seq<nat>, t: nat)
    requires NoDup(s)
    ensures multiset(s)[t] <= 1
  {
    if s != [] {
      assert NoDup(s[1..]) by {
        assert forall j, k | 0 <= j < k < |s[1..]| :: s[1..][j] == s[j + 1] && s[1..][k] == s[k + 1];
      }
      NoDupCount(s[1..], t);
      assert s == [s[0]] + s[1..];
      assert s[0] !in s[1..];
    }
  }

  /** Freeing the newest slot: active_tids. */
  lemma FreeSlotActive(w: World, t: nat, i: nat)
    requires Inv(w) && LiveAt(w, t, i) && i == w.thr[t].cur - 1
    ensures FreeSlot(w, t, i).Ok? && ActiveOk(FreeSlot(w, t, i).w)
  {
    hide Counts, Shape, FramesOk, PostsOk;
    NoDupCount(w.active, t);
    WithoutMembers(w.active, t);
  }

  /** Freeing the newest slot: everything but the handler accounts. */
  lemma FreeSlotInv(w: World, t: nat, i: nat)
    requires Inv(w) && LiveAt(w, t, i) && i == w.thr[t].cur - 1
    requires !Get(w, t, i).attached && !Get(w, t, i).busy
    ensures FreeSlot(w, t, i).Ok?
    ensures var w' := FreeSlot(w, t, i).w; Shape(w') && Counts(w') && ActiveOk(w') && FramesOk(w')
  {
    hide ActiveOk, PostsOk, Counts;
    FreeSlotActive(w, t, i);
    var w' := FreeSlot(w, t, i).w;
    PutCounts(w, w', t, i, Get(w, t, i).(st := Free));
    assert ThrOk(w'.thr[t]);
  }

  function DelCalls(w: World, t: nat, i: nat): seq<Event>
    requires Valid(w, t, i)
  {
    var x := Get(w, t, i);
    if x.cancelled || x.left || w.thr[t].custom then [] else PostEvents(x.uid, w.thr[t].post, x.posts)
  }

  function DelRecord(w: World, t: nat, i: nat): Record
    requires Valid(w, t, i) && Get(w, t, i).uid < |w.hist|
  {
    var x := Get(w, t, i);
    w.hist[x.uid].(fate := Gone(x.cancelled, x.left, if x.left then LeftPermanent(w, x.uid) else w.thr[t].post))
  }

  /** What do_del_thread does, field by field. */
  lemma DelFields(w: World, t: nat, i: nat)
    requires Valid(w, t, i) && Get(w, t, i).uid < |w.hist| && DelThread(w, t, i).Ok?
    ensures i == w.thr[t].cur - 1 && FreeSlot(w, t, i).Ok?
    ensures var w1, w' := FreeSlot(w, t, i).w, DelThread(w, t, i).w;
            |w'.thr| == |w.thr| == |w1.thr| && w'.thr == w.thr[t := w'.thr[t]] &&
            w1.thr == w.thr[t := w1.thr[t]] &&
            w1.thr[t] == w.thr[t].(cur := i, pth := w.thr[t].pth[i := Get(w, t, i).(st := Free)]) &&
            w'.thr[t] == w1.thr[t].(postPth := w'.thr[t].postPth) &&
            (w'.thr[t].postPth == w.thr[t].postPth || (w.thr[t].custom && w'.thr[t].postPth == Some(i))) &&
            w' == w1.(thr := w'.thr, hist := w.hist[Get(w, t, i).uid := DelRecord(w, t, i)],
                      log := w.log + DelCalls(w, t, i)) &&
            w1.frames == w.frames
  {
    var w1 := FreeSlot(w, t, i).w;
    assert w1.hist == w.hist && w1.log == w.log;
  }

  lemma DelFacts(w: World, t: nat, i: nat)
    requires Inv(w) && LiveAt(w, t, i) && DelThread(w, t, i).Ok?
    requires !Get(w, t, i).attached && !Get(w, t, i).busy
    ensures Get(w, t, i).uid < |w.hist| && w.hist[Get(w, t, i).uid].tid == t
    ensures var w' := DelThread(w, t, i).w; Shape(w') && Counts(w') && ActiveOk(w') && FramesOk(w')
  {
    hide PostsOk, Counts, DelThread, FreeSlot;
    LiveFacts(w, t, i);
    DelFields(w, t, i);
    FreeSlotInv(w, t, i);
    SameCounts(FreeSlot(w, t, i).w, DelThread(w, t, i).w);
    assert ThrOk(FreeSlot(w, t, i).w.thr[t]);
  }

  /** Deletion settles the account of the instance. */
  lemma DelOwed(w: World, t: nat, i: nat)
    requires Inv(w) && LiveAt(w, t, i) && Get(w, t, i).uid < |w.hist|
    ensures forall k | 0 <= k < |DelCalls(w, t, i)| :: DelCalls(w, t, i)[k].uid == Get(w, t, i).uid
    ensures var u := Get(w, t, i).uid;
            !w.thr[t].everCustom ==> Owed(u, DelRecord(w, t, i)) == Owed(u, w.hist[u]) + DelCalls(w, t, i)
  {
    hide Counts, ActiveOk, FramesOk;
    LiveFacts(w, t, i);
  }

  lemma DelPosts(w: World, t: nat, i: nat)
    requires Inv(w) && LiveAt(w, t, i) && DelThread(w, t, i).Ok?
    requires !Get(w, t, i).attached && !Get(w, t, i).busy
    ensures PostsOk(DelThread(w, t, i).w)
  {
    hide Shape, Counts, ActiveOk, FramesOk, DelThread, FreeSlot, DelCalls;
    LiveFacts(w, t, i);
    DelOwed(w, t, i);
    DelFacts(w, t, i);
    DelFields(w, t, i);
    var x, w' := Get(w, t, i), DelThread(w, t, i).w;
    assert InstRecord(w, t, i);
    LogStep(w, w', x.uid, DelRecord(w, t, i), DelCalls(w, t, i));
    forall u, j | 0 <= u < |w'.thr| && 0 <= j < |w'.thr[u].pth| ensures InstRecord(w', u, j) {
      assert InstRecord(w, u, j);
      assert !(u == t && j == i) ==> Get(w', u, j) == Get(w, u, j);
    }
    forall u | 0 <= u < |w'.thr| ensures DeferredOk(w', u) { assert DeferredOk(w, u); }
  }

  lemma DelInv(w: World, t: nat, i: nat)
    requires Inv(w) && LiveAt(w, t, i) && CalmBut(w, t, i)
    requires !Get(w, t, i).attached && !Get(w, t, i).busy && !Get(w, t, i).atomic
    ensures Good(w, DelThread(w, t, i))
    ensures DelThread(w, t, i).Ok? ==> Get(DelThread(w, t, i).w, t, i).st.Free?
  {
    hide Shape, Counts, ActiveOk, FramesOk, PostsOk, DelThread, FreeSlot;
    LiveFacts(w, t, i);
    DelHalts(w, t, i);
    if DelThread(w, t, i).Ok? {
      DelFacts(w, t, i);
      DelFields(w, t, i);
      DelPosts(w, t, i);
      var w' := DelThread(w, t, i).w;
      forall u, j | 0 <= u < |w'.thr| && 0 <= j < |w'.thr[u].pth|
        ensures Tidy(Get(w', u, j)) && SameBusy(Get(w, u, j), Get(w', u, j))
      {
        assert !(u == t && j == i) ==> Tidy(Get(w, u, j)) && Get(w', u, j) == Get(w, u, j);
      }
    }
  }

  lemma DelHalts(w: World, t: nat, i: nat)
    requires Inv(w) && LiveAt(w, t, i) && !Get(w, t, i).attached && !Get(w, t, i).busy
    ensures DelThread(w, t, i).Halt? ==> !DelThread(w, t, i).why.Internal?
  {
    hide Inv;
    if i == w.thr[t].cur - 1 {
      FreeSlotInv(w, t, i);
    }
  }

  // ---------------------------------------------------------------- start

  lemma DoStartInv(w: World, t: nat, custom: bool)
    requires Inv(w) && Calm(w) && t < |w.thr| && DoStart(w, t, custom).Ok?
    ensures var w' := DoStart(w, t, custom).w;
            Inv(w') && Calm(w') && Stable(w, w') && LiveAt(w', t, w.thr[t].cur) &&
            Get(w', t, w.thr[t].cur) == FreshInst(|w.hist|)
  {
    hide Counts, PostsOk, ActiveOk;
    var w', i := DoStart(w, t, custom).w, w.thr[t].cur;
    SlotFacts(w, t, i);
    PutCounts(w, w', t, i, FreshInst(|w.hist|));
    StartPosts(w, t, custom);
    StartActive(w, t, custom);
    assert ThrOk(w'.thr[t]);
    forall u, j | 0 <= u < |w'.thr| && 0 <= j < |w'.thr[u].pth|
      ensures Tidy(Get(w', u, j)) && SameBusy(Get(w, u, j), Get(w', u, j))
    {
      assert Tidy(Get(w, u, j));
    }
  }

  lemma StartActive(w: World, t: nat, custom: bool)
    requires Inv(w) && t < |w.thr| && DoStart(w, t, custom).Ok?
    ensures ActiveOk(DoStart(w, t, custom).w)
  {
    hide Shape, Counts, PostsOk, FramesOk;
  }

  lemma StartPosts(w: World, t: nat, custom: bool)
    requires Inv(w) && t < |w.thr| && DoStart(w, t, custom).Ok?
    ensures PostsOk(DoStart(w, t, custom).w)
  {
    hide Shape, Counts, ActiveOk, FramesOk;
    var w' := DoStart(w, t, custom).w;
    forall u, j | 0 <= u < |w'.thr| && 0 <= j < |w'.thr[u].pth| ensures InstRecord(w', u, j) {
      assert InstRecord(w, u, j);
    }
    forall v | 0 <= v < |w'.hist| ensures LogOk(w', v) {
      if v < |w.hist| {
        assert LogOk(w, v);
      } else {
        NoCalls(w.log, v);
      }
    }
    forall u | 0 <= u < |w'.thr| ensures DeferredOk(w', u) { assert DeferredOk(w, u); }
  }

  lemma {:induction false} NoCalls(log: seq<Event>, u: nat)
    requires forall k | 0 <= k < |log| :: log[k].uid < u
    ensures Calls(log, u) == []
  {
    if log != [] {
      NoCalls(log[..|log| - 1], u);
    }
  }

  lemma StartInv(w: World, t: nat, custom: bool)
    requires Inv(w) && Calm(w)
    ensures Good(w, StartThread(w, t, custom))
  {
    hide Inv, Calm, Stable, Callf, DoStart;
    if t < |w.thr| && DoStart(w, t, custom).Ok? {
      DoStartInv(w, t, custom);
      var w1, i := DoStart(w, t, custom).w, w.thr[t].cur;
      AttachGood(w1, t, i);
      StableTrans(w, w1, Callf(w1, t, i).w);
    }
  }

  /** A step's outcome is good: no internal assertion fires, and the invariant is kept. */
  ghost predicate Good(w: World, r: Out) {
    if r.Ok? then Inv(r.w) && Calm(r.w) && Stable(w, r.w) else !r.why.Internal?
  }

  // ---------------------------------------------------------------- switches

  /** A step on slot (t, i) is good, though it may leave that slot untidy. */
  ghost predicate GoodBut(w: World, t: nat, i: nat, r: Out) {
    if r.Ok? then Inv(r.w) && CalmBut(r.w, t, i) && Stable(w, r.w) else !r.why.Internal?
  }

  /** Marking a slot left, settling its account. */
  lemma LeaveInv(w: World, t: nat, i: nat)
    requires Inv(w) && LiveAt(w, t, i) && CalmBut(w, t, i) && !Get(w, t, i).attached && !Get(w, t, i).left
    requires Get(w, t, i).st == Switch(LEAVE)
    ensures var r := SwLeave(w, t, i);
            r.Ok? && Inv(r.w) && CalmBut(r.w, t, i) && Stable(w, r.w) && LiveAt(r.w, t, i) &&
            Get(r.w, t, i) == Get(w, t, i).(left := true, st := Running)
  {
    hide Shape, Counts, ActiveOk, PostsOk, CalmBut, Stable, SwLeave;
    LiveFacts(w, t, i);
    LeaveFields(w, t, i);
    var w', y := SwLeave(w, t, i).w, Get(w, t, i).(left := true, st := Running);
    assert Shape(w) && Counts(w);
    PutCounts(w, w', t, i, y);
    PutShape(w, w', t, i, y);
    LeavePosts(w, w', t, i);
    PutStable(w, w', t, i, y);
  }

  lemma LeaveFields(w: World, t: nat, i: nat)
    requires Inv(w) && LiveAt(w, t, i) && !Get(w, t, i).attached
    ensures SwLeave(w, t, i).Ok? && Get(w, t, i).uid < |w.hist|
    ensures var x, w' := Get(w, t, i), SwLeave(w, t, i).w;
            w' == w.(thr := Put(w, t, i, x.(left := true, st := Running)).thr,
                     threadsLeft := w.threadsLeft + 1,
                     log := w.log + PostEvents(x.uid, w.thr[t].post, x.posts),
                     hist := w.hist[x.uid := w.hist[x.uid].(fate := Left(w.thr[t].post))])
  {
    hide Counts, ActiveOk, FramesOk;
    assert InstRecord(w, t, i);
  }

  lemma LeavePosts(w: World, w': World, t: nat, i: nat)
    requires Inv(w) && LiveAt(w, t, i) && !Get(w, t, i).left && Get(w, t, i).uid < |w.hist|
    requires var x := Get(w, t, i);
             w' == w.(thr := Put(w, t, i, x.(left := true, st := Running)).thr,
                      threadsLeft := w.threadsLeft + 1,
                      log := w.log + PostEvents(x.uid, w.thr[t].post, x.posts),
                      hist := w.hist[x.uid := w.hist[x.uid].(fate := Left(w.thr[t].post))])
    ensures PostsOk(w')
  {
    hide Counts, ActiveOk, FramesOk, Shape;
    LiveFacts(w, t, i);
    var x := Get(w, t, i);
    assert InstRecord(w, t, i);
    LogStep(w, w', x.uid, w.hist[x.uid].(fate := Left(w.thr[t].post)), PostEvents(x.uid, w.thr[t].post, x.posts));
    forall u, j | 0 <= u < |w'.thr| && 0 <= j < |w'.thr[u].pth| ensures InstRecord(w', u, j) {
      assert InstRecord(w, u, j);
    }
    forall u | 0 <= u < |w'.thr| ensures DeferredOk(w', u) { assert DeferredOk(w, u); }
  }

  lemma RetfGood(w: World, t: nat, i: nat)
    requires Inv(w) && LiveAt(w, t, i) && CalmBut(w, t, i) && Get(w, t, i).attached
    ensures var r := Retf(w, t, i);
            r.Ok? && Inv(r.w) && CalmBut(r.w, t, i) && Stable(w, r.w) && LiveAt(r.w, t, i) &&
            Get(r.w, t, i) == Get(w, t, i).(attached := false) && r.w.thr[t].cur == w.thr[t].cur
  {
    hide Inv, CalmBut, Stable;
    RetfInv(w, t, i);
    PutStable(w, Retf(w, t, i).w, t, i, Get(w, t, i).(attached := false));
  }

  lemma SwLeaveGood(w: World, t: nat, i: nat)
    requires Inv(w) && LiveAt(w, t, i) && CalmBut(w, t, i) && Get(w, t, i).st == Switch(LEAVE)
    ensures var r := SwLeave(w, t, i);
            r.Ok? && Inv(r.w) && CalmBut(r.w, t, i) && Stable(w, r.w) && LiveAt(r.w, t, i) &&
            Get(r.w, t, i) == Get(w, t, i).(attached := false, left := true, st := Running)
  {
    hide Inv, CalmBut, Stable, SwLeave, Retf;
    LiveFacts(w, t, i);
    if Get(w, t, i).attached {
      RetfGood(w, t, i);
      var w1 := Retf(w, t, i).w;
      LeaveInv(w1, t, i);
      StableTrans(w, w1, SwLeave(w1, t, i).w);
      LeaveAfterRetf(w, t, i);
    } else {
      LeaveInv(w, t, i);
    }
  }

  lemma LeaveAfterRetf(w: World, t: nat, i: nat)
    requires Valid(w, t, i) && Get(w, t, i).attached && Retf(w, t, i).Ok?
    requires Valid(Retf(w, t, i).w, t, i) && !Get(Retf(w, t, i).w, t, i).attached
    ensures SwLeave(w, t, i) == SwLeave(Retf(w, t, i).w, t, i)
  {
  }

  /** Moving a slot to another state, nothing else. */
  lemma SetStateGood(w: World, t: nat, i: nat, s: State)
    requires Inv(w) && LiveAt(w, t, i) && CalmBut(w, t, i) && !s.Free? && (Get(w, t, i).left ==> s.Running?)
    requires Get(w, t, i).busy ==> Get(w, t, i).st.Running? ==> s.Running?
    ensures var w' := SetState(w, t, i, s);
            Inv(w') && CalmBut(w', t, i) && Stable(w, w') && LiveAt(w', t, i) && Get(w', t, i) == Get(w, t, i).(st := s)
    ensures Tidy(Get(w, t, i).(st := s)) ==> Calm(SetState(w, t, i, s))
  {
    hide Inv, CalmBut, Calm, Stable;
    LiveFacts(w, t, i);
    var x := Get(w, t, i).(st := s);
    PutInv(w, SetState(w, t, i, s), t, i, x);
    PutStable(w, SetState(w, t, i, s), t, i, x);
  }

  lemma SwitchDetachIs(w: World, t: nat, i: nat)
    requires Valid(w, t, i) && Get(w, t, i).st == Switch(DETACH)
    ensures DoSwitch(w, t, i) == if Retf(w, t, i).Halt? then Retf(w, t, i)
                                 else Ok(SetState(Retf(w, t, i).w, t, i, Switch(SCHED)))
  {
  }

  lemma SwDetachGood(w: World, t: nat, i: nat)
    requires Inv(w) && LiveAt(w, t, i) && CalmBut(w, t, i) && Get(w, t, i).st == Switch(DETACH)
    requires !Get(w, t, i).atomic && Get(w, t, i).attached
    ensures Good(w, DoSwitch(w, t, i)) && DoSwitch(w, t, i).Ok?
    ensures Get(DoSwitch(w, t, i).w, t, i) == Get(w, t, i).(attached := false, st := Switch(SCHED))
  {
    hide Inv, Calm, CalmBut, Stable, Retf, DoSwitch, SetState;
    SwitchDetachIs(w, t, i);
    RetfGood(w, t, i);
    var w1 := Retf(w, t, i).w;
    LiveFacts(w1, t, i);
    SetStateGood(w1, t, i, Switch(SCHED));
    StableTrans(w, w1, SetState(w1, t, i, Switch(SCHED)));
  }

  lemma SwDoneGood(w: World, t: nat, i: nat)
    requires Inv(w) && LiveAt(w, t, i) && CalmBut(w, t, i) && Get(w, t, i).st == Switch(DONE)
    requires !Get(w, t, i).atomic && Get(w, t, i).attached && !Get(w, t, i).busy
    ensures Good(w, SwDone(w, t, i))
    ensures SwDone(w, t, i).Ok? ==> Get(SwDone(w, t, i).w, t, i) == Get(w, t, i).(attached := false, st := Free)
  {
    hide Inv, Calm, CalmBut, Stable, Retf, DelThread, FreeSlot;
    RetfGood(w, t, i);
    var w1 := Retf(w, t, i).w;
    DelInv(w1, t, i);
    if DelThread(w1, t, i).Ok? {
      LiveFacts(w1, t, i);
      DelFields(w1, t, i);
      StableTrans(w, w1, DelThread(w1, t, i).w);
    }
  }

  function AfterSwitch(x: Inst): Inst
    requires x.st.Switch?
  {
    match x.st.idx
    case DETACH => x.(attached := false, st := Switch(SCHED))
    case DONE => x.(attached := false, st := Free)
    case LEAVE => x.(attached := false, left := true, st := Running)
    case _ => x.(st := Running)
  }

  lemma SwitchLeaveGood(w: World, t: nat, i: nat)
    requires Inv(w) && LiveAt(w, t, i) && CalmBut(w, t, i) && Get(w, t, i).st == Switch(LEAVE) && !Get(w, t, i).atomic
    ensures Good(w, DoSwitch(w, t, i)) && DoSwitch(w, t, i).Ok?
    ensures Get(DoSwitch(w, t, i).w, t, i) == AfterSwitch(Get(w, t, i))
  {
    hide Inv, Calm, CalmBut, Stable, SwLeave;
    SwLeaveGood(w, t, i);
    CalmFromBut(DoSwitch(w, t, i).w, t, i);
  }

  lemma DoSwitchGood(w: World, t: nat, i: nat)
    requires Inv(w) && LiveAt(w, t, i) && CalmBut(w, t, i) && Get(w, t, i).st.Switch? && Tidy(Get(w, t, i))
    ensures Good(w, DoSwitch(w, t, i))
    ensures DoSwitch(w, t, i).Ok? ==> Get(DoSwitch(w, t, i).w, t, i) == AfterSwitch(Get(w, t, i))
  {
    hide Inv, Calm, CalmBut, Stable, SwLeave, SwDone, DoSwitch;
    LiveFacts(w, t, i);
    SwitchIs(w, t, i);
    var idx := Get(w, t, i).st.idx;
    if idx.DETACH? {
      SwDetachGood(w, t, i);
    } else if idx.LEAVE? {
      SwitchLeaveGood(w, t, i);
    } else if idx.DONE? {
      SwDoneGood(w, t, i);
    } else {
      SetStateGood(w, t, i, Running);
    }
  }

  lemma SwitchIs(w: World, t: nat, i: nat)
    requires Valid(w, t, i) && Get(w, t, i).st.Switch?
    ensures Get(w, t, i).st.idx.DONE? ==> DoSwitch(w, t, i) == SwDone(w, t, i)
    ensures Get(w, t, i).st.idx !in {DETACH, LEAVE, DONE} ==> DoSwitch(w, t, i) == Ok(SetState(w, t, i, Running))
  {
  }

  lemma CalmFromBut(w: World, t: nat, i: nat)
    requires CalmBut(w, t, i) && Valid(w, t, i) && Tidy(Get(w, t, i))
    ensures Calm(w)
  {
  }

  lemma SwitchStepGood(w: World, t: nat, i: nat)
    requires Inv(w) && LiveAt(w, t, i) && CalmBut(w, t, i) && Get(w, t, i).st.Switch?
    requires Tidy(Get(w, t, i).(atomic := false))
    ensures Good(w, SwitchStep(w, t, i))
    ensures SwitchStep(w, t, i).Ok? ==>
              Get(SwitchStep(w, t, i).w, t, i) == AfterSwitch(Get(w, t, i).(atomic := false))
  {
    hide Inv, Calm, CalmBut, Stable, DoSwitch;
    LiveFacts(w, t, i);
    var x := Get(w, t, i).(atomic := false);
    var w1 := Put(w, t, i, x);
    PutInv(w, w1, t, i, x);
    PutStable(w, w1, t, i, x);
    DoSwitchGood(w1, t, i);
    if DoSwitch(w1, t, i).Ok? {
      StableTrans(w, w1, DoSwitch(w1, t, i).w);
    }
  }

  // ---------------------------------------------------------------- bursts

  /** Rewriting the record of a live, not left instance whose handlers change. */
  lemma PostsPut(w: World, w': World, t: nat, i: nat, x: Inst, hs: seq<int>)
    requires Inv(w) && LiveAt(w, t, i) && !Get(w, t, i).left && Get(w, t, i).uid < |w.hist|
    requires x == Get(w, t, i).(posts := hs, st := x.st, atomic := x.atomic) && !x.st.Free?
    requires w' == Put(w, t, i, x).(hist := w.hist[x.uid := w.hist[x.uid].(added := hs)])
    ensures Inv(w')
  {
    hide Shape, Counts, ActiveOk, PostsOk;
    LiveFacts(w, t, i);
    assert Shape(w) && Counts(w);
    PutCounts(w, w', t, i, x);
    PutShape(w, w', t, i, x);
    PostsRewrite(w, w', t, i, x, hs);
  }

  lemma PostsRewrite(w: World, w': World, t: nat, i: nat, x: Inst, hs: seq<int>)
    requires Inv(w) && LiveAt(w, t, i) && !Get(w, t, i).left && Get(w, t, i).uid < |w.hist|
    requires x == Get(w, t, i).(posts := hs, st := x.st, atomic := x.atomic) && !x.st.Free?
    requires w' == Put(w, t, i, x).(hist := w.hist[x.uid := w.hist[x.uid].(added := hs)])
    ensures PostsOk(w')
  {
    hide Counts, ActiveOk, FramesOk, Shape;
    LiveFacts(w, t, i);
    assert w'.log == w.log + [];
    LogStep(w, w', x.uid, w.hist[x.uid].(added := hs), []);
    forall u, j | 0 <= u < |w'.thr| && 0 <= j < |w'.thr[u].pth| ensures InstRecord(w', u, j) {
      assert InstRecord(w, u, j);
    }
    forall u | 0 <= u < |w'.thr| ensures DeferredOk(w', u) { assert DeferredOk(w, u); }
  }

  /** A slot after its burst: it stopped, and only an atomic leave may be pending. */
  predicate Stopped(x: Inst) {
    !x.st.Running? && !x.busy && Tidy(x.(atomic := false)) && (x.atomic ==> x.st == Switch(LEAVE) && !x.attached)
  }

  lemma AbandonGood(w: World, t: nat, i: nat)
    requires Inv(w) && Calm(w) && LiveAt(w, t, i) && !Get(w, t, i).busy && MayReturn(Get(w, t, i), Abandon)
    ensures var r := EndBurst(w, t, i, Abandon); GoodBut(w, t, i, r) && (r.Ok? ==> Stopped(Get(r.w, t, i)))
  {
    hide Inv, Calm, CalmBut, Stable;
    LiveFacts(w, t, i);
    TidyAt(w, t, i);
    var x := Get(w, t, i);
    var y := x.(posts := [], atomic := !x.attached, st := Switch(LEAVE));
    PostsPut(w, EndBurst(w, t, i, Abandon).w, t, i, y, []);
    PutStable(w, EndBurst(w, t, i, Abandon).w, t, i, y);
  }

  lemma AttachGood(w: World, t: nat, i: nat)
    requires Inv(w) && Calm(w) && LiveAt(w, t, i) && !Get(w, t, i).attached && !Get(w, t, i).left
    ensures Good(w, Callf(w, t, i)) && Callf(w, t, i).Ok?
    ensures Get(Callf(w, t, i).w, t, i) == Get(w, t, i).(attached := true) && LiveAt(Callf(w, t, i).w, t, i)
  {
    hide Inv, CalmBut;
    TidyAt(w, t, i);
    CallfInv(w, t, i);
    PutStable(w, Callf(w, t, i).w, t, i, Get(w, t, i).(attached := true));
  }

  lemma ReattachGood(w: World, t: nat, i: nat)
    requires Inv(w) && Calm(w) && LiveAt(w, t, i) && !Get(w, t, i).busy && MayReturn(Get(w, t, i), Attach)
    ensures var r := EndBurst(w, t, i, Attach); GoodBut(w, t, i, r) && (r.Ok? ==> Stopped(Get(r.w, t, i)))
  {
    hide Inv, Calm, CalmBut, Stable, Callf, SetState;
    TidyAt(w, t, i);
    AttachGood(w, t, i);
    var w1 := Callf(w, t, i).w;
    TidyAt(w1, t, i);
    SetStateGood(w1, t, i, Switch(ATTACH));
    StableTrans(w, w1, SetState(w1, t, i, Switch(ATTACH)));
  }

  lemma PlainGood(w: World, t: nat, i: nat, r: Ret)
    requires Inv(w) && Calm(w) && LiveAt(w, t, i) && !Get(w, t, i).busy && MayReturn(Get(w, t, i), r)
    requires !r.Abandon? && !r.Attach? && (r.Finish? ==> Get(w, t, i).attached)
    ensures var o := EndBurst(w, t, i, r); GoodBut(w, t, i, o) && (o.Ok? ==> Stopped(Get(o.w, t, i)))
  {
    hide Inv, Calm, CalmBut, Stable, SetState;
    TidyAt(w, t, i);
    LiveFacts(w, t, i);
    SetStateGood(w, t, i, RetState(r));
  }

  lemma EndBurstGood(w: World, t: nat, i: nat, r: Ret)
    requires Inv(w) && Calm(w) && LiveAt(w, t, i) && !Get(w, t, i).busy
    ensures var o := EndBurst(w, t, i, r);
            GoodBut(w, t, i, o) && (o.Ok? ==> Stopped(Get(o.w, t, i))) &&
            (o.Ok? && Get(w, t, i).left ==> Get(o.w, t, i).st.Free?)
  {
    hide Inv, CalmBut, Stable, DelThread;
    TidyAt(w, t, i);
    LiveFacts(w, t, i);
    var x := Get(w, t, i);
    if !MayReturn(x, r) {
      assert EndBurst(w, t, i, r) == Halt(Fatal);
    } else if r.Finish? && !x.attached {
      DelInv(w, t, i);
      assert EndBurst(w, t, i, r) == DelThread(w, t, i);
      if DelThread(w, t, i).Ok? {
        StableAt(w, DelThread(w, t, i).w, t, i);
        TidyAt(DelThread(w, t, i).w, t, i);
      }
    } else if r.Abandon? {
      AbandonGood(w, t, i);
    } else if r.Attach? {
      ReattachGood(w, t, i);
    } else {
      PlainGood(w, t, i, r);
    }
  }
}
