/**
 The port server (src/base/core/ports.c): a child process with port privileges, and the client
 that sends it requests down one pipe and reads answers from another.  A PCI address request is
 not answered; the server holds it back until the next request and serves the two together.
 */
module PortServer {
  import opened Basics
  import opened Ports

  /** The request types, in the order of the enum: INB, OUTB, INW, OUTW, IND, OUTD, PCI, EXIT. */
  datatype Kind = InB_ | OutB_ | InW_ | OutW_ | InD_ | OutD_ | Pci | Exit

  /** struct portreq; a message on a pipe is shorter than PIPE_BUF, so it arrives whole. */
  datatype Request = Request(kind: Kind, port: Port, word: dword)

  predicate Ordinary(r: Request) { !r.kind.Pci? && !r.kind.Exit? }

  // ---------------------------------------------------------------- one request

  /** What serving came to: the answer and the devices, or a call through a null pointer. */
  datatype Served<+W> = Crash | Answer(reply: Request, world: W)

  /** The handlers the server looks up for a port and the three after it. */
  function Four(t: Table, p: Port): (r: seq<Handler>)
    requires Formed(t)
    ensures |r| == 4
  {
    [At(t, p), At(t, Next(p, 1)), At(t, Next(p, 2)), At(t, Next(p, 3))]
  }

  function ReadVia<W>(c: Code<W>, h: Handler, arg: nat, p: Port, w: W): Got<byte, W> { c.inb(h.readb, p, arg, w) }

  function WriteVia<W>(c: Code<W>, h: Handler, arg: nat, p: Port, b: byte, w: W): W { c.outb(h.writeb, p, b, arg, w) }

  /** byte reads from `p` upwards, byte k through ph[k] but always with the first handler's argument. */
  function SplitRead<W>(c: Code<W>, ph: seq<Handler>, arg: nat, p: Port, w: W): (r: Got<seq<byte>, W>)
    ensures |r.value| == |ph|
    decreases ph
  {
    if ph == [] then Got([], w)
    else
      var b := ReadVia(c, ph[0], arg, p, w);
      var rest := SplitRead(c, ph[1..], arg, Next(p, 1), b.world);
      Got([b.value] + rest.value, rest.world)
  }

  function SplitWrite<W>(c: Code<W>, ph: seq<Handler>, arg: nat, p: Port, v: nat, w: W): W
    decreases ph
  {
    if ph == [] then w
    else SplitWrite(c, ph[1..], arg, Next(p, 1), v / 0x100, WriteVia(c, ph[0], arg, p, v % 0x100, w))
  }

  predicate SameRead(ph: seq<Handler>) { forall k | 0 <= k < |ph| :: ph[k].readb == ph[0].readb }
  predicate SameWrite(ph: seq<Handler>) { forall k | 0 <= k < |ph| :: ph[k].writeb == ph[0].writeb }

  /** TYPE_INW: None is a call through a null pointer. */
  function WordVia<W>(c: Code<W>, ph: seq<Handler>, p: Port, w: W): Option<Got<nat, W>>
    requires |ph| == 4
  {
    if !SameRead(ph[..2]) then Some(Spelled(SplitRead(c, ph[..2], ph[0].arg, p, w)))
    else if ph[0].readw.None? then None
    else Some(Word_(c.inw(ph[0].readw.value, p, ph[0].arg, w)))
  }

  /** TYPE_IND */
  function DwordVia<W>(c: Code<W>, ph: seq<Handler>, p: Port, w: W): Option<Got<nat, W>>
    requires |ph| == 4
  {
    if !SameRead(ph) then Some(Spelled(SplitRead(c, ph, ph[0].arg, p, w)))
    else if ph[0].readd.None? then None
    else Some(Dword_(c.ind(ph[0].readd.value, p, ph[0].arg, w)))
  }

  /** TYPE_OUTW */
  function WordOutVia<W>(c: Code<W>, ph: seq<Handler>, p: Port, v: dword, w: W): Option<W>
    requires |ph| == 4
  {
    if !SameWrite(ph[..2]) then Some(SplitWrite(c, ph[..2], ph[0].arg, p, v, w))
    else if ph[0].writew.None? then None
    else Some(c.outw(ph[0].writew.value, p, v % 0x1_0000, ph[0].arg, w))
  }

  /** TYPE_OUTD */
  function DwordOutVia<W>(c: Code<W>, ph: seq<Handler>, p: Port, v: dword, w: W): Option<W>
    requires |ph| == 4
  {
    if !SameWrite(ph) then Some(SplitWrite(c, ph, ph[0].arg, p, v, w))
    else if ph[0].writed.None? then None
    else Some(c.outd(ph[0].writed.value, p, v, ph[0].arg, w))
  }

  // A value read, as the number that goes into the reply.
  function Byte_<W>(g: Got<byte, W>): Got<nat, W> { Got(g.value, g.world) }
  function Word_<W>(g: Got<word, W>): Got<nat, W> { Got(g.value, g.world) }
  function Dword_<W>(g: Got<dword, W>): Got<nat, W> { Got(g.value, g.world) }

  function Told<W>(r: Request, o: Option<Got<nat, W>>): Served<W> {
    if o.None? then Crash else Answer(r.(word := o.value.value % 0x1_0000_0000), o.value.world)
  }

  function Done<W>(r: Request, o: Option<W>): Served<W> { if o.None? then Crash else Answer(r, o.value) }

  /** The switch of port_server on request `r`, with handlers `ph`. */
  function Serve<W>(c: Code<W>, ph: seq<Handler>, r: Request, w: W): Served<W>
    requires |ph| == 4
  {
    match r.kind
    case InB_ => Told(r, Some(Byte_(ReadVia(c, ph[0], ph[0].arg, r.port, w))))
    case OutB_ => Answer(r, WriteVia(c, ph[0], ph[0].arg, r.port, r.word % 0x100, w))
    case InW_ => Told(r, WordVia(c, ph, r.port, w))
    case OutW_ => Done(r, WordOutVia(c, ph, r.port, r.word, w))
    case InD_ => Told(r, DwordVia(c, ph, r.port, w))
    case OutD_ => Done(r, DwordOutVia(c, ph, r.port, r.word, w))
    case _ => Answer(r, w)
  }

  /** The second half of a PCI pair: the address goes out just before the data request is served. */
  function ServePair<W>(c: Code<W>, t: Table, a: Request, r: Request, w: W): Served<W>
    requires Formed(t)
  {
    var ph := Four(t, a.port);
    if ph[0].writed.None? then Crash
    else Serve(c, ph, r, c.outd(ph[0].writed.value, a.port, a.word, ph[0].arg, w))
  }

  // ---------------------------------------------------------------- a stream of requests

  /** Where the server stands between two reads. */
  datatype Stage = Ready | Holding(a: Request) | Gone

  /** The server after some requests: the answers it has written and the device accesses it has made. */
  datatype Server<+W> = Server(stage: Stage, replies: seq<Request>, world: W, log: seq<Request>)

  function Answered<W>(s: Server<W>, did: seq<Request>, o: Served<W>): Server<W> {
    if o.Crash? then s.(stage := Gone)
    else Server(Ready, s.replies + [o.reply], o.world, s.log + did)
  }

  /** One more request. */
  function Feed<W>(c: Code<W>, t: Table, s: Server<W>, r: Request): Server<W>
    requires Formed(t)
  {
    match s.stage
    case Gone => s
    case Holding(a) => Answered(s, [a, r], ServePair(c, t, a, r, s.world))
    case Ready =>
      if r.kind.Exit? then s.(stage := Gone)
      else if r.kind.Pci? then s.(stage := Holding(r))
      else Answered(s, [r], Serve(c, Four(t, r.port), r, s.world))
  }

  /** The server as a function from request streams: what port_server does with `rs`. */
  function Fed<W>(c: Code<W>, t: Table, w: W, rs: seq<Request>): Server<W>
    requires Formed(t)
    decreases |rs|
  {
    if rs == [] then Server(Ready, [], w, [])
    else Feed(c, t, Fed(c, t, w, rs[..|rs| - 1]), rs[|rs| - 1])
  }

  // ---------------------------------------------------------------- the two processes

  /** The server between two of its system calls. */
  datatype Phase =
    | Reading
    | ReadingSecond(a: Request)
    | Working(first: Option<Request>, r: Request)
    | Writing(r: Request)
    | Dead

  /**
   Both processes and both pipes.  `waiting` is the request the client has sent and whose answer
   it has yet to read; `got` holds all answers it has read and `served` all requests the server
   has acted on (or holds back).
   */
  datatype System<+W> = System(phase: Phase, world: W, log: seq<Request>, requests: seq<Request>, replies: seq<Request>,
                               waiting: Option<Request>, served: seq<Request>, got: seq<Request>)

  function InHand(ph: Phase): seq<Request> { if ph.Working? then [ph.r] else [] }

  /** Everything the client has sent: a request is in the pipe, in the server's hand, or served. */
  function AllSent<W>(s: System<W>): seq<Request> { s.served + InHand(s.phase) + s.requests }

  datatype Event =
    | Call(r: Request)          // std_port_*: write the request ...
    | Return                    // ... and read the answer
    | PciCall(port: Port, word: dword)  // pci_port_outd: write only
    | ServerReads
    | ServerWorks
    | ServerWrites

  function Start<W>(w: W): System<W> { System(Reading, w, [], [], [], None, [], []) }

  function Sent<W>(s: System<W>, r: Request): System<W> { s.(requests := s.requests + [r]) }

  function Worked<W>(s: System<W>, did: seq<Request>, o: Served<W>): System<W> {
    var s' := s.(served := s.served + InHand(s.phase));
    if o.Crash? then s'.(phase := Dead) else s'.(phase := Writing(o.reply), world := o.world, log := s.log + did)
  }

  /** One step of one process; None when it cannot take that step now. */
  function Step<W>(c: Code<W>, t: Table, s: System<W>, e: Event): Option<System<W>>
    requires Formed(t)
  {
    match e
    case Call(r) => if s.waiting.None? && Ordinary(r) then Some(Sent(s, r).(waiting := Some(r))) else None
    case PciCall(p, v) => if s.waiting.None? then Some(Sent(s, Request(Pci, p, v))) else None
    case Return =>
      if s.waiting.Some? && s.replies != [] then
        Some(s.(waiting := None, replies := s.replies[1..], got := s.got + [s.replies[0]]))
      else None
    case ServerReads =>
      if s.requests == [] then None
      else
        var r := s.requests[0];
        var s' := s.(requests := s.requests[1..]);
        (match s.phase
         case Reading =>
           if r.kind.Exit? then Some(s'.(phase := Dead, served := s.served + [r]))
           else if r.kind.Pci? then Some(s'.(phase := ReadingSecond(r), served := s.served + [r]))
           else Some(s'.(phase := Working(None, r)))
         case ReadingSecond(a) => Some(s'.(phase := Working(Some(a), r)))
         case _ => None)
    case ServerWorks =>
      (match s.phase
       case Working(None, r) => Some(Worked(s, [r], Serve(c, Four(t, r.port), r, s.world)))
       case Working(Some(a), r) => Some(Worked(s, [a, r], ServePair(c, t, a, r, s.world)))
       case _ => None)
    case ServerWrites =>
      if s.phase.Writing? then Some(s.(phase := Reading, replies := s.replies + [s.phase.r])) else None
  }

  function Run<W>(c: Code<W>, t: Table, s: System<W>, es: seq<Event>): Option<System<W>>
    requires Formed(t)
    decreases es
  {
    if es == [] then Some(s)
    else
      var n := Step(c, t, s, es[0]);
      if n.None? then None else Run(c, t, n.value, es[1..])
  }

  // ---------------------------------------------------------------- every interleaving is one stream

  function Ordinaries(rs: seq<Request>): (r: seq<Request>)
    ensures forall k | 0 <= k < |r| :: Ordinary(r[k])
    decreases |rs|
  {
    if rs == [] then []
    else if Ordinary(rs[|rs| - 1]) then Ordinaries(rs[..|rs| - 1]) + [rs[|rs| - 1]]
    else Ordinaries(rs[..|rs| - 1])
  }

  predicate NoExit(rs: seq<Request>) { forall k | 0 <= k < |rs| :: !rs[k].kind.Exit? }

  /** Where the stream function stands when the server is in a phase. */
  function StageOf(ph: Phase): Stage {
    match ph
    case Reading => Ready
    case ReadingSecond(a) => Holding(a)
    case Working(first, r) => if first.Some? then Holding(first.value) else Ready
    case Writing(r) => Ready
    case Dead => Gone
  }

  function InReply(ph: Phase): seq<Request> { if ph.Writing? then [ph.r] else [] }

  /** All answers there are: read by the client, in the pipe, or about to be written. */
  function AllReplies<W>(s: System<W>): seq<Request> { s.got + s.replies + InReply(s.phase) }

  predicate Matches<W(==)>(c: Code<W>, t: Table, w: W, s: System<W>)
    requires Formed(t)
  {
    Fed(c, t, w, s.served) == Server(StageOf(s.phase), AllReplies(s), s.world, s.log) &&
    (s.phase.Working? && s.phase.first.None? ==> Ordinary(s.phase.r))
  }

  /** The client's side: one answer read for each ordinary request but the one it waits for. */
  predicate ClientOk<W>(s: System<W>) {
    var sent := AllSent(s);
    NoExit(sent) &&
    |s.got| + (if s.waiting.Some? then 1 else 0) == |Ordinaries(sent)| &&
    (s.waiting.Some? ==> sent != [] && sent[|sent| - 1] == s.waiting.value && Ordinary(s.waiting.value))
  }

  /** What holds whatever the client sends. */
  predicate Inv<W(==)>(c: Code<W>, t: Table, w: W, s: System<W>)
    requires Formed(t)
  {
    Matches(c, t, w, s) && ClientOk(s)
  }

  lemma OrdinariesMore(rs: seq<Request>, r: Request)
    ensures Ordinaries(rs + [r]) == Ordinaries(rs) + (if Ordinary(r) then [r] else [])
  {
  }

  lemma FedMore<W>(c: Code<W>, t: Table, w: W, rs: seq<Request>, r: Request)
    requires Formed(t)
    ensures Fed(c, t, w, rs + [r]) == Feed(c, t, Fed(c, t, w, rs), r)
  {
  }

  lemma SentInv<W>(c: Code<W>, t: Table, w: W, s: System<W>, r: Request)
    requires Formed(t) && Inv(c, t, w, s) && s.waiting.None? && !r.kind.Exit?
    ensures Inv(c, t, w, Sent(s, r).(waiting := if Ordinary(r) then Some(r) else None))
  {
    hide Fed, Ordinaries;
    var s' := Sent(s, r).(waiting := if Ordinary(r) then Some(r) else None);
    assert AllSent(s') == AllSent(s) + [r];
    OrdinariesMore(AllSent(s), r);
  }

  lemma ReadInv<W>(c: Code<W>, t: Table, w: W, s: System<W>)
    requires Formed(t) && Inv(c, t, w, s) && Step(c, t, s, ServerReads).Some?
    ensures Inv(c, t, w, Step(c, t, s, ServerReads).value)
  {
    hide Serve, ServePair, Four, Ordinaries, Fed, Answered;
    var r := s.requests[0];
    FedMore(c, t, w, s.served, r);
    var s' := Step(c, t, s, ServerReads).value;
    assert AllSent(s') == AllSent(s);
    assert AllSent(s)[|s.served|] == r;
  }

  lemma WorkInv<W>(c: Code<W>, t: Table, w: W, s: System<W>)
    requires Formed(t) && Inv(c, t, w, s) && Step(c, t, s, ServerWorks).Some?
    ensures Inv(c, t, w, Step(c, t, s, ServerWorks).value)
  {
    hide Serve, ServePair, Four, Ordinaries, Fed;
    FedMore(c, t, w, s.served, s.phase.r);
    var s' := Step(c, t, s, ServerWorks).value;
    assert AllSent(s') == AllSent(s);
  }

  lemma StepInv<W>(c: Code<W>, t: Table, w: W, s: System<W>, e: Event)
    requires Formed(t) && Inv(c, t, w, s) && Step(c, t, s, e).Some?
    ensures Inv(c, t, w, Step(c, t, s, e).value)
  {
    hide Fed, Serve, ServePair, Four, Ordinaries;
    var s' := Step(c, t, s, e).value;
    match e
    case Call(r) => SentInv(c, t, w, s, r);
    case PciCall(p, v) => SentInv(c, t, w, s, Request(Pci, p, v));
    case Return =>
      assert AllReplies(s') == AllReplies(s);
    case ServerReads => ReadInv(c, t, w, s);
    case ServerWorks => WorkInv(c, t, w, s);
    case ServerWrites =>
      assert AllReplies(s') == AllReplies(s);
  }

  lemma {:induction false} RunInv<W>(c: Code<W>, t: Table, w: W, s: System<W>, es: seq<Event>)
    requires Formed(t) && Inv(c, t, w, s) && Run(c, t, s, es).Some?
    ensures Inv(c, t, w, Run(c, t, s, es).value)
    decreases es
  {
    if es != [] {
      StepInv(c, t, w, s, es[0]);
      RunInv(c, t, w, Step(c, t, s, es[0]).value, es[1..]);
    }
  }

  // ---------------------------------------------------------------- paired streams

  /** No PCI address request directly follows another. */
  predicate Paired(rs: seq<Request>) {
    forall k | 0 < k < |rs| :: !(rs[k - 1].kind.Pci? && rs[k].kind.Pci?)
  }

  predicate EndsInPci(rs: seq<Request>) { rs != [] && rs[|rs| - 1].kind.Pci? }

  /** The entry point the switch calls for `r` exists; byte requests need none, nor do split ones. */
  predicate Able(ph: seq<Handler>, r: Request)
    requires |ph| == 4
  {
    match r.kind
    case InW_ => SameRead(ph[..2]) ==> ph[0].readw.Some?
    case OutW_ => SameWrite(ph[..2]) ==> ph[0].writew.Some?
    case InD_ => SameRead(ph) ==> ph[0].readd.Some?
    case OutD_ => SameWrite(ph) ==> ph[0].writed.Some?
    case _ => true
  }

  /** A request is answered, under its own type and port, exactly if its entry point exists. */
  lemma ServeKeepsTag<W>(c: Code<W>, ph: seq<Handler>, r: Request, w: W)
    requires |ph| == 4
    ensures var o := Serve(c, ph, r, w);
            (o.Answer? <==> Able(ph, r)) && (o.Answer? ==> o.reply.kind == r.kind && o.reply.port == r.port)
  {
  }

  /** The PCI address the server holds back after the stream. */
  function Held(rs: seq<Request>): (h: Option<Request>)
    ensures h.Some? ==> h.value.kind.Pci?
    decreases |rs|
  {
    if rs == [] || Held(rs[..|rs| - 1]).Some? || !rs[|rs| - 1].kind.Pci? then None else Some(rs[|rs| - 1])
  }

  /** What the next request needs of the handlers: those of the held address, if there is one. */
  predicate CanServe(t: Table, held: Option<Request>, r: Request)
    requires Formed(t)
  {
    if held.None? then Able(Four(t, r.port), r)
    else At(t, held.value.port).writed.Some? && Able(Four(t, held.value.port), r)
  }

  /** Every request of the stream finds the entry point it needs. */
  predicate Servable(t: Table, rs: seq<Request>)
    requires Formed(t)
    decreases |rs|
  {
    rs == [] || (Servable(t, rs[..|rs| - 1]) && CanServe(t, Held(rs[..|rs| - 1]), rs[|rs| - 1]))
  }

  lemma ServableMore(t: Table, rs: seq<Request>, r: Request)
    requires Formed(t)
    ensures Servable(t, rs + [r]) <==> Servable(t, rs) && CanServe(t, Held(rs), r)
    ensures Held(rs + [r]) == if Held(rs).Some? || !r.kind.Pci? then None else Some(r)
  {
    assert (rs + [r])[..|rs|] == rs;
  }

  lemma {:induction false} ServablePrefix(t: Table, a: seq<Request>, b: seq<Request>)
    requires Formed(t) && Servable(t, a + b)
    ensures Servable(t, a)
    decreases |b|
  {
    hide CanServe, Formed, Held;
    if b == [] {
      assert a + b == a;
    } else {
      var front := b[..|b| - 1];
      assert a + b == (a + front) + [b[|b| - 1]];
      ServableMore(t, a + front, b[|b| - 1]);
      ServablePrefix(t, a, front);
    }
  }

  /** Reply k bears the type and port of request k. */
  predicate InStep(replies: seq<Request>, asked: seq<Request>) {
    |asked| <= |replies| &&
    forall k | 0 <= k < |asked| :: replies[k].kind == asked[k].kind && replies[k].port == asked[k].port
  }

  /** The requests of the stream but a held PCI address at its end. */
  function Settled(rs: seq<Request>): seq<Request> { if EndsInPci(rs) then rs[..|rs| - 1] else rs }

  /** Byte requests are served whatever the handlers lack. */
  lemma {:induction false} BytesServable(t: Table, rs: seq<Request>)
    requires Formed(t) && forall k | 0 <= k < |rs| :: rs[k].kind.InB_? || rs[k].kind.OutB_?
    ensures Servable(t, rs) && Held(rs).None?
    decreases |rs|
  {
    if rs != [] {
      var front := rs[..|rs| - 1];
      assert rs == front + [rs[|rs| - 1]];
      hide Servable, Held, Four;
      ServableMore(t, front, rs[|rs| - 1]);
      BytesServable(t, front);
    } else {
      ServableNothing(t);
    }
  }

  /** The server's next state has one more answer, for `r`, and has made the accesses `did`. */
  predicate OneMore<W>(f: Server<W>, g: Server<W>, r: Request, did: seq<Request>) {
    g.stage == Ready && g.log == f.log + did && |g.replies| == |f.replies| + 1 && f.replies <= g.replies &&
    g.replies[|f.replies|].kind == r.kind && g.replies[|f.replies|].port == r.port
  }

  function HeldOf(st: Stage): Option<Request> { if st.Holding? then Some(st.a) else None }

  lemma FeedNext<W>(c: Code<W>, t: Table, f: Server<W>, r: Request)
    requires Formed(t) && !f.stage.Gone? && !r.kind.Exit?
    ensures var g := Feed(c, t, f, r);
            if !CanServe(t, HeldOf(f.stage), r) then g == f.(stage := Gone)
            else if f.stage.Holding? then OneMore(f, g, r, [f.stage.a, r])
            else if r.kind.Pci? then g == f.(stage := Holding(r))
            else OneMore(f, g, r, [r])
  {
    hide Serve, Able, Formed, At;
    if f.stage.Holding? {
      var ph := Four(t, f.stage.a.port);
      if ph[0].writed.Some? {
        ServeKeepsTag(c, ph, r, c.outd(ph[0].writed.value, f.stage.a.port, f.stage.a.word, ph[0].arg, f.world));
      }
    } else {
      ServeKeepsTag(c, Four(t, r.port), r, f.world);
      hide Four;
      PciAble(Four(t, r.port), r);
    }
  }

  lemma PciAble(ph: seq<Handler>, r: Request)
    requires |ph| == 4
    ensures r.kind.Pci? ==> Able(ph, r)
  {
  }

  /** The server outlives a stream exactly if each request finds its entry point; what it then holds back. */
  lemma {:induction false} FedAlive<W>(c: Code<W>, t: Table, w: W, rs: seq<Request>)
    requires Formed(t) && NoExit(rs)
    ensures var st := Fed(c, t, w, rs).stage;
            (st.Gone? <==> !Servable(t, rs)) && (!st.Gone? ==> HeldOf(st) == Held(rs))
    decreases |rs|
  {
    if rs != [] {
      var front, r := rs[..|rs| - 1], rs[|rs| - 1];
      assert rs == front + [r];
      hide Feed, Fed, Servable, Formed, CanServe, Held;
      FedAlive(c, t, w, front);
      FedMore(c, t, w, front, r);
      ServableMore(t, front, r);
      var f := Fed(c, t, w, front);
      if f.stage.Gone? { FeedGone(c, t, f, r); } else { FeedNext(c, t, f, r); }
    }
  }

  /** A paired stream is answered one for one, and the devices see its requests in order. */
  lemma {:induction false} FedPaired<W>(c: Code<W>, t: Table, w: W, rs: seq<Request>)
    requires Formed(t) && Servable(t, rs) && NoExit(rs) && Paired(rs)
    ensures var f := Fed(c, t, w, rs);
            f.stage == (if EndsInPci(rs) then Holding(rs[|rs| - 1]) else Ready) &&
            |f.replies| == |Ordinaries(rs)| && InStep(f.replies, Ordinaries(rs)) && f.log == Settled(rs)
    decreases |rs|
  {
    if rs != [] {
      var front, r := rs[..|rs| - 1], rs[|rs| - 1];
      assert rs == front + [r];
      PairedPrefix(front, [r]);
      hide Feed, Fed, Ordinaries, Servable, Formed, CanServe, Held;
      ServableMore(t, front, r);
      FedAlive(c, t, w, front);
      FedPaired(c, t, w, front);
      var f := Fed(c, t, w, front);
      OrdinariesMore(front, r);
      FedMore(c, t, w, front, r);
      FeedNext(c, t, f, r);
      SettledMore(front, r);
      if f.stage.Holding? || !r.kind.Pci? {
        InStepMore(f, Fed(c, t, w, rs), r, if f.stage.Holding? then [f.stage.a, r] else [r], Ordinaries(front));
      }
    }
  }

  lemma SettledMore(front: seq<Request>, r: Request)
    requires Paired(front + [r])
    ensures EndsInPci(front) ==> !r.kind.Pci? && Settled(front + [r]) == Settled(front) + [front[|front| - 1], r]
    ensures !EndsInPci(front) && !r.kind.Pci? ==> Settled(front + [r]) == Settled(front) + [r]
    ensures r.kind.Pci? ==> Settled(front + [r]) == Settled(front)
  {
    var rs := front + [r];
    if EndsInPci(front) {
      assert rs[|rs| - 2].kind.Pci? && rs[|rs| - 1] == r;
      assert front[..|front| - 1] + [front[|front| - 1], r] == rs;
    } else {
      assert rs[..|rs| - 1] == front;
    }
  }

  lemma InStepMore<W>(f: Server<W>, g: Server<W>, r: Request, did: seq<Request>, asked: seq<Request>)
    requires OneMore(f, g, r, did) && |f.replies| == |asked| && InStep(f.replies, asked)
    ensures |g.replies| == |asked + [r]| && InStep(g.replies, asked + [r])
  {
  }

  /** Every answer the client has read, and how many, follow from what was sent alone. */
  lemma {:induction false} RepliesGrow<W>(c: Code<W>, t: Table, w: W, rs: seq<Request>, n: nat)
    requires Formed(t) && n <= |rs|
    ensures Fed(c, t, w, rs[..n]).replies <= Fed(c, t, w, rs).replies
    decreases |rs|
  {
    hide Fed, Feed, Formed;
    if n == |rs| {
      assert rs[..n] == rs;
    } else {
      var front, r := rs[..|rs| - 1], rs[|rs| - 1];
      RepliesGrow(c, t, w, front, n);
      assert front[..n] == rs[..n] && rs == front + [r];
      FedMore(c, t, w, front, r);
      FeedGrows(c, t, Fed(c, t, w, front), r);
    }
  }

  lemma FeedGrows<W>(c: Code<W>, t: Table, f: Server<W>, r: Request)
    requires Formed(t)
    ensures f.replies <= Feed(c, t, f, r).replies
  {
  }

  /** Whatever the client does and however the processes interleave, the answers are those of the stream. */
  lemma Deterministic<W>(c: Code<W>, t: Table, w: W, es: seq<Event>)
    requires Formed(t) && Run(c, t, Start(w), es).Some?
    ensures var s := Run(c, t, Start(w), es).value; s.got <= Fed(c, t, w, AllSent(s)).replies
  {
    StartInv(c, t, w);
    RunInv(c, t, w, Start(w), es);
    var s := Run(c, t, Start(w), es).value;
    ReadFrom(c, t, w, s);
  }

  lemma StartInv<W>(c: Code<W>, t: Table, w: W)
    requires Formed(t)
    ensures Inv(c, t, w, Start(w))
  {
  }

  lemma ReadFrom<W>(c: Code<W>, t: Table, w: W, s: System<W>)
    requires Formed(t) && Inv(c, t, w, s)
    ensures s.got <= Fed(c, t, w, AllSent(s)).replies
  {
    hide Fed, Ordinaries;
    RepliesGrow(c, t, w, AllSent(s), |s.served|);
    assert AllSent(s)[..|s.served|] == s.served;
  }

  /** Two PCI addresses in a row: the second is echoed as if it were an answer. */
  lemma {:induction false} EchoAt<W>(c: Code<W>, t: Table, w: W, rs: seq<Request>) returns (k: nat)
    requires Formed(t) && Servable(t, rs) && NoExit(rs) && !Paired(rs)
    ensures k < |Fed(c, t, w, rs).replies| && Fed(c, t, w, rs).replies[k].kind.Pci?
    ensures k <= |Ordinaries(rs)| && (!EndsInPci(rs) ==> k < |Ordinaries(rs)|)
    decreases |rs|
  {
    hide Fed, Feed, Ordinaries, Formed, Servable, CanServe, Held;
    var front, r := rs[..|rs| - 1], rs[|rs| - 1];
    assert rs == front + [r];
    ServableMore(t, front, r);
    OrdinariesMore(front, r);
    FedMore(c, t, w, front, r);
    if Paired(front) {
      LastTwo(front, r);
      FedPaired(c, t, w, front);
      FedAlive(c, t, w, front);
      FeedNext(c, t, Fed(c, t, w, front), r);
      k := |Ordinaries(front)|;
    } else {
      k := EchoAt(c, t, w, front);
      FeedGrows(c, t, Fed(c, t, w, front), r);
    }
  }

  lemma LastTwo(front: seq<Request>, r: Request)
    requires Paired(front) && !Paired(front + [r])
    ensures EndsInPci(front) && r.kind.Pci?
  {
  }

  /** The server has gone without the first `n` answers. */
  predicate Short<W>(f: Server<W>, n: nat) { f.stage.Gone? && |f.replies| < n }

  /** A stream that asks for a missing entry point, its addresses paired up to there, stays short of answers. */
  lemma {:induction false} GoesShort<W>(c: Code<W>, t: Table, w: W, rs: seq<Request>) returns (n: nat)
    requires Formed(t) && NoExit(rs) && !Servable(t, rs)
    ensures n < |rs| && Servable(t, rs[..n]) && !CanServe(t, Held(rs[..n]), rs[n])
    ensures Paired(rs[..n]) ==>
              Short(Fed(c, t, w, rs), |Ordinaries(rs)| + 1) && (Ordinary(rs[|rs| - 1]) ==> Short(Fed(c, t, w, rs), |Ordinaries(rs)|))
    decreases |rs|
  {
    hide Fed, Feed, Ordinaries, Formed, Servable, CanServe, Held, Paired;
    ServableNothing(t);
    var front, r := rs[..|rs| - 1], rs[|rs| - 1];
    assert rs == front + [r];
    ServableMore(t, front, r);
    OrdinariesMore(front, r);
    FedMore(c, t, w, front, r);
    FedAlive(c, t, w, front);
    if Servable(t, front) {
      n := |rs| - 1;
      FeedNext(c, t, Fed(c, t, w, front), r);
      if Paired(front) { FedPaired(c, t, w, front); }
    } else {
      n := GoesShort(c, t, w, front);
      assert rs[..n] == front[..n] && rs[n] == front[n];
      FeedGone(c, t, Fed(c, t, w, front), r);
    }
  }

  lemma ServableNothing(t: Table)
    requires Formed(t)
    ensures Servable(t, [])
  {
  }

  /**
   A client that has just made an ordinary call is answered in step exactly if its PCI addresses
   were paired and every request found the entry point it needs.
   */
  lemma InStepExactlyPaired<W>(c: Code<W>, t: Table, w: W, rs: seq<Request>)
    requires Formed(t) && NoExit(rs) && !EndsInPci(rs)
    ensures InStep(Fed(c, t, w, rs).replies, Ordinaries(rs)) <==> Paired(rs) && Servable(t, rs)
  {
    hide Fed, Ordinaries, Formed, Servable, CanServe, Held, Paired;
    if Servable(t, rs) {
      if Paired(rs) {
        FedPaired(c, t, w, rs);
      } else {
        var k := EchoAt(c, t, w, rs);
        assert Ordinary(Ordinaries(rs)[k]);
      }
    } else {
      var n := GoesShort(c, t, w, rs);
      ServableNothing(t);
      if !Paired(rs[..n]) {
        EchoedBefore(c, t, w, rs, n);
      }
    }
  }

  lemma EchoedBefore<W>(c: Code<W>, t: Table, w: W, rs: seq<Request>, n: nat)
    requires Formed(t) && NoExit(rs) && !EndsInPci(rs) && n < |rs| && Servable(t, rs[..n]) && !Paired(rs[..n])
    ensures !InStep(Fed(c, t, w, rs).replies, Ordinaries(rs))
  {
    hide Fed, Ordinaries, Formed, Servable, Paired;
    var k := EchoAt(c, t, w, rs[..n]);
    RepliesGrow(c, t, w, rs, n);
    OrdinariesSplit(rs[..n], rs[n..]);
    assert rs == rs[..n] + rs[n..] && rs[n..][|rs| - n - 1] == rs[|rs| - 1];
    assert Ordinary(Ordinaries(rs)[k]);
  }

  /** The same of every run: all answers read so far match their calls if and only if this holds of what was sent. */
  lemma RunInStep<W>(c: Code<W>, t: Table, w: W, es: seq<Event>)
    requires Formed(t) && Run(c, t, Start(w), es).Some?
    ensures var s := Run(c, t, Start(w), es).value; var sent := AllSent(s);
            s.waiting.None? && !EndsInPci(sent) ==>
              (InStep(s.got, Ordinaries(sent)) <==> Paired(sent) && Servable(t, sent))
  {
    hide Fed, Ordinaries, Step, Paired, Servable;
    var s := Run(c, t, Start(w), es).value;
    StartInv(c, t, w);
    RunInv(c, t, w, Start(w), es);
    ReadFrom(c, t, w, s);
    if s.waiting.None? && !EndsInPci(AllSent(s)) {
      InStepExactlyPaired(c, t, w, AllSent(s));
    }
  }

  // ---------------------------------------------------------------- synchrony and progress

  /**
   A paired client is between operations: both pipes are empty, the server is waiting, and every
   request has been served.
   */
  lemma Quiet<W>(c: Code<W>, t: Table, w: W, s: System<W>)
    requires Formed(t) && Inv(c, t, w, s) && Paired(AllSent(s)) && Servable(t, AllSent(s))
    requires s.waiting.None? && !EndsInPci(AllSent(s))
    ensures s.phase == Reading && s.requests == [] && s.replies == [] && s.log == AllSent(s)
    ensures Fed(c, t, w, AllSent(s)) == Server(Ready, s.got, s.world, AllSent(s))
  {
    hide Fed, Ordinaries, Servable, Formed;
    var rest := InHand(s.phase) + s.requests;
    assert AllSent(s) == s.served + rest;
    PairedPrefix(s.served, rest);
    ServablePrefix(t, s.served, rest);
    FedPaired(c, t, w, s.served);
    OrdinariesSplit(s.served, rest);
    assert s.served == AllSent(s);
  }

  lemma PairedPrefix(a: seq<Request>, b: seq<Request>)
    requires Paired(a + b) && NoExit(a + b)
    ensures Paired(a) && NoExit(a)
  {
    forall k | 0 <= k < |a| ensures a[k] == (a + b)[k] {}
  }

  lemma {:induction false} OrdinariesSplit(a: seq<Request>, b: seq<Request>)
    ensures Ordinaries(a + b) == Ordinaries(a) + Ordinaries(b)
    ensures b != [] && Ordinary(b[|b| - 1]) ==> Ordinaries(b) != []
    decreases |b|
  {
    if b == [] {
      assert a + b == a;
    } else {
      assert (a + b)[..|a + b| - 1] == a + b[..|b| - 1];
      OrdinariesSplit(a, b[..|b| - 1]);
    }
  }

  // ---------------------------------------------------------------- the server made invisible

  /** The request made directly, through the emulator's own dispatch: the answer it deserves. */
  function DirectOne<W>(c: Code<W>, t: Table, r: Request, w: W): Got<Request, W>
    requires Formed(t)
  {
    match r.kind
    case InB_ => var g := InB(c, t, r.port, w); Got(r.(word := g.value), g.world)
    case InW_ => var g := InW(c, t, r.port, w); Got(r.(word := g.value), g.world)
    case InD_ => var g := InD(c, t, r.port, w); Got(r.(word := g.value), g.world)
    case OutB_ => Got(r, OutB(c, t, r.port, r.word % 0x100, w))
    case OutW_ => Got(r, OutW(c, t, r.port, r.word % 0x1_0000, w))
    case OutD_ => Got(r, OutD(c, t, r.port, r.word, w))
    case Pci => Got(r, OutD(c, t, r.port, r.word, w))
    case Exit => Got(r, w)
  }

  /** A stream made directly, one request after the other: the answers to the ordinary ones. */
  function Direct<W>(c: Code<W>, t: Table, w: W, rs: seq<Request>): Got<seq<Request>, W>
    requires Formed(t)
    decreases |rs|
  {
    if rs == [] then Got([], w)
    else
      var before := Direct(c, t, w, rs[..|rs| - 1]);
      var one := DirectOne(c, t, rs[|rs| - 1], before.world);
      Got(if Ordinary(rs[|rs| - 1]) then before.value + [one.value] else before.value, one.world)
  }

  /** The handlers of the `n` ports from `p` up are registered with one argument. */
  predicate SameArg(t: Table, p: Port, n: nat)
    requires Formed(t)
  {
    forall k | 0 <= k < n :: At(t, Next(p, k)).arg == At(t, p).arg
  }

  /** How many ports a request touches. */
  function Width(k: Kind): (n: nat)
    ensures 1 <= n <= 4
  {
    if k.InB_? || k.OutB_? then 1 else if k.InW_? || k.OutW_? then 2 else 4
  }

  /** What the server passes on, when it splits a request, is right: one argument, and wide functions that agree. */
  ghost predicate SplitOk<W(!new)>(c: Code<W>, t: Table, r: Request)
    requires Formed(t)
  {
    match r.kind
    case InW_ => ReadTogether(t, r.port, 2) || SameArg(t, r.port, 2)
    case OutW_ => WriteTogether(t, r.port, 2) || SameArg(t, r.port, 2)
    case InD_ => ReadTogether(t, r.port, 4) || (SameArg(t, r.port, 4) && WellBehaved(c, t, r.port, 4))
    case OutD_ => WriteTogether(t, r.port, 4) || (SameArg(t, r.port, 4) && WellBehaved(c, t, r.port, 4))
    case _ => true
  }

  /** The `n` ports from `p` and from `q` up have the same handlers. */
  predicate Alike(t: Table, p: Port, q: Port, n: nat)
    requires Formed(t) && n <= 4
  {
    Four(t, p)[..n] == Four(t, q)[..n]
  }

  /**
   The use the client makes of the server: requests that are split are split rightly; a PCI
   address register lies within one handler, and the ports of its data request have the same
   handlers as the address.
   */
  ghost predicate StdUse<W(!new)>(c: Code<W>, t: Table, rs: seq<Request>)
    requires Formed(t)
  {
    forall k | 0 <= k < |rs| :: StdAt(c, t, rs, k)
  }

  ghost predicate StdAt<W(!new)>(c: Code<W>, t: Table, rs: seq<Request>, k: nat)
    requires Formed(t) && k < |rs|
  {
    if rs[k].kind.Pci? then
      WriteTogether(t, rs[k].port, 4) &&
      (k + 1 < |rs| ==> Alike(t, rs[k].port, rs[k + 1].port, Width(rs[k + 1].kind)))
    else SplitOk(c, t, rs[k])
  }

  /** Made directly, a request is the byte accesses of its width, upwards; a read is answered with the number they spell. */
  lemma DirectBytes<W(!new)>(c: Code<W>, t: Table, r: Request, w: W)
    requires Formed(t) && WellBehaved(c, t, r.port, Width(r.kind)) && !r.kind.Exit?
    ensures var d, read := DirectOne(c, t, r, w), r.kind.InB_? || r.kind.InW_? || r.kind.InD_?;
            var n := if r.kind.InB_? || r.kind.OutB_? then 1 else if r.kind.InW_? || r.kind.OutW_? then 2 else 4;
            d.value.kind == r.kind && d.value.port == r.port &&
            if read then
              var g := Bytes(c, t, Reads(r.port, n), w); d.value.word == Value(g.value) && d.world == g.world
            else d.value.word == r.word && d.world == Bytes(c, t, Writes(r.port, n, r.word), w).world
  {
    hide InB, OutB, InW, OutW, InD, OutD, Bytes, Reads, Writes, WellBehaved, Formed, Value;
    match r.kind
    case InB_ => OneRead(c, t, r.port, w);
    case OutB_ => OneWrite(c, t, r.port, r.word, w);
    case InW_ => InWBytes(c, t, r.port, w);
    case OutW_ =>
      OutWBytes(c, t, r.port, r.word % 0x1_0000, w);
      LowDigits(r.port, r.word);
    case InD_ => InDBytes(c, t, r.port, w);
    case OutD_ => OutDBytes(c, t, r.port, r.word, w);
    case Pci => OutDBytes(c, t, r.port, r.word, w);
  }

  lemma OneRead<W>(c: Code<W>, t: Table, p: Port, w: W)
    requires Formed(t)
    ensures var b, g := InB(c, t, p, w), Bytes(c, t, Reads(p, 1), w); Value(g.value) == b.value && g.world == b.world
  {
    hide Formed, InB, Next;
    var b, one := InB(c, t, p, w), Reads(p, 1);
    assert one == [Rd(p)] && one[1..] == [];
    assert Bytes(c, t, one[1..], b.world) == Got([], b.world);
    assert [b.value] + [] == [b.value];
    assert [b.value][1..] == [];
  }

  lemma OneWrite<W>(c: Code<W>, t: Table, p: Port, v: nat, w: W)
    requires Formed(t)
    ensures OutB(c, t, p, v % 0x100, w) == Bytes(c, t, Writes(p, 1, v), w).world
  {
    hide Formed, OutB, Next;
    assert Writes(p, 1, v) == [Wr(p, v % 0x100)] && Writes(p, 1, v)[1..] == [];
  }

  lemma {:induction false} SplitReadBytes<W>(c: Code<W>, t: Table, ph: seq<Handler>, arg: nat, p: Port, w: W)
    requires Formed(t)
    requires forall k | 0 <= k < |ph| :: ph[k] == At(t, Next(p, k)) && ph[k].arg == arg
    ensures SplitRead(c, ph, arg, p, w) == Bytes(c, t, Reads(p, |ph|), w)
    decreases ph
  {
    hide Next, At, Formed;
    if ph != [] {
      NextZero(p);
      assert ph[0] == At(t, Next(p, 0));
      forall k | 0 <= k < |ph| - 1 ensures ph[1..][k] == At(t, Next(Next(p, 1), k)) && ph[1..][k].arg == arg {
        NextNext(p, 1, k);
        assert ph[1..][k] == ph[k + 1];
      }
      SplitReadBytes(c, t, ph[1..], arg, Next(p, 1), ReadVia(c, ph[0], arg, p, w).world);
    }
  }

  lemma {:induction false} SplitWriteBytes<W>(c: Code<W>, t: Table, ph: seq<Handler>, arg: nat, p: Port, v: nat, w: W)
    requires Formed(t)
    requires forall k | 0 <= k < |ph| :: ph[k] == At(t, Next(p, k)) && ph[k].arg == arg
    ensures SplitWrite(c, ph, arg, p, v, w) == Bytes(c, t, Writes(p, |ph|, v), w).world
    decreases ph
  {
    hide Next, At, Formed;
    if ph != [] {
      NextZero(p);
      assert ph[0] == At(t, Next(p, 0));
      forall k | 0 <= k < |ph| - 1 ensures ph[1..][k] == At(t, Next(Next(p, 1), k)) && ph[1..][k].arg == arg {
        NextNext(p, 1, k);
        assert ph[1..][k] == ph[k + 1];
      }
      SplitWriteBytes(c, t, ph[1..], arg, Next(p, 1), v / 0x100, WriteVia(c, ph[0], arg, p, v % 0x100, w));
    }
  }

  /** Server and dispatcher take the wide functions in the same cases. */
  lemma FourTogether(t: Table, p: Port)
    requires Formed(t)
    ensures forall k | 0 <= k < 4 :: Four(t, p)[k] == At(t, Next(p, k))
    ensures SameRead(Four(t, p)[..2]) <==> ReadTogether(t, p, 2)
    ensures SameRead(Four(t, p)) <==> ReadTogether(t, p, 4)
    ensures SameWrite(Four(t, p)[..2]) <==> WriteTogether(t, p, 2)
    ensures SameWrite(Four(t, p)) <==> WriteTogether(t, p, 4)
  {
    var ph := Four(t, p);
    assert Next(p, 0) == p;
    forall k | 0 <= k < 4 ensures ph[k] == At(t, Next(p, k)) {}
    hide Next, At;
    assert forall k | 0 <= k < 2 :: ph[..2][k] == ph[k];
  }

  lemma SplitFourRead<W>(c: Code<W>, t: Table, p: Port, n: nat, w: W)
    requires Formed(t) && SameArg(t, p, n) && 1 <= n <= 4
    ensures SplitRead(c, Four(t, p)[..n], Four(t, p)[0].arg, p, w) == Bytes(c, t, Reads(p, n), w)
  {
    var ph := Four(t, p);
    FourTogether(t, p);
    hide SplitRead, Bytes, Four, Next, At, Formed, ReadTogether, WriteTogether, SameRead, SameWrite;
    NextZero(p);
    forall k | 0 <= k < n ensures ph[..n][k] == At(t, Next(p, k)) && ph[..n][k].arg == ph[0].arg {
      assert ph[k] == At(t, Next(p, k)) && ph[0] == At(t, Next(p, 0));
    }
    SplitReadBytes(c, t, ph[..n], ph[0].arg, p, w);
  }

  lemma SplitFourWrite<W>(c: Code<W>, t: Table, p: Port, n: nat, v: nat, w: W)
    requires Formed(t) && SameArg(t, p, n) && 1 <= n <= 4
    ensures SplitWrite(c, Four(t, p)[..n], Four(t, p)[0].arg, p, v, w) == Bytes(c, t, Writes(p, n, v), w).world
  {
    var ph := Four(t, p);
    FourTogether(t, p);
    hide SplitWrite, Bytes, Four, Next, At, Formed, ReadTogether, WriteTogether, SameRead, SameWrite;
    NextZero(p);
    forall k | 0 <= k < n ensures ph[..n][k] == At(t, Next(p, k)) && ph[..n][k].arg == ph[0].arg {
      assert ph[k] == At(t, Next(p, k)) && ph[0] == At(t, Next(p, 0));
    }
    SplitWriteBytes(c, t, ph[..n], ph[0].arg, p, v, w);
  }

  lemma FirstOfFour(t: Table, p: Port)
    requires Formed(t)
    ensures Four(t, p)[0] == At(t, p)
  {
  }

  lemma WordViaDirect<W>(c: Code<W>, t: Table, p: Port, w: W)
    requires Formed(t) && (if ReadTogether(t, p, 2) then At(t, p).readw.Some? else SameArg(t, p, 2))
    ensures WordVia(c, Four(t, p), p, w) == Some(Word_(InW(c, t, p, w)))
  {
    hide Formed, SameArg, Next, At, ReadTogether, WriteTogether, SameRead, SameWrite, Four, SplitRead, Bytes, Reads, Value;
    FourTogether(t, p);
    FirstOfFour(t, p);
    if !ReadTogether(t, p, 2) {
      SplitFourRead(c, t, p, 2, w);
      TwoReads(c, t, p, w);
    }
  }

  lemma DwordViaDirect<W(!new)>(c: Code<W>, t: Table, p: Port, w: W)
    requires Formed(t)
    requires if ReadTogether(t, p, 4) then At(t, p).readd.Some? else SameArg(t, p, 4) && WellBehaved(c, t, p, 4)
    ensures DwordVia(c, Four(t, p), p, w) == Some(Dword_(InD(c, t, p, w)))
  {
    hide Formed, SameArg, Next, At, ReadTogether, WriteTogether, SameRead, SameWrite, Four, SplitRead, Bytes, Reads, Value, InW, WellBehaved;
    FourTogether(t, p);
    FirstOfFour(t, p);
    if !ReadTogether(t, p, 4) {
      assert Four(t, p)[..4] == Four(t, p);
      SplitFourRead(c, t, p, 4, w);
      InDBytes(c, t, p, w);
    }
  }

  lemma LowDigits(p: Port, v: dword)
    ensures Writes(p, 2, v % 0x1_0000) == Writes(p, 2, v)
  {
    var u := v % 0x1_0000;
    HalfDigits(v);
    WritesTwo(p, 0, u);
    WritesTwo(p, 0, v);
    assert Writes(Next(p, 2), 0, u / 0x100 / 0x100) == [] == Writes(Next(p, 2), 0, v / 0x100 / 0x100);
  }

  lemma WordOutViaDirect<W>(c: Code<W>, t: Table, p: Port, v: dword, w: W)
    requires Formed(t) && (if WriteTogether(t, p, 2) then At(t, p).writew.Some? else SameArg(t, p, 2))
    ensures WordOutVia(c, Four(t, p), p, v, w) == Some(OutW(c, t, p, v % 0x1_0000, w))
  {
    hide Formed, SameArg, Next, At, ReadTogether, WriteTogether, SameRead, SameWrite, Four, SplitWrite, Bytes, Writes, OutPair;
    FourTogether(t, p);
    FirstOfFour(t, p);
    if !WriteTogether(t, p, 2) {
      SplitFourWrite(c, t, p, 2, v, w);
      TwoWrites(c, t, p, v % 0x1_0000, w);
      LowDigits(p, v);
    }
  }

  lemma DwordOutViaDirect<W(!new)>(c: Code<W>, t: Table, p: Port, v: dword, w: W)
    requires Formed(t)
    requires if WriteTogether(t, p, 4) then At(t, p).writed.Some? else SameArg(t, p, 4) && WellBehaved(c, t, p, 4)
    ensures DwordOutVia(c, Four(t, p), p, v, w) == Some(OutD(c, t, p, v, w))
  {
    hide Formed, SameArg, Next, At, ReadTogether, WriteTogether, SameRead, SameWrite, Four, SplitWrite, Bytes, Writes, OutW, WellBehaved;
    FourTogether(t, p);
    FirstOfFour(t, p);
    if !WriteTogether(t, p, 4) {
      assert Four(t, p)[..4] == Four(t, p);
      SplitFourWrite(c, t, p, 4, v, w);
      OutDBytes(c, t, p, v, w);
    }
  }

  /** The server's own splitting, in bytes where the dispatcher goes by words, comes to the same. */
  lemma ServeDirect<W(!new)>(c: Code<W>, t: Table, r: Request, w: W)
    requires Formed(t) && Ordinary(r) && Able(Four(t, r.port), r) && SplitOk(c, t, r)
    ensures var d := DirectOne(c, t, r, w); Serve(c, Four(t, r.port), r, w) == Answer(d.value, d.world)
  {
    AbleMeans(t, r);
    hide *;
    SplitMeans(c, t, r);
    match r.kind {
      case InW_ => WordViaDirect(c, t, r.port, w);
      case InD_ => DwordViaDirect(c, t, r.port, w);
      case OutW_ => WordOutViaDirect(c, t, r.port, r.word, w);
      case OutD_ => DwordOutViaDirect(c, t, r.port, r.word, w);
      case _ =>
    }
    Assembled(c, t, r, w);
  }

  lemma AbleMeans(t: Table, r: Request)
    requires Formed(t) && Able(Four(t, r.port), r)
    ensures r.kind.InW_? && ReadTogether(t, r.port, 2) ==> At(t, r.port).readw.Some?
    ensures r.kind.OutW_? && WriteTogether(t, r.port, 2) ==> At(t, r.port).writew.Some?
    ensures r.kind.InD_? && ReadTogether(t, r.port, 4) ==> At(t, r.port).readd.Some?
    ensures r.kind.OutD_? && WriteTogether(t, r.port, 4) ==> At(t, r.port).writed.Some?
  {
    hide Formed, Next, At, ReadTogether, WriteTogether, SameRead, SameWrite, Four;
    FourTogether(t, r.port);
    FirstOfFour(t, r.port);
  }

  lemma SplitMeans<W(!new)>(c: Code<W>, t: Table, r: Request)
    requires Formed(t) && SplitOk(c, t, r)
    ensures r.kind.InW_? && !ReadTogether(t, r.port, 2) ==> SameArg(t, r.port, 2)
    ensures r.kind.OutW_? && !WriteTogether(t, r.port, 2) ==> SameArg(t, r.port, 2)
    ensures r.kind.InD_? && !ReadTogether(t, r.port, 4) ==> SameArg(t, r.port, 4) && WellBehaved(c, t, r.port, 4)
    ensures r.kind.OutD_? && !WriteTogether(t, r.port, 4) ==> SameArg(t, r.port, 4) && WellBehaved(c, t, r.port, 4)
  {
    hide Formed, ReadTogether, WriteTogether, SameArg, WellBehaved;
  }

  lemma Assembled<W>(c: Code<W>, t: Table, r: Request, w: W)
    requires Formed(t) && Ordinary(r)
    requires r.kind.InW_? ==> WordVia(c, Four(t, r.port), r.port, w) == Some(Word_(InW(c, t, r.port, w)))
    requires r.kind.InD_? ==> DwordVia(c, Four(t, r.port), r.port, w) == Some(Dword_(InD(c, t, r.port, w)))
    requires r.kind.OutW_? ==> WordOutVia(c, Four(t, r.port), r.port, r.word, w) == Some(OutW(c, t, r.port, r.word % 0x1_0000, w))
    requires r.kind.OutD_? ==> DwordOutVia(c, Four(t, r.port), r.port, r.word, w) == Some(OutD(c, t, r.port, r.word, w))
    ensures var d := DirectOne(c, t, r, w); Serve(c, Four(t, r.port), r, w) == Answer(d.value, d.world)
  {
    hide Formed, InW, InD, OutW, OutD, WordVia, DwordVia, WordOutVia, DwordOutVia, At, Next;
  }

  lemma DirectMore<W>(c: Code<W>, t: Table, w: W, rs: seq<Request>, r: Request)
    requires Formed(t)
    ensures var before := Direct(c, t, w, rs);
            var one := DirectOne(c, t, r, before.world);
            Direct(c, t, w, rs + [r]) ==
            Got(if Ordinary(r) then before.value + [one.value] else before.value, one.world)
  {
  }

  /** The switch looks at no more handlers than the request touches ports. */
  lemma ServeSame<W>(c: Code<W>, ph: seq<Handler>, qh: seq<Handler>, r: Request, w: W)
    requires |ph| == |qh| == 4 && ph[..Width(r.kind)] == qh[..Width(r.kind)]
    ensures Serve(c, ph, r, w) == Serve(c, qh, r, w) && (Able(ph, r) <==> Able(qh, r))
  {
    hide SplitRead, SplitWrite, SameRead, SameWrite;
    assert ph[0] == ph[..Width(r.kind)][0] && qh[0] == qh[..Width(r.kind)][0];
    assert Width(r.kind) == 4 ==> ph == ph[..4] && qh == qh[..4];
  }

  /** A PCI pair is the address written and then the data request made, nothing between. */
  lemma PairDirect<W(!new)>(c: Code<W>, t: Table, a: Request, r: Request, w: W)
    requires Formed(t) && a.kind.Pci? && Ordinary(r) && CanServe(t, Some(a), r) && SplitOk(c, t, r)
    requires WriteTogether(t, a.port, 4) && Alike(t, a.port, r.port, Width(r.kind))
    ensures var d := DirectOne(c, t, r, DirectOne(c, t, a, w).world);
            ServePair(c, t, a, r, w) == Answer(d.value, d.world)
  {
    hide SplitOk, Formed, Next, At, Four, OutW, Serve, Able, WriteTogether;
    FirstOfFour(t, a.port);
    var w' := OutD(c, t, a.port, a.word, w);
    ServeSame(c, Four(t, a.port), Four(t, r.port), r, w');
    ServeDirect(c, t, r, w');
  }

  /** What the server makes of a paired stream is what the stream made directly comes to. */
  lemma {:induction false} FedDirect<W(!new)>(c: Code<W>, t: Table, w: W, rs: seq<Request>)
    requires Formed(t) && Servable(t, rs) && NoExit(rs) && Paired(rs) && StdUse(c, t, rs)
    ensures var d := Direct(c, t, w, Settled(rs));
            Fed(c, t, w, rs).replies == d.value && Fed(c, t, w, rs).world == d.world
    decreases |rs|
  {
    hide Formed, StdUse, Direct, DirectOne, Fed, Feed, Servable, CanServe, Held, Paired;
    if rs == [] {
      FedNothing(c, t, w);
      DirectNothing(c, t, w);
    } else {
      var front, r := rs[..|rs| - 1], rs[|rs| - 1];
      assert rs == front + [r];
      PairedPrefix(front, [r]);
      ServableMore(t, front, r);
      SettledMore(front, r);
      StdPrefix(c, t, front, r);
      FedDirect(c, t, w, front);
      FedMore(c, t, w, front, r);
      FedPaired(c, t, w, front);
      FedAlive(c, t, w, front);
      var f := Fed(c, t, w, front);
      if EndsInPci(front) {
        var g, a := front[..|front| - 1], front[|front| - 1];
        assert rs == g + [a] + [r];
        DirectMore(c, t, w, g, a);
        DirectMore(c, t, w, g + [a], r);
        FeedPair(c, t, f, r);
      } else {
        DirectMore(c, t, w, front, r);
        FeedOne(c, t, f, r);
      }
    }
  }

  lemma DirectNothing<W>(c: Code<W>, t: Table, w: W)
    requires Formed(t)
    ensures Direct(c, t, w, []) == Got([], w)
  {
  }

  lemma FeedPair<W(!new)>(c: Code<W>, t: Table, f: Server<W>, r: Request)
    requires Formed(t) && f.stage.Holding? && f.stage.a.kind.Pci? && Ordinary(r)
    requires CanServe(t, Some(f.stage.a), r) && SplitOk(c, t, r)
    requires WriteTogether(t, f.stage.a.port, 4) && Alike(t, f.stage.a.port, r.port, Width(r.kind))
    ensures var d := DirectOne(c, t, r, DirectOne(c, t, f.stage.a, f.world).world);
            var g := Feed(c, t, f, r);
            g.replies == f.replies + [d.value] && g.world == d.world
  {
    hide SplitOk, Formed, CanServe, DirectOne, ServePair, Alike, WriteTogether;
    PairDirect(c, t, f.stage.a, r, f.world);
  }

  lemma FeedOne<W(!new)>(c: Code<W>, t: Table, f: Server<W>, r: Request)
    requires Formed(t) && f.stage.Ready? && !r.kind.Exit? && CanServe(t, None, r) && SplitOk(c, t, r)
    ensures var d := DirectOne(c, t, r, f.world);
            var g := Feed(c, t, f, r);
            if r.kind.Pci? then g.replies == f.replies && g.world == f.world
            else g.replies == f.replies + [d.value] && g.world == d.world
  {
    hide SplitOk, Formed, DirectOne, Serve, Able;
    if !r.kind.Pci? { ServeDirect(c, t, r, f.world); }
  }

  lemma StdPrefix<W(!new)>(c: Code<W>, t: Table, front: seq<Request>, r: Request)
    requires Formed(t) && StdUse(c, t, front + [r])
    ensures StdUse(c, t, front) && SplitOk(c, t, r)
    ensures EndsInPci(front) ==> WriteTogether(t, front[|front| - 1].port, 4) &&
                                 Alike(t, front[|front| - 1].port, r.port, Width(r.kind))
  {
    hide SplitOk, WriteTogether, Alike, Formed;
    PciSplit(c, t, r);
    var rs := front + [r];
    forall k | 0 <= k < |front| ensures StdAt(c, t, front, k) {
      assert StdAt(c, t, rs, k) && rs[k] == front[k] && (k + 1 < |front| ==> rs[k + 1] == front[k + 1]);
    }
    assert StdAt(c, t, rs, |front|);
    if front != [] { assert StdAt(c, t, rs, |front| - 1); }
  }

  lemma PciSplit<W(!new)>(c: Code<W>, t: Table, r: Request)
    requires Formed(t)
    ensures r.kind.Pci? ==> SplitOk(c, t, r)
  {
  }

  // ---------------------------------------------------------------- runs of a paired client

  /** A request pending in pipe or hand: none but one PCI address when the client is not waiting. */
  lemma PipesShort<W>(c: Code<W>, t: Table, w: W, s: System<W>)
    requires Formed(t) && Inv(c, t, w, s) && Paired(AllSent(s)) && Servable(t, AllSent(s))
    ensures |s.requests| <= 2 && |s.replies| <= 1
  {
    hide Fed, Ordinaries, Formed, Servable;
    var rest := InHand(s.phase) + s.requests;
    assert AllSent(s) == s.served + rest;
    PairedPrefix(s.served, rest);
    ServablePrefix(t, s.served, rest);
    PairedSuffix(s.served, rest);
    FedPaired(c, t, w, s.served);
    OrdinariesSplit(s.served, rest);
    if s.waiting.None? {
      FewOrdinaries(rest);
    } else if rest != [] {
      var front, r := rest[..|rest| - 1], rest[|rest| - 1];
      assert rest == front + [r];
      OrdinariesMore(front, r);
      PairedPrefix(front, [r]);
      FewOrdinaries(front);
    }
  }

  lemma PairedSuffix(a: seq<Request>, b: seq<Request>)
    requires Paired(a + b) && NoExit(a + b)
    ensures Paired(b) && NoExit(b)
  {
    forall k | 0 <= k < |b| ensures b[k] == (a + b)[|a| + k] {}
  }

  lemma FewOrdinaries(rs: seq<Request>)
    requires Paired(rs) && NoExit(rs) && Ordinaries(rs) == []
    ensures |rs| <= 1
  {
  }

  /** What a client that pairs its PCI addresses may rely on. */
  predicate Reliable<W(==)>(c: Code<W>, t: Table, w: W, s: System<W>)
    requires Formed(t)
  {
    var sent := AllSent(s);
    s.got <= Direct(c, t, w, Settled(sent)).value &&
    s.log <= sent && !EndsInPci(s.log) &&
    |s.requests| <= 2 && |s.replies| <= 1 &&
    (s.waiting.None? && !EndsInPci(sent) ==>
       s.phase == Reading && s.requests == [] && s.replies == [] && s.log == sent &&
       Got(s.got, s.world) == Direct(c, t, w, sent))
  }

  lemma InvReliable<W(!new)>(c: Code<W>, t: Table, w: W, s: System<W>)
    requires Formed(t) && Inv(c, t, w, s)
    requires Paired(AllSent(s)) && Servable(t, AllSent(s)) && StdUse(c, t, AllSent(s))
    ensures Reliable(c, t, w, s)
  {
    hide *;
    SentNoExit(c, t, w, s);
    ReadFrom(c, t, w, s);
    FedDirect(c, t, w, AllSent(s));
    PipesShort(c, t, w, s);
    LogInOrder(c, t, w, s);
    if s.waiting.None? && !EndsInPci(AllSent(s)) {
      Quiet(c, t, w, s);
      NothingHeld(AllSent(s));
    }
    AreReliable(c, t, w, s);
  }

  lemma AreReliable<W>(c: Code<W>, t: Table, w: W, s: System<W>)
    requires Formed(t)
    requires s.got <= Direct(c, t, w, Settled(AllSent(s))).value
    requires s.log <= AllSent(s) && !EndsInPci(s.log) && |s.requests| <= 2 && |s.replies| <= 1
    requires s.waiting.None? && !EndsInPci(AllSent(s)) ==>
               s.phase == Reading && s.requests == [] && s.replies == [] && s.log == AllSent(s) &&
               s.got == Direct(c, t, w, AllSent(s)).value && s.world == Direct(c, t, w, AllSent(s)).world
    ensures Reliable(c, t, w, s)
  {
  }

  lemma SentNoExit<W>(c: Code<W>, t: Table, w: W, s: System<W>)
    requires Formed(t) && Inv(c, t, w, s)
    ensures NoExit(AllSent(s))
  {
  }

  lemma NothingHeld(rs: seq<Request>)
    requires !EndsInPci(rs)
    ensures Settled(rs) == rs
  {
  }

  /**
   Every run of a client that pairs its PCI addresses, in every interleaving: the answers it has
   read are those of its requests made directly; an address goes to the devices only together
   with its data request, right before it; at most two requests and one answer are under way.
   Between operations both pipes are empty and nothing is left undone.
   */
  lemma ClientSees<W(!new)>(c: Code<W>, t: Table, w: W, es: seq<Event>)
    requires Formed(t) && Run(c, t, Start(w), es).Some?
    requires var sent := AllSent(Run(c, t, Start(w), es).value); Paired(sent) && Servable(t, sent) && StdUse(c, t, sent)
    ensures Reliable(c, t, w, Run(c, t, Start(w), es).value)
  {
    hide *;
    StartInv(c, t, w);
    RunInv(c, t, w, Start(w), es);
    InvReliable(c, t, w, Run(c, t, Start(w), es).value);
  }

  lemma LogInOrder<W>(c: Code<W>, t: Table, w: W, s: System<W>)
    requires Formed(t) && Inv(c, t, w, s) && Paired(AllSent(s)) && Servable(t, AllSent(s))
    ensures s.log <= AllSent(s) && !EndsInPci(s.log)
  {
    hide Fed, Ordinaries, Formed, Servable;
    var rest := InHand(s.phase) + s.requests;
    assert AllSent(s) == s.served + rest;
    PairedPrefix(s.served, rest);
    ServablePrefix(t, s.served, rest);
    FedPaired(c, t, w, s.served);
    assert s.log == Settled(s.served);
    if EndsInPci(s.served) && |s.served| > 1 {
      assert !s.served[|s.served| - 2].kind.Pci?;
    }
  }

  /** The answer a client reads is the one its own latest call deserves. */
  lemma OwnAnswer<W(!new)>(c: Code<W>, t: Table, w: W, s: System<W>)
    requires Formed(t) && Inv(c, t, w, s) && Paired(AllSent(s)) && Servable(t, AllSent(s)) && StdUse(c, t, AllSent(s))
    requires Step(c, t, s, Return).Some?
    ensures var sent := AllSent(s);
            var before := Direct(c, t, w, sent[..|sent| - 1]).world;
            s.replies[0] == DirectOne(c, t, s.waiting.value, before).value
  {
    hide *;
    var sent := AllSent(s);
    var s' := Step(c, t, s, Return).value;
    ReturnIs(c, t, w, s);
    var front, r := sent[..|sent| - 1], s.waiting.value;
    StepInv(c, t, w, s, Return);
    Quiet(c, t, w, s');
    NothingHeld(sent);
    FedDirect(c, t, w, sent);
    DirectMore(c, t, w, front, r);
    assert s'.got[|s.got|] == s.replies[0];
    var before := Direct(c, t, w, front);
    assert s'.got == before.value + [DirectOne(c, t, r, before.world).value];
    assert |before.value| == |s.got|;
  }

  lemma ReturnIs<W>(c: Code<W>, t: Table, w: W, s: System<W>)
    requires Formed(t) && Inv(c, t, w, s) && Step(c, t, s, Return).Some?
    ensures var s' := Step(c, t, s, Return).value; var sent := AllSent(s);
            s.replies != [] && AllSent(s') == sent && s'.got == s.got + [s.replies[0]] && s'.waiting.None? &&
            s.waiting.Some? && Ordinary(s.waiting.value) && NoExit(sent) && !EndsInPci(sent) &&
            sent != [] && sent == sent[..|sent| - 1] + [s.waiting.value]
  {
  }

  // ---------------------------------------------------------------- progress

  /** Steps still to be taken, at most. */
  function Work<W>(s: System<W>): nat {
    4 * |s.requests| + |s.replies| + (if s.phase.Working? then 3 else if s.phase.Writing? then 2 else 0)
  }

  /** Every step but a new call is progress. */
  lemma StepsEnd<W>(c: Code<W>, t: Table, s: System<W>, e: Event)
    requires Formed(t) && Step(c, t, s, e).Some? && !e.Call? && !e.PciCall?
    ensures Work(Step(c, t, s, e).value) < Work(s)
  {
  }

  /** A client that waits is never stuck: it or the server can move, until it has its answer. */
  lemma NeverStuck<W>(c: Code<W>, t: Table, w: W, s: System<W>)
    requires Formed(t) && Inv(c, t, w, s) && Paired(AllSent(s)) && Servable(t, AllSent(s)) && s.waiting.Some?
    ensures Work(s) <= 12
    ensures exists e | e in [Return, ServerReads, ServerWorks, ServerWrites] :: Step(c, t, s, e).Some?
  {
    hide Fed, Ordinaries, Serve, ServePair, Four, Formed, Servable, Paired;
    PipesShort(c, t, w, s);
    if s.replies == [] { Movable(c, t, w, s); }
    var e := if s.replies != [] then Return else if s.phase.Working? then ServerWorks
             else if s.phase.Writing? then ServerWrites else ServerReads;
    assert Step(c, t, s, e).Some?;
  }

  lemma Movable<W>(c: Code<W>, t: Table, w: W, s: System<W>)
    requires Formed(t) && Inv(c, t, w, s) && Paired(AllSent(s)) && Servable(t, AllSent(s)) && s.waiting.Some? && s.replies == []
    ensures s.phase.Working? || s.phase.Writing? || (!s.phase.Dead? && s.requests != [])
  {
    hide Fed, Ordinaries, Formed, Servable;
    var rest := InHand(s.phase) + s.requests;
    assert AllSent(s) == s.served + rest;
    PairedPrefix(s.served, rest);
    ServablePrefix(t, s.served, rest);
    FedPaired(c, t, w, s.served);
    assert s.requests == [] && !s.phase.Working? ==> AllSent(s) == s.served;
  }

  // ---------------------------------------------------------------- the loop

  lemma {:induction false} GoneStays<W>(c: Code<W>, t: Table, w: W, rs: seq<Request>, n: nat)
    requires Formed(t) && n <= |rs| && Fed(c, t, w, rs[..n]).stage.Gone?
    ensures Fed(c, t, w, rs) == Fed(c, t, w, rs[..n])
    decreases |rs|
  {
    hide Feed, Formed;
    if n == |rs| {
      assert rs[..n] == rs;
    } else {
      var front, r := rs[..|rs| - 1], rs[|rs| - 1];
      assert front[..n] == rs[..n];
      GoneStays(c, t, w, front, n);
      FeedGone(c, t, Fed(c, t, w, front), r);
    }
  }

  lemma FeedGone<W>(c: Code<W>, t: Table, f: Server<W>, r: Request)
    requires Formed(t) && f.stage.Gone?
    ensures Feed(c, t, f, r) == f
  {
  }

  /**
   The loop of port_server on the requests `input`, until it would block on an empty pipe, is
   told to exit, or calls a null pointer.
   */
  method PortServerLoop<W>(c: Code<W>, t: Table, w: W, input: seq<Request>) returns (end: Server<W>)
    requires Formed(t)
    ensures end == Fed(c, t, w, input)
  {
    hide Serve, ServePair, Four, Fed, Formed;
    var replies, log: seq<Request>, world, i := [], [], w, 0;
    assert input[..0] == [];
    FedNothing(c, t, w);
    while i < |input|
      invariant 0 <= i <= |input| && Fed(c, t, w, input[..i]) == Server(Ready, replies, world, log)
    {
      var pr := input[i];
      assert input[..i + 1] == input[..i] + [pr];
      FedMore(c, t, w, input[..i], pr);
      i := i + 1;
      if pr.kind.Exit? {
        GoneStays(c, t, w, input, i);
        return Server(Gone, replies, world, log);
      }
      var did := [pr];
      var o: Served<W>;
      if pr.kind.Pci? {
        if i == |input| {
          assert input[..i] == input;
          return Server(Holding(pr), replies, world, log);
        }
        var second := input[i];
        assert input[..i + 1] == input[..i] + [second];
        FedMore(c, t, w, input[..i], second);
        i := i + 1;
        did := [pr, second];
        o := ServePair(c, t, pr, second, world);
      } else {
        o := Serve(c, Four(t, pr.port), pr, world);
      }
      if o.Crash? {
        GoneStays(c, t, w, input, i);
        return Server(Gone, replies, world, log);
      }
      replies, world, log := replies + [o.reply], o.world, log + did;
    }
    assert input[..i] == input;
    end := Server(Ready, replies, world, log);
  }

  lemma FedNothing<W>(c: Code<W>, t: Table, w: W)
    requires Formed(t)
    ensures Fed(c, t, w, []) == Server(Ready, [], w, [])
  {
  }
}
