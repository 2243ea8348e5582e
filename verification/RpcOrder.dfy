/** Each connection of the server, with its socket buffers, result queue and workers, is as a server that answers one
    request at a time: requests wait in one queue, results in another. */
module RpcOrder {

  import opened RpcReactor
  import opened RpcExclusion

  /** A connection as its client may think of it. */
  datatype Conn = Conn(coming: seq<Request>, back: seq<Result>)

  datatype Act = Idling | Joins(request: Request) | Answers | Leaves | Opens(left: seq<Result>)

  function Do(c: Conn, act: Act): Conn
  {
    match act
    case Idling => c
    case Joins(request) => c.(coming := c.coming + [request])
    case Answers => if c.coming == [] then c else Conn(c.coming[1..], c.back + Served([c.coming[0]]))
    case Leaves => if c.back == [] then c else c.(back := c.back[1..])
    case Opens(left) => Conn([], left)
  }

  /** What is on its way on descriptor fd, oldest first. */
  function ConnOf(s: Server, fd: nat): Conn
    requires fd < |s.lines|
  {
    var l := s.lines[fd];
    Conn(Ins(s.workers, fd) + l.up, l.down + Outs(s.workers, fd) + l.pipe)
  }

  /** The same, with nothing on its way before there is such a descriptor. */
  function ConnAt(s: Server, fd: nat): Conn
  {
    if fd < |s.lines| then ConnOf(s, fd) else Conn([], [])
  }

  /** The same when x is the only worker on fd. */
  function Carried(l: Line, x: Worker, fd: nat): Conn
  {
    Conn(InOf(x, fd) + l.up, l.down + OutOf(x, fd) + l.pipe)
  }

  lemma OnlyHand(s: Server, w: nat)
    requires w < |s.workers| && s.workers[w].Busy? && s.workers[w].fd < |s.lines|
    requires WorkerCount(s.workers, s.workers[w].fd) <= 1
    ensures ConnOf(s, s.workers[w].fd) == Carried(s.lines[s.workers[w].fd], s.workers[w], s.workers[w].fd)
  {
    InHand(s.workers, w, s.workers[w].fd);
  }

  lemma EmptyHands(s: Server, fd: nat, x: Worker)
    requires fd < |s.lines| && WorkerCount(s.workers, fd) == 0 && On(x, fd) == 0
    ensures ConnOf(s, fd) == Carried(s.lines[fd], x, fd)
  {
    NoHands(s.workers, fd);
  }

  /** The worker w, the only one on fd, goes on to x, while the line becomes l. */
  lemma HandsMove(s: Server, w: nat, l: Line, x: Worker)
    requires Exclusive(s) && w < |s.workers| && s.workers[w].Busy? && s.workers[w].fd < |s.lines|
    requires x.Busy? ==> x.fd == s.workers[w].fd
    ensures var fd := s.workers[w].fd;
      && ConnOf(SetWorker(SetLine(s, fd, l), w, x), fd) == Carried(l, x, fd)
      && ConnOf(s, fd) == Carried(s.lines[fd], s.workers[w], fd)
  {
    var fd := s.workers[w].fd;
    SoleHolder(s, w);
    WorkerUpdated(s.workers, w, x, fd);
    hide ConnOf, Carried, Holders, Exclusive;
    OnlyHand(s, w);
    if x.Busy? {
      OnlyHand(SetWorker(SetLine(s, fd, l), w, x), w);
    } else {
      EmptyHands(SetWorker(SetLine(s, fd, l), w, x), fd, x);
    }
  }

  lemma OthersStay(s: Server, w: nat, l: Line, x: Worker, g: nat)
    requires w < |s.workers| && s.workers[w].Busy? && s.workers[w].fd < |s.lines|
    requires x.Busy? ==> x.fd == s.workers[w].fd
    requires g < |s.lines| && g != s.workers[w].fd
    ensures ConnOf(SetWorker(SetLine(s, s.workers[w].fd, l), w, x), g) == ConnOf(s, g)
  {
    OtherHands(s.workers, w, x, g);
  }

  /** What a piece of work of worker w is for connection g: an answer, when it writes the result of a request it has
      handled, and otherwise nothing. */
  function WorkAct(s: Server, w: nat, g: nat): Act
  {
    if w < |s.workers| && s.workers[w].Busy? && s.workers[w].fd == g && s.workers[w].stage.Handling? then Answers
    else Idling
  }

  lemma CarriedRead(l: Line, fd: nat)
    requires l.up != []
    ensures Carried(l, Busy(fd, Taken(ReadEvent)), fd)
         == Carried(l.(up := l.up[1..]), Busy(fd, Handling(l.up[0])), fd)
  {
  }

  lemma ServedOne(r: Request)
    ensures Served([r]) == if r.needReturn then [Reply(r)] else []
  {
    assert [r][1..] == [];
  }

  lemma CarriedHandled(l: Line, request: Request, fd: nat)
    ensures Do(Carried(l, Busy(fd, Handling(request)), fd), Answers)
         == Carried(if request.needReturn then l.(pipe := l.pipe + [Reply(request)]) else l, Busy(fd, Finished), fd)
  {
    ServedOne(request);
    assert ([request] + l.up)[1..] == l.up;
  }

  lemma CarriedPopped(l: Line, fd: nat)
    requires l.pipe != []
    ensures Carried(l, Busy(fd, Taken(WriteEvent)), fd)
         == Carried(l.(pipe := l.pipe[1..]), Busy(fd, Sending(l.pipe[0])), fd)
  {
    assert [l.pipe[0]] + l.pipe[1..] == l.pipe;
  }

  lemma CarriedSent(l: Line, result: Result, fd: nat)
    ensures Carried(l, Busy(fd, Sending(result)), fd)
         == Carried(l.(down := l.down + [result]), Busy(fd, Finished), fd)
  {
  }

  /** A worker with nothing in hand carries what any other such worker does, however the line is armed. */
  lemma CarriedEmpty(l: Line, l': Line, x: Worker, x': Worker, fd: nat)
    requires l' == l.(open := l'.open, armed := l'.armed)
    requires forall y :: y in {x, x'} ==> y.Busy? ==> !y.stage.Sending? && !y.stage.Handling?
    ensures Carried(l, x, fd) == Carried(l', x', fd)
  {
  }

  /** A piece of work other than an accept, as a change of its line and its worker. */
  lemma WorkCarries(s: Server, w: nat) returns (l: Line, x: Worker)
    requires Inv(s) && w < |s.workers| && s.workers[w].Busy? && s.workers[w] != Busy(0, Taken(ReadEvent))
    ensures var fd := s.workers[w].fd;
      && fd < |s.lines|
      && (x.Busy? ==> x.fd == fd)
      && WorkOn(s, w, fd, s.workers[w].stage) == SetWorker(SetLine(s, fd, l), w, x)
      && Carried(l, x, fd) == Do(Carried(s.lines[fd], s.workers[w], fd), WorkAct(s, w, fd))
  {
    var fd, stage := s.workers[w].fd, s.workers[w].stage;
    assert WorkerOk(s, s.workers[w]);
    l, x := s.lines[fd], Idle;
    assert SetLine(s, fd, l) == s;
    hide Inv, Carried;
    match stage {
      case Taken(ReadEvent) =>
        CarriedRead(l, fd);
        l, x := l.(up := l.up[1..]), Busy(fd, Handling(l.up[0]));
      case Taken(WriteEvent) =>
        CarriedPopped(l, fd);
        l, x := l.(pipe := l.pipe[1..]), Busy(fd, Sending(l.pipe[0]));
      case Taken(CloseEvent) =>
        l := l.(open := false, armed := Off);
        CarriedEmpty(s.lines[fd], l, s.workers[w], x, fd);
      case Handling(request) =>
        CarriedHandled(l, request, fd);
        l, x := if request.needReturn then l.(pipe := l.pipe + [Reply(request)]) else l, Busy(fd, Finished);
      case Sending(result) =>
        l, x := l.(down := l.down + [result]), Busy(fd, Finished);
        CarriedSent(s.lines[fd], result, fd);
      case Finished =>
        x := Busy(fd, Checked(l.pipe == []));
        CarriedEmpty(l, l, s.workers[w], x, fd);
      case Checked(empty) =>
        l := l.(armed := if empty then In else InOut);
        CarriedEmpty(s.lines[fd], l, s.workers[w], x, fd);
      case Accepted =>
        l := l.(armed := In);
        CarriedEmpty(s.lines[fd], l, s.workers[w], x, fd);
    }
  }

  /** A new connection finds in its descriptor's result queue what was left there; the others are as they were. */
  lemma AcceptOpens(s: Server, w: nat, fd: nat, g: nat)
    requires Inv(s) && Accepting(s, w) && Free(s, fd) && g > 0
    ensures ConnAt(AcceptOn(s, w, fd), g) == if g == fd then Conn([], QueueOf(s, g)) else ConnAt(s, g)
  {
    OtherHands(s.workers, w, Busy(0, Accepted), g);
    if g == fd {
      NobodyHas(s, fd);
      NoHands(s.workers, fd);
    }
  }

  /** The results queued for a descriptor. */
  function QueueOf(s: Server, fd: nat): seq<Result>
  {
    if fd < |s.lines| then s.lines[fd].pipe else []
  }

  lemma WorkActs(s: Server, w: nat, g: nat)
    requires Inv(s) && w < |s.workers| && s.workers[w].Busy? && 0 < g < |s.lines|
    ensures var s' := WorkOn(s, w, s.workers[w].fd, s.workers[w].stage);
      g < |s'.lines| && ConnOf(s', g) == Do(ConnOf(s, g), WorkAct(s, w, g))
  {
    if s.workers[w] == Busy(0, Taken(ReadEvent)) {
      AcceptWaits(s, w);
    } else {
      hide ConnOf, Carried, WorkOn;
      var l, x := WorkCarries(s, w);
      if g == s.workers[w].fd {
        HandsMove(s, w, l, x);
      } else {
        OthersStay(s, w, l, x, g);
      }
    }
  }

  lemma TakeStays(s: Server, w: nat, g: nat)
    requires Inv(s) && g < |s.lines|
    ensures g < |Next(s, TakeTask(w)).lines| && ConnOf(Next(s, TakeTask(w)), g) == ConnOf(s, g)
  {
    if w < |s.workers| && s.workers[w] == Idle && s.queue != [] {
      var t := s.queue[0];
      var x := Busy(t.fd, Taken(t.kind));
      if t.fd == g {
        TaskCounted(s.queue, 0);
        assert Holders(s, g) <= Places(s, g);
        NoHands(s.workers, g);
        WorkerUpdated(s.workers, w, x, g);
        InHand(s.workers[w := x], w, g);
      } else {
        OtherHands(s.workers, w, x, g);
      }
    }
  }

  lemma InsideStays(s: Server, ev: Event, g: nat)
    requires g < |s.lines| && (ev.Connect? || ev.HangUp? || ev.Dispatch? || ev.AddTask?)
    ensures g < |Next(s, ev).lines| && ConnOf(Next(s, ev), g) == ConnOf(s, g)
  {
  }

  lemma ArriveJoins(s: Server, fd: nat, request: Request, g: nat)
    requires 0 < g < |s.lines|
    ensures ConnOf(Next(s, Arrive(fd, request)), g)
         == Do(ConnOf(s, g), if fd == g && Connected(s, g) then Joins(request) else Idling)
  {
  }

  lemma DepartLeaves(s: Server, fd: nat, g: nat)
    requires 0 < g < |s.lines|
    ensures ConnOf(Next(s, Depart(fd)), g)
         == Do(ConnOf(s, g), if fd == g && s.lines[g].down != [] then Leaves else Idling)
    ensures s.lines[g].down != [] ==> ConnOf(s, g).back != [] && ConnOf(s, g).back[0] == s.lines[g].down[0]
  {
  }

  /** What an event of the server is for descriptor g: the opening of a connection, or an act on the one it has. */
  function ActOf(s: Server, ev: Event, g: nat): Act
  {
    match ev
    case Arrive(fd, request) => if fd == g && Connected(s, g) then Joins(request) else Idling
    case Depart(fd) => if fd == g < |s.lines| && s.lines[g].down != [] then Leaves else Idling
    case Work(w) => if g < |s.lines| then WorkAct(s, w, g) else Idling
    case Accept(w, fd) => if fd == g && Accepting(s, w) && Free(s, g) then Opens(QueueOf(s, g)) else Idling
    case _ => Idling
  }

  lemma LineEventIsAct(s: Server, ev: Event, g: nat)
    requires Inv(s) && 0 < g < |s.lines| && !ev.Accept?
    ensures g < |Next(s, ev).lines| && ConnOf(Next(s, ev), g) == Do(ConnOf(s, g), ActOf(s, ev, g))
  {
    hide Inv, ConnOf, WorkOn;
    match ev {
      case Arrive(fd, request) =>
        ArriveJoins(s, fd, request, g);
      case Depart(fd) =>
        DepartLeaves(s, fd, g);
      case Work(w) =>
        if w < |s.workers| && s.workers[w].Busy? {
          WorkActs(s, w, g);
        }
      case TakeTask(w) =>
        TakeStays(s, w, g);
      case _ =>
        InsideStays(s, ev, g);
    }
  }

  /** The numbers, and what was left in their queues. */
  predicate SameLefts(s: Server, s': Server)
  {
    |s'.lines| == |s.lines| && forall g :: 0 <= g < |s.lines| ==> s'.lines[g].left == s.lines[g].left
  }

  lemma WorkSameLefts(s: Server, w: nat, fd: nat, stage: Stage)
    requires w < |s.workers| && fd < |s.lines|
    ensures SameLefts(s, WorkOn(s, w, fd, stage))
  {
    WorkOneLine(s, w, fd, stage);
    hide WorkOn;
  }

  lemma WorkOneLine(s: Server, w: nat, fd: nat, stage: Stage)
    requires w < |s.workers| && fd < |s.lines|
    ensures var s' := WorkOn(s, w, fd, stage);
      |s'.lines| == |s.lines| && s'.lines == s.lines[fd := s'.lines[fd]] && s'.lines[fd].left == s.lines[fd].left
  {
    assert s.lines == s.lines[fd := s.lines[fd]];
    match stage {
      case Taken(event) =>
      case Handling(request) =>
      case Sending(result) =>
      case Finished =>
      case Checked(empty) =>
      case Accepted =>
    }
  }

  /** Only an accept brings a new number, or a new queue for one. */
  lemma NoNewNumber(s: Server, ev: Event)
    requires !ev.Accept?
    ensures SameLefts(s, Next(s, ev))
  {
    hide WorkOn;
    if ev.Work? && ev.worker < |s.workers| && s.workers[ev.worker].Busy? && s.workers[ev.worker].fd < |s.lines| {
      WorkSameLefts(s, ev.worker, s.workers[ev.worker].fd, s.workers[ev.worker].stage);
    }
  }

  /** Every event of the server is one act, or none, of the one-at-a-time server of each descriptor. */
  lemma EventIsAct(s: Server, ev: Event, g: nat)
    requires Inv(s) && g > 0
    ensures ConnAt(Next(s, ev), g) == Do(ConnAt(s, g), ActOf(s, ev, g))
  {
    if ev.Accept? {
      if Accepting(s, ev.worker) && Free(s, ev.fd) {
        AcceptOpens(s, ev.worker, ev.fd, g);
      }
    } else {
      NoNewNumber(s, ev);
      hide Inv, ConnOf, Next;
      if g < |s.lines| {
        LineEventIsAct(s, ev, g);
      }
    }
  }

  // ---- over a run ----

  /** What an event on server s adds to the requests that reached descriptor g. */
  function HeardNow(s: Server, ev: Event, g: nat): seq<Request>
  {
    if ev.Arrive? && ev.fd == g && Connected(s, g) then [ev.request] else []
  }

  /** What it adds to the requests of g that a service has handled, in the order of the writes to the result queue. */
  function AnsweredNow(s: Server, ev: Event, g: nat): seq<Request>
  {
    if g < |s.lines| && ev.Work? && ev.worker < |s.workers| && s.workers[ev.worker].Busy?
       && s.workers[ev.worker].fd == g && s.workers[ev.worker].stage.Handling?
    then [s.workers[ev.worker].stage.request] else []
  }

  /** What it adds to the results that the client of g has received. */
  function ReceivedNow(s: Server, ev: Event, g: nat): seq<Result>
  {
    if g < |s.lines| && ev.Depart? && ev.fd == g && s.lines[g].down != [] then [s.lines[g].down[0]] else []
  }

  /** What has happened on a descriptor since its connection was accepted, and what was in its queue then. */
  datatype Past = Past(left: seq<Result>, heard: seq<Request>, answered: seq<Request>, received: seq<Result>)

  const NO_PAST := Past([], [], [], [])

  function PastNext(p: Past, s: Server, ev: Event, g: nat): Past
  {
    if ev.Accept? && ev.fd == g && Accepting(s, ev.worker) && Free(s, g) then NO_PAST.(left := QueueOf(s, g))
    else
      Past(p.left, p.heard + HeardNow(s, ev, g), p.answered + AnsweredNow(s, ev, g), p.received + ReceivedNow(s, ev, g))
  }

  function PastOf(workers: nat, evs: seq<Event>, g: nat): Past
  {
    if evs == [] then NO_PAST else
      var n := |evs| - 1;
      PastNext(PastOf(workers, evs[..n], g), Run(InitServer(workers), evs[..n]), evs[n], g)
  }

  /** Nothing is lost, doubled or overtaken: requests are answered in the order they came, and results come out in
      the order of the answers, after what was left in the queue before. */
  ghost predicate Kept(p: Past, c: Conn)
  {
    && p.heard == p.answered + c.coming
    && p.received + c.back == p.left + Served(p.answered)
  }

  lemma AnswersHead(s: Server, w: nat, g: nat)
    requires Inv(s) && w < |s.workers| && s.workers[w].Busy? && s.workers[w].fd == g && s.workers[w].stage.Handling?
    requires g < |s.lines|
    ensures ConnOf(s, g).coming == [s.workers[w].stage.request] + s.lines[g].up
  {
    SoleHolder(s, w);
    InHand(s.workers, w, g);
  }

  function Noted(p: Past, c: Conn, act: Act): Past
    requires (act.Answers? ==> c.coming != []) && (act.Leaves? ==> c.back != [])
  {
    match act
    case Idling => p
    case Joins(request) => p.(heard := p.heard + [request])
    case Answers => p.(answered := p.answered + [c.coming[0]])
    case Leaves => p.(received := p.received + [c.back[0]])
    case Opens(left) => NO_PAST.(left := left)
  }

  lemma AnswerKeeps(p: Past, c: Conn)
    requires Kept(p, c) && c.coming != []
    ensures Kept(Noted(p, c, Answers), Do(c, Answers))
  {
    var one := [c.coming[0]];
    ServedConcat(p.answered, one);
    hide Served;
    AnsweredHeard(p.answered, c.coming);
    Reassociate(p.received, c.back, Served(one));
    Reassociate(p.left, Served(p.answered), Served(one));
  }

  lemma AnsweredHeard(answered: seq<Request>, coming: seq<Request>)
    requires coming != []
    ensures answered + coming == (answered + [coming[0]]) + coming[1..]
  {
  }

  lemma Reassociate(a: seq<Result>, b: seq<Result>, c: seq<Result>)
    ensures a + (b + c) == (a + b) + c
  {
  }

  lemma LeaveKeeps(p: Past, c: Conn)
    requires Kept(p, c) && c.back != []
    ensures Kept(Noted(p, c, Leaves), Do(c, Leaves))
  {
    hide Served;
    assert c.back == [c.back[0]] + c.back[1..];
    assert p.received + [c.back[0]] + c.back[1..] == p.received + c.back;
  }

  lemma DoKeeps(p: Past, c: Conn, act: Act)
    requires Kept(p, c) && (act.Answers? ==> c.coming != []) && (act.Leaves? ==> c.back != [])
    ensures Kept(Noted(p, c, act), Do(c, act))
  {
    match act {
      case Answers =>
        AnswerKeeps(p, c);
      case Leaves =>
        LeaveKeeps(p, c);
      case _ =>
    }
  }

  /** What the descriptor's past becomes with an event is what the act notes. */
  lemma PastIsNoted(s: Server, ev: Event, g: nat, p: Past)
    requires Inv(s) && g > 0
    ensures var c, act := ConnAt(s, g), ActOf(s, ev, g);
      && (act.Answers? ==> c.coming != []) && (act.Leaves? ==> c.back != [])
      && PastNext(p, s, ev, g) == Noted(p, c, act)
  {
    var act := ActOf(s, ev, g);
    if act.Answers? {
      AnswersHead(s, ev.worker, g);
    }
    if act.Leaves? {
      DepartLeaves(s, g, g);
    }
    hide Inv, ConnOf, Next;
    assert p.heard + [] == p.heard && p.answered + [] == p.answered && p.received + [] == p.received;
  }

  lemma EventKeeps(s: Server, ev: Event, g: nat, p: Past)
    requires Inv(s) && g > 0 && Kept(p, ConnAt(s, g))
    ensures Kept(PastNext(p, s, ev, g), ConnAt(Next(s, ev), g))
  {
    hide *;
    EventIsAct(s, ev, g);
    PastIsNoted(s, ev, g, p);
    DoKeeps(p, ConnAt(s, g), ActOf(s, ev, g));
  }

  lemma {:induction false} ConnectionKept(workers: nat, evs: seq<Event>, g: nat)
    requires g > 0
    ensures Kept(PastOf(workers, evs, g), ConnAt(Run(InitServer(workers), evs), g))
  {
    if evs != [] {
      var n := |evs| - 1;
      var s, p := Run(InitServer(workers), evs[..n]), PastOf(workers, evs[..n], g);
      ConnectionKept(workers, evs[..n], g);
      RunKept(workers, evs[..n]);
      EventKeeps(s, evs[n], g, p);
    }
  }

  lemma LeftStays(s: Server, ev: Event, g: nat, p: Past)
    requires Inv(s) && g > 0 && p.left == (if g < |s.lines| then s.lines[g].left else [])
    ensures var s' := Next(s, ev);
      PastNext(p, s, ev, g).left == if g < |s'.lines| then s'.lines[g].left else []
  {
    hide Inv;
    if !ev.Accept? {
      NoNewNumber(s, ev);
      hide Next;
    }
  }

  lemma {:induction false} LeftKept(workers: nat, evs: seq<Event>, g: nat)
    requires g > 0
    ensures var s := Run(InitServer(workers), evs);
      PastOf(workers, evs, g).left == if g < |s.lines| then s.lines[g].left else []
  {
    if evs != [] {
      var n := |evs| - 1;
      LeftKept(workers, evs[..n], g);
      RunKept(workers, evs[..n]);
      LeftStays(Run(InitServer(workers), evs[..n]), evs[n], g, PastOf(workers, evs[..n], g));
    }
  }

  /** All that the client of g has received, and what is on its way to it. */
  function Delivered(s: Server, p: Past, g: nat): seq<Result>
    requires g < |s.lines|
  {
    p.received + s.lines[g].down + Outs(s.workers, g) + s.lines[g].pipe
  }

  lemma KeptMeans(s: Server, p: Past, g: nat)
    requires g < |s.lines| && Kept(p, ConnOf(s, g))
    ensures p.heard == p.answered + Ins(s.workers, g) + s.lines[g].up
    ensures Delivered(s, p, g) == p.left + Served(p.answered)
  {
    hide Served, Ins, Outs;
    var c := ConnOf(s, g);
    assert p.answered + Ins(s.workers, g) + s.lines[g].up == p.answered + c.coming;
    assert Delivered(s, p, g) == p.received + c.back;
  }

  /** In every run, for the connection that any descriptor has: the results received, and after them those in the
      socket, in a worker's hand and in the result queue, are what was in the queue at the accept and then the
      results of the handled requests that asked for one, in order; the requests handled, and after them the one in
      hand and those in the socket, are all that came, in order. */
  lemma ConnectionOrder(workers: nat, evs: seq<Event>, g: nat)
    requires g > 0
    ensures var s, p := Run(InitServer(workers), evs), PastOf(workers, evs, g);
      g < |s.lines| ==>
        && p.left == s.lines[g].left
        && p.heard == p.answered + Ins(s.workers, g) + s.lines[g].up
        && Delivered(s, p, g) == p.left + Served(p.answered)
  {
    hide Run, PastOf, Kept, ConnOf, Delivered;
    LeftKept(workers, evs, g);
    ConnectionKept(workers, evs, g);
    var s, p := Run(InitServer(workers), evs), PastOf(workers, evs, g);
    if g < |s.lines| {
      KeptMeans(s, p, g);
    }
  }

  /** What a connection is sent is its own exactly when the queue of its descriptor was empty at its accept: at every
      moment, and once all its requests are served and nothing is on its way. */
  lemma OwnResultsIff(workers: nat, evs: seq<Event>, g: nat)
    requires g > 0
    ensures var s, p := Run(InitServer(workers), evs), PastOf(workers, evs, g);
      g < |s.lines| ==>
        && (Delivered(s, p, g) == Served(p.answered) <==> s.lines[g].left == [])
        && (p.heard == p.answered && Delivered(s, p, g) == p.received ==>
              (p.received == Served(p.heard) <==> s.lines[g].left == []))
  {
    hide Run, PastOf, Kept, ConnOf, Delivered, Served;
    ConnectionOrder(workers, evs, g);
    var s, p := Run(InitServer(workers), evs), PastOf(workers, evs, g);
    if g < |s.lines| {
      assert p.left == [] ==> p.left + Served(p.answered) == Served(p.answered);
      assert |p.left + Served(p.answered)| == |p.left| + |Served(p.answered)|;
    }
  }
}
