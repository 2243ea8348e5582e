/** A descriptor number is used again with what is left in its result queue: the second connection on it receives the
    first one's result. */
module RpcStale {

  import opened RpcReactor
  import opened RpcOrder
  import opened RpcTurns

  /** A server with one worker, between tasks. */
  function Calm(lines: seq<Line>, waiting: nat): Server
  {
    Server(lines, waiting, [], [], [Idle], false, false, false)
  }

  function Fetch(fd: nat): seq<Event>
  {
    [Dispatch(fd), AddTask, TakeTask(0)]
  }

  const WORK := [Work(0), Work(0), Work(0), Work(0)]

  lemma RunThree(s: Server, a: Event, b: Event, c: Event)
    ensures Run(s, [a, b, c]) == Next(Next(Next(s, a), b), c)
  {
    RunMore(s, [], a);
    RunMore(s, [a], b);
    RunMore(s, [a, b], c);
    assert [] + [a] == [a] && [a] + [b] == [a, b] && [a, b] + [c] == [a, b, c];
  }

  /** A ready descriptor becomes the worker's task. */
  lemma Fetched(lines: seq<Line>, waiting: nat, fd: nat, kind: Kind)
    requires fd < |lines| && Ready(Calm(lines, waiting), fd) == [kind]
    ensures Run(Calm(lines, waiting), Fetch(fd))
         == Calm(lines[fd := lines[fd].(armed := Off)], waiting).(workers := [Busy(fd, Taken(kind))])
  {
    var s := Calm(lines, waiting);
    RunThree(s, Dispatch(fd), AddTask, TakeTask(0));
    var off := lines[fd := lines[fd].(armed := Off)];
    assert Next(s, Dispatch(fd)) == Calm(off, waiting).(batch := [Task(fd, kind)]);
    assert [Task(fd, kind)][1..] == [];
    assert Next(Next(s, Dispatch(fd)), AddTask) == Calm(off, waiting).(queue := [Task(fd, kind)]);
  }

  lemma OnlyWorker(s: Server, fd: nat, l: Line)
    requires |s.workers| == 1 && fd < |s.lines|
    ensures Put(s, 0, fd, l, Idle) == s.(lines := s.lines[fd := l], workers := [Idle])
  {
  }

  function Opening(fd: nat): seq<Event>
  {
    [Connect] + Fetch(0) + [Accept(0, fd), Work(0)]
  }

  /** The listener accepts a connection on the number fd. */
  lemma Opened(lines: seq<Line>, fd: nat)
    requires |lines| > 0 && lines[0].armed == In && !lines[0].hup && Free(Calm(lines, 0), fd)
    ensures Run(Calm(lines, 0), Opening(fd)) == Calm(LinesWith(Calm(lines, 0), fd), 0)
  {
    var s := Calm(lines, 0);
    var off := lines[0 := lines[0].(armed := Off)];
    RunConcat(s, [Connect], Fetch(0));
    RunConcat(s, [Connect] + Fetch(0), [Accept(0, fd), Work(0)]);
    RunMore(s, [], Connect);
    assert [] + [Connect] == [Connect];
    Fetched(lines, 1, 0, ReadEvent);
    var taken := Calm(off, 1).(workers := [Busy(0, Taken(ReadEvent))]);
    hide Run, Next;
    AcceptTurn(taken, 0, fd);
    var s' := taken.(lines := LinesWith(taken, fd), waiting := 0);
    OnlyWorker(s', 0, s'.lines[0].(armed := In));
    assert s'.lines[0 := s'.lines[0].(armed := In)] == LinesWith(s, fd);
  }

  function Serving(fd: nat, r: Request): seq<Event>
  {
    [Arrive(fd, r)] + Fetch(fd) + WORK
  }

  /** A request arrives on fd and is served. */
  lemma Serves(lines: seq<Line>, fd: nat, r: Request)
    requires 0 < fd < |lines| && lines[fd].open && !lines[fd].hup && lines[fd].armed != Off && lines[fd].up == []
    requires r.needReturn
    ensures Run(Calm(lines, 0), Serving(fd, r))
         == Calm(lines[fd := lines[fd].(pipe := lines[fd].pipe + [Reply(r)], armed := InOut)], 0)
  {
    var s, l := Calm(lines, 0), lines[fd];
    var heard := lines[fd := l.(up := [r])];
    RunConcat(s, [Arrive(fd, r)], Fetch(fd));
    RunConcat(s, [Arrive(fd, r)] + Fetch(fd), WORK);
    RunMore(s, [], Arrive(fd, r));
    assert [] + [Arrive(fd, r)] == [Arrive(fd, r)] && [] + [r] == [r];
    assert Next(s, Arrive(fd, r)) == Calm(heard, 0);
    Fetched(heard, 0, fd, ReadEvent);
    var taken := Calm(heard[fd := heard[fd].(armed := Off)], 0).(workers := [Busy(fd, Taken(ReadEvent))]);
    hide Run, Next;
    ReadTurn(taken, 0, fd);
    var l' := l.(pipe := l.pipe + [Reply(r)], armed := InOut);
    assert [r][1..] == [];
    OnlyWorker(taken, fd, l');
    assert taken.lines[fd := l'] == lines[fd := l'];
  }

  function Sends(fd: nat): seq<Event>
  {
    Fetch(fd) + WORK
  }

  /** The oldest result of fd is sent. */
  lemma Sent(lines: seq<Line>, fd: nat)
    requires 0 < fd < |lines| && !lines[fd].hup && lines[fd].armed == InOut && lines[fd].up == []
    requires |lines[fd].pipe| > 1
    ensures var l := lines[fd];
      Run(Calm(lines, 0), Sends(fd))
      == Calm(lines[fd := l.(pipe := l.pipe[1..], down := l.down + [l.pipe[0]])], 0)
  {
    var s, l := Calm(lines, 0), lines[fd];
    RunConcat(s, Fetch(fd), WORK);
    Fetched(lines, 0, fd, WriteEvent);
    var taken := Calm(lines[fd := l.(armed := Off)], 0).(workers := [Busy(fd, Taken(WriteEvent))]);
    hide Run, Next;
    WriteTurn(taken, 0, fd);
    var l' := l.(pipe := l.pipe[1..], down := l.down + [l.pipe[0]]);
    OnlyWorker(taken, fd, l');
    assert taken.lines[fd := l'] == lines[fd := l'];
  }

  function Closing(fd: nat): seq<Event>
  {
    [HangUp(fd)] + Fetch(fd) + [Work(0)]
  }

  /** The client of fd hangs up, and the descriptor is closed; its result queue stays as it is. */
  lemma Closed(lines: seq<Line>, fd: nat)
    requires 0 < fd < |lines| && lines[fd].open && !lines[fd].hup && lines[fd].armed != Off
    ensures Run(Calm(lines, 0), Closing(fd))
         == Calm(lines[fd := lines[fd].(open := false, hup := true, armed := Off)], 0)
  {
    var s, l := Calm(lines, 0), lines[fd];
    var gone := lines[fd := l.(hup := true)];
    RunConcat(s, [HangUp(fd)], Fetch(fd));
    RunConcat(s, [HangUp(fd)] + Fetch(fd), [Work(0)]);
    RunMore(s, [], HangUp(fd));
    assert [] + [HangUp(fd)] == [HangUp(fd)];
    assert Next(s, HangUp(fd)) == Calm(gone, 0);
    Fetched(gone, 0, fd, CloseEvent);
    var taken := Calm(gone[fd := gone[fd].(armed := Off)], 0).(workers := [Busy(fd, Taken(CloseEvent))]);
    hide Run, Next;
    CloseTurn(taken, 0, fd);
    var l' := l.(open := false, hup := true, armed := Off);
    OnlyWorker(taken, fd, l');
    assert taken.lines[fd := l'] == lines[fd := l'];
  }

  // ---- the run ----

  /** One connection leaves a result behind. */
  function Leaving(r: Request): seq<Event>
  {
    Opening(1) + Serving(1, r) + Closing(1)
  }

  const LISTENER := FRESH_LINE

  function LeftLines(r: Request): seq<Line>
  {
    [LISTENER, Line(false, true, Off, [], [Reply(r)], [], [])]
  }

  lemma LeavesOne(r: Request)
    requires r.needReturn
    ensures Run(InitServer(1), Leaving(r)) == Calm(LeftLines(r), 0)
  {
    var s := InitServer(1);
    assert s.workers == [Idle];
    assert s == Calm([LISTENER], 0);
    RunConcat(s, Opening(1), Serving(1, r));
    RunConcat(s, Opening(1) + Serving(1, r), Closing(1));
    hide Run, Opening, Serving, Closing;
    Opened([LISTENER], 1);
    var one := [LISTENER, FRESH_LINE];
    assert LinesWith(Calm([LISTENER], 0), 1) == one;
    Serves(one, 1, r);
    assert [] + [Reply(r)] == [Reply(r)];
    var two := one[1 := FRESH_LINE.(pipe := [Reply(r)], armed := InOut)];
    Closed(two, 1);
    assert two[1 := two[1].(open := false, hup := true, armed := Off)] == LeftLines(r);
  }

  /** A second connection is given the same number, and sends one request. */
  function Arriving(r: Request, q: Request): seq<Event>
  {
    Leaving(r) + Opening(1) + Serving(1, q)
  }

  function StaleLine(r: Request, q: Request): Line
  {
    Line(true, false, InOut, [], [Reply(r), Reply(q)], [], [Reply(r)])
  }

  lemma ArrivesSecond(r: Request, q: Request)
    requires r.needReturn && q.needReturn
    ensures Run(InitServer(1), Arriving(r, q)) == Calm([LISTENER, StaleLine(r, q)], 0)
  {
    var s := InitServer(1);
    RunConcat(s, Leaving(r), Opening(1));
    RunConcat(s, Leaving(r) + Opening(1), Serving(1, q));
    LeavesOne(r);
    hide Run, Opening, Serving, Leaving;
    Opened(LeftLines(r), 1);
    var again := Line(true, false, In, [], [Reply(r)], [], [Reply(r)]);
    assert LinesWith(Calm(LeftLines(r), 0), 1) == [LISTENER, again];
    Serves([LISTENER, again], 1, q);
    assert [Reply(r)] + [Reply(q)] == [Reply(r), Reply(q)];
    assert [LISTENER, again][1 := StaleLine(r, q)] == [LISTENER, StaleLine(r, q)];
  }

  // ---- what the second connection has heard and received ----

  predicate Silent(ev: Event, g: nat)
  {
    !(ev.Arrive? && ev.fd == g) && !(ev.Accept? && ev.fd == g)
  }

  lemma PastMore(n: nat, evs: seq<Event>, ev: Event, g: nat)
    ensures PastOf(n, evs + [ev], g) == PastNext(PastOf(n, evs, g), Run(InitServer(n), evs), ev, g)
  {
    assert (evs + [ev])[..|evs|] == evs;
  }

  lemma HeardSame(n: nat, evs: seq<Event>, ev: Event, g: nat)
    requires Silent(ev, g)
    ensures PastOf(n, evs + [ev], g).heard == PastOf(n, evs, g).heard
  {
    PastMore(n, evs, ev, g);
    hide Run, PastOf;
    assert PastOf(n, evs, g).heard + [] == PastOf(n, evs, g).heard;
  }

  ghost predicate AllSilent(evs: seq<Event>, g: nat)
  {
    forall k :: 0 <= k < |evs| ==> Silent(evs[k], g)
  }

  lemma SilentParts(evs: seq<Event>, k: nat, g: nat)
    requires AllSilent(evs, g) && k < |evs|
    ensures AllSilent(evs[..k], g) && Silent(evs[k], g)
  {
  }

  lemma {:induction false} HeardStays(n: nat, evs: seq<Event>, more: seq<Event>, g: nat)
    requires AllSilent(more, g)
    ensures PastOf(n, evs + more, g).heard == PastOf(n, evs, g).heard
  {
    hide *;
    if more == [] {
      assert evs + more == evs;
    } else {
      var k := |more| - 1;
      SilentParts(more, k, g);
      HeardStays(n, evs, more[..k], g);
      HeardSame(n, evs + more[..k], more[k], g);
      assert evs + more == evs + more[..k] + [more[k]];
    }
  }

  lemma HeardOne(n: nat, evs: seq<Event>, g: nat, q: Request)
    requires PastOf(n, evs, g).heard == [] && Connected(Run(InitServer(n), evs), g)
    ensures PastOf(n, evs + [Arrive(g, q)], g).heard == [q]
  {
    PastMore(n, evs, Arrive(g, q), g);
    assert [] + [q] == [q];
  }

  /** The events before the second accept, and the state after them. */
  function Ringing(r: Request): seq<Event>
  {
    Leaving(r) + ([Connect] + Fetch(0))
  }

  /** The worker is about to accept the second connection. */
  function Rung(r: Request): Server
  {
    Calm([LISTENER.(armed := Off), LeftLines(r)[1]], 1).(workers := [Busy(0, Taken(ReadEvent))])
  }

  lemma Rings(r: Request)
    requires r.needReturn
    ensures Run(InitServer(1), Ringing(r)) == Rung(r)
    ensures Accepting(Rung(r), 0) && Free(Rung(r), 1)
  {
    var s := InitServer(1);
    LeavesOne(r);
    RunConcat(s, Leaving(r), [Connect] + Fetch(0));
    RunConcat(Calm(LeftLines(r), 0), [Connect], Fetch(0));
    RunMore(Calm(LeftLines(r), 0), [], Connect);
    assert [] + [Connect] == [Connect];
    Fetched(LeftLines(r), 1, 0, ReadEvent);
    hide Run, Leaving;
    assert LeftLines(r)[0 := LISTENER.(armed := Off)] == [LISTENER.(armed := Off), LeftLines(r)[1]];
  }

  lemma OpeningParts(r: Request)
    ensures Leaving(r) + Opening(1) == Ringing(r) + [Accept(0, 1)] + [Work(0)]
  {
    hide Leaving, Fetch;
  }

  lemma OpenedClean(r: Request)
    requires r.needReturn
    ensures Connected(Run(InitServer(1), Leaving(r) + Opening(1)), 1)
  {
    LeavesOne(r);
    RunConcat(InitServer(1), Leaving(r), Opening(1));
    hide Run, Leaving, Opening;
    Opened(LeftLines(r), 1);
  }

  lemma OpenForgets(n: nat, evs: seq<Event>, w: nat, g: nat)
    requires var s := Run(InitServer(n), evs); Accepting(s, w) && Free(s, g)
    ensures PastOf(n, evs + [Accept(w, g)], g).heard == []
  {
    PastMore(n, evs, Accept(w, g), g);
  }

  /** With the second accept, nothing has been heard yet on the new connection. */
  lemma SecondOpens(r: Request)
    requires r.needReturn
    ensures PastOf(1, Leaving(r) + Opening(1), 1).heard == []
    ensures Connected(Run(InitServer(1), Leaving(r) + Opening(1)), 1)
  {
    assert Silent(Work(0), 1);
    hide *;
    Rings(r);
    OpenForgets(1, Ringing(r), 0, 1);
    HeardSame(1, Ringing(r) + [Accept(0, 1)], Work(0), 1);
    OpeningParts(r);
    OpenedClean(r);
  }

  function Rest(): seq<Event>
  {
    Fetch(1) + WORK + Sends(1) + [Depart(1)]
  }

  lemma RestSilent()
    ensures AllSilent(Rest(), 1)
  {
    assert AllSilent(Fetch(1), 1) && AllSilent(WORK, 1);
    hide Fetch, Silent;
    assert AllSilent([Depart(1)], 1) by {
      SilentDepart();
    }
  }

  lemma SilentDepart()
    ensures Silent(Depart(1), 1)
  {
  }

  lemma ArrivingParts(r: Request, q: Request)
    ensures Arriving(r, q) + Sends(1) + [Depart(1)] == Leaving(r) + Opening(1) + [Arrive(1, q)] + Rest()
  {
    hide Leaving, Opening, Fetch, Sends;
  }

  lemma SecondHears(r: Request, q: Request)
    requires r.needReturn && q.needReturn
    ensures PastOf(1, Arriving(r, q) + Sends(1) + [Depart(1)], 1).heard == [q]
  {
    hide *;
    SecondOpens(r);
    HeardOne(1, Leaving(r) + Opening(1), 1, q);
    RestSilent();
    HeardStays(1, Leaving(r) + Opening(1) + [Arrive(1, q)], Rest(), 1);
    ArrivingParts(r, q);
  }

  lemma ResultDeparts(r: Request, q: Request)
    ensures var l := StaleLine(r, q);
      Next(Calm([LISTENER, l.(pipe := [Reply(q)], down := [Reply(r)])], 0), Depart(1))
      == Calm([LISTENER, l.(pipe := [Reply(q)])], 0)
  {
    var l := StaleLine(r, q);
    assert [Reply(r)][1..] == [];
    assert [LISTENER, l.(pipe := [Reply(q)], down := [Reply(r)])][1 := l.(pipe := [Reply(q)])]
        == [LISTENER, l.(pipe := [Reply(q)])];
  }

  lemma SecondSends(r: Request, q: Request)
    ensures var l := StaleLine(r, q);
      Run(Calm([LISTENER, l], 0), Sends(1)) == Calm([LISTENER, l.(pipe := [Reply(q)], down := [Reply(r)])], 0)
  {
    var l := StaleLine(r, q);
    Sent([LISTENER, l], 1);
    hide Run;
    assert l.pipe[1..] == [Reply(q)] && l.down + [l.pipe[0]] == [Reply(r)];
    var sent := l.(pipe := [Reply(q)], down := [Reply(r)]);
    assert [LISTENER, l][1 := sent] == [LISTENER, sent];
  }

  lemma SecondReceives(r: Request, q: Request)
    requires r.needReturn && q.needReturn
    ensures Run(InitServer(1), Arriving(r, q) + Sends(1) + [Depart(1)])
         == Calm([LISTENER, StaleLine(r, q).(pipe := [Reply(q)])], 0)
  {
    hide *;
    RunConcat(InitServer(1), Arriving(r, q), Sends(1));
    RunMore(InitServer(1), Arriving(r, q) + Sends(1), Depart(1));
    ArrivesSecond(r, q);
    SecondSends(r, q);
    ResultDeparts(r, q);
  }

  /** What is known of the second connection says what it received. */
  lemma FirstOf(p: Past, q: Request, a: Result)
    requires q.needReturn && p.left == [a] && p.heard == [q] && p.heard == p.answered
    requires p.received + [Reply(q)] == p.left + Served(p.answered)
    ensures p.received == [a]
  {
    ServedOne(q);
    assert |p.received| == 1 && (p.received + [Reply(q)])[0] == a;
  }

  /** For any two requests there is a run in which a connection has sent only q, and has received only the result of
      r, which another connection on the same number had sent before it. */
  lemma StaleResult(r: Request, q: Request) returns (evs: seq<Event>)
    requires r.needReturn && q.needReturn
    ensures var p := PastOf(1, evs, 1);
      p.left == [Reply(r)] && p.heard == [q] && p.received == [Reply(r)]
  {
    evs := Arriving(r, q) + Sends(1) + [Depart(1)];
    hide *;
    SecondHears(r, q);
    SecondReceives(r, q);
    ConnectionOrder(1, evs, 1);
    CalmMeans(r, q, PastOf(1, evs, 1));
    FirstOf(PastOf(1, evs, 1), q, Reply(r));
  }

  /** The last state, with nothing in a worker's hand. */
  lemma CalmMeans(r: Request, q: Request, p: Past)
    ensures var s := Calm([LISTENER, StaleLine(r, q).(pipe := [Reply(q)])], 0);
      && |s.lines| == 2 && s.lines[1].left == [Reply(r)]
      && p.answered + Ins(s.workers, 1) + s.lines[1].up == p.answered
      && Delivered(s, p, 1) == p.received + [Reply(q)]
  {
    NoHands([Idle], 1);
    hide Ins, Outs;
    assert p.answered + [] + [] == p.answered;
    assert p.received + [] + [] + [Reply(q)] == p.received + [Reply(q)];
  }
}
