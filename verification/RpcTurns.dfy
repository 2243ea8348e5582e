/** What a worker of the server makes of a task when no other step comes between. */
module RpcTurns {

  import opened RpcReactor

  lemma {:induction false} RunConcat(s: Server, a: seq<Event>, b: seq<Event>)
    ensures Run(s, a + b) == Run(Run(s, a), b)
  {
    if b == [] {
      assert a + b == a;
    } else {
      var n := |b| - 1;
      hide Run, Next;
      assert a + b == a + b[..n] + [b[n]] && b == b[..n] + [b[n]];
      RunConcat(s, a, b[..n]);
      RunMore(s, a + b[..n], b[n]);
      RunMore(Run(s, a), b[..n], b[n]);
    }
  }

  lemma RunMore(s: Server, evs: seq<Event>, ev: Event)
    ensures Run(s, evs + [ev]) == Next(Run(s, evs), ev)
  {
    assert (evs + [ev])[..|evs|] == evs;
  }

  lemma RunTwo(s: Server, ev: Event)
    ensures Run(s, [ev, ev]) == Next(Next(s, ev), ev)
  {
    RunMore(s, [], ev);
    RunMore(s, [ev], ev);
    assert [] + [ev] == [ev] && [ev] + [ev] == [ev, ev];
  }

  lemma RunFour(s: Server, ev: Event)
    ensures Run(s, [ev, ev, ev, ev]) == Next(Next(Next(Next(s, ev), ev), ev), ev)
  {
    RunTwo(s, ev);
    RunMore(s, [ev, ev], ev);
    RunMore(s, [ev, ev, ev], ev);
    assert [ev, ev] + [ev] == [ev, ev, ev] && [ev, ev, ev] + [ev] == [ev, ev, ev, ev];
  }

  function Rearmed(l: Line): Line
  {
    l.(armed := if l.pipe == [] then In else InOut)
  }

  /** Descriptor fd with line l, and worker w at x. */
  function Put(s: Server, w: nat, fd: nat, l: Line, x: Worker): Server
    requires w < |s.workers| && fd < |s.lines|
  {
    SetWorker(SetLine(s, fd, l), w, x)
  }

  lemma PutTwice(s: Server, w: nat, fd: nat, l: Line, x: Worker, l': Line, x': Worker)
    requires w < |s.workers| && fd < |s.lines|
    ensures Put(Put(s, w, fd, l, x), w, fd, l', x') == Put(s, w, fd, l', x')
  {
    assert s.lines[fd := l][fd := l'] == s.lines[fd := l'];
    assert s.workers[w := x][w := x'] == s.workers[w := x'];
  }

  lemma PutNothing(s: Server, w: nat, fd: nat)
    requires w < |s.workers| && fd < |s.lines|
    ensures s == Put(s, w, fd, s.lines[fd], s.workers[w])
  {
    assert s.lines[fd := s.lines[fd]] == s.lines && s.workers[w := s.workers[w]] == s.workers;
  }

  /** One piece of work, where it is neither an accept nor a failure. */
  lemma WorkPut(s: Server, w: nat, fd: nat, l: Line, stage: Stage, l': Line, x: Worker)
    requires w < |s.workers| && fd < |s.lines|
    requires match stage
             case Taken(ReadEvent) =>
               fd > 0 && l.up != [] && l' == l.(up := l.up[1..]) && x == Busy(fd, Handling(l.up[0]))
             case Taken(WriteEvent) =>
               l.pipe != [] && l' == l.(pipe := l.pipe[1..]) && x == Busy(fd, Sending(l.pipe[0]))
             case Handling(r) =>
               l' == (if r.needReturn then l.(pipe := l.pipe + [Reply(r)]) else l) && x == Busy(fd, Finished)
             case Sending(r) => l' == l.(down := l.down + [r]) && x == Busy(fd, Finished)
             case Finished => l' == l && x == Busy(fd, Checked(l.pipe == []))
             case Checked(empty) => l' == l.(armed := if empty then In else InOut) && x == Idle
             case _ => false
    ensures Next(Put(s, w, fd, l, Busy(fd, stage)), Work(w)) == Put(s, w, fd, l', x)
  {
    var s1 := Put(s, w, fd, l, Busy(fd, stage));
    PutTwice(s, w, fd, l, Busy(fd, stage), l', x);
    PutTwice(s, w, fd, l, Busy(fd, stage), l, x);
    assert SetLine(s1, fd, l) == s1 by {
      assert s1.lines[fd := l] == s1.lines;
    }
    assert Put(s1, w, fd, l', x) == Put(s, w, fd, l', x);
  }

  lemma EndOfTurn(s: Server, w: nat, fd: nat, l: Line)
    requires w < |s.workers| && fd < |s.lines|
    ensures Next(Next(Put(s, w, fd, l, Busy(fd, Finished)), Work(w)), Work(w)) == Put(s, w, fd, Rearmed(l), Idle)
  {
    WorkPut(s, w, fd, l, Finished, l, Busy(fd, Checked(l.pipe == [])));
    WorkPut(s, w, fd, l, Checked(l.pipe == []), Rearmed(l), Idle);
  }

  /** What worker w makes of a request when no other step comes between. */
  lemma ReadTurn(s: Server, w: nat, fd: nat)
    requires w < |s.workers| && s.workers[w] == Busy(fd, Taken(ReadEvent)) && 0 < fd < |s.lines|
    requires s.lines[fd].up != []
    ensures var l, r := s.lines[fd], s.lines[fd].up[0];
      var l' := l.(up := l.up[1..], pipe := l.pipe + if r.needReturn then [Reply(r)] else []);
      Run(s, [Work(w), Work(w), Work(w), Work(w)]) == Put(s, w, fd, Rearmed(l'), Idle)
  {
    var l, r := s.lines[fd], s.lines[fd].up[0];
    var l1 := l.(up := l.up[1..]);
    var l2 := if r.needReturn then l1.(pipe := l1.pipe + [Reply(r)]) else l1;
    assert l.pipe + [] == l.pipe;
    hide *;
    RunFour(s, Work(w));
    PutNothing(s, w, fd);
    WorkPut(s, w, fd, l, Taken(ReadEvent), l1, Busy(fd, Handling(r)));
    WorkPut(s, w, fd, l1, Handling(r), l2, Busy(fd, Finished));
    EndOfTurn(s, w, fd, l2);
  }

  /** What worker w makes of a result to send when no other step comes between. */
  lemma WriteTurn(s: Server, w: nat, fd: nat)
    requires w < |s.workers| && s.workers[w] == Busy(fd, Taken(WriteEvent)) && fd < |s.lines| && s.lines[fd].pipe != []
    ensures var l := s.lines[fd];
      Run(s, [Work(w), Work(w), Work(w), Work(w)])
      == Put(s, w, fd, Rearmed(l.(pipe := l.pipe[1..], down := l.down + [l.pipe[0]])), Idle)
  {
    var l, r := s.lines[fd], s.lines[fd].pipe[0];
    var l1 := l.(pipe := l.pipe[1..]);
    hide *;
    RunFour(s, Work(w));
    PutNothing(s, w, fd);
    WorkPut(s, w, fd, l, Taken(WriteEvent), l1, Busy(fd, Sending(r)));
    WorkPut(s, w, fd, l1, Sending(r), l1.(down := l1.down + [r]), Busy(fd, Finished));
    EndOfTurn(s, w, fd, l1.(down := l1.down + [r]));
  }

  /** A connection is accepted, then the listener is armed again. */
  lemma AcceptTurn(s: Server, w: nat, fd: nat)
    requires Accepting(s, w) && Free(s, fd) && |s.lines| > 0
    ensures var s' := s.(lines := LinesWith(s, fd), waiting := s.waiting - 1);
      Run(s, [Accept(w, fd), Work(w)]) == Put(s', w, 0, s'.lines[0].(armed := In), Idle)
  {
    RunMore(s, [], Accept(w, fd));
    RunMore(s, [Accept(w, fd)], Work(w));
    assert [] + [Accept(w, fd)] == [Accept(w, fd)] && [Accept(w, fd)] + [Work(w)] == [Accept(w, fd), Work(w)];
    assert s.workers[w := Busy(0, Accepted)][w := Idle] == s.workers[w := Idle];
  }

  lemma CloseTurn(s: Server, w: nat, fd: nat)
    requires w < |s.workers| && s.workers[w] == Busy(fd, Taken(CloseEvent)) && fd < |s.lines|
    ensures Run(s, [Work(w)]) == Put(s, w, fd, s.lines[fd].(open := false, armed := Off), Idle)
  {
    assert Next(s, Work(w)) == Put(s, w, fd, s.lines[fd].(open := false, armed := Off), Idle);
    NoRun(s);
    hide *;
    RunMore(s, [], Work(w));
    assert [] + [Work(w)] == [Work(w)];
  }

  lemma NoRun(s: Server)
    ensures Run(s, []) == s
  {
  }
}
