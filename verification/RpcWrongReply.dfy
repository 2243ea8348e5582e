/** What a queue that is not empty does to a client: a callback runs on the reply to another program's request. */
module RpcWrongReply {

  import opened RpcReactor
  import opened RpcTurns
  import opened RpcStale
  import opened RpcPath
  import opened RpcCorrelation
  import Guids

  // ---- the server's events as steps of the whole path ----

  function ServeAll(evs: seq<Event>): seq<Step>
  {
    seq(|evs|, k requires 0 <= k < |evs| => Serve(evs[k]))
  }

  lemma {:induction false} PathConcat(p: Path, a: seq<Step>, b: seq<Step>)
    ensures RunPath(p, a + b) == RunPath(RunPath(p, a), b)
  {
    if b == [] {
      assert a + b == a;
    } else {
      var n := |b| - 1;
      hide RunPath, Step1;
      assert a + b == a + b[..n] + [b[n]] && b == b[..n] + [b[n]];
      PathConcat(p, a, b[..n]);
      PathMore(p, a + b[..n], b[n]);
      PathMore(RunPath(p, a), b[..n], b[n]);
    }
  }

  lemma PathOne(p: Path, st: Step)
    ensures RunPath(p, [st]) == Step1(p, st)
  {
    PathMore(p, [], st);
    assert [] + [st] == [st];
  }

  ghost predicate AllForeign(p: Path, evs: seq<Event>)
  {
    forall k :: 0 <= k < |evs| ==> Foreign(p, evs[k])
  }

  lemma ServeOne(p: Path, s: Server, ev: Event)
    requires Foreign(p, ev)
    ensures Step1(p.(server := s), Serve(ev)) == p.(server := Next(s, ev))
  {
    hide Next;
    assert Foreign(p.(server := s), ev);
  }

  lemma {:induction false} ServeRuns(p: Path, evs: seq<Event>)
    requires AllForeign(p, evs)
    ensures RunPath(p, ServeAll(evs)) == p.(server := Run(p.server, evs))
  {
    if evs != [] {
      var n := |evs| - 1;
      assert ServeAll(evs) == ServeAll(evs[..n]) + [Serve(evs[n])];
      assert AllForeign(p, evs[..n]) && Foreign(p, evs[n]);
      assert evs == evs[..n] + [evs[n]];
      hide Foreign, Next, Step1, AllForeign;
      ServeRuns(p, evs[..n]);
      PathMore(p, ServeAll(evs[..n]), Serve(evs[n]));
      RunMore(p.server, evs[..n], evs[n]);
      ServeOne(p, Run(p.server, evs[..n]), evs[n]);
    }
  }

  // ---- the run ----

  /** Another program's request under the id 1, whose result stays in the queue; then the listener is ready again. */
  function First(a: string): seq<Step>
  {
    ServeAll(Ringing(Request(1, a, true)))
  }

  /** The client's connection is accepted on that number. */
  function Accepted(a: string): seq<Step>
  {
    First(a) + [Accepts(0, 0, 1)] + [Serve(Work(0))]
  }

  function Calls(b: string): seq<Step>
  {
    [CallAsync(0, b)] + [Register(0)] + [Push(0)] + [WriteReady(0)]
  }

  function Answered(): seq<Step>
  {
    ServeAll(Serving1()) + [ReadReady(0)] + [Execute(0)]
  }

  function AllSteps(a: string, b: string): seq<Step>
  {
    Accepted(a) + Calls(b) + Answered()
  }

  function AskedFirst(a: string): Request
  {
    Request(1, a, true)
  }

  function AskedNow(b: string): Request
  {
    Request(1, b, true)
  }

  /** The descriptor when the client's connection has been accepted on it. */
  function Reused(a: string): Line
  {
    Line(true, false, In, [], [Reply(AskedFirst(a))], [], [Reply(AskedFirst(a))])
  }

  function Linked(c: Client): Client
  {
    c.(link := On(1))
  }

  /** Before any client's connection is accepted, all descriptors belong to others. */
  lemma NoneOurs(p: Path, evs: seq<Event>)
    requires forall i: nat :: i < |p.clients| ==> p.clients[i].link == Unaccepted
    ensures AllForeign(p, evs)
  {
  }

  lemma FirstState(a: string)
    ensures var p := RunPath(InitPath(1, 1), First(a));
      p == InitPath(1, 1).(server := Rung(AskedFirst(a)))
  {
    var p0 := InitPath(1, 1);
    NoneOurs(p0, Ringing(AskedFirst(a)));
    hide RunPath, Ringing, Run, Rung;
    ServeRuns(p0, Ringing(AskedFirst(a)));
    Rings(AskedFirst(a));
  }

  lemma AcceptedServer(a: string)
    ensures Next(Next(Rung(AskedFirst(a)), Accept(0, 1)), Work(0)) == Calm([LISTENER, Reused(a)], 0)
  {
    var s := Rung(AskedFirst(a));
    Rings(AskedFirst(a));
    AcceptTurn(s, 0, 1);
    RunMore(s, [], Accept(0, 1));
    RunMore(s, [Accept(0, 1)], Work(0));
    assert [] + [Accept(0, 1)] == [Accept(0, 1)] && [Accept(0, 1)] + [Work(0)] == [Accept(0, 1), Work(0)];
    var s' := s.(lines := LinesWith(s, 1), waiting := 0);
    hide Run, Next;
    assert s'.lines == [LISTENER.(armed := Off), Reused(a)];
    OnlyWorker(s', 0, LISTENER);
    assert s'.lines[0 := LISTENER] == [LISTENER, Reused(a)];
  }

  lemma AcceptedState(a: string)
    ensures RunPath(InitPath(1, 1), Accepted(a))
         == InitPath(1, 1).(server := Calm([LISTENER, Reused(a)], 0), clients := [Linked(FRESH_CLIENT)])
  {
    var p0 := InitPath(1, 1);
    FirstState(a);
    PathMore(p0, First(a), Accepts(0, 0, 1));
    PathMore(p0, First(a) + [Accepts(0, 0, 1)], Serve(Work(0)));
    Rings(AskedFirst(a));
    AcceptedServer(a);
    hide RunPath, Rung, Next, First;
    var p1 := p0.(server := Rung(AskedFirst(a)));
    assert p0.clients == [FRESH_CLIENT];
    assert Step1(p1, Accepts(0, 0, 1))
       == p0.(server := Next(p1.server, Accept(0, 1)), clients := [Linked(FRESH_CLIENT)]);
  }

  /** The client's table with its callback in it. */
  function WithCallback(table: seq<Slot>): seq<Slot>
    requires |table| > 1
  {
    table[1 := Callback(0)]
  }

  function CallerOf(table: seq<Slot>, pending: seq<Request>, wantsOut: bool, reader: Reader): Client
    requires |table| > 1
  {
    Client(On(1), WithCallback(table), pending, wantsOut, reader)
  }

  function CalledPath(s: Server, b: string, c: Client): Path
  {
    Path(s, Guids.Alloc([], 1), [c], [Call(0, 1, b, Pushed)], [], [], false)
  }

  lemma CallsState(p: Path, s: Server, b: string)
    requires p == InitPath(1, 1).(server := s, clients := [Linked(FRESH_CLIENT)]) && |s.lines| == 2
    ensures RunPath(p, Calls(b))
       == CalledPath(Next(s, Arrive(1, AskedNow(b))), b, CallerOf(FRESH_CLIENT.table, [], false, Waiting))
  {
    PathOne(p, CallAsync(0, b));
    PathMore(p, [CallAsync(0, b)], Register(0));
    PathMore(p, [CallAsync(0, b)] + [Register(0)], Push(0));
    PathMore(p, [CallAsync(0, b)] + [Register(0)] + [Push(0)], WriteReady(0));
    hide RunPath, Next;
    var c := FRESH_CLIENT;
    var p1 := p.(alloc := Guids.Alloc([], 1), calls := [Call(0, 1, b, Drawn)]);
    assert Step1(p, CallAsync(0, b)) == p1;
    var p2 := p1.(clients := [Linked(c).(table := WithCallback(c.table))], calls := [Call(0, 1, b, Registered)]);
    assert Step1(p1, Register(0)) == p2;
    var p3 := CalledPath(s, b, CallerOf(FRESH_CLIENT.table, [AskedNow(b)], true, Waiting));
    assert [] + [AskedNow(b)] == [AskedNow(b)];
    assert PushOn(p2, 0).clients == p3.clients && PushOn(p2, 0).calls == p3.calls;
    assert Step1(p2, Push(0)) == p3;
    assert [AskedNow(b)][1..] == [];
    assert Step1(p3, WriteReady(0))
       == CalledPath(Next(s, Arrive(1, AskedNow(b))), b, CallerOf(FRESH_CLIENT.table, [], false, Waiting));
  }

  /** The server serves the client's request, and sends the oldest result of the queue. */
  function Serving1(): seq<Event>
  {
    Fetch(1) + WORK + Sends(1)
  }

  function Stale(a: string, b: string): Line
  {
    StaleLine(AskedFirst(a), AskedNow(b))
  }

  lemma ServedState(a: string, b: string)
    ensures Run(Next(Calm([LISTENER, Reused(a)], 0), Arrive(1, AskedNow(b))), Serving1())
         == Calm([LISTENER, Stale(a, b).(pipe := [Reply(AskedNow(b))], down := [Reply(AskedFirst(a))])], 0)
  {
    var s, q := Calm([LISTENER, Reused(a)], 0), AskedNow(b);
    RunMore(s, [], Arrive(1, q));
    RunConcat(s, [Arrive(1, q)], Fetch(1) + WORK);
    RunConcat(Next(s, Arrive(1, q)), Fetch(1) + WORK, Sends(1));
    assert [] + [Arrive(1, q)] == [Arrive(1, q)];
    assert Run(s, []) == s;
    hide Run, Next, Fetch, Sends;
    assert [Arrive(1, q)] + (Fetch(1) + WORK) == Serving(1, q);
    Serves([LISTENER, Reused(a)], 1, q);
    assert Reused(a).pipe + [Reply(q)] == [Reply(AskedFirst(a)), Reply(q)];
    assert [LISTENER, Reused(a)][1 := Stale(a, b)] == [LISTENER, Stale(a, b)];
    SecondSends(AskedFirst(a), q);
  }

  lemma ServingForeign(p: Path)
    ensures AllForeign(p, Serving1())
  {
  }

  /** The server when it has sent the result that was left, before that of the client's request. */
  function SentStale(a: string, b: string): Server
  {
    Calm([LISTENER, Stale(a, b).(pipe := [Reply(AskedNow(b))], down := [Reply(AskedFirst(a))])], 0)
  }

  lemma ReadsStale(a: string, b: string)
    ensures var p := CalledPath(SentStale(a, b), b, CallerOf(FRESH_CLIENT.table, [], false, Waiting));
      var p2 := Step1(Step1(p, ReadReady(0)), Execute(0));
      p2.runs == [Execution(0, 0, Output(a))] && p2.calls == p.calls
  {
    var p := CalledPath(SentStale(a, b), b, CallerOf(FRESH_CLIENT.table, [], false, Waiting));
    hide Next;
    var p1 := Step1(p, ReadReady(0));
    assert p1.clients == [CallerOf(FRESH_CLIENT.table, [], false, Got(Result(1, Output(a))))];
    assert [] + [Execution(0, 0, Output(a))] == [Execution(0, 0, Output(a))];
  }

  lemma AnsweredState(a: string, b: string)
    ensures var s := Next(Calm([LISTENER, Reused(a)], 0), Arrive(1, AskedNow(b)));
      var p := RunPath(CalledPath(s, b, CallerOf(FRESH_CLIENT.table, [], false, Waiting)), Answered());
      && p.runs == [Execution(0, 0, Output(a))]
      && p.calls == [Call(0, 1, b, Pushed)]
  {
    var s := Next(Calm([LISTENER, Reused(a)], 0), Arrive(1, AskedNow(b)));
    var p := CalledPath(s, b, CallerOf(FRESH_CLIENT.table, [], false, Waiting));
    PathMore(p, ServeAll(Serving1()), ReadReady(0));
    PathMore(p, ServeAll(Serving1()) + [ReadReady(0)], Execute(0));
    ServingForeign(p);
    ServeRuns(p, Serving1());
    ServedState(a, b);
    hide RunPath, Run, Next, Serving1, AllForeign, Step1, Stale;
    assert p.(server := SentStale(a, b)) == CalledPath(SentStale(a, b), b, p.clients[0]);
    ReadsStale(a, b);
  }

  // ---- few ids are in use ----

  lemma BoundGrows(p: Path, st: Step)
    requires p.alloc.bound >= 0
    ensures 0 <= Step1(p, st).alloc.bound <= p.alloc.bound + 1
  {
    hide Next, Guids.Rest, Guids.Push, ConnWith, Track;
  }

  lemma {:induction false} BoundSmall(p: Path, steps: seq<Step>)
    requires p.alloc.bound >= 0
    ensures 0 <= RunPath(p, steps).alloc.bound <= p.alloc.bound + |steps|
  {
    if steps != [] {
      BoundSmall(p, steps[..|steps| - 1]);
      BoundGrows(RunPath(p, steps[..|steps| - 1]), steps[|steps| - 1]);
      hide Step1;
    }
  }

  lemma ShortIsFew(steps: seq<Step>)
    requires |steps| < MAX_REQUESTS
    ensures FewInUse(1, 1, steps)
  {
    forall n | 0 <= n <= |steps| ensures InUse(RunPath(InitPath(1, 1), steps[..n])) < MAX_REQUESTS {
      BoundSmall(InitPath(1, 1), steps[..n]);
      hide RunPath;
    }
  }

  /** For any two parameters there is a run, with few ids in use, in which the callback of a call with parameter b has
      run on what the service made of a, which another program had sent under the same id. */
  lemma WrongReply(a: string, b: string) returns (steps: seq<Step>)
    ensures FewInUse(1, 1, steps)
    ensures var p := RunPath(InitPath(1, 1), steps);
      p.calls == [Call(0, 1, b, Pushed)] && p.runs == [Execution(0, 0, Output(a))]
  {
    steps := AllSteps(a, b);
    AllStepsAre(a, b);
    assert |Calm([LISTENER, Reused(a)], 0).lines| == 2;
    hide *;
    var p0 := InitPath(1, 1);
    PathConcat(p0, Accepted(a), Calls(b));
    PathConcat(p0, Accepted(a) + Calls(b), Answered());
    AcceptedState(a);
    var s := Calm([LISTENER, Reused(a)], 0);
    CallsState(RunPath(p0, Accepted(a)), s, b);
    AnsweredState(a, b);
    ShortRun(a, b);
    ShortIsFew(steps);
  }

  lemma AllStepsAre(a: string, b: string)
    ensures AllSteps(a, b) == Accepted(a) + Calls(b) + Answered()
  {
  }

  lemma ShortRun(a: string, b: string)
    ensures |AllSteps(a, b)| < MAX_REQUESTS
  {
    assert |Ringing(AskedFirst(a))| < 100;
    assert |Serving1()| < 100;
  }
}
