/** The callbacks of a client run in the order in which its requests were queued. */
module RpcCallOrder {

  import opened RpcReactor
  import opened RpcOrder
  import opened RpcPath
  import opened RpcCorrelation
  import Guids
  import RpcExclusion

  /** The client without what its reader has already run. */
  function Unran(c: Client): Client
  {
    if c.reader.Got? then c else c.(reader := Waiting)
  }

  /** The call whose callback is in the slot of id. */
  function OwnerOf(c: Client, id: int): nat
  {
    if Fits(c, id) && c.table[id].Callback? then c.table[id].call else 0
  }

  function Owners(c: Client, ids: seq<int>): seq<nat>
  {
    seq(|ids|, j requires 0 <= j < |ids| => OwnerOf(c, ids[j]))
  }

  /** The calls of client i whose callbacks are still to run, by the slots of the ids on its line. */
  function Line(p: Path, i: nat): seq<nat>
    requires i < |p.clients|
  {
    Owners(p.clients[i], Track(Unran(p.clients[i]), ConnWith(p.server, p.clients[i])))
  }

  /** The calls of client i whose callbacks have run. */
  function RunsOf(runs: seq<Execution>, i: nat): seq<nat>
  {
    if runs == [] then [] else
      var e := runs[|runs| - 1];
      RunsOf(runs[..|runs| - 1], i) + if e.client == i then [e.call] else []
  }

  /** What a step adds to the calls of client i whose requests were queued. */
  function PushedNow(p: Path, st: Step, i: nat): seq<nat>
  {
    if st.Push? && At(p, st.call, Registered) && p.calls[st.call].client == i then [st.call] else []
  }

  function PushesOf(p: Path, steps: seq<Step>, i: nat): seq<nat>
  {
    if steps == [] then [] else
      var n := |steps| - 1;
      PushesOf(p, steps[..n], i) + PushedNow(RunPath(p, steps[..n]), steps[n], i)
  }

  lemma OwnersSame(c: Client, c': Client, ids: seq<int>)
    requires forall id :: id in ids ==> OwnerOf(c', id) == OwnerOf(c, id)
    ensures Owners(c', ids) == Owners(c, ids)
  {
  }

  lemma UnranOk(p: Path, i: nat)
    requires Inv(p) && i < |p.clients|
    ensures var c, conn := p.clients[i], ConnWith(p.server, p.clients[i]);
      && ClientOk(p.calls, c, conn, i)
      && ClientOk(p.calls, Unran(c), conn, i)
      && (forall id :: id in Track(Unran(c), conn) ==> id in Track(c, conn))
  {
    var c, conn := p.clients[i], ConnWith(p.server, p.clients[i]);
    assert ClientOk(p.calls, c, conn, i);
    ReaderChanges(p.calls, c, conn, i, Unran(c).reader);
  }

  lemma UnranTrack(c: Client, c': Client, conn: Conn)
    requires c'.reader == c.reader && c'.pending == c.pending
    ensures Track(Unran(c'), conn) == Track(Unran(c), conn)
  {
  }

  lemma ServeLine(p: Path, ev: Event, i: nat)
    requires Inv(p) && i < |p.clients|
    ensures Line(Step1(p, Serve(ev)), i) == Line(p, i)
  {
    if Foreign(p, ev) {
      var c := p.clients[i];
      UnranOk(p, i);
      ClientMeans(p, i);
      hide ConnAt, Inv, Next, Track, ClientOk, Connected, RpcExclusion.Inv;
      if c.link.On? {
        assert ev.Arrive? || ev.Depart? || ev.HangUp? ==> ev.fd != c.link.fd;
        var act := ServeAt(p.server, ev, c.link.fd);
        ServeConn(p.calls, Unran(c), ConnAt(p.server, c.link.fd), i, act);
      }
    }
  }

  lemma AcceptLine(p: Path, j: nat, w: nat, fd: nat, i: nat)
    requires Inv(p) && i < |p.clients| && MayAccept(p, j, w, fd) && QueueOf(p.server, fd) == []
    ensures Line(AcceptFor(p, j, w, fd), i) == Line(p, i)
  {
    var p', c := AcceptFor(p, j, w, fd), p.clients[i];
    hide Inv, Next, Track, QueueOf, LinkOk;
    if i == j {
      AcceptOwn(p, i, w, fd);
      hide ConnWith;
      UnranTrack(c, p'.clients[i], Conn([], []));
      OwnersFor(c, p'.clients[i], Track(Unran(c), Conn([], [])));
    } else {
      AcceptOther(p, j, w, fd, i);
      hide ConnWith;
    }
  }

  lemma LeaveLine(p: Path, j: nat, i: nat)
    requires Inv(p) && i < |p.clients| && MayLeave(p, j) && i != j
    ensures Line(LeaveOn(p, j), i) == Line(p, i)
  {
    LeaveOther(p, j, i);
    hide Inv, Next, Track, LinkOk, ClientOk, ConnWith;
  }

  lemma RegisterLine(p: Path, k: nat, i: nat)
    requires Inv(p) && i < |p.clients| && At(p, k, Drawn)
    ensures Line(RegisterOn(p, k), i) == Line(p, i)
  {
    var p', conn := RegisterOn(p, k), ConnWith(p.server, p.clients[i]);
    RegisterFits(p, k);
    CallIsAlone(p, k);
    UnranOk(p, i);
    hide ConnAt, Inv, Account, ClientOk;
    var c, c' := p.clients[i], p'.clients[i];
    SameTrack(Unran(c), Unran(c'), conn);
    assert p.calls[k].id !in Track(c, conn);
    hide Track;
    OwnersSame(c, c', Track(Unran(c), conn));
  }

  lemma PushOwners(c: Client, c': Client, ids: seq<int>, id: int)
    requires c'.table == c.table
    ensures Owners(c', ids + [id]) == Owners(c, ids) + [OwnerOf(c, id)]
  {
  }

  lemma PushTrack(c: Client, q: Request, conn: Conn)
    ensures Track(Unran(c.(pending := c.pending + [q], wantsOut := true)), conn) == Track(Unran(c), conn) + [q.seqno]
  {
    assert RequestIds(c.pending + [q]) == RequestIds(c.pending) + [q.seqno];
  }

  lemma PushLine(p: Path, k: nat, i: nat)
    requires Inv(p) && i < |p.clients| && At(p, k, Registered)
    ensures Line(PushOn(p, k), i) == Line(p, i) + if p.calls[k].client == i then [k] else []
  {
    var c, id, conn := p.clients[i], p.calls[k].id, ConnWith(p.server, p.clients[i]);
    var c' := PushOn(p, k).clients[i];
    assert CallOk(p, k);
    hide ConnAt, Inv, Track;
    if p.calls[k].client == i {
      assert c' == c.(pending := c.pending + [Request(id, p.calls[k].param, true)], wantsOut := true);
      assert OwnerOf(c, id) == k;
      hide PushOn, OwnerOf;
      PushTrack(c, Request(id, p.calls[k].param, true), conn);
      PushOwners(c, c', Track(Unran(c), conn), id);
    }
  }

  lemma WriteLine(p: Path, j: nat, i: nat)
    requires Inv(p) && i < |p.clients| && Attentive(p, j) && p.clients[j].wantsOut
    ensures Line(WriteOn(p, j), i) == Line(p, i)
  {
    var c, d, fd := p.clients[i], p.clients[j], p.clients[j].link.fd;
    UnranOk(p, i);
    ClientMeans(p, i);
    ClientMeans(p, j);
    assert d.pending != [];
    var p' := WriteOn(p, j);
    hide ConnAt, Inv, Next, Track, ClientOk, RpcExclusion.Inv;
    if c.link.On? {
      ArriveAt(p.server, fd, d.pending[0], c.link.fd);
    }
    hide Connected;
    if i == j {
      SendClient(p.calls, c, ConnWith(p.server, c), i);
      OwnersFor(c, p'.clients[i], Track(Unran(c), ConnWith(p.server, c)));
    }
  }

  lemma ReadLine(p: Path, j: nat, i: nat)
    requires Inv(p) && i < |p.clients| && Attentive(p, j) && p.server.lines[p.clients[j].link.fd].down != []
    ensures Line(ReadOn(p, j), i) == Line(p, i)
  {
    var c, fd := p.clients[i], p.clients[j].link.fd;
    UnranOk(p, i);
    ClientMeans(p, i);
    ClientMeans(p, j);
    var p' := ReadOn(p, j);
    hide ConnAt, Inv, Next, Track, ClientOk, RpcExclusion.Inv;
    if c.link.On? {
      DepartAt(p.server, fd, c.link.fd);
    }
    hide Connected;
    if i == j {
      ReceiveClient(p.calls, c, ConnWith(p.server, c), i);
      OwnersFor(c, p'.clients[i], Track(Unran(c), ConnWith(p.server, c)));
    }
  }

  lemma RunsMore(runs: seq<Execution>, e: Execution, i: nat)
    ensures RunsOf(runs + [e], i) == RunsOf(runs, i) + if e.client == i then [e.call] else []
  {
    assert (runs + [e])[..|runs|] == runs;
  }

  /** The head of the line is what the reader holds. */
  lemma HeadRuns(c: Client, conn: Conn, k: nat)
    requires c.reader.Got?
    ensures Owners(c, Track(Unran(c), conn))
         == [OwnerOf(c, c.reader.result.seqno)]
            + Owners(c, Track(Unran(c.(reader := Ran(c.reader.result.seqno, k))), conn))
  {
    var id := c.reader.result.seqno;
    var rest := Track(Unran(c.(reader := Ran(id, k))), conn);
    assert Track(Unran(c), conn) == [id] + rest;
    hide Track;
    assert Owners(c, [id] + rest) == [OwnerOf(c, id)] + Owners(c, rest);
  }

  /** The callback that runs is the one in the slot of the result's id. */
  lemma ExecuteOwner(p: Path, j: nat)
    requires Inv(p) && j < |p.clients| && p.clients[j].reader.Got?
    ensures var p', c := ExecuteOn(p, j), p.clients[j];
      var k := OwnerOf(c, c.reader.result.seqno);
      && p'.server == p.server
      && p'.runs == p.runs + [Execution(j, k, c.reader.result.output)]
      && p'.clients == p.clients[j := c.(reader := Ran(c.reader.result.seqno, k))]
  {
    RpcCorrelation.ExecuteMeans(p, j);
    hide Inv, ExecuteOn;
  }

  /** Running a callback takes it off the head of its client's line, and changes no other line. */
  lemma ExecuteShortens(p: Path, j: nat, i: nat)
    requires Inv(p) && i < |p.clients| && j < |p.clients| && p.clients[j].reader.Got?
    ensures var k := OwnerOf(p.clients[j], p.clients[j].reader.result.seqno);
      && i < |ExecuteOn(p, j).clients|
      && Line(p, i) == (if i == j then [k] else []) + Line(ExecuteOn(p, j), i)
  {
    hide *;
    ExecuteOwner(p, j);
    var p', c, conn := ExecuteOn(p, j), p.clients[j], ConnWith(p.server, p.clients[j]);
    var k := OwnerOf(c, c.reader.result.seqno);
    LineIs(p, i);
    LineIs(p', i);
    if i == j {
      var c' := c.(reader := Ran(c.reader.result.seqno, k));
      SameConn(p.server, c, c');
      HeadRuns(c, conn, k);
      OwnersFor(c, c', Track(Unran(c'), conn));
    } else {
      assert [] + Line(p', i) == Line(p', i);
    }
  }

  lemma LineIs(p: Path, i: nat)
    requires i < |p.clients|
    ensures Line(p, i) == Owners(p.clients[i], Track(Unran(p.clients[i]), ConnWith(p.server, p.clients[i])))
  {
  }

  lemma ExecuteLine(p: Path, j: nat, i: nat)
    requires Inv(p) && i < |p.clients| && j < |p.clients| && p.clients[j].reader.Got?
    ensures i < |ExecuteOn(p, j).clients|
    ensures RunsOf(ExecuteOn(p, j).runs, i) + Line(ExecuteOn(p, j), i) == RunsOf(p.runs, i) + Line(p, i)
  {
    hide *;
    ExecuteOwner(p, j);
    ExecuteShortens(p, j, i);
    var c := p.clients[j];
    var k := OwnerOf(c, c.reader.result.seqno);
    RunsMore(p.runs, Execution(j, k, c.reader.result.output), i);
    var one := if i == j then [k] else [];
    assert RunsOf(p.runs, i) + one + Line(ExecuteOn(p, j), i) == RunsOf(p.runs, i) + (one + Line(ExecuteOn(p, j), i));
  }

  lemma OwnersFor(c: Client, c': Client, ids: seq<int>)
    requires c'.table == c.table
    ensures Owners(c', ids) == Owners(c, ids)
  {
  }

  lemma ClearLine(p: Path, j: nat, i: nat)
    requires Inv(p) && i < |p.clients| && j < |p.clients| && p.clients[j].reader.Ran?
    ensures Line(ClearOn(p, j), i) == Line(p, i)
  {
    UnranOk(p, j);
    WithoutHeld(p, j);
    var p', conn := ClearOn(p, j), ConnWith(p.server, p.clients[i]);
    hide ConnAt, Inv;
    if i == j {
      SameTrack(Unran(p.clients[i]), Unran(p'.clients[i]), conn);
      hide Track;
      OwnersSame(p.clients[i], p'.clients[i], Track(Unran(p.clients[i]), conn));
    }
  }

  lemma RecycleLine(p: Path, j: nat, i: nat)
    requires i < |p.clients| && j < |p.clients| && p.clients[j].reader.Cleared?
    ensures Line(RecycleOn(p, j), i) == Line(p, i)
  {
    hide ConnAt, Track;
    if i == j {
      OwnersSame(p.clients[i], RecycleOn(p, j).clients[i],
                 Track(Unran(p.clients[i]), ConnWith(p.server, p.clients[i])));
    }
  }

  lemma StepRuns(p: Path, st: Step)
    ensures !st.Execute? ==> Step1(p, st).runs == p.runs
  {
  }

  lemma CallLine(p: Path, j: nat, param: string, i: nat)
    requires i < |p.clients|
    ensures Step1(p, CallAsync(j, param)).clients == p.clients && Step1(p, CallAsync(j, param)).runs == p.runs
    ensures Line(Step1(p, CallAsync(j, param)), i) == Line(p, i)
  {
  }

  lemma StepLine(p: Path, st: Step, i: nat)
    requires Inv(p) && CleanStep(p, st) && i < |p.clients| && !(st == Leave(i) && MayLeave(p, i))
    ensures |Step1(p, st).clients| == |p.clients|
    ensures RunsOf(Step1(p, st).runs, i) + Line(Step1(p, st), i) == RunsOf(p.runs, i) + Line(p, i) + PushedNow(p, st, i)
  {
    StepRuns(p, st);
    StepSameClients(p, st);
    hide Inv, Line, RegisterOn, PushOn, WriteOn, ReadOn, ExecuteOn, ClearOn, RecycleOn, RunsOf,
         AcceptFor, LeaveOn, Foreign;
    match st {
      case Serve(ev) => ServeLine(p, ev, i);
      case Accepts(j, w, fd) =>
        if MayAccept(p, j, w, fd) {
          AcceptLine(p, j, w, fd, i);
        }
      case Leave(j) =>
        if MayLeave(p, j) {
          LeaveLine(p, j, i);
        }
      case CallAsync(j, param) => CallLine(p, j, param, i);
      case Register(k) =>
        if At(p, k, Drawn) {
          RegisterLine(p, k, i);
        }
      case Push(k) =>
        if At(p, k, Registered) {
          PushLine(p, k, i);
        }
      case WriteReady(j) =>
        if Attentive(p, j) && p.clients[j].wantsOut {
          WriteLine(p, j, i);
        }
      case ReadReady(j) =>
        if Attentive(p, j) && p.server.lines[p.clients[j].link.fd].down != [] {
          ReadLine(p, j, i);
        }
      case Execute(j) =>
        if j < |p.clients| && p.clients[j].reader.Got? {
          ExecuteLine(p, j, i);
        }
      case Clear(j) =>
        if j < |p.clients| && p.clients[j].reader.Ran? {
          ClearLine(p, j, i);
        }
      case Recycle(j) =>
        if j < |p.clients| && p.clients[j].reader.Cleared? {
          RecycleLine(p, j, i);
        }
    }
  }

  lemma GoneStill(p: Path, st: Step, i: nat)
    requires i < |p.clients| && p.clients[i].link == Gone && p.clients[i].reader == Waiting
    ensures var p' := Step1(p, st);
      i < |p'.clients| && p'.clients[i].link == Gone && p'.clients[i].reader == Waiting
  {
    LinkSteps(p, st, i);
    hide Step1;
  }

  /** How a step can change a client's connection, and its thread while that waits. */
  predicate LinkStep(p: Path, p': Path, st: Step, i: nat)
    requires i < |p.clients|
  {
    && i < |p'.clients|
    && (p'.clients[i].link == p.clients[i].link
        || (p.clients[i].link == Unaccepted && p'.clients[i].link.On?)
        || (p'.clients[i].link == Gone && st == Leave(i) && MayLeave(p, i)))
    && (p.clients[i].reader == Waiting && !p.clients[i].link.On? ==> p'.clients[i].reader == Waiting)
  }

  lemma OneClient(p: Path, p': Path, st: Step, i: nat, j: nat, c: Client)
    requires i < |p.clients| && j < |p.clients| && p'.clients == p.clients[j := c]
    requires c.link == p.clients[j].link
    requires c.reader == p.clients[j].reader || p.clients[j].reader != Waiting || p.clients[j].link.On?
    ensures LinkStep(p, p', st, i)
  {
  }

  lemma ReaderSteps(p: Path, st: Step, i: nat)
    requires i < |p.clients| && (st.Execute? || st.Clear? || st.Recycle?)
    ensures LinkStep(p, Step1(p, st), st, i)
  {
    hide Next, ConnWith, Guids.Release, Guids.Obtain, LinkStep;
    var j, p' := st.client, Step1(p, st);
    if j < |p.clients| {
      assert p.clients[j := p.clients[j]] == p.clients;
      assert p'.clients == p.clients[j := p'.clients[j]];
      OneClient(p, p', st, i, j, p'.clients[j]);
    } else {
      assert p.clients[i := p.clients[i]] == p.clients;
      OneClient(p, p', st, i, i, p.clients[i]);
    }
  }

  lemma SocketSteps(p: Path, st: Step, i: nat)
    requires i < |p.clients| && (st.WriteReady? || st.ReadReady?)
    ensures LinkStep(p, Step1(p, st), st, i)
  {
    hide Next, ConnWith, LinkStep;
    var j, p' := st.client, Step1(p, st);
    if j < |p.clients| {
      assert p.clients[j := p.clients[j]] == p.clients;
      assert p'.clients == p.clients[j := p'.clients[j]];
      OneClient(p, p', st, i, j, p'.clients[j]);
    } else {
      assert p.clients[i := p.clients[i]] == p.clients;
      OneClient(p, p', st, i, i, p.clients[i]);
    }
  }

  lemma CallSteps(p: Path, st: Step, i: nat)
    requires i < |p.clients| && (st.Register? || st.Push?)
    ensures LinkStep(p, Step1(p, st), st, i)
  {
    hide Next, ConnWith, LinkStep;
    var p' := Step1(p, st);
    if st.call < |p.calls| && p.calls[st.call].client < |p.clients| {
      var j := p.calls[st.call].client;
      assert p.clients[j := p.clients[j]] == p.clients;
      assert p'.clients == p.clients[j := p'.clients[j]];
      OneClient(p, p', st, i, j, p'.clients[j]);
    } else {
      assert p.clients[i := p.clients[i]] == p.clients;
      OneClient(p, p', st, i, i, p.clients[i]);
    }
  }

  lemma LinkSteps(p: Path, st: Step, i: nat)
    requires i < |p.clients|
    ensures LinkStep(p, Step1(p, st), st, i)
  {
    if st.Execute? || st.Clear? || st.Recycle? {
      hide Step1, LinkStep;
      ReaderSteps(p, st, i);
    } else if st.WriteReady? || st.ReadReady? {
      hide Step1, LinkStep;
      SocketSteps(p, st, i);
    } else if st.Register? || st.Push? {
      hide Step1, LinkStep;
      CallSteps(p, st, i);
    } else {
      hide Next, ConnWith, Guids.Obtain, RegisterOn, PushOn, WriteOn, ReadOn, ExecuteOn, ClearOn, RecycleOn;
    }
  }

  lemma OthersRun(p: Path, j: nat, i: nat)
    requires Inv(p) && j < |p.clients| && p.clients[j].reader.Got? && j != i
    ensures RunsOf(ExecuteOn(p, j).runs, i) == RunsOf(p.runs, i)
  {
    ExecuteOwner(p, j);
    hide Inv, ExecuteOn, RunsOf;
    var c := p.clients[j];
    RunsMore(p.runs, Execution(j, OwnerOf(c, c.reader.result.seqno), c.reader.result.output), i);
  }

  /** Nothing more is queued, and no callback runs, for a client that has hung up; nor does it come back. */
  lemma GoneStays(p: Path, st: Step, i: nat)
    requires Inv(p) && i < |p.clients| && p.clients[i].link == Gone && p.clients[i].reader == Waiting
    ensures var p' := Step1(p, st);
      && i < |p'.clients| && p'.clients[i].link == Gone && p'.clients[i].reader == Waiting
      && RunsOf(p'.runs, i) == RunsOf(p.runs, i) && PushedNow(p, st, i) == []
  {
    GoneStill(p, st, i);
    hide Next, ConnWith, Guids.Obtain, RegisterOn, PushOn, WriteOn, ReadOn, ClearOn, RecycleOn, Inv, RunsOf, ExecuteOn;
    StepRuns(p, st);
    if st.Execute? && st.client < |p.clients| && p.clients[st.client].reader.Got? {
      OthersRun(p, st.client, i);
    }
  }

  /** The callbacks that have run, and those still to run, against the requests queued. */
  ghost predicate InOrder(p: Path, pushes: seq<nat>, i: nat)
    requires i < |p.clients|
  {
    if p.clients[i].link == Gone then p.clients[i].reader == Waiting && RunsOf(p.runs, i) <= pushes
    else pushes == RunsOf(p.runs, i) + Line(p, i)
  }

  lemma StepInOrder(p: Path, st: Step, i: nat, pushes: seq<nat>)
    requires Inv(p) && CleanStep(p, st) && i < |p.clients| && InOrder(p, pushes, i)
    ensures |Step1(p, st).clients| == |p.clients|
    ensures InOrder(Step1(p, st), pushes + PushedNow(p, st, i), i)
  {
    StepSameClients(p, st);
    if p.clients[i].link == Gone {
      GoneStays(p, st, i);
    } else if st == Leave(i) && MayLeave(p, i) {
      hide Inv, Line, RunsOf, Next;
      assert Step1(p, st).runs == p.runs;
    } else {
      StepLine(p, st, i);
      NotGone(p, st, i);
      hide Inv, Line, RunsOf, Step1, PushedNow;
    }
  }

  lemma NotGone(p: Path, st: Step, i: nat)
    requires i < |p.clients| && p.clients[i].link != Gone && !(st == Leave(i) && MayLeave(p, i))
    ensures i < |Step1(p, st).clients| && Step1(p, st).clients[i].link != Gone
  {
    LinkSteps(p, st, i);
    hide Step1;
  }

  lemma PushesMore(p: Path, steps: seq<Step>, i: nat)
    requires steps != []
    ensures var n := |steps| - 1;
      PushesOf(p, steps, i) == PushesOf(p, steps[..n], i) + PushedNow(RunPath(p, steps[..n]), steps[n], i)
  {
  }

  lemma NothingQueued(workers: nat, clients: nat, i: nat)
    requires i < clients
    ensures var p := InitPath(workers, clients);
      |p.clients| == clients && RunPath(p, []) == p && PushesOf(p, [], i) == [] && InOrder(p, [], i)
  {
    var p := InitPath(workers, clients);
    assert Track(Unran(FRESH_CLIENT), Conn([], [])) == [];
    assert Line(p, i) == [];
  }

  lemma {:induction false} OrderKept(workers: nat, clients: nat, steps: seq<Step>, i: nat)
    requires FewInUse(workers, clients, steps) && CleanRun(workers, clients, steps) && i < clients
    ensures var p0 := InitPath(workers, clients);
      var p := RunPath(p0, steps);
      |p.clients| == clients && InOrder(p, PushesOf(p0, steps, i), i)
  {
    var p0 := InitPath(workers, clients);
    hide *;
    if steps == [] {
      NothingQueued(workers, clients, i);
    } else {
      var n := |steps| - 1;
      FewBefore(workers, clients, steps, n);
      CleanBefore(workers, clients, steps, n);
      OrderKept(workers, clients, steps[..n], i);
      PathKept(workers, clients, steps[..n]);
      LastIsClean(workers, clients, steps);
      LastStep(p0, steps);
      PushesMore(p0, steps, i);
      StepInOrder(RunPath(p0, steps[..n]), steps[n], i, PushesOf(p0, steps[..n], i));
    }
  }

  /** With fewer than 1024 ids in use, and clients given numbers with empty result queues: the calls of a client whose
      callbacks have run, and after them those whose callbacks are still to run, are those whose requests were
      queued, in the order they were queued; when the client has hung up, the rest of these never run. */
  lemma CallbacksInOrder(workers: nat, clients: nat, steps: seq<Step>, i: nat)
    requires FewInUse(workers, clients, steps) && CleanRun(workers, clients, steps) && i < clients
    ensures var p0 := InitPath(workers, clients);
      var p := RunPath(p0, steps);
      && |p.clients| == clients
      && RunsOf(p.runs, i) <= PushesOf(p0, steps, i)
      && (p.clients[i].link != Gone ==> PushesOf(p0, steps, i) == RunsOf(p.runs, i) + Line(p, i))
  {
    OrderKept(workers, clients, steps, i);
    hide RunPath, PushesOf, RunsOf, Line, FewInUse, CleanRun;
  }
}
