/** The whole way of a call: id, callback slot, send queue, server, and back to the callback.  Calls come from any
    number of threads; each client reads and writes its connection on one thread of its own. */
module RpcPath {

  import opened RpcReactor
  import opened RpcOrder
  import RpcExclusion
  import Guids

  const MAX_REQUESTS := 1024

  /** How far a call is: its id drawn, its callback registered, its request queued, or its id given back. */
  datatype Progress = Drawn | Registered | Pushed | Returned

  /** A call; its place in the list of calls stands for its callback. */
  datatype Call = Call(client: nat, id: int, param: string, progress: Progress)

  datatype Slot = Null | Callback(call: nat)

  /** How far the reading thread is: a result received, its callback run, its slot cleared. */
  datatype Reader = Waiting | Got(result: Result) | Ran(seqno: int, call: nat) | Cleared(seqno: int, call: nat)

  /** A client's connection: not accepted by the server yet, accepted on a descriptor, or hung up. */
  datatype Link = Unaccepted | On(fd: nat) | Gone

  datatype Client = Client(link: Link, table: seq<Slot>, pending: seq<Request>, wantsOut: bool, reader: Reader)

  /** A callback that has run, and what it was given. */
  datatype Execution = Execution(client: nat, call: nat, output: Output)

  datatype Path = Path(
    server: Server, alloc: Guids.Alloc, clients: seq<Client>, calls: seq<Call>, runs: seq<Execution>,
    lost: seq<int>,   // the ids that were on the line of a client when it hung up
    wild: bool)       // a table was used out of range, or a callback was missing

  const FRESH_CLIENT := Client(Unaccepted, seq(MAX_REQUESTS, _ => Null), [], false, Waiting)

  function InitPath(workers: nat, clients: nat): Path
  {
    Path(InitServer(workers), Guids.FRESH, seq(clients, _ => FRESH_CLIENT), [], [], [], false)
  }

  // ---- the ids on a client's line ----

  function ResultIds(rs: seq<Result>): (ids: seq<int>)
  {
    seq(|rs|, j requires 0 <= j < |rs| => rs[j].seqno)
  }

  function RequestIds(qs: seq<Request>): (ids: seq<int>)
  {
    seq(|qs|, j requires 0 <= j < |qs| => qs[j].seqno)
  }

  function ReaderIds(r: Reader): seq<int>
  {
    match r
    case Waiting => []
    case Got(result) => [result.seqno]
    case Ran(seqno, _) => [seqno]
    case Cleared(seqno, _) => [seqno]
  }

  /** The ids of a client that are with its reader, on the connection or pending, the furthest first. */
  function Track(c: Client, conn: Conn): seq<int>
  {
    ReaderIds(c.reader) + ResultIds(conn.back) + RequestIds(conn.coming) + RequestIds(c.pending)
  }

  /** What is on its way on a client's connection. */
  function ConnWith(s: Server, c: Client): Conn
  {
    if c.link.On? then ConnAt(s, c.link.fd) else Conn([], [])
  }

  /** The descriptor of one of the clients; the others belong to other programs. */
  predicate Ours(p: Path, fd: nat)
  {
    exists i :: 0 <= i < |p.clients| && p.clients[i].link == On(fd)
  }

  /** A step of the server, or of another program, leaves the client ends of our connections alone. */
  predicate Foreign(p: Path, ev: Event)
  {
    ev.Arrive? || ev.Depart? || ev.HangUp? ==> !Ours(p, ev.fd)
  }

  datatype Step =
    | Serve(ev: Event)                      // the server, or another program
    | Accepts(client: nat, worker: nat, fd: nat)   // the server accepts the client's connection on the number fd
    | Leave(client: nat)                    // the client hangs up
    | CallAsync(client: nat, param: string)
    | Register(call: nat)
    | Push(call: nat)
    | WriteReady(client: nat)
    | ReadReady(client: nat)
    | Execute(client: nat)
    | Clear(client: nat)
    | Recycle(client: nat)

  function SetClient(p: Path, i: nat, c: Client): Path
    requires i < |p.clients|
  {
    p.(clients := p.clients[i := c])
  }

  function SetProgress(p: Path, k: nat, progress: Progress): Path
    requires k < |p.calls|
  {
    p.(calls := p.calls[k := p.calls[k].(progress := progress)])
  }

  predicate Fits(c: Client, id: int)
  {
    0 <= id < |c.table|
  }

  /** Call k may take its next step: it is at `progress`, and its client exists and has not hung up. */
  predicate At(p: Path, k: nat, progress: Progress)
  {
    && k < |p.calls| && p.calls[k].progress == progress
    && p.calls[k].client < |p.clients| && p.clients[p.calls[k].client].link != Gone
  }

  function RegisterOn(p: Path, k: nat): Path
    requires k < |p.calls| && p.calls[k].client < |p.clients|
  {
    var i, id := p.calls[k].client, p.calls[k].id;
    var c := p.clients[i];
    if Fits(c, id) then SetProgress(SetClient(p, i, c.(table := c.table[id := Callback(k)])), k, Registered)
    else p.(wild := true)
  }

  function PushOn(p: Path, k: nat): Path
    requires k < |p.calls| && p.calls[k].client < |p.clients|
  {
    var i := p.calls[k].client;
    var c := p.clients[i];
    SetProgress(
      SetClient(p, i, c.(pending := c.pending + [Request(p.calls[k].id, p.calls[k].param, true)], wantsOut := true)),
      k, Pushed)
  }

  /** The client can use its connection: its thread is free and the server has accepted it. */
  predicate Attentive(p: Path, i: nat)
  {
    && i < |p.clients| && p.clients[i].reader == Waiting
    && p.clients[i].link.On? && p.clients[i].link.fd < |p.server.lines|
  }

  function WriteOn(p: Path, i: nat): Path
    requires Attentive(p, i)
  {
    var c := p.clients[i];
    var rest := if c.pending == [] then [] else c.pending[1..];
    var p1 := if c.pending == [] then p else p.(server := Next(p.server, Arrive(c.link.fd, c.pending[0])));
    SetClient(p1, i, c.(pending := rest, wantsOut := c.wantsOut && rest != []))
  }

  function ReadOn(p: Path, i: nat): Path
    requires Attentive(p, i) && p.server.lines[p.clients[i].link.fd].down != []
  {
    var fd := p.clients[i].link.fd;
    SetClient(p.(server := Next(p.server, Depart(fd))), i, p.clients[i].(reader := Got(p.server.lines[fd].down[0])))
  }

  predicate MayAccept(p: Path, i: nat, w: nat, fd: nat)
  {
    i < |p.clients| && p.clients[i].link == Unaccepted && Accepting(p.server, w) && Free(p.server, fd)
  }

  function AcceptFor(p: Path, i: nat, w: nat, fd: nat): Path
    requires MayAccept(p, i, w, fd)
  {
    SetClient(p.(server := Next(p.server, Accept(w, fd))), i, p.clients[i].(link := On(fd)))
  }

  predicate MayLeave(p: Path, i: nat)
  {
    i < |p.clients| && p.clients[i].link != Gone && p.clients[i].reader == Waiting
  }

  /** What is pending, or on its way to or from a client that hangs up, comes to nothing. */
  function LeaveOn(p: Path, i: nat): Path
    requires MayLeave(p, i)
  {
    var c := p.clients[i];
    var p1 := if c.link.On? then p.(server := Next(p.server, HangUp(c.link.fd))) else p;
    SetClient(p1.(lost := p.lost + Track(c, ConnWith(p.server, c))), i,
              c.(link := Gone, pending := [], wantsOut := false))
  }

  function ExecuteOn(p: Path, i: nat): Path
    requires i < |p.clients| && p.clients[i].reader.Got?
  {
    var c, result := p.clients[i], p.clients[i].reader.result;
    if Fits(c, result.seqno) && c.table[result.seqno].Callback? then
      var k := c.table[result.seqno].call;
      SetClient(p.(runs := p.runs + [Execution(i, k, result.output)]), i, c.(reader := Ran(result.seqno, k)))
    else p.(wild := true)
  }

  function ClearOn(p: Path, i: nat): Path
    requires i < |p.clients| && p.clients[i].reader.Ran?
  {
    var c := p.clients[i];
    var id := c.reader.seqno;
    if Fits(c, id) then SetClient(p, i, c.(table := c.table[id := Null], reader := Cleared(id, c.reader.call)))
    else p.(wild := true)
  }

  function RecycleOn(p: Path, i: nat): Path
    requires i < |p.clients| && p.clients[i].reader.Cleared?
  {
    var c := p.clients[i];
    var k := c.reader.call;
    var p1 := SetClient(p.(alloc := Guids.Release(p.alloc, c.reader.seqno)), i, c.(reader := Waiting));
    if k < |p.calls| then SetProgress(p1, k, Returned) else p1
  }

  function Step1(p: Path, st: Step): Path
  {
    match st
    case Serve(ev) =>
      if Foreign(p, ev) then p.(server := Next(p.server, ev)) else p
    case Accepts(i, w, fd) =>
      if MayAccept(p, i, w, fd) then AcceptFor(p, i, w, fd) else p
    case Leave(i) =>
      if MayLeave(p, i) then LeaveOn(p, i) else p
    case CallAsync(i, param) =>
      var (a, id) := Guids.Obtain(p.alloc);
      if i >= |p.clients| || p.clients[i].link == Gone || id == -1 then p
      else p.(alloc := a, calls := p.calls + [Call(i, id, param, Drawn)])
    case Register(k) =>
      if At(p, k, Drawn) then RegisterOn(p, k) else p
    case Push(k) =>
      if At(p, k, Registered) then PushOn(p, k) else p
    case WriteReady(i) =>
      if Attentive(p, i) && p.clients[i].wantsOut then WriteOn(p, i) else p
    case ReadReady(i) =>
      if Attentive(p, i) && p.server.lines[p.clients[i].link.fd].down != [] then ReadOn(p, i) else p
    case Execute(i) =>
      if i < |p.clients| && p.clients[i].reader.Got? then ExecuteOn(p, i) else p
    case Clear(i) =>
      if i < |p.clients| && p.clients[i].reader.Ran? then ClearOn(p, i) else p
    case Recycle(i) =>
      if i < |p.clients| && p.clients[i].reader.Cleared? then RecycleOn(p, i) else p
  }

  function RunPath(p: Path, steps: seq<Step>): Path
  {
    if steps == [] then p else Step1(RunPath(p, steps[..|steps| - 1]), steps[|steps| - 1])
  }

  lemma PathMore(p: Path, steps: seq<Step>, st: Step)
    ensures RunPath(p, steps + [st]) == Step1(RunPath(p, steps), st)
  {
    assert (steps + [st])[..|steps|] == steps;
  }

  /** The ids in use: drawn and not yet given back. */
  function InUse(p: Path): int
  {
    p.alloc.bound - |p.alloc.heap|
  }
}
