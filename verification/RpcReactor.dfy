/** The server side of the RPC path: one-shot descriptors, a reactor that turns
    ready descriptors into tasks, a bounded task queue, worker threads, and one
    queue of results per connection.  Every interleaving of the workers is a run. */
module RpcReactor {

  const MAX_TASKS := 10000

  datatype Request = Request(seqno: int, param: string, needReturn: bool)

  /** What a service makes of a parameter; services are not interpreted further. */
  datatype Output = Output(param: string)

  datatype Result = Result(seqno: int, output: Output)

  /** What a one-shot descriptor waits for. */
  datatype Arm = Off | In | InOut

  datatype Kind = ReadEvent | WriteEvent | CloseEvent

  datatype Task = Task(fd: nat, kind: Kind)

  /** How far a worker is with its task. */
  datatype Stage =
    | Taken(kind: Kind)
    | Handling(request: Request)   // read from the socket, not yet answered
    | Sending(result: Result)      // popped from the pipe, not yet sent
    | Finished                     // about to look at the pipe
    | Checked(empty: bool)         // has looked, about to re-arm
    | Accepted                     // a connection was accepted, the listener is not yet re-armed

  datatype Worker = Idle | Busy(fd: nat, stage: Stage)

  /** A descriptor: its socket in whole frames, its result queue and its state in the poller.  The queue belongs to
      the number, not to the connection; `left` is what was in it when the connection was accepted. */
  datatype Line = Line(
    open: bool, hup: bool, armed: Arm, up: seq<Request>, pipe: seq<Result>, down: seq<Result>, left: seq<Result>)

  /** Descriptor 0 is the listening socket; `waiting` connections are to be accepted on it. */
  datatype Server = Server(
    lines: seq<Line>, waiting: nat, batch: seq<Task>, queue: seq<Task>, workers: seq<Worker>,
    dropped: bool,    // a task was refused by the full queue
    stalled: bool,    // a read found nothing, and left its descriptor unarmed
    crashed: bool)    // an assertion failed

  const FRESH_LINE := Line(true, false, In, [], [], [], [])

  function InitServer(workers: nat): Server
  {
    Server([FRESH_LINE], 0, [], [], seq(workers, _ => Idle), false, false, false)
  }

  datatype Event =
    | Connect
    | HangUp(fd: nat)
    | Arrive(fd: nat, request: Request)   // the client sends a whole frame
    | Depart(fd: nat)                     // the client receives a whole result
    | Dispatch(fd: nat)                   // the reactor sees a ready descriptor
    | AddTask                             // the reactor hands a task to the pool
    | TakeTask(worker: nat)
    | Work(worker: nat)                   // a worker does the next piece of its task
    | Accept(worker: nat, fd: nat)        // a worker accepts a connection, and is given the number fd for it

  function SetLine(s: Server, fd: nat, l: Line): Server
    requires fd < |s.lines|
  {
    s.(lines := s.lines[fd := l])
  }

  function SetWorker(s: Server, w: nat, x: Worker): Server
    requires w < |s.workers|
  {
    s.(workers := s.workers[w := x])
  }

  /** The event type that the poller reports: close before read before write. */
  function Ready(s: Server, fd: nat): (kind: seq<Kind>)
    requires fd < |s.lines|
  {
    var l := s.lines[fd];
    if l.armed == Off then []
    else if l.hup then [CloseEvent]
    else if (if fd == 0 then s.waiting > 0 else l.up != []) then [ReadEvent]
    else if l.armed == InOut then [WriteEvent]
    else []
  }

  function Reply(r: Request): Result
  {
    Result(r.seqno, Output(r.param))
  }

  /** The next piece of work of a worker on descriptor fd. */
  function WorkOn(s: Server, w: nat, fd: nat, stage: Stage): Server
    requires w < |s.workers| && fd < |s.lines|
  {
    var l := s.lines[fd];
    match stage
    case Taken(ReadEvent) =>
      if fd == 0 then
        if s.waiting == 0 then s.(crashed := true) else s   // otherwise see AcceptOn
      else if l.up == [] then SetWorker(s.(stalled := true), w, Idle)
      else SetWorker(SetLine(s, fd, l.(up := l.up[1..])), w, Busy(fd, Handling(l.up[0])))
    case Taken(WriteEvent) =>
      if l.pipe == [] then s.(crashed := true)
      else SetWorker(SetLine(s, fd, l.(pipe := l.pipe[1..])), w, Busy(fd, Sending(l.pipe[0])))
    case Taken(CloseEvent) =>
      SetWorker(SetLine(s, fd, l.(open := false, armed := Off)), w, Idle)
    case Handling(request) =>
      SetWorker(SetLine(s, fd, if request.needReturn then l.(pipe := l.pipe + [Reply(request)]) else l),
                w, Busy(fd, Finished))
    case Sending(result) =>
      SetWorker(SetLine(s, fd, l.(down := l.down + [result])), w, Busy(fd, Finished))
    case Finished =>
      SetWorker(s, w, Busy(fd, Checked(l.pipe == [])))
    case Checked(empty) =>
      SetWorker(SetLine(s, fd, l.(armed := if empty then In else InOut)), w, Idle)
    case Accepted =>
      SetWorker(SetLine(s, fd, l.(armed := In)), w, Idle)
  }

  /** A new connection is given the number of a closed descriptor, or a new one. */
  predicate Free(s: Server, fd: nat)
  {
    fd == |s.lines| || (0 < fd < |s.lines| && !s.lines[fd].open)
  }

  /** A connection on a number that was used before: its socket is new, its result queue is not. */
  function Reopened(l: Line): Line
  {
    Line(true, false, In, [], l.pipe, [], l.pipe)
  }

  function LinesWith(s: Server, fd: nat): seq<Line>
    requires Free(s, fd)
  {
    if fd < |s.lines| then s.lines[fd := Reopened(s.lines[fd])] else s.lines + [FRESH_LINE]
  }

  predicate Accepting(s: Server, w: nat)
  {
    w < |s.workers| && s.workers[w] == Busy(0, Taken(ReadEvent)) && s.waiting > 0
  }

  function AcceptOn(s: Server, w: nat, fd: nat): Server
    requires Accepting(s, w) && Free(s, fd)
  {
    SetWorker(s.(lines := LinesWith(s, fd), waiting := s.waiting - 1), w, Busy(0, Accepted))
  }

  /** A client that has hung up, or whose connection was closed, sends nothing. */
  predicate Connected(s: Server, fd: nat)
  {
    0 < fd < |s.lines| && s.lines[fd].open && !s.lines[fd].hup
  }

  /** One event; an event that does not apply changes nothing. */
  function Next(s: Server, ev: Event): Server
  {
    match ev
    case Connect => s.(waiting := s.waiting + 1)
    case HangUp(fd) =>
      if Connected(s, fd) then SetLine(s, fd, s.lines[fd].(hup := true)) else s
    case Arrive(fd, request) =>
      if Connected(s, fd) then SetLine(s, fd, s.lines[fd].(up := s.lines[fd].up + [request])) else s
    case Depart(fd) =>
      if 0 < fd < |s.lines| && s.lines[fd].down != [] then
        SetLine(s, fd, s.lines[fd].(down := s.lines[fd].down[1..]))
      else s
    case Dispatch(fd) =>
      if fd < |s.lines| && Ready(s, fd) != [] then
        SetLine(s, fd, s.lines[fd].(armed := Off)).(batch := s.batch + [Task(fd, Ready(s, fd)[0])])
      else s
    case AddTask =>
      if s.batch == [] then s
      else if |s.queue| >= MAX_TASKS then s.(batch := s.batch[1..], dropped := true)
      else s.(batch := s.batch[1..], queue := s.queue + [s.batch[0]])
    case TakeTask(w) =>
      if w < |s.workers| && s.workers[w] == Idle && s.queue != [] then
        SetWorker(s.(queue := s.queue[1..]), w, Busy(s.queue[0].fd, Taken(s.queue[0].kind)))
      else s
    case Work(w) =>
      if w < |s.workers| && s.workers[w].Busy? && s.workers[w].fd < |s.lines| then
        WorkOn(s, w, s.workers[w].fd, s.workers[w].stage)
      else s
    case Accept(w, fd) =>
      if Accepting(s, w) && Free(s, fd) then AcceptOn(s, w, fd) else s
  }

  function Run(s: Server, evs: seq<Event>): Server
  {
    if evs == [] then s else Next(Run(s, evs[..|evs| - 1]), evs[|evs| - 1])
  }

  // ---- who holds a descriptor ----

  function TaskCount(ts: seq<Task>, fd: nat): nat
  {
    if ts == [] then 0 else (if ts[0].fd == fd then 1 else 0) + TaskCount(ts[1..], fd)
  }

  function On(x: Worker, fd: nat): nat
  {
    if x.Busy? && x.fd == fd then 1 else 0
  }

  function WorkerCount(ws: seq<Worker>, fd: nat): nat
  {
    if ws == [] then 0 else On(ws[0], fd) + WorkerCount(ws[1..], fd)
  }

  function ArmCount(s: Server, fd: nat): nat
  {
    if fd < |s.lines| && s.lines[fd].armed != Off then 1 else 0
  }

  /** In how many places descriptor fd is: armed, in the reactor's batch, queued, or with a worker. */
  function Holders(s: Server, fd: nat): nat
  {
    ArmCount(s, fd) + TaskCount(s.batch, fd) + TaskCount(s.queue, fd) + WorkerCount(s.workers, fd)
  }

  lemma {:induction false} TaskCountConcat(a: seq<Task>, b: seq<Task>, fd: nat)
    ensures TaskCount(a + b, fd) == TaskCount(a, fd) + TaskCount(b, fd)
  {
    if a == [] {
      assert a + b == b;
    } else {
      TaskCountConcat(a[1..], b, fd);
      assert (a + b)[1..] == a[1..] + b;
    }
  }

  lemma {:induction false} TaskCounted(ts: seq<Task>, i: nat)
    requires i < |ts|
    ensures TaskCount(ts, ts[i].fd) >= 1
  {
    if i != 0 {
      TaskCounted(ts[1..], i - 1);
    }
  }

  lemma {:induction false} WorkerUpdated(ws: seq<Worker>, w: nat, x: Worker, fd: nat)
    requires w < |ws|
    ensures WorkerCount(ws[w := x], fd) == WorkerCount(ws, fd) - On(ws[w], fd) + On(x, fd)
    ensures WorkerCount(ws, fd) >= On(ws[w], fd)
  {
    if w == 0 {
      assert ws[w := x][1..] == ws[1..];
    } else {
      WorkerUpdated(ws[1..], w - 1, x, fd);
      assert ws[w := x][1..] == ws[1..][w - 1 := x];
    }
  }

  lemma {:induction false} OneWorker(ws: seq<Worker>, w: nat, v: nat, fd: nat)
    requires w < |ws| && v < |ws| && v != w && On(ws[w], fd) == 1 && On(ws[v], fd) == 1
    ensures WorkerCount(ws, fd) >= 2
  {
    WorkerUpdated(ws, w, Idle, fd);
    WorkerUpdated(ws[w := Idle], v, Idle, fd);
  }

  // ---- what is on its way on a connection ----

  /** The results that a list of requests asks for. */
  function Served(rs: seq<Request>): seq<Result>
  {
    if rs == [] then [] else (if rs[0].needReturn then [Reply(rs[0])] else []) + Served(rs[1..])
  }

  lemma {:induction false} ServedConcat(a: seq<Request>, b: seq<Request>)
    ensures Served(a + b) == Served(a) + Served(b)
  {
    if a == [] {
      assert a + b == b;
    } else {
      var rest := a[1..] + b;
      assert (a + b)[1..] == rest && (a + b)[0] == a[0];
      ServedConcat(a[1..], b);
    }
  }

  /** The result that a worker has popped and not yet sent on fd. */
  function OutOf(x: Worker, fd: nat): seq<Result>
  {
    if x.Busy? && x.fd == fd && x.stage.Sending? then [x.stage.result] else []
  }

  /** The request that a worker has read from fd and not yet answered. */
  function InOf(x: Worker, fd: nat): seq<Request>
  {
    if x.Busy? && x.fd == fd && x.stage.Handling? then [x.stage.request] else []
  }

  function Outs(ws: seq<Worker>, fd: nat): seq<Result>
  {
    if ws == [] then [] else OutOf(ws[0], fd) + Outs(ws[1..], fd)
  }

  function Ins(ws: seq<Worker>, fd: nat): seq<Request>
  {
    if ws == [] then [] else InOf(ws[0], fd) + Ins(ws[1..], fd)
  }

  lemma {:induction false} NoHands(ws: seq<Worker>, fd: nat)
    requires WorkerCount(ws, fd) == 0
    ensures Outs(ws, fd) == [] && Ins(ws, fd) == []
  {
    if ws != [] {
      NoHands(ws[1..], fd);
    }
  }

  /** With at most one worker on fd, what is in hand is in that worker's hand. */
  lemma {:induction false} InHand(ws: seq<Worker>, w: nat, fd: nat)
    requires w < |ws| && WorkerCount(ws, fd) <= 1 && On(ws[w], fd) == 1
    ensures Outs(ws, fd) == OutOf(ws[w], fd) && Ins(ws, fd) == InOf(ws[w], fd)
  {
    if w == 0 {
      NoHands(ws[1..], fd);
    } else {
      WorkerUpdated(ws[1..], w - 1, Idle, fd);
      InHand(ws[1..], w - 1, fd);
    }
  }

  /** A worker that is not on fd before or after changes nothing for fd. */
  lemma {:induction false} OtherHands(ws: seq<Worker>, w: nat, x: Worker, fd: nat)
    requires w < |ws| && On(ws[w], fd) == 0 && On(x, fd) == 0
    ensures Outs(ws[w := x], fd) == Outs(ws, fd) && Ins(ws[w := x], fd) == Ins(ws, fd)
  {
    if w == 0 {
      assert ws[w := x][1..] == ws[1..];
    } else {
      OtherHands(ws[1..], w - 1, x, fd);
      assert ws[w := x][1..] == ws[1..][w - 1 := x];
    }
  }
}
