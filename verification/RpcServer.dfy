/** The objects of the server: result queues, poller, and the handlers that the worker threads run.  Each handler,
    run by a worker without another in between, is that worker's steps of the model. */
module RpcServers {

  import opened RpcReactor
  import opened RpcTurns
  import opened SafeQueues
  import RpcExclusion

  /** The queue of results of each descriptor. */
  class ReturnValuePipe {
    var values: seq<seq<Result>>

    constructor ()
      ensures values == [[]]
    {
      values := [[]];
    }

    method Read(fd: nat) returns (result: Result)
      requires fd < |values| && values[fd] != []
      modifies this
      ensures |values| == |old(values)| && old(values)[fd] == [result] + values[fd]
      ensures values == old(values)[fd := values[fd]]
    {
      result := values[fd][0];
      values := values[fd := values[fd][1..]];
    }

    method Write(fd: nat, result: Result)
      requires fd < |values|
      modifies this
      ensures values == old(values)[fd := old(values)[fd] + [result]]
    {
      values := values[fd := values[fd] + [result]];
    }

    predicate Empty(fd: nat)
      requires fd < |values|
      reads this
    {
      values[fd] == []
    }
  }

  /** What each descriptor waits for; a descriptor that was removed waits for nothing. */
  class Poller {
    var interest: seq<Arm>

    constructor ()
      ensures interest == [In]
    {
      interest := [In];
    }

    method AddEvent(fd: nat, arm: Arm)
      requires fd <= |interest|
      modifies this
      ensures interest == if fd == |old(interest)| then old(interest) + [arm] else old(interest)[fd := arm]
    {
      if fd == |interest| {
        interest := interest + [arm];
      } else {
        interest := interest[fd := arm];
      }
    }

    method ModEvent(fd: nat, arm: Arm)
      requires fd < |interest|
      modifies this
      ensures interest == old(interest)[fd := arm]
    {
      interest := interest[fd := arm];
    }

    method DelEvent(fd: nat)
      requires fd < |interest|
      modifies this
      ensures interest == old(interest)[fd := Off]
    {
      interest := interest[fd := Off];
    }
  }

  /** The sockets, as the kernel keeps them. */
  datatype Socket = Socket(open: bool, hup: bool, up: seq<Request>, down: seq<Result>)

  const NEW_SOCKET := Socket(true, false, [], [])

  function LineOf(so: Socket, arm: Arm, results: seq<Result>, left: seq<Result>): Line
  {
    Line(so.open, so.hup, arm, so.up, results, so.down, left)
  }

  function Dispatches(ready: seq<nat>): seq<Event>
  {
    seq(|ready|, i requires 0 <= i < |ready| => RpcReactor.Dispatch(ready[i]))
  }

  lemma DispatchesMore(s: Server, ready: seq<nat>, i: nat)
    requires i < |ready|
    ensures Run(s, Dispatches(ready[..i + 1])) == Next(Run(s, Dispatches(ready[..i])), RpcReactor.Dispatch(ready[i]))
  {
    RunMore(s, Dispatches(ready[..i]), RpcReactor.Dispatch(ready[i]));
    assert Dispatches(ready[..i + 1]) == Dispatches(ready[..i]) + [RpcReactor.Dispatch(ready[i])];
  }

  /** The pieces of work that a task takes. */
  function PiecesOf(w: nat, task: Task, connfd: nat): seq<Event>
  {
    match task.kind
    case ReadEvent => if task.fd == 0 then [Accept(w, connfd), Work(w)] else [Work(w), Work(w), Work(w), Work(w)]
    case WriteEvent => [Work(w), Work(w), Work(w), Work(w)]
    case CloseEvent => [Work(w)]
  }

  /** A worker's turn: it takes the first task, if there is one, and does all of it. */
  function TurnOf(s: Server, w: nat, connfd: nat): seq<Event>
  {
    if s.queue == [] then [] else [TakeTask(w)] + PiecesOf(w, s.queue[0], connfd)
  }

  lemma TurnSplits(s: Server, w: nat, connfd: nat)
    requires s.queue != []
    ensures Run(s, TurnOf(s, w, connfd)) == Run(Next(s, TakeTask(w)), PiecesOf(w, s.queue[0], connfd))
  {
    RunConcat(s, [TakeTask(w)], PiecesOf(w, s.queue[0], connfd));
    RunMore(s, [], TakeTask(w));
    assert [] + [TakeTask(w)] == [TakeTask(w)];
  }

  lemma TakingKeepsFree(s: Server, w: nat, fd: nat)
    requires Free(s, fd)
    ensures Free(Next(s, TakeTask(w)), fd)
  {
  }

  lemma NoTurn(s: Server)
    ensures Run(s, []) == s
  {
  }

  lemma AddMore(s: Server, n: nat)
    ensures Run(s, seq(n + 1, _ => AddTask)) == Next(Run(s, seq(n, _ => AddTask)), AddTask)
  {
    RunMore(s, seq(n, _ => AddTask), AddTask);
    assert seq(n, _ => AddTask) + [AddTask] == seq(n + 1, _ => AddTask);
  }

  lemma NoAdds(s: Server)
    ensures Run(s, seq(0, _ => AddTask)) == s
  {
  }

  class RpcServer {
    const pipe: ReturnValuePipe
    const poller: Poller
    const tasks: SafeQueue<Task>
    var sockets: seq<Socket>
    var waiting: nat
    var batch: seq<Task>
    ghost var workers: seq<Worker>
    ghost var dropped: bool
    /** What was in each descriptor's result queue when its connection was accepted. */
    ghost var lefts: seq<seq<Result>>

    constructor (ghost threads: nat)
      ensures Valid() && fresh(pipe) && fresh(poller) && fresh(tasks)
      ensures State() == InitServer(threads)
    {
      pipe := new ReturnValuePipe();
      poller := new Poller();
      tasks := new SafeQueue<Task>(MAX_TASKS);
      sockets, waiting, batch, lefts := [NEW_SOCKET], 0, [], [[]];
      workers, dropped := seq(threads, _ => Idle), false;
    }

    ghost predicate Valid()
      reads this, pipe, poller, tasks
    {
      |sockets| == |pipe.values| == |poller.interest| == |lefts| && tasks.maxsize == MAX_TASKS
    }

    ghost function Lines(): seq<Line>
      requires Valid()
      reads this, pipe, poller, tasks
    {
      seq(|sockets|, fd requires 0 <= fd < |sockets| reads this, pipe, poller, tasks requires Valid() =>
        LineOf(sockets[fd], poller.interest[fd], pipe.values[fd], lefts[fd]))
    }

    ghost function State(): Server
      requires Valid()
      reads this, pipe, poller, tasks
    {
      Server(Lines(), waiting, batch, tasks.q, workers, dropped, false, false)
    }

    /** Re-arms a descriptor, for output too exactly when results are queued for it. */
    method FileDescriptorEventDone(fd: nat)
      requires Valid() && fd < |sockets|
      modifies poller
      ensures Valid()
      ensures poller.interest == old(poller.interest)[fd := if pipe.values[fd] == [] then In else InOut]
    {
      if pipe.Empty(fd) {
        poller.ModEvent(fd, In);
      } else {
        poller.ModEvent(fd, InOut);
      }
    }

    /** Worker w serves a request of fd. */
    method HandleReadEvent(ghost w: nat, fd: nat)
      requires Valid() && RpcExclusion.Inv(State())
      requires w < |workers| && workers[w] == Busy(fd, Taken(ReadEvent)) && fd > 0
      modifies this, pipe, poller
      ensures Valid() && State() == Run(old(State()), [Work(w), Work(w), Work(w), Work(w)])
    {
      ghost var s := State();
      assert RpcExclusion.WorkerOk(s, s.workers[w]);
      ReadTurn(s, w, fd);
      hide RpcExclusion.Inv, RpcExclusion.WorkerOk, Run;
      var so := sockets[fd];
      var request := so.up[0];
      sockets := sockets[fd := so.(up := so.up[1..])];
      if request.needReturn {
        pipe.Write(fd, Reply(request));
      }
      assert LineOf(sockets[fd], Off, pipe.values[fd], []) == LineOf(sockets[fd], Off, old(pipe.values)[fd], []).(
          pipe := old(pipe.values)[fd] + if request.needReturn then [Reply(request)] else []);
      FileDescriptorEventDone(fd);
      workers := workers[w := Idle];
    }

    /** Worker w sends a result on fd; the result queue cannot be empty. */
    method HandleWriteEvent(ghost w: nat, fd: nat)
      requires Valid() && RpcExclusion.Inv(State())
      requires w < |workers| && workers[w] == Busy(fd, Taken(WriteEvent))
      modifies this, pipe, poller
      ensures Valid() && State() == Run(old(State()), [Work(w), Work(w), Work(w), Work(w)])
    {
      ghost var s := State();
      assert RpcExclusion.WorkerOk(s, s.workers[w]);
      WriteTurn(s, w, fd);
      var result := pipe.Read(fd);
      var so := sockets[fd];
      sockets := sockets[fd := so.(down := so.down + [result])];
      FileDescriptorEventDone(fd);
      workers := workers[w := Idle];
    }

    /** Worker w accepts a connection, for which it is given the number connfd; the number's result queue stays. */
    method HandleAccept(ghost w: nat, connfd: nat)
      requires Valid() && RpcExclusion.Inv(State()) && Free(State(), connfd)
      requires w < |workers| && workers[w] == Busy(0, Taken(ReadEvent))
      modifies this, pipe, poller
      ensures Valid() && State() == Run(old(State()), [Accept(w, connfd), Work(w)])
    {
      ghost var s := State();
      RpcExclusion.AcceptWaits(s, w);
      AcceptTurn(s, w, connfd);
      hide RpcExclusion.Inv, Run;
      waiting := waiting - 1;
      if connfd == |sockets| {
        sockets := sockets + [NEW_SOCKET];
        pipe.values := pipe.values + [[]];
        lefts := lefts + [[]];
      } else {
        sockets := sockets[connfd := NEW_SOCKET];
        lefts := lefts[connfd := pipe.values[connfd]];
      }
      poller.AddEvent(connfd, In);
      poller.ModEvent(0, In);
      workers := workers[w := Idle];
    }

    /** Worker w closes fd. */
    method HandleCloseEvent(ghost w: nat, fd: nat)
      requires Valid() && RpcExclusion.Inv(State())
      requires w < |workers| && workers[w] == Busy(fd, Taken(CloseEvent))
      modifies this, poller
      ensures Valid() && State() == Run(old(State()), [Work(w)])
    {
      ghost var s := State();
      assert RpcExclusion.WorkerOk(s, s.workers[w]);
      CloseTurn(s, w, fd);
      poller.DelEvent(fd);
      sockets := sockets[fd := sockets[fd].(open := false)];
      workers := workers[w := Idle];
    }

    /** A reported descriptor becomes a task of the round: close before read before write. */
    method Report(fd: nat)
      requires Valid()
      modifies this, poller
      ensures Valid() && State() == Next(old(State()), RpcReactor.Dispatch(fd))
    {
      if fd < |sockets| && poller.interest[fd] != Off {
        var kinds: seq<Kind> := [];
        if sockets[fd].hup {
          kinds := [CloseEvent];
        } else if (fd == 0 && waiting > 0) || (fd != 0 && sockets[fd].up != []) {
          kinds := [ReadEvent];
        } else if poller.interest[fd] == InOut {
          kinds := [WriteEvent];
        }
        if kinds != [] {
          poller.ModEvent(fd, Off);
          batch := batch + [Task(fd, kinds[0])];
        }
      }
    }

    /** One round of the poller over the descriptors that were reported. */
    method Dispatch(ready: seq<nat>)
      requires Valid()
      modifies this, poller
      ensures Valid() && State() == Run(old(State()), Dispatches(ready))
    {
      ghost var s := State();
      assert Run(s, Dispatches([])) == s;
      hide Run, Next;
      var i := 0;
      while i < |ready|
        invariant 0 <= i <= |ready| && Valid()
        invariant State() == Run(s, Dispatches(ready[..i]))
      {
        DispatchesMore(s, ready, i);
        Report(ready[i]);
        i := i + 1;
      }
      assert ready[..i] == ready;
    }

    /** Hands the tasks of the round to the pool; a full queue refuses them. */
    method AddTasks()
      requires Valid()
      modifies this, tasks
      ensures Valid() && batch == [] && State() == Run(old(State()), seq(|old(batch)|, _ => AddTask))
    {
      ghost var s := State();
      ghost var n := 0;
      hide Next, Run;
      NoAdds(s);
      while batch != []
        invariant Valid() && n + |batch| == |s.batch|
        invariant State() == Run(s, seq(n, _ => AddTask))
        decreases |batch|
      {
        AddMore(s, n);
        AddTaskOnce();
        n := n + 1;
      }
    }

    /** The first task of the round goes to the pool. */
    method AddTaskOnce()
      requires Valid() && batch != []
      modifies this, tasks
      ensures Valid() && batch == old(batch)[1..] && State() == Next(old(State()), AddTask)
    {
      var ok := tasks.Enqueue(batch[0]);
      if !ok {
        dropped := true;
      }
      batch := batch[1..];
    }

    /** Worker w does the task that it has taken. */
    method DoTask(ghost w: nat, task: Task, connfd: nat)
      requires Valid() && RpcExclusion.Inv(State()) && Free(State(), connfd)
      requires w < |workers| && workers[w] == Busy(task.fd, Taken(task.kind))
      modifies this, pipe, poller
      ensures Valid() && State() == Run(old(State()), PiecesOf(w, task, connfd))
    {
      hide RpcExclusion.Inv, Run;
      match task.kind {
        case ReadEvent =>
          if task.fd == 0 {
            HandleAccept(w, connfd);
          } else {
            HandleReadEvent(w, task.fd);
          }
        case WriteEvent =>
          HandleWriteEvent(w, task.fd);
        case CloseEvent =>
          HandleCloseEvent(w, task.fd);
      }
    }

    /** Idle worker w takes a task, if there is one. */
    method GetTask(ghost w: nat) returns (ok: bool, task: Task)
      requires Valid() && w < |workers| && workers[w] == Idle
      modifies this, tasks
      ensures Valid() && |workers| == old(|workers|)
      ensures ok <==> old(State()).queue != []
      ensures ok ==> task == old(State()).queue[0] && workers[w] == Busy(task.fd, Taken(task.kind))
      ensures State() == if ok then Next(old(State()), TakeTask(w)) else old(State())
    {
      ok, task := tasks.Dequeue(Task(0, ReadEvent), true, []);
      if ok {
        workers := workers[w := Busy(task.fd, Taken(task.kind))];
      }
    }

    /** Idle worker w takes a task, if there is one, and does it; connfd is the number that an accept would be given. */
    method WorkerTurn(ghost w: nat, connfd: nat)
      requires Valid() && RpcExclusion.Inv(State()) && w < |workers| && workers[w] == Idle && Free(State(), connfd)
      modifies this, pipe, poller, tasks
      ensures Valid() && State() == Run(old(State()), TurnOf(old(State()), w, connfd))
    {
      ghost var s := State();
      hide RpcExclusion.Inv, Run, Next, PiecesOf, Free;
      TakingKeepsFree(s, w, connfd);
      var ok, task := GetTask(w);
      if ok {
        RpcExclusion.StepKeeps(s, TakeTask(w));
        TurnSplits(s, w, connfd);
        DoTask(w, task, connfd);
      } else {
        NoTurn(s);
      }
    }
  }
}
