/** What every run of the server keeps: each open descriptor is in exactly one place, so no task is refused, no read
    finds its socket empty and no result queue is read empty. */
module RpcExclusion {

  import opened RpcReactor

  /** A task that is still going to find what it was raised for. */
  ghost predicate TaskOk(s: Server, t: Task)
  {
    && t.fd < |s.lines|
    && (t.kind == ReadEvent ==> if t.fd == 0 then s.waiting > 0 else s.lines[t.fd].up != [])
    && (t.kind == WriteEvent ==> t.fd > 0 && s.lines[t.fd].pipe != [])
    && (t.kind == CloseEvent ==> t.fd > 0 && s.lines[t.fd].hup)
  }

  ghost predicate WorkerOk(s: Server, x: Worker)
  {
    x.Busy? ==>
      && x.fd < |s.lines|
      && match x.stage
         case Taken(kind) => TaskOk(s, Task(x.fd, kind))
         case Checked(empty) => x.fd > 0 && empty == (s.lines[x.fd].pipe == [])
         case Accepted => x.fd == 0
         case _ => x.fd > 0
  }

  /** A descriptor waits for output only when results are queued for it, and for input only when none are, unless all
      of these were queued before its connection was accepted. */
  ghost predicate LineOk(fd: nat, l: Line)
  {
    && (l.armed == In ==> l.pipe == [] || l.pipe == l.left)
    && (l.armed == InOut ==> l.pipe != [] && fd > 0)
    && (!l.open ==> l.armed == Off)
    && (fd == 0 ==> l.open && !l.hup && l.pipe == [])
  }

  ghost predicate TasksOk(s: Server, ts: seq<Task>)
  {
    forall i :: 0 <= i < |ts| ==> TaskOk(s, ts[i])
  }

  ghost predicate WorkersOk(s: Server)
  {
    forall w :: 0 <= w < |s.workers| ==> WorkerOk(s, s.workers[w])
  }

  ghost predicate LinesOk(s: Server)
  {
    forall fd: nat :: fd < |s.lines| ==> LineOk(fd, s.lines[fd])
  }

  /** The places a descriptor must be in: one while it is open, none otherwise. */
  function Places(s: Server, fd: nat): nat
  {
    if fd < |s.lines| && s.lines[fd].open then 1 else 0
  }

  ghost predicate Exclusive(s: Server)
  {
    forall fd: nat :: Holders(s, fd) <= Places(s, fd)
  }

  ghost predicate NoneLost(s: Server)
  {
    !s.dropped && forall fd: nat :: Holders(s, fd) == Places(s, fd)
  }

  ghost predicate Inv(s: Server)
  {
    && |s.lines| > 0
    && LinesOk(s)
    && TasksOk(s, s.batch)
    && TasksOk(s, s.queue)
    && WorkersOk(s)
    && Exclusive(s)
    && !s.crashed && !s.stalled
  }

  lemma {:induction false} NobodyWorks(n: nat, fd: nat)
    ensures WorkerCount(seq(n, _ => Idle), fd) == 0
  {
    if n > 0 {
      NobodyWorks(n - 1, fd);
      assert seq<Worker>(n, _ => Idle)[1..] == seq<Worker>(n - 1, _ => Idle);
    }
  }

  lemma InitInv(workers: nat)
    ensures Inv(InitServer(workers)) && NoneLost(InitServer(workers))
  {
    var s := InitServer(workers);
    forall fd: nat ensures Holders(s, fd) == Places(s, fd) {
      NobodyWorks(workers, fd);
    }
  }

  lemma {:induction false} NoTaskOf(ts: seq<Task>, fd: nat)
    requires TaskCount(ts, fd) == 0
    ensures forall i :: 0 <= i < |ts| ==> ts[i].fd != fd
  {
    forall i | 0 <= i < |ts| ensures ts[i].fd != fd {
      if ts[i].fd == fd {
        TaskCounted(ts, i);
      }
    }
  }

  /** While a worker is on fd, fd is not armed, no task is for it and no other worker is on it. */
  lemma SoleHolder(s: Server, w: nat)
    requires Exclusive(s) && w < |s.workers| && s.workers[w].Busy? && s.workers[w].fd < |s.lines|
    ensures var fd := s.workers[w].fd;
      && s.lines[fd].armed == Off && s.lines[fd].open
      && TaskCount(s.batch, fd) == 0 && TaskCount(s.queue, fd) == 0 && WorkerCount(s.workers, fd) == 1
      && (forall i :: 0 <= i < |s.batch| ==> s.batch[i].fd != fd)
      && (forall i :: 0 <= i < |s.queue| ==> s.queue[i].fd != fd)
      && (forall v :: 0 <= v < |s.workers| && v != w ==> On(s.workers[v], fd) == 0)
  {
    var fd := s.workers[w].fd;
    WorkerUpdated(s.workers, w, Idle, fd);
    assert Holders(s, fd) <= Places(s, fd);
    NoTaskOf(s.batch, fd);
    NoTaskOf(s.queue, fd);
    forall v | 0 <= v < |s.workers| && v != w ensures On(s.workers[v], fd) == 0 {
      if On(s.workers[v], fd) == 1 {
        OneWorker(s.workers, w, v, fd);
      }
    }
  }

  /** A descriptor that is closed, or not yet there, is nowhere. */
  lemma NobodyHas(s: Server, fd: nat)
    requires Exclusive(s) && Free(s, fd)
    ensures Holders(s, fd) == 0
    ensures forall i :: 0 <= i < |s.batch| ==> s.batch[i].fd != fd
    ensures forall i :: 0 <= i < |s.queue| ==> s.queue[i].fd != fd
    ensures forall v :: 0 <= v < |s.workers| ==> On(s.workers[v], fd) == 0
  {
    assert Holders(s, fd) <= Places(s, fd);
    NoTaskOf(s.batch, fd);
    NoTaskOf(s.queue, fd);
    forall v | 0 <= v < |s.workers| ensures On(s.workers[v], fd) == 0 {
      WorkerUpdated(s.workers, v, Idle, fd);
    }
  }

  /** A worker's piece of work on its own descriptor: the line becomes l, the worker x. */
  lemma WorkerMoves(s: Server, w: nat, l: Line, x: Worker)
    requires Inv(s) && w < |s.workers| && s.workers[w].Busy?
    requires var fd := s.workers[w].fd;
      && LineOk(fd, l)
      && (x.Busy? ==> x.fd == fd && l.open && l.armed == Off)
      && (x.Idle? ==> l.open == (l.armed != Off))
      && WorkerOk(SetLine(s, fd, l), x)
    ensures var s' := SetWorker(SetLine(s, s.workers[w].fd, l), w, x); Inv(s') && (NoneLost(s) ==> NoneLost(s'))
  {
    var fd := s.workers[w].fd;
    assert WorkerOk(s, s.workers[w]);
    var s' := SetWorker(SetLine(s, fd, l), w, x);
    SoleHolder(s, w);
    assert WorkersOk(s') by {
      forall v | 0 <= v < |s'.workers| ensures WorkerOk(s', s'.workers[v]) {
        if v != w {
          assert WorkerOk(s, s.workers[v]) && On(s.workers[v], fd) == 0;
        }
      }
    }
    forall g: nat ensures Holders(s', g) - Places(s', g) == Holders(s, g) - Places(s, g) {
      WorkerUpdated(s.workers, w, x, g);
      assert Holders(s, g) <= Places(s, g);
    }
    assert LinesOk(s');
    assert TasksOk(s', s'.batch) by {
      forall i | 0 <= i < |s.batch| ensures TaskOk(s', s.batch[i]) {
        assert TaskOk(s, s.batch[i]);
      }
    }
    assert TasksOk(s', s'.queue) by {
      forall i | 0 <= i < |s.queue| ensures TaskOk(s', s.queue[i]) {
        assert TaskOk(s, s.queue[i]);
      }
    }
  }

  /** The listener's worker always has a connection to accept. */
  lemma AcceptWaits(s: Server, w: nat)
    requires Inv(s) && w < |s.workers| && s.workers[w] == Busy(0, Taken(ReadEvent))
    ensures Accepting(s, w) && Next(s, Work(w)) == s
  {
    assert WorkerOk(s, s.workers[w]);
  }

  lemma PartsOf(s: Server)
    requires Inv(s)
    ensures TasksOk(s, s.batch) && TasksOk(s, s.queue) && WorkersOk(s)
  {
    hide TasksOk, WorkersOk, LinesOk, Exclusive;
  }

  /** A task or a worker on another descriptor than the listener and fd finds what it found before. */
  lemma AcceptSpares(s: Server, w: nat, fd: nat)
    requires Inv(s) && Accepting(s, w) && Free(s, fd)
    ensures var s' := AcceptOn(s, w, fd); TasksOk(s', s'.batch) && TasksOk(s', s'.queue) && WorkersOk(s')
  {
    SoleHolder(s, w);
    NobodyHas(s, fd);
    PartsOf(s);
    hide Inv, Exclusive, LinesOk, NoneLost, Holders;
    var s' := AcceptOn(s, w, fd);
    forall v | 0 <= v < |s'.workers| ensures WorkerOk(s', s'.workers[v]) {
      if v != w {
        assert WorkerOk(s, s.workers[v]) && On(s.workers[v], 0) == 0 && On(s.workers[v], fd) == 0;
      }
    }
    forall i | 0 <= i < |s.batch| ensures TaskOk(s', s.batch[i]) {
      assert TaskOk(s, s.batch[i]);
    }
    forall i | 0 <= i < |s.queue| ensures TaskOk(s', s.queue[i]) {
      assert TaskOk(s, s.queue[i]);
    }
  }

  lemma AcceptPlaces(s: Server, w: nat, fd: nat, g: nat)
    requires Exclusive(s) && Accepting(s, w) && Free(s, fd) && |s.lines| > 0
    ensures var s' := AcceptOn(s, w, fd); Holders(s', g) - Places(s', g) == Holders(s, g) - Places(s, g)
  {
    assert Holders(s, g) <= Places(s, g) && Holders(s, fd) <= Places(s, fd);
    WorkerUpdated(s.workers, w, Busy(0, Accepted), g);
  }

  /** It accepts one, on a new number or on that of a closed descriptor. */
  lemma AcceptKeeps(s: Server, w: nat, fd: nat)
    requires Inv(s) && Accepting(s, w) && Free(s, fd)
    ensures var s' := AcceptOn(s, w, fd); Inv(s') && (NoneLost(s) ==> NoneLost(s'))
  {
    var s' := AcceptOn(s, w, fd);
    AcceptSpares(s, w, fd);
    forall g: nat ensures Holders(s', g) - Places(s', g) == Holders(s, g) - Places(s, g) {
      AcceptPlaces(s, w, fd, g);
    }
    assert LinesOk(s') by {
      forall g: nat | g < |s'.lines| ensures LineOk(g, s'.lines[g]) {
        assert g < |s.lines| ==> LineOk(g, s.lines[g]);
      }
    }
    hide Holders, Places, LineOk, LinesOk, TasksOk, WorkersOk;
    assert Exclusive(s') by {
      forall g: nat ensures Holders(s', g) <= Places(s', g) {
        assert Holders(s, g) <= Places(s, g);
      }
    }
  }

  lemma WorkKeeps(s: Server, w: nat)
    requires Inv(s) && w < |s.workers| && s.workers[w].Busy?
    ensures s.workers[w].fd < |s.lines|
    ensures var s' := WorkOn(s, w, s.workers[w].fd, s.workers[w].stage); Inv(s') && (NoneLost(s) ==> NoneLost(s'))
  {
    var fd, stage := s.workers[w].fd, s.workers[w].stage;
    assert WorkerOk(s, s.workers[w]);
    var l := s.lines[fd];
    assert LineOk(fd, l);
    SoleHolder(s, w);
    assert SetLine(s, fd, l) == s;
    hide Inv, NoneLost, Holders, Exclusive, LinesOk, WorkersOk, TasksOk;
    match stage {
      case Taken(ReadEvent) =>
        if fd != 0 {
          WorkerMoves(s, w, l.(up := l.up[1..]), Busy(fd, Handling(l.up[0])));
        }
      case Taken(WriteEvent) =>
        WorkerMoves(s, w, l.(pipe := l.pipe[1..]), Busy(fd, Sending(l.pipe[0])));
      case Taken(CloseEvent) =>
        WorkerMoves(s, w, l.(open := false, armed := Off), Idle);
      case Handling(request) =>
        WorkerMoves(s, w, if request.needReturn then l.(pipe := l.pipe + [Reply(request)]) else l, Busy(fd, Finished));
      case Sending(result) =>
        WorkerMoves(s, w, l.(down := l.down + [result]), Busy(fd, Finished));
      case Finished =>
        WorkerMoves(s, w, l, Busy(fd, Checked(l.pipe == [])));
      case Checked(empty) =>
        WorkerMoves(s, w, l.(armed := if empty then In else InOut), Idle);
      case Accepted =>
        WorkerMoves(s, w, l.(armed := In), Idle);
    }
  }

  // ---- the other events ----

  /** What the outside may do to a descriptor: more to read, less to send, or a hang-up. */
  lemma OutsideKeeps(s: Server, fd: nat, l: Line, waiting: nat)
    requires Inv(s) && fd < |s.lines| && waiting >= s.waiting
    requires var o := s.lines[fd]; l == o.(hup := l.hup, up := l.up, down := l.down) && (fd == 0 ==> l.hup == o.hup)
    requires s.lines[fd].up != [] ==> l.up != []
    requires s.lines[fd].hup ==> l.hup
    ensures var s' := SetLine(s, fd, l).(waiting := waiting); Inv(s') && (NoneLost(s) ==> NoneLost(s'))
  {
    var s' := SetLine(s, fd, l).(waiting := waiting);
    assert LineOk(fd, s.lines[fd]);
    assert WorkersOk(s') by {
      forall v | 0 <= v < |s'.workers| ensures WorkerOk(s', s'.workers[v]) {
        assert WorkerOk(s, s.workers[v]);
      }
    }
    forall g: nat ensures Holders(s', g) - Places(s', g) == Holders(s, g) - Places(s, g) {
    }
    forall g: nat ensures Holders(s', g) <= Places(s', g) {
      assert Holders(s, g) <= Places(s, g);
    }
    assert LinesOk(s');
    assert TasksOk(s', s'.batch) by {
      forall i | 0 <= i < |s.batch| ensures TaskOk(s', s.batch[i]) {
        assert TaskOk(s, s.batch[i]);
      }
    }
    assert TasksOk(s', s'.queue) by {
      forall i | 0 <= i < |s.queue| ensures TaskOk(s', s.queue[i]) {
        assert TaskOk(s, s.queue[i]);
      }
    }
  }

  lemma DispatchKeeps(s: Server, fd: nat)
    requires Inv(s)
    ensures var s' := Next(s, Dispatch(fd)); Inv(s') && (NoneLost(s) ==> NoneLost(s'))
  {
    if fd < |s.lines| && Ready(s, fd) != [] {
      var t := Task(fd, Ready(s, fd)[0]);
      var s' := SetLine(s, fd, s.lines[fd].(armed := Off)).(batch := s.batch + [t]);
      assert LineOk(fd, s.lines[fd]);
      assert LinesOk(s');
      assert WorkersOk(s') by {
        forall v | 0 <= v < |s'.workers| ensures WorkerOk(s', s'.workers[v]) {
          assert WorkerOk(s, s.workers[v]);
        }
      }
      forall g: nat ensures Holders(s', g) - Places(s', g) == Holders(s, g) - Places(s, g) {
        TaskCountConcat(s.batch, [t], g);
      }
      forall g: nat ensures Holders(s', g) <= Places(s', g) {
        assert Holders(s, g) <= Places(s, g);
      }
      assert TasksOk(s', s'.batch) by {
        forall i | 0 <= i < |s'.batch| ensures TaskOk(s', s'.batch[i]) {
          assert i < |s.batch| ==> TaskOk(s, s.batch[i]);
        }
      }
      assert TasksOk(s', s'.queue) by {
        forall i | 0 <= i < |s.queue| ensures TaskOk(s', s.queue[i]) {
          assert TaskOk(s, s.queue[i]);
        }
      }
    }
  }

  function OpenFds(s: Server): set<nat>
  {
    set fd: nat | 0 <= fd < |s.lines| && s.lines[fd].open
  }

  lemma {:induction false} DistinctTasks(ts: seq<Task>, fds: set<nat>)
    requires forall i :: 0 <= i < |ts| ==> ts[i].fd in fds
    requires forall fd: nat :: TaskCount(ts, fd) <= 1
    ensures |ts| <= |fds|
  {
    if ts != [] {
      var fd := ts[0].fd;
      assert TaskCount(ts, fd) <= 1;
      NoTaskOf(ts[1..], fd);
      forall g: nat ensures TaskCount(ts[1..], g) <= 1 {
        assert TaskCount(ts, g) <= 1;
      }
      DistinctTasks(ts[1..], fds - {fd});
    }
  }

  /** While the next task of the batch is waiting, the queue holds fewer tasks than there are open descriptors. */
  lemma QueueHasRoom(s: Server)
    requires Inv(s) && s.batch != []
    ensures |s.queue| < |OpenFds(s)|
    ensures |OpenFds(s)| <= 10000 ==>
      Next(s, AddTask) == s.(batch := s.batch[1..], queue := s.queue + [s.batch[0]])
  {
    var ts := [s.batch[0]] + s.queue;
    forall fd: nat ensures TaskCount(ts, fd) <= 1 {
      TaskCountConcat([s.batch[0]], s.queue, fd);
      TaskCountConcat([s.batch[0]], s.batch[1..], fd);
      assert [s.batch[0]] + s.batch[1..] == s.batch;
      assert Holders(s, fd) <= Places(s, fd);
    }
    forall i | 0 <= i < |ts| ensures ts[i].fd in OpenFds(s) {
      if i == 0 {
        TaskCounted(s.batch, 0);
        assert TaskOk(s, s.batch[0]);
      } else {
        TaskCounted(s.queue, i - 1);
        assert TaskOk(s, s.queue[i - 1]);
      }
      assert Holders(s, ts[i].fd) <= Places(s, ts[i].fd);
    }
    DistinctTasks(ts, OpenFds(s));
  }

  lemma AddTaskKeeps(s: Server)
    requires Inv(s)
    ensures var s' := Next(s, AddTask); Inv(s') && (NoneLost(s) && |OpenFds(s)| <= MAX_TASKS ==> NoneLost(s'))
  {
    if s.batch != [] {
      var s' := Next(s, AddTask);
      QueueHasRoom(s);
      assert TaskOk(s, s.batch[0]);
      assert s.batch == [s.batch[0]] + s.batch[1..];
      forall g: nat
        ensures Holders(s', g) <= Holders(s, g) && (|s.queue| < MAX_TASKS ==> Holders(s', g) == Holders(s, g))
      {
        TaskCountConcat([s.batch[0]], s.batch[1..], g);
        TaskCountConcat(s.queue, [s.batch[0]], g);
      }
      forall g: nat ensures Holders(s', g) <= Places(s', g) {
        assert Holders(s, g) <= Places(s, g);
      }
      assert WorkersOk(s') by {
        forall v | 0 <= v < |s'.workers| ensures WorkerOk(s', s'.workers[v]) {
          assert WorkerOk(s, s.workers[v]);
        }
      }
      assert TasksOk(s', s'.batch) by {
        forall i | 0 <= i < |s'.batch| ensures TaskOk(s', s'.batch[i]) {
          assert TaskOk(s, s.batch[i + 1]);
        }
      }
      assert TasksOk(s', s'.queue) by {
        forall i | 0 <= i < |s'.queue| ensures TaskOk(s', s'.queue[i]) {
          assert i < |s.queue| ==> TaskOk(s, s.queue[i]);
        }
      }
    }
  }

  lemma TakeTaskKeeps(s: Server, w: nat)
    requires Inv(s)
    ensures var s' := Next(s, TakeTask(w)); Inv(s') && (NoneLost(s) ==> NoneLost(s'))
  {
    if w < |s.workers| && s.workers[w] == Idle && s.queue != [] {
      var t := s.queue[0];
      var x := Busy(t.fd, Taken(t.kind));
      var s' := SetWorker(s.(queue := s.queue[1..]), w, x);
      assert TaskOk(s, t);
      assert s.queue == [t] + s.queue[1..];
      forall g: nat ensures Holders(s', g) == Holders(s, g) {
        TaskCountConcat([t], s.queue[1..], g);
        WorkerUpdated(s.workers, w, x, g);
      }
      forall g: nat ensures Holders(s', g) <= Places(s', g) {
        assert Holders(s, g) <= Places(s, g);
      }
      assert WorkersOk(s') by {
        forall v | 0 <= v < |s'.workers| ensures WorkerOk(s', s'.workers[v]) {
          assert WorkerOk(s, s.workers[v]);
        }
      }
      assert TasksOk(s', s'.batch) by {
        forall i | 0 <= i < |s'.batch| ensures TaskOk(s', s'.batch[i]) {
          assert TaskOk(s, s.batch[i]);
        }
      }
      assert TasksOk(s', s'.queue) by {
        forall i | 0 <= i < |s'.queue| ensures TaskOk(s', s'.queue[i]) {
          assert TaskOk(s, s.queue[i + 1]);
        }
      }
    }
  }

  lemma StepKeeps(s: Server, ev: Event)
    requires Inv(s)
    ensures Inv(Next(s, ev))
    ensures NoneLost(s) && |OpenFds(s)| <= MAX_TASKS ==> NoneLost(Next(s, ev))
  {
    hide WorkOn, AcceptOn, NoneLost;
    match ev {
      case Connect =>
        assert SetLine(s, 0, s.lines[0]) == s;
        OutsideKeeps(s, 0, s.lines[0], s.waiting + 1);
      case HangUp(fd) =>
        if Connected(s, fd) {
          OutsideKeeps(s, fd, s.lines[fd].(hup := true), s.waiting);
        }
      case Arrive(fd, request) =>
        if Connected(s, fd) {
          OutsideKeeps(s, fd, s.lines[fd].(up := s.lines[fd].up + [request]), s.waiting);
        }
      case Depart(fd) =>
        if 0 < fd < |s.lines| && s.lines[fd].down != [] {
          OutsideKeeps(s, fd, s.lines[fd].(down := s.lines[fd].down[1..]), s.waiting);
        }
      case Dispatch(fd) =>
        DispatchKeeps(s, fd);
      case AddTask =>
        AddTaskKeeps(s);
      case TakeTask(w) =>
        TakeTaskKeeps(s, w);
      case Work(w) =>
        if w < |s.workers| && s.workers[w].Busy? {
          WorkKeeps(s, w);
        }
      case Accept(w, fd) =>
        if Accepting(s, w) && Free(s, fd) {
          AcceptKeeps(s, w, fd);
        }
    }
  }

  /** A connection whose client has not hung up stays open. */
  lemma ConnectedStays(s: Server, ev: Event, fd: nat)
    requires Inv(s) && Connected(s, fd) && ev != HangUp(fd)
    ensures Connected(Next(s, ev), fd)
  {
    if ev.Work? {
      if ev.worker < |s.workers| && s.workers[ev.worker].Busy? {
        assert WorkerOk(s, s.workers[ev.worker]);
        hide Inv;
        WorkerLeavesOpen(s, ev.worker, fd);
      }
    } else {
      hide Inv, WorkOn;
    }
  }

  lemma WorkerLeavesOpen(s: Server, w: nat, fd: nat)
    requires w < |s.workers| && s.workers[w].Busy? && s.workers[w].fd < |s.lines| && Connected(s, fd)
    requires s.workers[w].stage == Taken(CloseEvent) ==> s.lines[s.workers[w].fd].hup
    ensures Connected(WorkOn(s, w, s.workers[w].fd, s.workers[w].stage), fd)
  {
  }

  // ---- runs ----

  lemma {:induction false} RunKept(workers: nat, evs: seq<Event>)
    ensures Inv(Run(InitServer(workers), evs))
  {
    if evs == [] {
      InitInv(workers);
    } else {
      RunKept(workers, evs[..|evs| - 1]);
      StepKeeps(Run(InitServer(workers), evs[..|evs| - 1]), evs[|evs| - 1]);
    }
  }

  /** Armed for output exactly when results are queued. */
  predicate ArmedRight(l: Line)
  {
    l.armed == InOut <==> l.pipe != []
  }

  lemma InvMeans(s: Server, fd: nat)
    requires Inv(s)
    ensures Holders(s, fd) <= 1
    ensures fd < |s.lines| ==> var l := s.lines[fd];
      && (l.armed == InOut ==> l.pipe != [])
      && (l.armed == In && l.pipe != [] ==> l.pipe == l.left)
      && (l.armed != Off && l.left == [] ==> ArmedRight(l))
  {
    assert Holders(s, fd) <= Places(s, fd);
    assert fd < |s.lines| ==> LineOk(fd, s.lines[fd]);
  }

  /** Every run with any number of workers, numbers being used again or not: each descriptor is armed, in the batch,
      queued or with a worker, at most one of these at a time; no accept and no result queue comes up empty, and no
      read finds nothing.  A descriptor armed for output has results queued; one armed for input only has none, but
      for what was in its queue before its connection was accepted. */
  lemma ServerExclusion(workers: nat, evs: seq<Event>, fd: nat)
    ensures var s := Run(InitServer(workers), evs);
      && Inv(s)
      && !s.crashed && !s.stalled
      && Holders(s, fd) <= 1
      && (fd < |s.lines| ==> var l := s.lines[fd];
            && (l.armed == InOut ==> l.pipe != [])
            && (l.armed == In && l.pipe != [] ==> l.pipe == l.left)
            && (l.armed != Off && l.left == [] ==> ArmedRight(l)))
  {
    RunKept(workers, evs);
    hide *;
    InvMeans(Run(InitServer(workers), evs), fd);
    SoundMeans(Run(InitServer(workers), evs));
  }

  lemma SoundMeans(s: Server)
    requires Inv(s)
    ensures !s.crashed && !s.stalled
  {
  }

  /** A connection is armed right when it is accepted exactly when the queue of its descriptor was empty. */
  lemma AcceptArmsRightIff(s: Server, w: nat, fd: nat)
    requires Accepting(s, w) && Free(s, fd)
    ensures var l := AcceptOn(s, w, fd).lines[fd];
      && l.left == (if fd < |s.lines| then s.lines[fd].pipe else [])
      && (ArmedRight(l) <==> l.left == [])
  {
  }

  /** While never more than 10000 descriptors are open, no task is refused, and every open descriptor is in exactly
      one place. */
  lemma {:induction false} NothingDropped(workers: nat, evs: seq<Event>)
    requires forall k :: 0 <= k < |evs| ==> |OpenFds(Run(InitServer(workers), evs[..k]))| <= 10000
    ensures NoneLost(Run(InitServer(workers), evs))
  {
    if evs == [] {
      InitInv(workers);
    } else {
      var n := |evs| - 1;
      var before := evs[..n];
      forall k | 0 <= k < |before| ensures |OpenFds(Run(InitServer(workers), before[..k]))| <= 10000 {
        assert before[..k] == evs[..k];
      }
      NothingDropped(workers, before);
      RunKept(workers, before);
      StepKeeps(Run(InitServer(workers), before), evs[n]);
    }
  }
}
