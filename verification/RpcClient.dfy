/** The objects of a client: the callback table and the send queue.  Each operation, done without another step in
    between, is the client's steps of the model. */
module RpcClients {

  import opened RpcReactor
  import opened RpcPath
  import Guids

  lemma PathOfThree(p: Path, a: Step, b: Step, c: Step)
    ensures RunPath(p, [a, b, c]) == Step1(Step1(Step1(p, a), b), c)
  {
    hide Step1;
    PathMore(p, [], a);
    PathMore(p, [a], b);
    PathMore(p, [a, b], c);
    assert [] + [a] == [a] && [a] + [b] == [a, b] && [a, b] + [c] == [a, b, c];
  }

  lemma PathOfFour(p: Path, a: Step, b: Step, c: Step, d: Step)
    ensures RunPath(p, [a, b, c, d]) == Step1(Step1(Step1(Step1(p, a), b), c), d)
  {
    hide *;
    PathOfThree(p, a, b, c);
    PathMore(p, [a, b, c], d);
    assert [a, b, c] + [d] == [a, b, c, d];
  }

  /** Client i is c, ids are drawn from a, and these callbacks have run. */
  ghost predicate Seen(p: Path, i: nat, c: Client, a: Guids.Alloc, runs: seq<Execution>)
  {
    i < |p.clients| && p.clients[i] == c && p.alloc == a && p.runs == runs
  }

  lemma ReadSeen(p: Path, i: nat, c: Client, a: Guids.Alloc, runs: seq<Execution>)
    requires Seen(p, i, c, a, runs) && Attentive(p, i) && p.server.lines[c.link.fd].down != []
    ensures Seen(Step1(p, ReadReady(i)), i, c.(reader := Got(p.server.lines[c.link.fd].down[0])), a, runs)
  {
    hide Next;
  }

  lemma ExecuteSeen(p: Path, i: nat, c: Client, a: Guids.Alloc, runs: seq<Execution>, r: Result)
    requires Seen(p, i, c, a, runs) && c.reader == Got(r) && Fits(c, r.seqno) && c.table[r.seqno].Callback?
    ensures var k := c.table[r.seqno].call;
      Seen(Step1(p, Execute(i)), i, c.(reader := Ran(r.seqno, k)), a, runs + [Execution(i, k, r.output)])
  {
  }

  lemma ClearSeen(p: Path, i: nat, c: Client, a: Guids.Alloc, runs: seq<Execution>, id: int, k: nat)
    requires Seen(p, i, c, a, runs) && c.reader == Ran(id, k) && Fits(c, id)
    ensures Seen(Step1(p, Clear(i)), i, c.(table := c.table[id := Null], reader := Cleared(id, k)), a, runs)
  {
  }

  lemma RecycleSeen(p: Path, i: nat, c: Client, a: Guids.Alloc, runs: seq<Execution>, id: int, k: nat)
    requires Seen(p, i, c, a, runs) && c.reader == Cleared(id, k)
    ensures Seen(Step1(p, Recycle(i)), i, c.(reader := Waiting), Guids.Release(a, id), runs)
  {
    hide Guids.Release;
  }

  /** The four steps of a result, done one after another. */
  lemma ReadingMeans(p: Path, i: nat)
    requires Attentive(p, i) && p.server.lines[p.clients[i].link.fd].down != []
    requires var r, c := p.server.lines[p.clients[i].link.fd].down[0], p.clients[i];
      Fits(c, r.seqno) && c.table[r.seqno].Callback?
    ensures var r, c := p.server.lines[p.clients[i].link.fd].down[0], p.clients[i];
      var p' := RunPath(p, [ReadReady(i), Execute(i), Clear(i), Recycle(i)]);
      && i < |p'.clients| && p'.clients[i] == c.(table := c.table[r.seqno := Null])
      && p'.alloc == Guids.Release(p.alloc, r.seqno)
      && p'.runs == p.runs + [Execution(i, c.table[r.seqno].call, r.output)]
  {
    PathOfFour(p, ReadReady(i), Execute(i), Clear(i), Recycle(i));
    var r, c := p.server.lines[p.clients[i].link.fd].down[0], p.clients[i];
    var id, k := r.seqno, c.table[r.seqno].call;
    var c1 := c.(reader := Got(r));
    var c2 := c.(reader := Ran(id, k));
    var c3 := c.(table := c.table[id := Null], reader := Cleared(id, k));
    var p1 := Step1(p, ReadReady(i));
    var p2 := Step1(p1, Execute(i));
    var p3 := Step1(p2, Clear(i));
    var runs := p.runs + [Execution(i, k, r.output)];
    hide Step1, RunPath, Guids.Release;
    ReadSeen(p, i, c, p.alloc, p.runs);
    ExecuteSeen(p1, i, c1, p.alloc, p.runs, r);
    ClearSeen(p2, i, c2, p.alloc, runs, id, k);
    RecycleSeen(p3, i, c3, p.alloc, runs, id, k);
  }

  class RpcClient {
    const mapping: array<Slot>
    const guid: Guids.Guid
    var link: Link
    var pending: seq<Request>
    var wantsOut: bool

    constructor (guid: Guids.Guid)
      ensures this.guid == guid && fresh(mapping)
      ensures AsClient() == FRESH_CLIENT
    {
      this.guid := guid;
      mapping := new Slot[MAX_REQUESTS](_ => Null);
      link, pending, wantsOut := Unaccepted, [], false;
    }

    /** The client when its reading thread waits. */
    ghost function AsClient(): Client
      reads this, mapping
    {
      Client(link, mapping[..], pending, wantsOut, Waiting)
    }

    /** This object is client i of p, and ids are drawn from p's allocator. */
    ghost predicate Is(p: Path, i: nat)
      reads this, mapping, guid
    {
      i < |p.clients| && p.clients[i] == AsClient() && p.alloc == guid.State()
    }

    method Register(seqno: int, callback: nat)
      requires 0 <= seqno < mapping.Length
      modifies mapping
      ensures mapping[..] == old(mapping[..])[seqno := Callback(callback)]
    {
      mapping[seqno] := Callback(callback);
    }

    method Push(message: Request)
      modifies this
      ensures pending == old(pending) + [message] && wantsOut && link == old(link)
    {
      pending := pending + [message];
      wantsOut := true;
    }

    /** Draws an id, registers the callback under it and queues the request; without an id, nothing.  The id 1024 has no
        slot: the call then writes outside the table. */
    method CallRPCAsync(ghost p: Path, ghost i: nat, param: string, callback: nat) returns (wild: bool)
      requires Is(p, i) && callback == |p.calls| && link != Gone && !p.wild
      requires p.alloc.bound >= 0 && Guids.Positive(p.alloc.heap)
      modifies this, mapping, guid
      ensures var p' := RunPath(p, [CallAsync(i, param), RpcPath.Register(callback), RpcPath.Push(callback)]);
        Is(p', i) && wild == p'.wild
      ensures wild <==> Guids.Obtain(old(guid.State())).1 >= mapping.Length
    {
      PathOfThree(p, CallAsync(i, param), RpcPath.Register(callback), RpcPath.Push(callback));
      hide Guids.Rest, Guids.Push;
      var seqno := guid.GetGuid();
      if seqno == -1 {
        return false;
      }
      if seqno >= mapping.Length {
        return true;
      }
      Register(seqno, callback);
      Push(Request(seqno, param, true));
      return false;
    }

    /** Sends the oldest request, and stops waiting for output when none is left. */
    method HandleWriteEvent(ghost p: Path, ghost i: nat) returns (sent: seq<Request>)
      requires Is(p, i) && wantsOut && Attentive(p, i)
      modifies this
      ensures Is(Step1(p, WriteReady(i)), i)
      ensures sent + pending == old(pending) && |sent| <= 1 && (sent == [] <==> old(pending) == [])
      ensures Step1(p, WriteReady(i)).server
           == if sent == [] then p.server else Next(p.server, Arrive(link.fd, sent[0]))
    {
      sent := [];
      if pending != [] {
        sent := [pending[0]];
        pending := pending[1..];
      }
      if pending == [] {
        wantsOut := false;
      }
    }

    /** Runs the callback of a result, clears its slot and gives its id back; when nothing could be received, nothing
        happens. */
    method HandleReadEvent(ghost p: Path, ghost i: nat, received: seq<Result>) returns (ran: seq<(nat, Output)>)
      requires Is(p, i) && Attentive(p, i) && |received| <= 1
      requires received != [] ==>
        && p.server.lines[link.fd].down != [] && received[0] == p.server.lines[link.fd].down[0]
        && 0 <= received[0].seqno < mapping.Length && mapping[received[0].seqno].Callback?
      modifies mapping, guid
      ensures received == [] ==> Is(p, i) && ran == []
      ensures received != [] ==>
        var p' := RunPath(p, [ReadReady(i), Execute(i), Clear(i), Recycle(i)]);
        && ran == [(old(mapping[received[0].seqno]).call, received[0].output)]
        && Is(p', i) && p'.runs == p.runs + [Execution(i, ran[0].0, ran[0].1)]
        && mapping[..] == old(mapping[..])[received[0].seqno := Null]
    {
      if received == [] {
        return [];
      }
      ReadingMeans(p, i);
      hide Next, Guids.Push, RunPath;
      var result := received[0];
      ran := [(mapping[result.seqno].call, result.output)];
      mapping[result.seqno] := Null;
      guid.RecycleGuid(result.seqno);
    }
  }
}
