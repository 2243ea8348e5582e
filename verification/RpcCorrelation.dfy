/** Every id in use is in exactly one place of the call path, and its callback runs once, on its own reply. */
module RpcCorrelation {

  import opened RpcReactor
  import opened RpcOrder
  import opened RpcPath
  import RpcExclusion
  import Guids

  function Tracks(p: Path): seq<seq<int>>
  {
    seq(|p.clients|, i requires 0 <= i < |p.clients| => Track(p.clients[i], ConnWith(p.server, p.clients[i])))
  }

  function TrackCount(tracks: seq<seq<int>>, id: int): nat
  {
    if tracks == [] then 0 else multiset(tracks[0])[id] + TrackCount(tracks[1..], id)
  }

  function Registering(call: Call, id: int): nat
  {
    if call.id == id && (call.progress == Drawn || call.progress == Registered) then 1 else 0
  }

  function CallCount(calls: seq<Call>, id: int): nat
  {
    if calls == [] then 0 else Registering(calls[0], id) + CallCount(calls[1..], id)
  }

  /** In how many places an id is: free, with a call that has not queued its request yet, on a client's line, or lost
      with a client that hung up. */
  function Places(p: Path, id: int): nat
  {
    multiset(p.alloc.heap)[id] + CallCount(p.calls, id) + TrackCount(Tracks(p), id) + multiset(p.lost)[id]
  }

  /** Every id up to the bound is in exactly one place, and nothing else is anywhere. */
  ghost predicate Account(p: Path)
  {
    forall id: int :: Places(p, id) == if 1 <= id <= p.alloc.bound then 1 else 0
  }

  // ---- whose an id is ----

  /** The slot of id holds the callback of a call of client i that was given id and whose request is on its way. */
  ghost predicate Owned(calls: seq<Call>, c: Client, i: nat, id: int)
  {
    && Fits(c, id) && c.table[id].Callback? && c.table[id].call < |calls|
    && calls[c.table[id].call] == Call(i, id, calls[c.table[id].call].param, Pushed)
  }

  ghost predicate RequestOk(calls: seq<Call>, c: Client, i: nat, q: Request)
  {
    q.needReturn && Owned(calls, c, i, q.seqno) && calls[c.table[q.seqno].call].param == q.param
  }

  ghost predicate ResultOk(calls: seq<Call>, c: Client, i: nat, r: Result)
  {
    Owned(calls, c, i, r.seqno) && r.output == Output(calls[c.table[r.seqno].call].param)
  }

  ghost predicate RequestsOk(calls: seq<Call>, c: Client, i: nat, qs: seq<Request>)
  {
    forall j :: 0 <= j < |qs| ==> RequestOk(calls, c, i, qs[j])
  }

  ghost predicate ResultsOk(calls: seq<Call>, c: Client, i: nat, rs: seq<Result>)
  {
    forall j :: 0 <= j < |rs| ==> ResultOk(calls, c, i, rs[j])
  }

  ghost predicate ReaderOk(calls: seq<Call>, c: Client, i: nat)
  {
    match c.reader
    case Waiting => true
    case Got(result) => ResultOk(calls, c, i, result)
    case Ran(seqno, k) => Owned(calls, c, i, seqno) && c.table[seqno].call == k
    case Cleared(seqno, k) => k < |calls| && calls[k] == Call(i, seqno, calls[k].param, Pushed)
  }

  ghost predicate ClientOk(calls: seq<Call>, c: Client, conn: Conn, i: nat)
  {
    && |c.table| == MAX_REQUESTS
    && (c.wantsOut <==> c.pending != [])
    && RequestsOk(calls, c, i, c.pending)
    && RequestsOk(calls, c, i, conn.coming)
    && ResultsOk(calls, c, i, conn.back)
    && ReaderOk(calls, c, i)
  }

  ghost predicate ClientsOk(p: Path)
  {
    forall i: nat :: i < |p.clients| ==> ClientOk(p.calls, p.clients[i], ConnWith(p.server, p.clients[i]), i)
  }

  ghost predicate LinkOk(p: Path, i: nat)
    requires i < |p.clients|
  {
    p.clients[i].link.On? ==> Connected(p.server, p.clients[i].link.fd)
  }

  /** No two clients have the same descriptor. */
  ghost predicate Apart(p: Path, i: nat, j: nat)
    requires i < |p.clients| && j < |p.clients|
  {
    i != j && p.clients[i].link.On? ==> p.clients[j].link != p.clients[i].link
  }

  ghost predicate LinksOk(p: Path)
  {
    && (forall i: nat :: i < |p.clients| ==> LinkOk(p, i))
    && (forall i: nat, j: nat :: i < |p.clients| && j < |p.clients| ==> Apart(p, i, j))
  }

  ghost predicate CallOk(p: Path, k: nat)
    requires k < |p.calls|
  {
    var call := p.calls[k];
    && call.client < |p.clients|
    && (call.progress == Registered ==>
          Fits(p.clients[call.client], call.id) && p.clients[call.client].table[call.id] == Callback(k))
  }

  ghost predicate CallsOk(p: Path)
  {
    forall k: nat :: k < |p.calls| ==> CallOk(p, k)
  }

  // ---- what has run ----

  function RunCount(runs: seq<Execution>, k: nat): nat
  {
    if runs == [] then 0
    else RunCount(runs[..|runs| - 1], k) + if runs[|runs| - 1].call == k then 1 else 0
  }

  /** The callback of call k has run: its id was given back, or is about to be. */
  predicate HasRun(p: Path, k: nat)
  {
    && k < |p.calls| && p.calls[k].client < |p.clients|
    && (p.calls[k].progress == Returned
        || (p.calls[k].progress == Pushed
            && var r := p.clients[p.calls[k].client].reader; (r.Ran? || r.Cleared?) && r.call == k))
  }

  ghost predicate RunsOk(p: Path)
  {
    && (forall k: nat :: RunCount(p.runs, k) == if HasRun(p, k) then 1 else 0)
    && (forall j :: 0 <= j < |p.runs| ==>
          p.runs[j].call < |p.calls| && p.runs[j].output == Output(p.calls[p.runs[j].call].param))
  }

  ghost predicate Inv(p: Path)
  {
    && RpcExclusion.Inv(p.server)
    && LinksOk(p)
    && ClientsOk(p)
    && CallsOk(p)
    && RunsOk(p)
    && Account(p)
    && 0 <= p.alloc.bound < MAX_REQUESTS
    && !p.wild
  }

  lemma Parts(p: Path)
    ensures Inv(p) <==>
      && RpcExclusion.Inv(p.server) && LinksOk(p) && ClientsOk(p) && CallsOk(p) && RunsOk(p) && Account(p)
      && 0 <= p.alloc.bound < MAX_REQUESTS && !p.wild
  {
    hide RpcExclusion.Inv, LinksOk, ClientsOk, CallsOk, RunsOk, Account;
  }

  // ---- counting ----

  lemma {:induction false} TrackUpdated(ts: seq<seq<int>>, i: nat, t: seq<int>, id: int)
    requires i < |ts|
    ensures TrackCount(ts[i := t], id) == TrackCount(ts, id) - multiset(ts[i])[id] + multiset(t)[id]
    ensures TrackCount(ts, id) >= multiset(ts[i])[id]
  {
    if i == 0 {
      assert ts[i := t][1..] == ts[1..];
    } else {
      TrackUpdated(ts[1..], i - 1, t, id);
      assert ts[i := t][1..] == ts[1..][i - 1 := t];
    }
  }

  lemma {:induction false} CallUpdated(calls: seq<Call>, k: nat, call: Call, id: int)
    requires k < |calls|
    ensures CallCount(calls[k := call], id) == CallCount(calls, id) - Registering(calls[k], id) + Registering(call, id)
    ensures CallCount(calls, id) >= Registering(calls[k], id)
  {
    if k == 0 {
      assert calls[k := call][1..] == calls[1..];
    } else {
      CallUpdated(calls[1..], k - 1, call, id);
      assert calls[k := call][1..] == calls[1..][k - 1 := call];
    }
  }

  lemma {:induction false} CallAdded(calls: seq<Call>, call: Call, id: int)
    ensures CallCount(calls + [call], id) == CallCount(calls, id) + Registering(call, id)
  {
    if calls == [] {
      assert (calls + [call])[1..] == [];
    } else {
      CallAdded(calls[1..], call, id);
      assert (calls + [call])[1..] == calls[1..] + [call];
    }
  }

  lemma RunAdded(runs: seq<Execution>, e: Execution, k: nat)
    ensures RunCount(runs + [e], k) == RunCount(runs, k) + if e.call == k then 1 else 0
  {
    assert (runs + [e])[..|runs|] == runs;
  }

  // ---- an id is in one place only ----

  lemma CallIsAlone(p: Path, k: nat)
    requires Account(p) && k < |p.calls| && Registering(p.calls[k], p.calls[k].id) == 1
    ensures var id := p.calls[k].id;
      && 1 <= id <= p.alloc.bound && multiset(p.alloc.heap)[id] == 0
      && (forall i: nat :: i < |p.clients| ==> id !in Track(p.clients[i], ConnWith(p.server, p.clients[i])))
      && (forall j: nat :: j < |p.calls| && j != k ==> Registering(p.calls[j], id) == 0)
  {
    var id := p.calls[k].id;
    CountedOnce(p, k, id);
    forall i: nat | i < |p.clients| ensures id !in Track(p.clients[i], ConnWith(p.server, p.clients[i])) {
      NotTracked(p, i, id);
    }
    hide *;
    forall j: nat | j < |p.calls| && j != k ensures Registering(p.calls[j], id) == 0 {
      OneRegisters(p.calls, k, j, id);
    }
  }

  /** An id that a call is registering is nowhere else. */
  lemma CountedOnce(p: Path, k: nat, id: int)
    requires Account(p) && k < |p.calls| && Registering(p.calls[k], id) == 1
    ensures 1 <= id <= p.alloc.bound && multiset(p.alloc.heap)[id] == 0
    ensures CallCount(p.calls, id) == 1 && TrackCount(Tracks(p), id) == 0
  {
    hide Tracks, TrackCount, CallCount, Registering;
    assert Places(p, id) == if 1 <= id <= p.alloc.bound then 1 else 0;
    CallUpdated(p.calls, k, p.calls[k], id);
  }

  lemma NotTracked(p: Path, i: nat, id: int)
    requires i < |p.clients| && TrackCount(Tracks(p), id) == 0
    ensures id !in Track(p.clients[i], ConnWith(p.server, p.clients[i]))
  {
    hide Track, ConnWith, TrackCount;
    TrackUpdated(Tracks(p), i, [], id);
    assert Tracks(p)[i] == Track(p.clients[i], ConnWith(p.server, p.clients[i]));
    assert multiset(Tracks(p)[i])[id] == 0;
  }

  lemma OneRegisters(calls: seq<Call>, k: nat, j: nat, id: int)
    requires k < |calls| && j < |calls| && j != k && CallCount(calls, id) == 1 && Registering(calls[k], id) == 1
    ensures Registering(calls[j], id) == 0
  {
    var pushed := calls[k].(progress := Pushed);
    CallUpdated(calls, k, pushed, id);
    assert Registering(pushed, id) == 0;
    hide CallCount;
    CallUpdated(calls[k := pushed], j, calls[j], id);
  }

  lemma TrackIsAlone(p: Path, i: nat, id: int)
    requires Account(p) && i < |p.clients| && id in Track(p.clients[i], ConnWith(p.server, p.clients[i]))
    ensures 1 <= id <= p.alloc.bound && multiset(p.alloc.heap)[id] == 0
    ensures multiset(Track(p.clients[i], ConnWith(p.server, p.clients[i])))[id] == 1
    ensures forall j: nat :: j < |p.calls| ==> Registering(p.calls[j], id) == 0
  {
    var t := Track(p.clients[i], ConnWith(p.server, p.clients[i]));
    assert Places(p, id) == if 1 <= id <= p.alloc.bound then 1 else 0;
    assert Tracks(p)[i] == t;
    TrackUpdated(Tracks(p), i, [], id);
    assert id in multiset(t);
    forall j: nat | j < |p.calls| ensures Registering(p.calls[j], id) == 0 {
      CallUpdated(p.calls, j, p.calls[j], id);
    }
  }

  lemma {:induction false} NoTracks(n: nat, id: int)
    ensures TrackCount(seq(n, _ => []), id) == 0
  {
    if n > 0 {
      NoTracks(n - 1, id);
      assert seq<seq<int>>(n, _ => [])[1..] == seq<seq<int>>(n - 1, _ => []);
    }
  }

  lemma InitInv(workers: nat, clients: nat)
    ensures Inv(InitPath(workers, clients))
  {
    var p := InitPath(workers, clients);
    RpcExclusion.InitInv(workers);
    forall id: int ensures Places(p, id) == 0 {
      assert Tracks(p) == seq(clients, _ => []);
      NoTracks(clients, id);
    }
  }

  // ---- the server's events ----

  lemma ServeConn(calls: seq<Call>, c: Client, conn: Conn, i: nat, act: Act)
    requires ClientOk(calls, c, conn, i) && (act == Idling || act == Answers)
    ensures ClientOk(calls, c, Do(conn, act), i) && Track(c, Do(conn, act)) == Track(c, conn)
  {
    if act == Answers && conn.coming != [] {
      var q := conn.coming[0];
      assert RequestOk(calls, c, i, q);
      AnswerMeans(conn);
      ResultsMore(calls, c, i, conn.back, Reply(q));
      RequestsFewer(calls, c, i, conn.coming);
      hide RequestOk, ResultOk, RequestsOk, ResultsOk, ReaderOk, Do, RequestIds, ResultIds;
      assert c.reader.Waiting? || c.reader.Got? || c.reader.Ran? || c.reader.Cleared?;
    }
  }

  lemma AnswerMeans(conn: Conn)
    requires conn.coming != [] && conn.coming[0].needReturn
    ensures Do(conn, Answers) == Conn(conn.coming[1..], conn.back + [Reply(conn.coming[0])])
  {
    ServedOne(conn.coming[0]);
    hide Served;
  }

  lemma ResultsMore(calls: seq<Call>, c: Client, i: nat, back: seq<Result>, r: Result)
    requires ResultsOk(calls, c, i, back) && ResultOk(calls, c, i, r)
    ensures ResultsOk(calls, c, i, back + [r]) && ResultIds(back + [r]) == ResultIds(back) + [r.seqno]
  {
    hide ResultOk;
  }

  lemma RequestsFewer(calls: seq<Call>, c: Client, i: nat, coming: seq<Request>)
    requires RequestsOk(calls, c, i, coming) && coming != []
    ensures RequestsOk(calls, c, i, coming[1..]) && RequestIds(coming) == [coming[0].seqno] + RequestIds(coming[1..])
  {
    hide RequestOk;
  }

  /** What an event of the server or of another program does to the connection of a client. */
  lemma ServeAt(s: Server, ev: Event, g: nat) returns (act: Act)
    requires RpcExclusion.Inv(s) && Connected(s, g)
    requires ev.Arrive? || ev.Depart? ==> ev.fd != g
    ensures act == Idling || act == Answers
    ensures ConnAt(Next(s, ev), g) == Do(ConnAt(s, g), act)
  {
    EventIsAct(s, ev, g);
    act := ActOf(s, ev, g);
  }

  /** Client i is in order after a step, and its line of ids is as it was. */
  ghost predicate Steady(p: Path, p': Path, i: nat)
    requires i < |p.clients| == |p'.clients|
  {
    && ClientOk(p'.calls, p'.clients[i], ConnWith(p'.server, p'.clients[i]), i)
    && Track(p'.clients[i], ConnWith(p'.server, p'.clients[i])) == Track(p.clients[i], ConnWith(p.server, p.clients[i]))
    && p'.clients[i].link == p.clients[i].link
    && LinkOk(p', i)
  }

  lemma AllSteady(p: Path, p': Path)
    requires LinksOk(p) && |p'.clients| == |p.clients| && forall i: nat :: i < |p.clients| ==> Steady(p, p', i)
    ensures LinksOk(p') && ClientsOk(p') && Tracks(p') == Tracks(p)
  {
    hide LinkOk, ClientOk, Track, ConnWith;
    forall i: nat, j: nat | i < |p.clients| && j < |p.clients| ensures Apart(p', i, j) {
      assert Apart(p, i, j) && Steady(p, p', i) && Steady(p, p', j);
    }
    forall i: nat | i < |p.clients|
      ensures ClientOk(p'.calls, p'.clients[i], ConnWith(p'.server, p'.clients[i]), i) && LinkOk(p', i)
      ensures Track(p'.clients[i], ConnWith(p'.server, p'.clients[i]))
           == Track(p.clients[i], ConnWith(p.server, p.clients[i]))
    {
      assert Steady(p, p', i);
    }
  }

  lemma LinksSame(p: Path, p': Path)
    requires LinksOk(p) && p'.server == p.server && |p'.clients| == |p.clients|
    requires forall i: nat :: i < |p.clients| ==> p'.clients[i].link == p.clients[i].link
    ensures LinksOk(p')
  {
    forall i: nat | i < |p.clients| ensures LinkOk(p', i) {
      assert LinkOk(p, i);
    }
    forall i: nat, j: nat | i < |p.clients| && j < |p.clients| ensures Apart(p', i, j) {
      assert Apart(p, i, j);
    }
  }

  /** What is known of client i before a step. */
  lemma ClientMeans(p: Path, i: nat)
    requires Inv(p) && i < |p.clients|
    ensures var c := p.clients[i];
      && RpcExclusion.Inv(p.server)
      && ClientOk(p.calls, c, ConnWith(p.server, c), i)
      && (c.link.On? ==> Connected(p.server, c.link.fd))
      && forall j: nat :: j < |p.clients| && j != i && c.link.On? ==> p.clients[j].link != c.link
  {
    assert ClientOk(p.calls, p.clients[i], ConnWith(p.server, p.clients[i]), i);
    assert LinkOk(p, i);
    forall j: nat | j < |p.clients| && j != i && p.clients[i].link.On? ensures p.clients[j].link != p.clients[i].link {
      assert Apart(p, i, j);
    }
  }

  lemma ServeSteady(p: Path, ev: Event, i: nat)
    requires Inv(p) && Foreign(p, ev) && i < |p.clients|
    ensures Steady(p, p.(server := Next(p.server, ev)), i)
  {
    var c := p.clients[i];
    ClientMeans(p, i);
    hide Inv, RpcExclusion.Inv, ConnAt, Next, ClientOk, Track, Connected;
    if c.link.On? {
      assert ev.Arrive? || ev.Depart? || ev.HangUp? ==> ev.fd != c.link.fd;
      var act := ServeAt(p.server, ev, c.link.fd);
      ServeConn(p.calls, c, ConnAt(p.server, c.link.fd), i, act);
      RpcExclusion.ConnectedStays(p.server, ev, c.link.fd);
    }
  }

  lemma ServeKeeps(p: Path, ev: Event)
    requires Inv(p)
    ensures Inv(Step1(p, Serve(ev)))
  {
    if Foreign(p, ev) {
      var p' := p.(server := Next(p.server, ev));
      RpcExclusion.StepKeeps(p.server, ev);
      forall i: nat | i < |p.clients| ensures Steady(p, p', i) {
        ServeSteady(p, ev, i);
      }
      hide RpcExclusion.Inv, ClientsOk, Tracks, LinkOk, Next, Account, ConnWith, Steady;
      AllSteady(p, p');
      FramesMove(p, p');
    }
  }

  // ---- a call's own steps ----

  /** A new call takes nothing from the others. */
  lemma ClientGrows(calls: seq<Call>, call: Call, c: Client, conn: Conn, i: nat)
    requires ClientOk(calls, c, conn, i)
    ensures ClientOk(calls + [call], c, conn, i)
  {
    forall id | Owned(calls, c, i, id) ensures Owned(calls + [call], c, i, id) {
    }
    forall j | 0 <= j < |c.pending| ensures RequestOk(calls + [call], c, i, c.pending[j]) {
      assert RequestOk(calls, c, i, c.pending[j]);
    }
    forall j | 0 <= j < |conn.coming| ensures RequestOk(calls + [call], c, i, conn.coming[j]) {
      assert RequestOk(calls, c, i, conn.coming[j]);
    }
    forall j | 0 <= j < |conn.back| ensures ResultOk(calls + [call], c, i, conn.back[j]) {
      assert ResultOk(calls, c, i, conn.back[j]);
    }
  }

  lemma ObtainTakes(a: Guids.Alloc, x: int)
    requires Guids.Obtain(a).1 != -1
    ensures var (a', id) := Guids.Obtain(a);
      && multiset(a'.heap)[x] + (if x == id then 1 else 0)
         == multiset(a.heap)[x] + (if a.heap == [] && x == a.bound + 1 then 1 else 0)
      && a'.bound == a.bound + (if a.heap == [] then 1 else 0)
  {
    if a.heap != [] {
      Guids.RestRemovesRoot(a.heap);
      assert a.heap[0] in multiset(a.heap);
    }
  }

  /** The state with one more call, whose id is drawn. */
  function WithCall(p: Path, a: Guids.Alloc, call: Call): Path
  {
    p.(alloc := a, calls := p.calls + [call])
  }

  lemma CallClients(p: Path, a: Guids.Alloc, call: Call)
    requires LinksOk(p) && ClientsOk(p)
    ensures var p' := WithCall(p, a, call); LinksOk(p') && ClientsOk(p') && Tracks(p') == Tracks(p)
  {
    var p' := WithCall(p, a, call);
    LinksSame(p, p');
    hide ClientOk, ConnWith, LinksOk, Track;
    forall j: nat | j < |p.clients| ensures ClientOk(p'.calls, p'.clients[j], ConnWith(p'.server, p'.clients[j]), j) {
      ClientGrows(p.calls, call, p.clients[j], ConnWith(p.server, p.clients[j]), j);
    }
  }

  lemma CallCalls(p: Path, a: Guids.Alloc, call: Call)
    requires CallsOk(p) && RunsOk(p) && call.client < |p.clients| && call.progress == Drawn
    ensures CallsOk(WithCall(p, a, call)) && RunsOk(WithCall(p, a, call))
  {
    var p' := WithCall(p, a, call);
    hide RunCount;
    forall k: nat | k < |p'.calls| ensures CallOk(p', k) {
      assert k < |p.calls| ==> CallOk(p, k);
    }
    forall k: nat ensures HasRun(p', k) == HasRun(p, k) {
    }
  }

  lemma CallAccount(p: Path, i: nat, param: string)
    requires Account(p) && Guids.Obtain(p.alloc).1 != -1 && p.alloc.bound >= 0
    ensures var (a, id) := Guids.Obtain(p.alloc);
      var p' := WithCall(p, a, Call(i, id, param, Drawn));
      p'.alloc.bound >= 0 && (Tracks(p') == Tracks(p) ==> Account(p'))
  {
    var (a, id) := Guids.Obtain(p.alloc);
    var call := Call(i, id, param, Drawn);
    var p' := WithCall(p, a, call);
    ObtainTakes(p.alloc, 0);
    hide Guids.Obtain, Guids.Rest, Tracks, CallCount, TrackCount;
    if Tracks(p') == Tracks(p) {
      forall x: int ensures Places(p', x) == if 1 <= x <= p'.alloc.bound then 1 else 0 {
        assert Places(p, x) == if 1 <= x <= p.alloc.bound then 1 else 0;
        ObtainTakes(p.alloc, x);
        CallAdded(p.calls, call, x);
      }
    }
  }

  lemma CallMeans(p: Path, i: nat, param: string)
    requires i < |p.clients| && p.clients[i].link != Gone && Guids.Obtain(p.alloc).1 != -1
    ensures var (a, id) := Guids.Obtain(p.alloc);
      Step1(p, CallAsync(i, param)) == WithCall(p, a, Call(i, id, param, Drawn))
  {
    hide Guids.Obtain;
  }

  lemma CallKeeps(p: Path, i: nat, param: string)
    requires Inv(p) && Step1(p, CallAsync(i, param)).alloc.bound < MAX_REQUESTS
    ensures Inv(Step1(p, CallAsync(i, param)))
  {
    var (a, id) := Guids.Obtain(p.alloc);
    if i < |p.clients| && p.clients[i].link != Gone && id != -1 {
      var call := Call(i, id, param, Drawn);
      var p' := WithCall(p, a, call);
      assert p'.server == p.server && p'.wild == p.wild && p'.alloc == a;
      CallMeans(p, i, param);
      hide *;
      Parts(p);
      CallClients(p, a, call);
      CallCalls(p, a, call);
      CallAccount(p, i, param);
      Parts(p');
    }
  }

  lemma InTrack(c: Client, conn: Conn)
    ensures forall j :: 0 <= j < |c.pending| ==> c.pending[j].seqno in Track(c, conn)
    ensures forall j :: 0 <= j < |conn.coming| ==> conn.coming[j].seqno in Track(c, conn)
    ensures forall j :: 0 <= j < |conn.back| ==> conn.back[j].seqno in Track(c, conn)
  {
    forall j | 0 <= j < |c.pending| ensures c.pending[j].seqno in Track(c, conn) {
      assert RequestIds(c.pending)[j] in RequestIds(c.pending);
    }
    forall j | 0 <= j < |conn.coming| ensures conn.coming[j].seqno in Track(c, conn) {
      assert RequestIds(conn.coming)[j] in RequestIds(conn.coming);
    }
    forall j | 0 <= j < |conn.back| ensures conn.back[j].seqno in Track(c, conn) {
      assert ResultIds(conn.back)[j] in ResultIds(conn.back);
    }
  }

  /** The slots of the ids of a list, and the calls of client i with such an id, are the same. */
  ghost predicate Alike(calls: seq<Call>, c: Client, calls': seq<Call>, c': Client, i: nat, ids: seq<int>)
  {
    && |c'.table| == |c.table|
    && (forall id :: id in ids && Fits(c, id) ==> c'.table[id] == c.table[id])
    && (forall k: nat :: k < |calls| && calls[k].progress == Pushed && calls[k].client == i && calls[k].id in ids ==>
          k < |calls'| && calls'[k] == calls[k])
  }

  lemma ClientCarries(calls: seq<Call>, c: Client, calls': seq<Call>, c': Client, conn: Conn, i: nat)
    requires ClientOk(calls, c, conn, i) && c' == c.(table := c'.table)
    requires Alike(calls, c, calls', c', i, Track(c, conn))
    ensures ClientOk(calls', c', conn, i)
  {
    InTrack(c, conn);
    forall j | 0 <= j < |c.pending| ensures RequestOk(calls', c', i, c.pending[j]) {
      assert RequestOk(calls, c, i, c.pending[j]);
    }
    forall j | 0 <= j < |conn.coming| ensures RequestOk(calls', c', i, conn.coming[j]) {
      assert RequestOk(calls, c, i, conn.coming[j]);
    }
    forall j | 0 <= j < |conn.back| ensures ResultOk(calls', c', i, conn.back[j]) {
      assert ResultOk(calls, c, i, conn.back[j]);
    }
    assert ReaderOk(calls', c', i) by {
      if c.reader != Waiting {
        assert ReaderIds(c.reader)[0] in Track(c, conn);
      }
    }
  }

  lemma RegisterClient(p: Path, k: nat, j: nat)
    requires Inv(p) && At(p, k, Drawn) && j < |p.clients| && !RegisterOn(p, k).wild
    ensures var p', conn := RegisterOn(p, k), ConnWith(p.server, p.clients[j]);
      && ClientOk(p'.calls, p'.clients[j], conn, j)
      && Track(p'.clients[j], conn) == Track(p.clients[j], conn)
  {
    CallIsAlone(p, k);
    hide ConnAt, Account, Track;
    var p', conn := RegisterOn(p, k), ConnWith(p.server, p.clients[j]);
    assert ClientOk(p.calls, p.clients[j], conn, j);
    ClientCarries(p.calls, p.clients[j], p'.calls, p'.clients[j], conn, j);
    SameTrack(p.clients[j], p'.clients[j], conn);
  }

  lemma SameTrack(c: Client, c': Client, conn: Conn)
    requires c'.pending == c.pending && c'.reader == c.reader
    ensures Track(c', conn) == Track(c, conn)
  {
  }

  lemma RegisterFits(p: Path, k: nat)
    requires Inv(p) && At(p, k, Drawn)
    ensures !RegisterOn(p, k).wild
  {
    CallIsAlone(p, k);
    var i := p.calls[k].client;
    assert ClientOk(p.calls, p.clients[i], ConnWith(p.server, p.clients[i]), i);
  }

  lemma RegisterCalls(p: Path, k: nat)
    requires Inv(p) && At(p, k, Drawn)
    ensures CallsOk(RegisterOn(p, k)) && RunsOk(RegisterOn(p, k))
  {
    var p' := RegisterOn(p, k);
    RegisterFits(p, k);
    CallIsAlone(p, k);
    hide ConnAt, Account, Track, ClientsOk, Places;
    forall m: nat | m < |p'.calls| ensures CallOk(p', m) {
      assert CallOk(p, m);
      assert m != k ==> Registering(p.calls[m], p.calls[k].id) == 0;
    }
    forall m: nat ensures HasRun(p', m) == HasRun(p, m) {
    }
  }

  lemma RegisterAccount(p: Path, k: nat)
    requires Inv(p) && At(p, k, Drawn) && Tracks(RegisterOn(p, k)) == Tracks(p)
    ensures Account(RegisterOn(p, k))
  {
    var p' := RegisterOn(p, k);
    RegisterFits(p, k);
    RegisterMeans(p, k);
    AccountOf(p);
    hide Inv, RegisterOn, Tracks, CallCount, TrackCount;
    forall x: int ensures Places(p', x) == if 1 <= x <= p'.alloc.bound then 1 else 0 {
      assert Places(p, x) == if 1 <= x <= p.alloc.bound then 1 else 0;
      CallUpdated(p.calls, k, p.calls[k].(progress := Registered), x);
    }
  }

  /** Registering moves no id. */
  lemma RegisterMeans(p: Path, k: nat)
    requires At(p, k, Drawn) && !RegisterOn(p, k).wild
    ensures var p' := RegisterOn(p, k);
      && p'.calls == p.calls[k := p.calls[k].(progress := Registered)]
      && p'.alloc == p.alloc && p'.lost == p.lost
    ensures k < |p.calls| && p.calls[k].progress == Drawn
  {
  }

  lemma AccountOf(p: Path)
    requires Inv(p)
    ensures Account(p)
  {
  }

  lemma RegisterClients(p: Path, k: nat)
    requires Inv(p) && At(p, k, Drawn)
    ensures ClientsOk(RegisterOn(p, k)) && Tracks(RegisterOn(p, k)) == Tracks(p) && LinksOk(RegisterOn(p, k))
  {
    var p' := RegisterOn(p, k);
    RegisterFits(p, k);
    LinksSame(p, p');
    hide ClientOk, Track, ConnWith, LinksOk;
    forall j: nat | j < |p.clients|
      ensures ClientOk(p'.calls, p'.clients[j], ConnWith(p.server, p.clients[j]), j)
      ensures Track(p'.clients[j], ConnWith(p.server, p.clients[j]))
         == Track(p.clients[j], ConnWith(p.server, p.clients[j]))
    {
      RegisterClient(p, k, j);
    }
    forall j: nat | j < |p.clients| ensures ConnWith(p'.server, p'.clients[j]) == ConnWith(p.server, p.clients[j]) {
      SameConn(p.server, p.clients[j], p'.clients[j]);
    }
  }

  lemma SameConn(s: Server, c: Client, c': Client)
    requires c'.link == c.link
    ensures ConnWith(s, c') == ConnWith(s, c)
  {
  }

  lemma RegisterKeeps(p: Path, k: nat)
    requires Inv(p)
    ensures Inv(Step1(p, Register(k)))
  {
    if At(p, k, Drawn) {
      var p' := RegisterOn(p, k);
      RegisterFits(p, k);
      assert p'.server == p.server && p'.alloc == p.alloc;
      hide *;
      Parts(p);
      RegisterClients(p, k);
      RegisterCalls(p, k);
      RegisterAccount(p, k);
      Parts(p');
    }
  }

  lemma PushClient(calls: seq<Call>, c: Client, conn: Conn, i: nat, q: Request)
    requires ClientOk(calls, c, conn, i) && RequestOk(calls, c, i, q)
    ensures var c' := c.(pending := c.pending + [q], wantsOut := true);
      ClientOk(calls, c', conn, i) && Track(c', conn) == Track(c, conn) + [q.seqno]
  {
    var c' := c.(pending := c.pending + [q], wantsOut := true);
    forall j | 0 <= j < |c'.pending| ensures RequestOk(calls, c', i, c'.pending[j]) {
      assert j < |c.pending| ==> RequestOk(calls, c, i, c.pending[j]);
    }
    forall j | 0 <= j < |conn.coming| ensures RequestOk(calls, c', i, conn.coming[j]) {
      assert RequestOk(calls, c, i, conn.coming[j]);
    }
    forall j | 0 <= j < |conn.back| ensures ResultOk(calls, c', i, conn.back[j]) {
      assert ResultOk(calls, c, i, conn.back[j]);
    }
    assert RequestIds(c'.pending) == RequestIds(c.pending) + [q.seqno];
  }

  lemma PushSteady(p: Path, k: nat, j: nat)
    requires Inv(p) && At(p, k, Registered) && j < |p.clients|
    ensures var p', conn := PushOn(p, k), ConnWith(p.server, p.clients[j]);
      && ClientOk(p'.calls, p'.clients[j], conn, j)
      && Track(p'.clients[j], conn)
         == Track(p.clients[j], conn) + if j == p.calls[k].client then [p.calls[k].id] else []
  {
    assert CallOk(p, k);
    hide ConnAt, Account, Track;
    var p', conn := PushOn(p, k), ConnWith(p.server, p.clients[j]);
    assert ClientOk(p.calls, p.clients[j], conn, j);
    ClientCarries(p.calls, p.clients[j], p'.calls, p.clients[j], conn, j);
    if j == p.calls[k].client {
      PushClient(p'.calls, p.clients[j], conn, j, Request(p.calls[k].id, p.calls[k].param, true));
    }
  }

  lemma PushClients(p: Path, k: nat)
    requires Inv(p) && At(p, k, Registered)
    ensures ClientsOk(PushOn(p, k)) && LinksOk(PushOn(p, k))
    ensures var i, ts := p.calls[k].client, Tracks(p);
      i < |ts| && Tracks(PushOn(p, k)) == ts[i := ts[i] + [p.calls[k].id]]
  {
    var p', i := PushOn(p, k), p.calls[k].client;
    LinksSame(p, p');
    hide ClientOk, Track, ConnWith, LinksOk;
    forall j: nat | j < |p.clients| ensures ConnWith(p'.server, p'.clients[j]) == ConnWith(p.server, p.clients[j]) {
      SameConn(p.server, p.clients[j], p'.clients[j]);
    }
    forall j: nat | j < |p.clients|
      ensures ClientOk(p'.calls, p'.clients[j], ConnWith(p.server, p.clients[j]), j)
      ensures Track(p'.clients[j], ConnWith(p.server, p.clients[j]))
           == Track(p.clients[j], ConnWith(p.server, p.clients[j])) + if j == i then [p.calls[k].id] else []
    {
      PushSteady(p, k, j);
    }
  }

  lemma PushCalls(p: Path, k: nat)
    requires Inv(p) && At(p, k, Registered)
    ensures CallsOk(PushOn(p, k)) && RunsOk(PushOn(p, k))
  {
    var p' := PushOn(p, k);
    var i := p.calls[k].client;
    assert ReaderOk(p.calls, p.clients[i], i) by {
      assert ClientOk(p.calls, p.clients[i], ConnWith(p.server, p.clients[i]), i);
    }
    hide ConnAt, Account, Track, ClientsOk, Places;
    forall m: nat | m < |p'.calls| ensures CallOk(p', m) {
      assert CallOk(p, m);
    }
    forall m: nat ensures HasRun(p', m) == HasRun(p, m) {
    }
  }

  /** Its id leaves the registering call for the end of its client's line. */
  lemma PushMoves(calls: seq<Call>, k: nat, tracks: seq<seq<int>>, i: nat, x: int)
    requires k < |calls| && calls[k].progress == Registered && i < |tracks|
    ensures CallCount(calls[k := calls[k].(progress := Pushed)], x)
            + TrackCount(tracks[i := tracks[i] + [calls[k].id]], x)
         == CallCount(calls, x) + TrackCount(tracks, x)
  {
    CallUpdated(calls, k, calls[k].(progress := Pushed), x);
    TrackUpdated(tracks, i, tracks[i] + [calls[k].id], x);
    hide CallCount, TrackCount;
  }

  lemma AccountMoves(p: Path, p': Path, ts: seq<seq<int>>, ts': seq<seq<int>>)
    requires Account(p) && p'.alloc == p.alloc && p'.lost == p.lost && ts == Tracks(p) && ts' == Tracks(p')
    requires forall x: int :: CallCount(p'.calls, x) + TrackCount(ts', x) == CallCount(p.calls, x) + TrackCount(ts, x)
    ensures Account(p')
  {
    hide Tracks, CallCount, TrackCount;
    forall x: int ensures Places(p', x) == if 1 <= x <= p'.alloc.bound then 1 else 0 {
      assert Places(p, x) == if 1 <= x <= p.alloc.bound then 1 else 0;
    }
  }

  lemma PushAccount(p: Path, k: nat)
    requires Inv(p) && At(p, k, Registered)
    ensures Account(PushOn(p, k))
  {
    var p', i, ts := PushOn(p, k), p.calls[k].client, Tracks(p);
    assert p'.alloc == p.alloc && p'.lost == p.lost && p'.calls == p.calls[k := p.calls[k].(progress := Pushed)];
    Parts(p);
    PushClients(p, k);
    hide *;
    var ts' := ts[i := ts[i] + [p.calls[k].id]];
    forall x: int ensures CallCount(p'.calls, x) + TrackCount(ts', x) == CallCount(p.calls, x) + TrackCount(ts, x) {
      PushMoves(p.calls, k, ts, i, x);
    }
    AccountMoves(p, p', ts, ts');
  }

  lemma PushKeeps(p: Path, k: nat)
    requires Inv(p)
    ensures Inv(Step1(p, Push(k)))
  {
    if At(p, k, Registered) {
      var p' := PushOn(p, k);
      assert p'.server == p.server && p'.alloc == p.alloc && p'.wild == p.wild;
      hide *;
      Parts(p);
      PushClients(p, k);
      PushCalls(p, k);
      PushAccount(p, k);
      Parts(p');
    }
  }

  // ---- the reading and writing thread ----

  /** Steps that move nothing but frames: the calls, callbacks, tables and lines of ids are as they were. */
  lemma FramesMove(p: Path, p': Path)
    requires CallsOk(p) && RunsOk(p) && Account(p) && |p'.clients| == |p.clients|
    requires p'.calls == p.calls && p'.runs == p.runs && p'.alloc == p.alloc && p'.lost == p.lost
    requires Tracks(p') == Tracks(p)
    requires forall j: nat :: j < |p.clients| ==>
      && p'.clients[j].table == p.clients[j].table
      && (p'.clients[j].reader == p.clients[j].reader || (p.clients[j].reader == Waiting && p'.clients[j].reader.Got?))
    ensures CallsOk(p') && RunsOk(p') && Account(p')
  {
    hide Tracks;
    forall m: nat | m < |p'.calls| ensures CallOk(p', m) {
      assert CallOk(p, m);
    }
    forall m: nat ensures HasRun(p', m) == HasRun(p, m) {
    }
    AccountMoves(p, p', Tracks(p), Tracks(p'));
  }

  lemma SendClient(calls: seq<Call>, c: Client, conn: Conn, i: nat)
    requires ClientOk(calls, c, conn, i) && c.pending != []
    ensures var rest := c.pending[1..];
      var c', conn' := c.(pending := rest, wantsOut := rest != []), Do(conn, Joins(c.pending[0]));
      ClientOk(calls, c', conn', i) && Track(c', conn') == Track(c, conn)
  {
    var rest := c.pending[1..];
    var c', conn' := c.(pending := rest, wantsOut := rest != []), Do(conn, Joins(c.pending[0]));
    forall j | 0 <= j < |rest| ensures RequestOk(calls, c', i, rest[j]) {
      assert RequestOk(calls, c, i, c.pending[j + 1]);
    }
    forall j | 0 <= j < |conn'.coming| ensures RequestOk(calls, c', i, conn'.coming[j]) {
      assert RequestOk(calls, c, i, c.pending[0]);
      assert j < |conn.coming| ==> RequestOk(calls, c, i, conn.coming[j]);
    }
    forall j | 0 <= j < |conn'.back| ensures ResultOk(calls, c', i, conn'.back[j]) {
      assert ResultOk(calls, c, i, conn.back[j]);
    }
    assert RequestIds(conn'.coming) == RequestIds(conn.coming) + [c.pending[0].seqno];
    assert RequestIds(c.pending) == [c.pending[0].seqno] + RequestIds(rest);
  }

  lemma ArriveAt(s: Server, fd: nat, q: Request, g: nat)
    requires RpcExclusion.Inv(s) && Connected(s, fd) && 0 < g
    ensures ConnAt(Next(s, Arrive(fd, q)), g) == if g == fd then Do(ConnAt(s, g), Joins(q)) else ConnAt(s, g)
  {
    if g < |s.lines| {
      ArriveJoins(s, fd, q, g);
    }
  }

  lemma DepartAt(s: Server, fd: nat, g: nat)
    requires RpcExclusion.Inv(s) && 0 < fd < |s.lines| && s.lines[fd].down != [] && 0 < g
    ensures ConnAt(Next(s, Depart(fd)), g) == if g == fd then Do(ConnAt(s, g), Leaves) else ConnAt(s, g)
    ensures ConnAt(s, fd).back != [] && ConnAt(s, fd).back[0] == s.lines[fd].down[0]
  {
    DepartLeaves(s, fd, fd);
    if g < |s.lines| {
      DepartLeaves(s, fd, g);
    }
  }

  lemma WriteSteady(p: Path, i: nat, j: nat)
    requires Inv(p) && Attentive(p, i) && p.clients[i].wantsOut && j < |p.clients|
    ensures Steady(p, WriteOn(p, i), j)
  {
    var c, d, fd := p.clients[i], p.clients[j], p.clients[i].link.fd;
    ClientMeans(p, i);
    ClientMeans(p, j);
    assert c.pending != [];
    hide Inv, RpcExclusion.Inv, ConnAt, Next, ClientOk, Track;
    var ev := Arrive(fd, c.pending[0]);
    if d.link.On? {
      ArriveAt(p.server, fd, c.pending[0], d.link.fd);
      RpcExclusion.ConnectedStays(p.server, ev, d.link.fd);
    }
    hide Connected;
    if j == i {
      SendClient(p.calls, c, ConnWith(p.server, c), i);
    }
  }

  lemma WriteKeeps(p: Path, i: nat)
    requires Inv(p)
    ensures Inv(Step1(p, WriteReady(i)))
  {
    if Attentive(p, i) && p.clients[i].wantsOut {
      var p' := WriteOn(p, i);
      ClientMeans(p, i);
      assert p'.server == Next(p.server, Arrive(p.clients[i].link.fd, p.clients[i].pending[0]));
      RpcExclusion.StepKeeps(p.server, Arrive(p.clients[i].link.fd, p.clients[i].pending[0]));
      forall j: nat | j < |p.clients| ensures Steady(p, p', j) {
        WriteSteady(p, i, j);
      }
      hide RpcExclusion.Inv, ClientsOk, Tracks, LinkOk, Next, Account, ConnWith, Steady, ClientOk;
      AllSteady(p, p');
      FramesMove(p, p');
    }
  }

  lemma ReceiveClient(calls: seq<Call>, c: Client, conn: Conn, i: nat)
    requires ClientOk(calls, c, conn, i) && conn.back != [] && c.reader == Waiting
    ensures var c', conn' := c.(reader := Got(conn.back[0])), Do(conn, Leaves);
      ClientOk(calls, c', conn', i) && Track(c', conn') == Track(c, conn)
  {
    var c', conn' := c.(reader := Got(conn.back[0])), Do(conn, Leaves);
    assert ResultOk(calls, c, i, conn.back[0]);
    forall j | 0 <= j < |c.pending| ensures RequestOk(calls, c', i, c.pending[j]) {
      assert RequestOk(calls, c, i, c.pending[j]);
    }
    forall j | 0 <= j < |conn.coming| ensures RequestOk(calls, c', i, conn.coming[j]) {
      assert RequestOk(calls, c, i, conn.coming[j]);
    }
    forall j | 0 <= j < |conn'.back| ensures ResultOk(calls, c', i, conn'.back[j]) {
      assert ResultOk(calls, c, i, conn.back[j + 1]);
    }
    assert ResultIds(conn.back) == [conn.back[0].seqno] + ResultIds(conn'.back);
  }

  lemma ReadSteady(p: Path, i: nat, j: nat)
    requires Inv(p) && Attentive(p, i) && p.server.lines[p.clients[i].link.fd].down != [] && j < |p.clients|
    ensures Steady(p, ReadOn(p, i), j)
  {
    var c, d, fd := p.clients[i], p.clients[j], p.clients[i].link.fd;
    ClientMeans(p, i);
    ClientMeans(p, j);
    hide Inv, RpcExclusion.Inv, ConnAt, Next, ClientOk, Track;
    if d.link.On? {
      DepartAt(p.server, fd, d.link.fd);
      RpcExclusion.ConnectedStays(p.server, Depart(fd), d.link.fd);
    }
    hide Connected;
    if j == i {
      ReceiveClient(p.calls, c, ConnWith(p.server, c), i);
    }
  }

  lemma ReadKeeps(p: Path, i: nat)
    requires Inv(p)
    ensures Inv(Step1(p, ReadReady(i)))
  {
    if Attentive(p, i) && p.server.lines[p.clients[i].link.fd].down != [] {
      var p' := ReadOn(p, i);
      assert p' == p.(server := Next(p.server, Depart(p.clients[i].link.fd)), clients := p'.clients);
      assert |p'.clients| == |p.clients| && forall j: nat :: j < |p.clients| ==>
        && p'.clients[j].table == p.clients[j].table
        && (p'.clients[j].reader == p.clients[j].reader
            || (p.clients[j].reader == Waiting && p'.clients[j].reader.Got?));
      hide *;
      Parts(p);
      RpcExclusion.StepKeeps(p.server, Depart(p.clients[i].link.fd));
      forall j: nat | j < |p.clients| ensures Steady(p, p', j) {
        ReadSteady(p, i, j);
      }
      AllSteady(p, p');
      FramesMove(p, p');
      Parts(p');
    }
  }

  lemma ReaderChanges(calls: seq<Call>, c: Client, conn: Conn, i: nat, r: Reader)
    requires ClientOk(calls, c, conn, i) && ReaderOk(calls, c.(reader := r), i)
    ensures ClientOk(calls, c.(reader := r), conn, i)
  {
    var c' := c.(reader := r);
    forall j | 0 <= j < |c.pending| ensures RequestOk(calls, c', i, c.pending[j]) {
      assert RequestOk(calls, c, i, c.pending[j]);
    }
    forall j | 0 <= j < |conn.coming| ensures RequestOk(calls, c', i, conn.coming[j]) {
      assert RequestOk(calls, c, i, conn.coming[j]);
    }
    forall j | 0 <= j < |conn.back| ensures ResultOk(calls, c', i, conn.back[j]) {
      assert ResultOk(calls, c, i, conn.back[j]);
    }
  }

  /** When only client i changes, but neither its connection nor its line of ids. */
  lemma OneClient(p: Path, p': Path, i: nat)
    requires ClientsOk(p) && LinksOk(p) && i < |p.clients| && p'.calls == p.calls && p'.server == p.server
    requires |p'.clients| == |p.clients| && p'.clients == p.clients[i := p'.clients[i]]
    requires p'.clients[i].link == p.clients[i].link
    requires ClientOk(p'.calls, p'.clients[i], ConnWith(p.server, p.clients[i]), i)
    requires Track(p'.clients[i], ConnWith(p.server, p.clients[i]))
       == Track(p.clients[i], ConnWith(p.server, p.clients[i]))
    ensures ClientsOk(p') && LinksOk(p') && Tracks(p') == Tracks(p)
  {
    LinksSame(p, p');
    SameConn(p.server, p.clients[i], p'.clients[i]);
    hide ConnWith, ClientOk, Track, LinksOk;
    forall j: nat | j < |p.clients|
      ensures ClientOk(p'.calls, p'.clients[j], ConnWith(p'.server, p'.clients[j]), j)
      ensures Track(p'.clients[j], ConnWith(p'.server, p'.clients[j]))
           == Track(p.clients[j], ConnWith(p.server, p.clients[j]))
    {
      assert ClientOk(p.calls, p.clients[j], ConnWith(p.server, p.clients[j]), j);
    }
  }

  lemma AccountStays(p: Path, p': Path)
    requires Account(p) && p'.calls == p.calls && p'.alloc == p.alloc && p'.lost == p.lost && Tracks(p') == Tracks(p)
    ensures Account(p')
  {
    AccountMoves(p, p', Tracks(p), Tracks(p'));
  }

  /** The result that the reader holds is for the callback in its slot. */
  lemma ExecuteMeans(p: Path, i: nat)
    requires Inv(p) && i < |p.clients| && p.clients[i].reader.Got?
    ensures var p', c := ExecuteOn(p, i), p.clients[i];
      var result := c.reader.result;
      && ResultOk(p.calls, c, i, result)
      && !p'.wild && p' == p.(clients := p'.clients, runs := p'.runs)
      && |p'.clients| == |p.clients| && p'.clients == p.clients[i := p'.clients[i]]
      && p'.clients[i] == c.(reader := Ran(result.seqno, c.table[result.seqno].call))
      && p'.runs == p.runs + [Execution(i, c.table[result.seqno].call, result.output)]
  {
    ClientMeans(p, i);
    Parts(p);
    hide Inv, ConnWith;
  }

  lemma ExecuteClients(p: Path, i: nat)
    requires Inv(p) && i < |p.clients| && p.clients[i].reader.Got?
    ensures var p' := ExecuteOn(p, i); ClientsOk(p') && LinksOk(p') && Tracks(p') == Tracks(p)
  {
    var p', c, conn := ExecuteOn(p, i), p.clients[i], ConnWith(p.server, p.clients[i]);
    ExecuteMeans(p, i);
    ClientMeans(p, i);
    Parts(p);
    hide Inv, ConnWith, ExecuteOn, LinksOk, ClientsOk;
    ReaderChanges(p.calls, c, conn, i, p'.clients[i].reader);
    OneClient(p, p', i);
  }

  lemma ExecuteRuns(p: Path, i: nat)
    requires Inv(p) && i < |p.clients| && p.clients[i].reader.Got?
    ensures CallsOk(ExecuteOn(p, i)) && RunsOk(ExecuteOn(p, i))
  {
    var p', result := ExecuteOn(p, i), p.clients[i].reader.result;
    var k := p.clients[i].table[result.seqno].call;
    ExecuteMeans(p, i);
    Parts(p);
    hide Inv, ExecuteOn, RunCount;
    forall m: nat | m < |p.calls| ensures CallOk(p', m) {
      assert CallOk(p, m);
    }
    forall m: nat ensures RunCount(p'.runs, m) == if HasRun(p', m) then 1 else 0 {
      RunAdded(p.runs, Execution(i, k, result.output), m);
      assert RunCount(p.runs, m) == if HasRun(p, m) then 1 else 0;
    }
  }

  lemma ExecuteKeeps(p: Path, i: nat)
    requires Inv(p)
    ensures Inv(Step1(p, Execute(i)))
  {
    if i < |p.clients| && p.clients[i].reader.Got? {
      var p' := ExecuteOn(p, i);
      hide *;
      ExecuteMeans(p, i);
      Parts(p);
      ExecuteClients(p, i);
      ExecuteRuns(p, i);
      AccountStays(p, p');
      Parts(p');
    }
  }

  lemma OnceAtHead(id: int, t: seq<int>)
    requires multiset([id] + t)[id] == 1
    ensures id !in t
  {
    assert multiset([id] + t) == multiset{id} + multiset(t);
    assert id !in multiset(t);
  }

  /** Without the id that the reader holds, the client's line is still in order and the id is not on it. */
  lemma WithoutHeld(p: Path, i: nat)
    requires Inv(p) && i < |p.clients| && (p.clients[i].reader.Ran? || p.clients[i].reader.Cleared?)
    ensures var c, conn := p.clients[i], ConnWith(p.server, p.clients[i]);
      var c0 := c.(reader := Waiting);
      && ClientOk(p.calls, c0, conn, i)
      && Track(c, conn) == [c.reader.seqno] + Track(c0, conn)
      && c.reader.seqno !in Track(c0, conn)
      && forall j: nat :: j < |p.calls| ==> Registering(p.calls[j], c.reader.seqno) == 0
  {
    var c, conn := p.clients[i], ConnWith(p.server, p.clients[i]);
    var id := c.reader.seqno;
    ClientMeans(p, i);
    Parts(p);
    hide ConnWith, Inv, ClientOk, Account, RpcExclusion.Inv, Connected;
    ReaderChanges(p.calls, c, conn, i, Waiting);
    HeldFirst(c, conn);
    hide Track;
    assert id in [id] + Track(c.(reader := Waiting), conn);
    TrackIsAlone(p, i, id);
    OnceAtHead(id, Track(c.(reader := Waiting), conn));
  }

  lemma HeldFirst(c: Client, conn: Conn)
    requires c.reader.Ran? || c.reader.Cleared?
    ensures Track(c, conn) == [c.reader.seqno] + Track(c.(reader := Waiting), conn)
  {
  }

  lemma ClearMeans(p: Path, i: nat)
    requires Inv(p) && i < |p.clients| && p.clients[i].reader.Ran?
    ensures var p', c := ClearOn(p, i), p.clients[i];
      var id, k := c.reader.seqno, c.reader.call;
      && Owned(p.calls, c, i, id) && c.table[id].call == k
      && !p'.wild && p' == p.(clients := p'.clients)
      && |p'.clients| == |p.clients| && p'.clients == p.clients[i := p'.clients[i]]
      && p'.clients[i] == c.(table := c.table[id := Null], reader := Cleared(id, k))
  {
    ClientMeans(p, i);
    Parts(p);
    hide Inv, ConnWith;
  }

  lemma ClearClients(p: Path, i: nat)
    requires Inv(p) && i < |p.clients| && p.clients[i].reader.Ran?
    ensures var p' := ClearOn(p, i); ClientsOk(p') && LinksOk(p') && Tracks(p') == Tracks(p)
  {
    var p', c, conn := ClearOn(p, i), p.clients[i], ConnWith(p.server, p.clients[i]);
    var id, k := c.reader.seqno, c.reader.call;
    ClearMeans(p, i);
    WithoutHeld(p, i);
    Parts(p);
    hide Inv, ConnWith, ClearOn, LinksOk, ClientsOk;
    var c0 := c.(reader := Waiting);
    var c1 := c0.(table := c0.table[id := Null]);
    ClientCarries(p.calls, c0, p.calls, c1, conn, i);
    ReaderChanges(p.calls, c1, conn, i, Cleared(id, k));
    assert p'.clients[i] == c1.(reader := Cleared(id, k));
    assert Track(p'.clients[i], conn) == Track(c, conn);
    OneClient(p, p', i);
  }

  lemma ClearRuns(p: Path, i: nat)
    requires Inv(p) && i < |p.clients| && p.clients[i].reader.Ran?
    ensures CallsOk(ClearOn(p, i)) && RunsOk(ClearOn(p, i))
  {
    var p', id := ClearOn(p, i), p.clients[i].reader.seqno;
    ClearMeans(p, i);
    WithoutHeld(p, i);
    Parts(p);
    hide Inv, ClearOn, RunCount, ConnWith, Track, ClientOk;
    forall m: nat | m < |p.calls| ensures CallOk(p', m) {
      assert CallOk(p, m) && Registering(p.calls[m], id) == 0;
    }
    forall m: nat ensures HasRun(p', m) == HasRun(p, m) {
    }
  }

  lemma ClearKeeps(p: Path, i: nat)
    requires Inv(p)
    ensures Inv(Step1(p, Clear(i)))
  {
    if i < |p.clients| && p.clients[i].reader.Ran? {
      var p' := ClearOn(p, i);
      hide *;
      ClearMeans(p, i);
      Parts(p);
      ClearClients(p, i);
      ClearRuns(p, i);
      AccountStays(p, p');
      Parts(p');
    }
  }

  lemma RecycleClient(p: Path, i: nat, j: nat)
    requires Inv(p) && i < |p.clients| && p.clients[i].reader.Cleared? && j < |p.clients|
    ensures var p', conn := RecycleOn(p, i), ConnWith(p.server, p.clients[j]);
      && ClientOk(p'.calls, p'.clients[j], conn, j)
      && Track(p.clients[j], conn) == (if j == i then [p.clients[i].reader.seqno] else []) + Track(p'.clients[j], conn)
  {
    var p', conn, c := RecycleOn(p, i), ConnWith(p.server, p.clients[j]), p.clients[j];
    ClientMeans(p, i);
    ClientMeans(p, j);
    WithoutHeld(p, i);
    hide Inv, ConnWith, Track, Guids.Release, Connected, RpcExclusion.Inv;
    var k := p.clients[i].reader.call;
    assert p'.calls == p.calls[k := p.calls[k].(progress := Returned)];
    if j == i {
      assert p'.clients[i] == c.(reader := Waiting);
      hide RecycleOn;
      ClientCarries(p.calls, c.(reader := Waiting), p'.calls, c.(reader := Waiting), conn, i);
    } else {
      assert p'.clients[j] == c;
      hide RecycleOn;
      ClientCarries(p.calls, c, p'.calls, c, conn, j);
      assert [] + Track(c, conn) == Track(c, conn);
    }
  }

  lemma RecycleMoves(heap: seq<int>, calls: seq<Call>, k: nat, tracks: seq<seq<int>>, i: nat, id: int, t: seq<int>,
                     x: int)
    requires k < |calls| && calls[k].progress == Pushed && i < |tracks| && tracks[i] == [id] + t
    ensures multiset(Guids.Push(heap, id))[x] + CallCount(calls[k := calls[k].(progress := Returned)], x)
            + TrackCount(tracks[i := t], x)
         == multiset(heap)[x] + CallCount(calls, x) + TrackCount(tracks, x)
  {
    CallUpdated(calls, k, calls[k].(progress := Returned), x);
    TrackUpdated(tracks, i, t, x);
    Guids.PushAdds(heap, id);
    assert multiset(tracks[i]) == multiset{id} + multiset(t);
  }

  lemma RecycleRuns(p: Path, i: nat)
    requires Inv(p) && i < |p.clients| && p.clients[i].reader.Cleared?
    ensures CallsOk(RecycleOn(p, i)) && RunsOk(RecycleOn(p, i))
  {
    var p' := RecycleOn(p, i);
    assert ClientOk(p.calls, p.clients[i], ConnWith(p.server, p.clients[i]), i);
    hide ConnAt, Account, RpcExclusion.Inv, ClientsOk, Guids.Release;
    forall m: nat | m < |p'.calls| ensures CallOk(p', m) {
      assert CallOk(p, m);
    }
    forall m: nat ensures HasRun(p', m) == HasRun(p, m) {
    }
  }

  lemma RecycleAccount(p: Path, p': Path, ts: seq<seq<int>>, ts': seq<seq<int>>, i: nat)
    requires Account(p) && i < |p.clients| && p.clients[i].reader.Cleared? && p.clients[i].reader.call < |p.calls|
    requires p.calls[p.clients[i].reader.call].progress == Pushed
    requires ts == Tracks(p) && ts' == Tracks(p') && |ts| == |ts'| && i < |ts|
    requires ts' == ts[i := ts'[i]] && ts[i] == [p.clients[i].reader.seqno] + ts'[i]
    requires p' == RecycleOn(p, i)
    ensures Account(p')
  {
    var k, id, t := p.clients[i].reader.call, p.clients[i].reader.seqno, ts'[i];
    assert p'.alloc == p.alloc.(heap := Guids.Push(p.alloc.heap, id));
    assert p'.calls == p.calls[k := p.calls[k].(progress := Returned)];
    hide Tracks, CallCount, TrackCount, RecycleOn, Guids.Push;
    forall x: int ensures Places(p', x) == if 1 <= x <= p'.alloc.bound then 1 else 0 {
      assert Places(p, x) == if 1 <= x <= p.alloc.bound then 1 else 0;
      RecycleMoves(p.alloc.heap, p.calls, k, ts, i, id, t, x);
    }
  }

  lemma RecycleClients(p: Path, i: nat)
    requires Inv(p) && i < |p.clients| && p.clients[i].reader.Cleared?
    ensures var p' := RecycleOn(p, i);
      && ClientsOk(p') && LinksOk(p')
      && |Tracks(p')| == |Tracks(p)| == |p.clients|
      && Tracks(p') == Tracks(p)[i := Tracks(p')[i]]
      && Tracks(p)[i] == [p.clients[i].reader.seqno] + Tracks(p')[i]
  {
    var p' := RecycleOn(p, i);
    LinksSame(p, p');
    hide ClientOk, Track, ConnWith, LinksOk, Guids.Release;
    forall j: nat | j < |p.clients| ensures ConnWith(p'.server, p'.clients[j]) == ConnWith(p.server, p.clients[j]) {
      SameConn(p.server, p.clients[j], p'.clients[j]);
    }
    forall j: nat | j < |p.clients|
      ensures ClientOk(p'.calls, p'.clients[j], ConnWith(p.server, p.clients[j]), j)
      ensures Track(p.clients[j], ConnWith(p.server, p.clients[j]))
           == (if j == i then [p.clients[i].reader.seqno] else [])
              + Track(p'.clients[j], ConnWith(p.server, p.clients[j]))
    {
      RecycleClient(p, i, j);
    }
  }

  lemma RecycleMeans(p: Path, i: nat)
    requires Inv(p) && i < |p.clients| && p.clients[i].reader.Cleared?
    ensures var p', k := RecycleOn(p, i), p.clients[i].reader.call;
      && k < |p.calls| && p.calls[k].progress == Pushed
      && p'.server == p.server && p'.alloc.bound == p.alloc.bound && p'.wild == p.wild
  {
    ClientMeans(p, i);
    hide Inv, ConnWith, Guids.Push;
  }

  lemma RecycleKeeps(p: Path, i: nat)
    requires Inv(p)
    ensures Inv(Step1(p, Recycle(i)))
  {
    if i < |p.clients| && p.clients[i].reader.Cleared? {
      var p' := RecycleOn(p, i);
      hide *;
      RecycleMeans(p, i);
      Parts(p);
      RecycleClients(p, i);
      RecycleRuns(p, i);
      RecycleAccount(p, p', Tracks(p), Tracks(p'), i);
      Parts(p');
    }
  }

  // ---- a client's connection begins and ends ----

  lemma AcceptConnects(s: Server, w: nat, fd: nat)
    requires RpcExclusion.Inv(s) && Accepting(s, w) && Free(s, fd)
    ensures fd > 0 && Connected(Next(s, Accept(w, fd)), fd)
    ensures ConnAt(Next(s, Accept(w, fd)), fd) == Conn([], QueueOf(s, fd))
  {
    assert |s.lines| > 0;
    EventIsAct(s, Accept(w, fd), fd);
    hide RpcExclusion.Inv, ConnOf;
  }

  lemma AcceptSpares(s: Server, w: nat, fd: nat, g: nat)
    requires RpcExclusion.Inv(s) && Accepting(s, w) && Free(s, fd) && Connected(s, g)
    ensures fd != g && Connected(Next(s, Accept(w, fd)), g)
    ensures ConnAt(Next(s, Accept(w, fd)), g) == ConnAt(s, g)
  {
    EventIsAct(s, Accept(w, fd), g);
    RpcExclusion.ConnectedStays(s, Accept(w, fd), g);
    hide RpcExclusion.Inv, ConnOf, Next;
  }

  /** The other clients' connections are as they were. */
  lemma AcceptOther(p: Path, i: nat, w: nat, fd: nat, j: nat)
    requires Inv(p) && MayAccept(p, i, w, fd) && j < |p.clients| && j != i
    ensures var p' := AcceptFor(p, i, w, fd);
      && p'.clients[j] == p.clients[j] && ConnWith(p'.server, p.clients[j]) == ConnWith(p.server, p.clients[j])
      && LinkOk(p', j) && p.clients[j].link != On(fd)
  {
    var d := p.clients[j];
    ClientMeans(p, j);
    hide Inv, RpcExclusion.Inv, ConnAt, Next, Connected, ClientOk, Free, Accepting;
    if d.link.On? {
      AcceptSpares(p.server, w, fd, d.link.fd);
    }
  }

  /** The client's own connection finds what was left in the number's queue. */
  lemma AcceptOwn(p: Path, i: nat, w: nat, fd: nat)
    requires Inv(p) && MayAccept(p, i, w, fd)
    ensures var p' := AcceptFor(p, i, w, fd);
      && ConnWith(p.server, p.clients[i]) == Conn([], [])
      && p'.clients[i] == p.clients[i].(link := On(fd))
      && ConnWith(p'.server, p'.clients[i]) == Conn([], QueueOf(p.server, fd))
      && LinkOk(p', i)
  {
    ClientMeans(p, i);
    hide Inv, RpcExclusion.Inv, ConnAt, Next, Connected, ClientOk, Free, Accepting;
    AcceptConnects(p.server, w, fd);
  }

  lemma AcceptSteady(p: Path, i: nat, w: nat, fd: nat, j: nat)
    requires Inv(p) && MayAccept(p, i, w, fd) && QueueOf(p.server, fd) == [] && j < |p.clients|
    ensures var p' := AcceptFor(p, i, w, fd);
      && ClientOk(p'.calls, p'.clients[j], ConnWith(p'.server, p'.clients[j]), j)
      && Track(p'.clients[j], ConnWith(p'.server, p'.clients[j]))
         == Track(p.clients[j], ConnWith(p.server, p.clients[j]))
      && LinkOk(p', j)
      && (j != i ==> p.clients[j].link != On(fd))
  {
    ClientMeans(p, j);
    hide Inv, ConnWith, ClientOk, Track, LinkOk, Next, QueueOf;
    if j == i {
      AcceptOwn(p, i, w, fd);
      SameTrack(p.clients[i], AcceptFor(p, i, w, fd).clients[i], Conn([], []));
      SameOk(p.calls, p.clients[i], AcceptFor(p, i, w, fd).clients[i], Conn([], []), i);
    } else {
      AcceptOther(p, i, w, fd, j);
    }
  }

  lemma SameOk(calls: seq<Call>, c: Client, c': Client, conn: Conn, i: nat)
    requires ClientOk(calls, c, conn, i) && c' == c.(link := c'.link)
    ensures ClientOk(calls, c', conn, i)
  {
    forall j | 0 <= j < |c.pending| ensures RequestOk(calls, c', i, c.pending[j]) {
      assert RequestOk(calls, c, i, c.pending[j]);
    }
    forall j | 0 <= j < |conn.coming| ensures RequestOk(calls, c', i, conn.coming[j]) {
      assert RequestOk(calls, c, i, conn.coming[j]);
    }
    forall j | 0 <= j < |conn.back| ensures ResultOk(calls, c', i, conn.back[j]) {
      assert ResultOk(calls, c, i, conn.back[j]);
    }
  }

  /** When the lines of ids of all but client i stay as they are. */
  lemma TracksUpdated(p: Path, p': Path, i: nat)
    requires i < |p.clients| == |p'.clients|
    requires forall j: nat :: j < |p.clients| && j != i ==>
      Track(p'.clients[j], ConnWith(p'.server, p'.clients[j])) == Track(p.clients[j], ConnWith(p.server, p.clients[j]))
    ensures |Tracks(p)| == |Tracks(p')| == |p.clients|
    ensures Tracks(p') == Tracks(p)[i := Tracks(p')[i]]
    ensures Tracks(p)[i] == Track(p.clients[i], ConnWith(p.server, p.clients[i]))
    ensures Tracks(p')[i] == Track(p'.clients[i], ConnWith(p'.server, p'.clients[i]))
  {
    hide Track, ConnWith;
  }

  lemma AcceptLinks(p: Path, i: nat, w: nat, fd: nat)
    requires Inv(p) && MayAccept(p, i, w, fd) && QueueOf(p.server, fd) == []
    ensures var p' := AcceptFor(p, i, w, fd); LinksOk(p') && ClientsOk(p') && Tracks(p') == Tracks(p)
  {
    var p' := AcceptFor(p, i, w, fd);
    forall j: nat | j < |p.clients|
      ensures ClientOk(p'.calls, p'.clients[j], ConnWith(p'.server, p'.clients[j]), j)
      ensures Track(p'.clients[j], ConnWith(p'.server, p'.clients[j]))
         == Track(p.clients[j], ConnWith(p.server, p.clients[j]))
      ensures LinkOk(p', j) && (j != i ==> p.clients[j].link != On(fd))
    {
      AcceptSteady(p, i, w, fd, j);
    }
    Parts(p);
    hide Inv, ConnWith, Track, ClientOk, LinkOk, Next;
    forall j: nat, k: nat | j < |p.clients| && k < |p.clients| ensures Apart(p', j, k) {
      assert Apart(p, j, k);
    }
  }

  /** The server accepts a client's connection on a number whose result queue is empty. */
  lemma AcceptKeeps(p: Path, i: nat, w: nat, fd: nat)
    requires Inv(p) && MayAccept(p, i, w, fd) && QueueOf(p.server, fd) == []
    ensures Inv(AcceptFor(p, i, w, fd))
  {
    var p' := AcceptFor(p, i, w, fd);
    assert p' == p.(server := Next(p.server, Accept(w, fd)), clients := p'.clients) && |p'.clients| == |p.clients|;
    assert forall j: nat :: j < |p.clients| ==>
      p'.clients[j].table == p.clients[j].table && p'.clients[j].reader == p.clients[j].reader;
    hide *;
    Parts(p);
    RpcExclusion.StepKeeps(p.server, Accept(w, fd));
    AcceptLinks(p, i, w, fd);
    FramesMove(p, p');
    Parts(p');
  }

  lemma LeftOnTrack(c: Client, c': Client, left: seq<Result>)
    requires c' == c.(link := c'.link)
    ensures multiset(Track(c', Conn([], left))) == multiset(Track(c, Conn([], []))) + multiset(ResultIds(left))
  {
    var a, b, l := ReaderIds(c.reader), RequestIds(c.pending), ResultIds(left);
    assert Track(c', Conn([], left)) == a + l + b;
    assert Track(c, Conn([], [])) == a + b;
  }

  lemma AcceptTracks(p: Path, i: nat, w: nat, fd: nat)
    requires Inv(p) && MayAccept(p, i, w, fd)
    ensures var p', ts := AcceptFor(p, i, w, fd), Tracks(p);
      && i < |ts| == |Tracks(p')| && Tracks(p') == ts[i := Tracks(p')[i]]
      && multiset(Tracks(p')[i]) == multiset(ts[i]) + multiset(ResultIds(QueueOf(p.server, fd)))
  {
    var p' := AcceptFor(p, i, w, fd);
    AcceptOwn(p, i, w, fd);
    forall j: nat | j < |p.clients| && j != i
      ensures Track(p'.clients[j], ConnWith(p'.server, p'.clients[j]))
         == Track(p.clients[j], ConnWith(p.server, p.clients[j]))
    {
      AcceptOther(p, i, w, fd, j);
    }
    hide Inv, ConnWith, Track, Next, QueueOf, LinkOk, ResultIds, Tracks;
    TracksUpdated(p, p', i);
    LeftOnTrack(p.clients[i], p'.clients[i], QueueOf(p.server, fd));
  }

  /** An id that is once more on a line is in one more place. */
  lemma OneMorePlace(p: Path, p': Path, ts: seq<seq<int>>, ts': seq<seq<int>>, i: nat, id: int)
    requires Account(p) && p'.alloc == p.alloc && p'.calls == p.calls && p'.lost == p.lost
    requires ts == Tracks(p) && ts' == Tracks(p') && i < |ts| == |ts'| && ts' == ts[i := ts'[i]]
    requires multiset(ts'[i])[id] > multiset(ts[i])[id]
    ensures !Account(p')
  {
    hide Tracks, CallCount, TrackCount;
    TrackUpdated(ts, i, ts'[i], id);
    assert Places(p, id) == if 1 <= id <= p.alloc.bound then 1 else 0;
    assert Places(p', id) > Places(p, id);
  }

  /** On any other number, an id of the results left in the queue is then in one place too many. */
  lemma AcceptBreaks(p: Path, i: nat, w: nat, fd: nat)
    requires Inv(p) && MayAccept(p, i, w, fd) && QueueOf(p.server, fd) != []
    ensures !Account(AcceptFor(p, i, w, fd))
  {
    var p', left := AcceptFor(p, i, w, fd), QueueOf(p.server, fd);
    var id := left[0].seqno;
    assert p'.alloc == p.alloc && p'.calls == p.calls && p'.lost == p.lost;
    assert ResultIds(left)[0] == id && id in multiset(ResultIds(left));
    hide *;
    AcceptTracks(p, i, w, fd);
    Parts(p);
    OneMorePlace(p, p', Tracks(p), Tracks(p'), i, id);
  }

  /** So the accounts stay in order with an accept exactly when the number's result queue is empty. */
  lemma AcceptAccountIff(p: Path, i: nat, w: nat, fd: nat)
    requires Inv(p) && MayAccept(p, i, w, fd)
    ensures Account(AcceptFor(p, i, w, fd)) <==> QueueOf(p.server, fd) == []
    ensures QueueOf(p.server, fd) == [] ==> Inv(AcceptFor(p, i, w, fd))
  {
    hide *;
    if QueueOf(p.server, fd) == [] {
      AcceptKeeps(p, i, w, fd);
      Parts(AcceptFor(p, i, w, fd));
    } else {
      AcceptBreaks(p, i, w, fd);
    }
  }

  lemma LeaveSpares(s: Server, fd: nat, g: nat)
    requires RpcExclusion.Inv(s) && Connected(s, g) && fd != g
    ensures Connected(Next(s, HangUp(fd)), g) && ConnAt(Next(s, HangUp(fd)), g) == ConnAt(s, g)
  {
    EventIsAct(s, HangUp(fd), g);
    RpcExclusion.ConnectedStays(s, HangUp(fd), g);
    hide RpcExclusion.Inv, ConnOf, Next;
  }

  lemma LeaveOther(p: Path, i: nat, j: nat)
    requires Inv(p) && MayLeave(p, i) && j < |p.clients| && j != i
    ensures var p' := LeaveOn(p, i);
      && p'.clients[j] == p.clients[j] && ConnWith(p'.server, p.clients[j]) == ConnWith(p.server, p.clients[j])
      && LinkOk(p', j) && ClientOk(p.calls, p.clients[j], ConnWith(p.server, p.clients[j]), j)
  {
    var c, d := p.clients[i], p.clients[j];
    ClientMeans(p, i);
    ClientMeans(p, j);
    hide Inv, RpcExclusion.Inv, ConnAt, Next, Connected, ClientOk, Track;
    if c.link.On? && d.link.On? {
      LeaveSpares(p.server, c.link.fd, d.link.fd);
    }
  }

  lemma LeaveOwn(p: Path, i: nat)
    requires Inv(p) && MayLeave(p, i)
    ensures var p' := LeaveOn(p, i);
      && ClientOk(p'.calls, p'.clients[i], ConnWith(p'.server, p'.clients[i]), i)
      && Track(p'.clients[i], ConnWith(p'.server, p'.clients[i])) == []
      && LinkOk(p', i)
  {
    ClientMeans(p, i);
    hide Inv, RpcExclusion.Inv, ConnAt, Next, Connected;
  }

  lemma LinksFewer(p: Path, p': Path)
    requires LinksOk(p) && |p'.clients| == |p.clients|
    requires forall j: nat :: j < |p.clients| ==>
      LinkOk(p', j) && (p'.clients[j].link.On? ==> p'.clients[j].link == p.clients[j].link)
    ensures LinksOk(p')
  {
    hide LinkOk;
    forall j: nat, k: nat | j < |p.clients| && k < |p.clients| ensures Apart(p', j, k) {
      assert Apart(p, j, k);
    }
  }

  /** What a hang-up changes: the client's own end, and nothing of the others'. */
  ghost predicate LeftAlone(p: Path, p': Path, i: nat, j: nat)
    requires i < |p.clients| == |p'.clients| && j < |p.clients|
  {
    && ClientOk(p'.calls, p'.clients[j], ConnWith(p'.server, p'.clients[j]), j)
    && Track(p'.clients[j], ConnWith(p'.server, p'.clients[j]))
       == (if j == i then [] else Track(p.clients[j], ConnWith(p.server, p.clients[j])))
    && LinkOk(p', j) && (p'.clients[j].link.On? ==> p'.clients[j].link == p.clients[j].link)
  }

  lemma LeaveOne(p: Path, i: nat, j: nat)
    requires Inv(p) && MayLeave(p, i) && j < |p.clients|
    ensures LeftAlone(p, LeaveOn(p, i), i, j)
  {
    if j == i {
      LeaveOwn(p, i);
    } else {
      LeaveOther(p, i, j);
    }
    hide Inv, ConnWith, Track, ClientOk, LinkOk, Next;
  }

  lemma LeaveClients(p: Path, i: nat)
    requires Inv(p) && MayLeave(p, i)
    ensures var p' := LeaveOn(p, i);
      && LinksOk(p') && ClientsOk(p')
      && i < |Tracks(p)| && Tracks(p') == Tracks(p)[i := []] && p'.lost == p.lost + Tracks(p)[i]
  {
    var p' := LeaveOn(p, i);
    assert p'.lost == p.lost + Track(p.clients[i], ConnWith(p.server, p.clients[i])) && |p'.clients| == |p.clients|;
    Parts(p);
    hide Inv, ConnWith, Track, ClientOk, LinkOk, LinksOk, Tracks, LeaveOn;
    forall j: nat | j < |p.clients|
      ensures LinkOk(p', j) && (p'.clients[j].link.On? ==> p'.clients[j].link == p.clients[j].link)
      ensures ClientOk(p'.calls, p'.clients[j], ConnWith(p'.server, p'.clients[j]), j)
      ensures Track(p'.clients[j], ConnWith(p'.server, p'.clients[j]))
           == (if j == i then [] else Track(p.clients[j], ConnWith(p.server, p.clients[j])))
    {
      LeaveOne(p, i, j);
    }
    LinksFewer(p, p');
    TracksUpdated(p, p', i);
  }

  lemma LostPlace(p: Path, p': Path, ts: seq<seq<int>>, i: nat, x: int)
    requires p'.alloc == p.alloc && p'.calls == p.calls && i < |ts| && ts == Tracks(p)
    requires Tracks(p') == ts[i := []] && p'.lost == p.lost + ts[i]
    ensures Places(p', x) == Places(p, x)
  {
    hide Tracks, CallCount, TrackCount;
    assert multiset(p'.lost) == multiset(p.lost) + multiset(ts[i]);
    TrackUpdated(ts, i, [], x);
  }

  lemma LeaveAccount(p: Path, i: nat)
    requires Inv(p) && MayLeave(p, i)
    ensures Account(LeaveOn(p, i))
  {
    var p' := LeaveOn(p, i);
    assert p'.alloc == p.alloc && p'.calls == p.calls;
    hide LeaveOn, Tracks, LinksOk, ClientsOk, Places, Inv;
    Parts(p);
    LeaveClients(p, i);
    forall x: int ensures Places(p', x) == if 1 <= x <= p'.alloc.bound then 1 else 0 {
      LostPlace(p, p', Tracks(p), i, x);
    }
  }

  lemma LeaveRuns(p: Path, i: nat)
    requires Inv(p) && MayLeave(p, i)
    ensures CallsOk(LeaveOn(p, i)) && RunsOk(LeaveOn(p, i))
  {
    var p' := LeaveOn(p, i);
    Parts(p);
    hide Inv, ConnWith, Track, Next;
    forall m: nat | m < |p.calls| ensures CallOk(p', m) {
      assert CallOk(p, m);
    }
    forall m: nat ensures HasRun(p', m) == HasRun(p, m) {
    }
  }

  lemma LeaveKeeps(p: Path, i: nat)
    requires Inv(p) && MayLeave(p, i)
    ensures Inv(LeaveOn(p, i))
  {
    var p', c := LeaveOn(p, i), p.clients[i];
    assert p'.alloc == p.alloc && p'.wild == p.wild;
    assert p'.server == if c.link.On? then Next(p.server, HangUp(c.link.fd)) else p.server;
    hide *;
    Parts(p);
    if c.link.On? {
      RpcExclusion.StepKeeps(p.server, HangUp(c.link.fd));
    }
    LeaveClients(p, i);
    LeaveAccount(p, i);
    LeaveRuns(p, i);
    Parts(p');
  }

  // ---- runs ----

  /** A step that accepts a client's connection does so on a number whose result queue is empty. */
  predicate CleanStep(p: Path, st: Step)
  {
    st.Accepts? && MayAccept(p, st.client, st.worker, st.fd) ==> QueueOf(p.server, st.fd) == []
  }

  lemma StepKeeps(p: Path, st: Step)
    requires Inv(p) && CleanStep(p, st) && Step1(p, st).alloc.bound < MAX_REQUESTS
    ensures Inv(Step1(p, st))
  {
    hide Inv, AcceptFor, LeaveOn;
    match st {
      case Serve(ev) => ServeKeeps(p, ev);
      case Accepts(i, w, fd) =>
        if MayAccept(p, i, w, fd) {
          AcceptKeeps(p, i, w, fd);
        }
      case Leave(i) =>
        if MayLeave(p, i) {
          LeaveKeeps(p, i);
        }
      case CallAsync(i, param) => CallKeeps(p, i, param);
      case Register(k) => RegisterKeeps(p, k);
      case Push(k) => PushKeeps(p, k);
      case WriteReady(i) => WriteKeeps(p, i);
      case ReadReady(i) => ReadKeeps(p, i);
      case Execute(i) => ExecuteKeeps(p, i);
      case Clear(i) => ClearKeeps(p, i);
      case Recycle(i) => RecycleKeeps(p, i);
    }
  }

  /** With fewer than 1024 ids in use afterwards, the bound stays below 1024. */
  lemma BoundStays(p: Path, st: Step)
    requires Inv(p) && InUse(Step1(p, st)) < MAX_REQUESTS
    ensures Step1(p, st).alloc.bound < MAX_REQUESTS
  {
    hide RpcExclusion.Inv, ClientsOk, CallsOk, RunsOk, Account, Guids.Rest, Guids.Push;
  }

  /** Never more than 1023 ids in use during a run. */
  ghost predicate FewInUse(workers: nat, clients: nat, steps: seq<Step>)
  {
    forall n :: 0 <= n <= |steps| ==> InUse(RunPath(InitPath(workers, clients), steps[..n])) < 1024
  }

  lemma FewBefore(workers: nat, clients: nat, steps: seq<Step>, n: nat)
    requires FewInUse(workers, clients, steps) && n <= |steps|
    ensures FewInUse(workers, clients, steps[..n])
  {
    forall m | 0 <= m <= n ensures InUse(RunPath(InitPath(workers, clients), steps[..n][..m])) < MAX_REQUESTS {
      assert steps[..n][..m] == steps[..m];
    }
  }

  /** Clients are only given numbers whose result queues are empty. */
  ghost predicate CleanRun(workers: nat, clients: nat, steps: seq<Step>)
  {
    forall n :: 0 <= n < |steps| ==> CleanStep(RunPath(InitPath(workers, clients), steps[..n]), steps[n])
  }

  lemma CleanBefore(workers: nat, clients: nat, steps: seq<Step>, n: nat)
    requires CleanRun(workers, clients, steps) && n <= |steps|
    ensures CleanRun(workers, clients, steps[..n])
  {
    hide CleanStep, RunPath;
    forall m | 0 <= m < n ensures CleanStep(RunPath(InitPath(workers, clients), steps[..n][..m]), steps[..n][m]) {
      assert steps[..n][..m] == steps[..m];
    }
  }

  lemma LastStep(p: Path, steps: seq<Step>)
    requires steps != []
    ensures RunPath(p, steps) == Step1(RunPath(p, steps[..|steps| - 1]), steps[|steps| - 1])
    ensures RunPath(p, []) == p && steps[..|steps|] == steps
  {
  }

  lemma LastIsFew(workers: nat, clients: nat, steps: seq<Step>)
    requires FewInUse(workers, clients, steps)
    ensures InUse(RunPath(InitPath(workers, clients), steps)) < MAX_REQUESTS
  {
    hide RunPath;
    assert steps[..|steps|] == steps;
  }

  lemma LastIsClean(workers: nat, clients: nat, steps: seq<Step>)
    requires CleanRun(workers, clients, steps) && steps != []
    ensures var n := |steps| - 1; CleanStep(RunPath(InitPath(workers, clients), steps[..n]), steps[n])
  {
    hide RunPath, CleanStep;
  }

  lemma {:induction false} PathKept(workers: nat, clients: nat, steps: seq<Step>)
    requires FewInUse(workers, clients, steps) && CleanRun(workers, clients, steps)
    ensures Inv(RunPath(InitPath(workers, clients), steps))
  {
    hide *;
    if steps == [] {
      InitInv(workers, clients);
      LastStep(InitPath(workers, clients), [CallAsync(0, "")]);
    } else {
      var n := |steps| - 1;
      FewBefore(workers, clients, steps, n);
      CleanBefore(workers, clients, steps, n);
      PathKept(workers, clients, steps[..n]);
      LastStep(InitPath(workers, clients), steps);
      LastIsFew(workers, clients, steps);
      LastIsClean(workers, clients, steps);
      var p := RunPath(InitPath(workers, clients), steps[..n]);
      BoundStays(p, steps[n]);
      StepKeeps(p, steps[n]);
    }
  }

  /** While fewer than 1024 ids are in use and clients are given numbers with empty result queues: every id up to the
      bound is in exactly one place, no id is anywhere else, and no table is used out of range or with a callback
      missing. */
  lemma OnePlace(workers: nat, clients: nat, steps: seq<Step>)
    requires FewInUse(workers, clients, steps) && CleanRun(workers, clients, steps)
    ensures var p := RunPath(InitPath(workers, clients), steps);
      && !p.wild && p.alloc.bound < 1024
      && forall id: int :: Places(p, id) == if 1 <= id <= p.alloc.bound then 1 else 0
  {
    PathKept(workers, clients, steps);
    hide RunPath, Places;
    Parts(RunPath(InitPath(workers, clients), steps));
  }

  ghost predicate AccountedAt(workers: nat, clients: nat, steps: seq<Step>, n: nat)
    requires n <= |steps|
  {
    Account(RunPath(InitPath(workers, clients), steps[..n]))
  }

  lemma {:induction false} AccountedIsClean(workers: nat, clients: nat, steps: seq<Step>, n: nat)
    requires FewInUse(workers, clients, steps) && n <= |steps|
    requires forall m: nat :: m <= |steps| ==> AccountedAt(workers, clients, steps, m)
    ensures CleanRun(workers, clients, steps[..n])
  {
    hide *;
    if n > 0 {
      AccountedIsClean(workers, clients, steps, n - 1);
      FewBefore(workers, clients, steps, n - 1);
      PathKept(workers, clients, steps[..n - 1]);
      assert AccountedAt(workers, clients, steps, n);
      CleanIfAccounted(workers, clients, steps, n - 1);
      CleanMore(workers, clients, steps, n);
    } else {
      assert steps[..n] == [];
      CleanNothing(workers, clients);
    }
  }

  lemma CleanNothing(workers: nat, clients: nat)
    ensures CleanRun(workers, clients, [])
  {
  }

  lemma CleanMore(workers: nat, clients: nat, steps: seq<Step>, n: nat)
    requires 0 < n <= |steps| && CleanRun(workers, clients, steps[..n - 1])
    requires CleanStep(RunPath(InitPath(workers, clients), steps[..n - 1]), steps[n - 1])
    ensures CleanRun(workers, clients, steps[..n])
  {
    hide RunPath, CleanStep, InitPath;
    var part, before := steps[..n], steps[..n - 1];
    forall m | 0 <= m < n ensures CleanStep(RunPath(InitPath(workers, clients), part[..m]), part[m]) {
      assert part[..m] == steps[..m] && part[m] == steps[m];
      if m < n - 1 {
        assert before[..m] == steps[..m] && before[m] == steps[m];
      }
    }
  }

  lemma CleanIfAccounted(workers: nat, clients: nat, steps: seq<Step>, n: nat)
    requires n < |steps| && Inv(RunPath(InitPath(workers, clients), steps[..n]))
    requires AccountedAt(workers, clients, steps, n + 1)
    ensures CleanStep(RunPath(InitPath(workers, clients), steps[..n]), steps[n])
  {
    var p, st := RunPath(InitPath(workers, clients), steps[..n]), steps[n];
    LastStep(InitPath(workers, clients), steps[..n + 1]);
    assert steps[..n + 1][..n] == steps[..n];
    hide Inv, RunPath, AcceptFor, Account;
    if st.Accepts? && MayAccept(p, st.client, st.worker, st.fd) {
      AcceptAccountIff(p, st.client, st.worker, st.fd);
    }
  }

  /** Over a run with fewer than 1024 ids in use, the ids are accounted for at every moment exactly when no client was
      given a number with results left in its queue. */
  lemma AccountedIff(workers: nat, clients: nat, steps: seq<Step>)
    requires FewInUse(workers, clients, steps)
    ensures (forall n: nat :: n <= |steps| ==> AccountedAt(workers, clients, steps, n))
       <==> CleanRun(workers, clients, steps)
  {
    if CleanRun(workers, clients, steps) {
      forall n: nat | n <= |steps| ensures AccountedAt(workers, clients, steps, n) {
        FewBefore(workers, clients, steps, n);
        CleanBefore(workers, clients, steps, n);
        PathKept(workers, clients, steps[..n]);
        hide RunPath, Account, CleanRun, FewInUse;
        Parts(RunPath(InitPath(workers, clients), steps[..n]));
      }
    }
    if forall n: nat :: n <= |steps| ==> AccountedAt(workers, clients, steps, n) {
      AccountedIsClean(workers, clients, steps, |steps|);
      assert steps[..|steps|] == steps;
    }
  }

  /** The callback of every request and result on its way, and of every registered call, is in its slot. */
  lemma SlotsAreFilled(workers: nat, clients: nat, steps: seq<Step>, i: nat, id: int)
    requires FewInUse(workers, clients, steps) && CleanRun(workers, clients, steps) && i < clients
    ensures var p := RunPath(InitPath(workers, clients), steps);
      && i < |p.clients|
      && var c, conn := p.clients[i], ConnWith(p.server, p.clients[i]);
      && (id in Track(c, conn) && !c.reader.Cleared? ==>
            && Fits(c, id) && c.table[id].Callback? && c.table[id].call < |p.calls|
            && p.calls[c.table[id].call].client == i && p.calls[c.table[id].call].id == id)
      && (forall k: nat :: k < |p.calls| && p.calls[k].client == i && p.calls[k].progress == Registered ==>
            Fits(c, p.calls[k].id) && c.table[p.calls[k].id] == Callback(k))
  {
    PathKept(workers, clients, steps);
    SameClients(InitPath(workers, clients), steps);
    var p := RunPath(InitPath(workers, clients), steps);
    hide RunPath;
    ClientMeans(p, i);
    Parts(p);
    hide Inv, ConnWith, ClientOk, Track, Fits;
    var c, conn := p.clients[i], ConnWith(p.server, p.clients[i]);
    if id in Track(c, conn) && !c.reader.Cleared? {
      TrackOwned(p.calls, c, conn, i, id);
    }
    forall k: nat | k < |p.calls| && p.calls[k].client == i && p.calls[k].progress == Registered
      ensures Fits(c, p.calls[k].id) && c.table[p.calls[k].id] == Callback(k)
    {
      assert CallOk(p, k);
    }
  }

  lemma TrackOwned(calls: seq<Call>, c: Client, conn: Conn, i: nat, id: int)
    requires ClientOk(calls, c, conn, i) && !c.reader.Cleared? && id in Track(c, conn)
    ensures Owned(calls, c, i, id)
  {
    if id in ReaderIds(c.reader) {
    } else if id in ResultIds(conn.back) {
      var j :| 0 <= j < |conn.back| && ResultIds(conn.back)[j] == id;
      assert ResultOk(calls, c, i, conn.back[j]);
    } else if id in RequestIds(conn.coming) {
      var j :| 0 <= j < |conn.coming| && RequestIds(conn.coming)[j] == id;
      assert RequestOk(calls, c, i, conn.coming[j]);
    } else {
      assert id in RequestIds(c.pending);
      var j :| 0 <= j < |c.pending| && RequestIds(c.pending)[j] == id;
      assert RequestOk(calls, c, i, c.pending[j]);
    }
  }

  lemma StepSameClients(p: Path, st: Step)
    ensures |Step1(p, st).clients| == |p.clients|
  {
  }

  lemma {:induction false} SameClients(p: Path, steps: seq<Step>)
    ensures |RunPath(p, steps).clients| == |p.clients|
  {
    if steps != [] {
      SameClients(p, steps[..|steps| - 1]);
      StepSameClients(RunPath(p, steps[..|steps| - 1]), steps[|steps| - 1]);
      hide Step1;
    }
  }

  lemma RunsMean(p: Path, k: nat)
    requires Inv(p)
    ensures RunCount(p.runs, k) <= 1
    ensures RunCount(p.runs, k) == 1 ==>
      k < |p.calls| && (p.calls[k].progress == Pushed || p.calls[k].progress == Returned)
    ensures k < |p.calls| && p.calls[k].progress == Returned ==> RunCount(p.runs, k) == 1
    ensures forall j :: 0 <= j < |p.runs| && p.runs[j].call == k ==>
      k < |p.calls| && p.runs[j].output == Output(p.calls[k].param)
  {
    assert RunCount(p.runs, k) == if HasRun(p, k) then 1 else 0;
    assert k < |p.calls| ==> CallOk(p, k);
  }

  /** A callback runs at most once, only after its request was queued, on what the service made of its own call's
      parameter; and once its id is given back it has run exactly once. */
  lemma CallbackRunsOnce(workers: nat, clients: nat, steps: seq<Step>, k: nat)
    requires FewInUse(workers, clients, steps) && CleanRun(workers, clients, steps)
    ensures var p := RunPath(InitPath(workers, clients), steps);
      && RunCount(p.runs, k) <= 1
      && (RunCount(p.runs, k) == 1 ==>
            k < |p.calls| && (p.calls[k].progress == Pushed || p.calls[k].progress == Returned))
      && (k < |p.calls| && p.calls[k].progress == Returned ==> RunCount(p.runs, k) == 1)
      && (forall j :: 0 <= j < |p.runs| && p.runs[j].call == k ==>
            k < |p.calls| && p.runs[j].output == Output(p.calls[k].param))
  {
    hide *;
    PathKept(workers, clients, steps);
    RunsMean(RunPath(InitPath(workers, clients), steps), k);
  }

  // ---- the limit of 1024 ----

  /** The next id drawn has a slot exactly when, before it is drawn, fewer than 1023 ids are in use. */
  lemma DrawnFitsIff(p: Path)
    requires Inv(p)
    ensures 0 <= Guids.Obtain(p.alloc).1 < MAX_REQUESTS <==> InUse(p) < 1023
  {
    if p.alloc.heap != [] {
      var id := p.alloc.heap[0];
      assert id in multiset(p.alloc.heap);
      assert Places(p, id) == if 1 <= id <= p.alloc.bound then 1 else 0;
    }
  }

  lemma OneMoreCall(p: Path, n: nat)
    requires p.alloc == Guids.Alloc([], n) && n < Guids.MAX_GUID && |p.clients| > 0 && p.clients[0].link != Gone
    ensures Step1(p, CallAsync(0, ""))
       == p.(alloc := Guids.Alloc([], n + 1), calls := p.calls + [Call(0, n + 1, "", Drawn)])
  {
  }

  lemma {:induction false} ManyCalls(workers: nat, clients: nat, n: nat) returns (steps: seq<Step>)
    requires clients > 0 && n <= Guids.MAX_GUID
    ensures var p := RunPath(InitPath(workers, clients), steps);
      && p.alloc == Guids.Alloc([], n) && |p.calls| == n && p.clients == InitPath(workers, clients).clients
      && (n > 0 ==> p.calls[n - 1] == Call(0, n, "", Drawn)) && !p.wild
  {
    if n == 0 {
      steps := [];
    } else {
      var before := ManyCalls(workers, clients, n - 1);
      steps := before + [CallAsync(0, "")];
      assert steps[..|before|] == before;
      LastStep(InitPath(workers, clients), steps);
      OneMoreCall(RunPath(InitPath(workers, clients), before), n - 1);
      hide RunPath, Step1;
    }
  }

  /** With all 1024 ids in use, one of them is 1024, and registering its callback is out of the table's range. */
  lemma TableOverflows(workers: nat, clients: nat) returns (steps: seq<Step>)
    requires clients > 0
    ensures var p := RunPath(InitPath(workers, clients), steps);
      !p.wild && InUse(p) == 1024 && Step1(p, Register(1023)).wild
  {
    steps := ManyCalls(workers, clients, MAX_REQUESTS);
  }
}
