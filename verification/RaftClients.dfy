/** Client requests in an epoch: none is lost, none is duplicated, and those of
    one node keep their order on the way into the leader's log. */
module RaftClients {
  import opened RaftProtocol
  import opened RaftSpec
  import opened RaftCluster
  import opened RaftEpoch

  /** An entry that reaches the leader's log; origin None is the leader's own opening entry. */
  datatype Landing = Landing(origin: Option<nat>, entry: Entry)

  function Entries(landings: seq<Landing>): seq<Entry>
  {
    if landings == [] then []
    else Entries(landings[..|landings| - 1]) + [landings[|landings| - 1].entry]
  }

  /** The landed entries that were submitted at node i, in log order. */
  function From(landings: seq<Landing>, i: nat): seq<Entry>
  {
    if landings == [] then []
    else
      var last := landings[|landings| - 1];
      From(landings[..|landings| - 1], i) + (if last.origin == Some(i) then [last.entry] else [])
  }

  /** The forwarded requests in a channel. */
  function Forwarded(ch: seq<Message>): seq<Entry>
  {
    if ch == [] then []
    else (if ch[0].ClientRequest? then [ch[0].entry] else []) + Forwarded(ch[1..])
  }

  lemma {:induction false} ForwardedConcat(a: seq<Message>, b: seq<Message>)
    ensures Forwarded(a + b) == Forwarded(a) + Forwarded(b)
  {
    if a == [] {
      assert a + b == b;
    } else {
      var rest := a[1..] + b;
      assert (a + b)[1..] == rest && (a + b)[0] == a[0];
      ForwardedConcat(a[1..], b);
    }
  }

  lemma {:induction false} NothingForwarded(ch: seq<Message>)
    requires forall p :: 0 <= p < |ch| ==> !ch[p].ClientRequest?
    ensures Forwarded(ch) == []
  {
    if ch != [] {
      NothingForwarded(ch[1..]);
    }
  }

  /** The requests of node i on their way to the log: forwarded ones first, then those still queued. */
  function Waiting(c: Cluster, e: Epoch, i: nat): seq<Entry>
    requires ClusterOk(c) && e.leader < |c.nodes| && i < |c.nodes|
  {
    Forwarded(c.net[(i, e.leader)]) + c.nodes[i].queue
  }

  /** What an event appends to the leader's log, and for whom. */
  function Lands(c: Cluster, e: Epoch, ev: Event): seq<Landing>
    requires ClusterOk(c) && e.leader < |c.nodes|
  {
    var l := c.nodes[e.leader];
    match ev
    case Deliver(src, dst, pos) =>
      if dst == e.leader && l.role == Leader && InFlight(c, src, dst, pos) && c.net[(src, dst)][pos].ClientRequest? then
        [Landing(Some(src), c.net[(src, dst)][pos].entry)]
      else []
    case ServeClient(v) =>
      if v == e.leader && l.role == Leader && l.queue != [] then [Landing(Some(v), l.queue[0])] else []
    case Enter(v) =>
      if v == e.leader && l.role == Elected then [Landing(None, Entry(l.term, "{}", -1))] else []
    case _ => []
  }

  function Submits(c: Cluster, ev: Event, i: nat): seq<Entry>
    requires i < |c.nodes|
  {
    match ev
    case SubmitRequest(v, value, id) => if v == i then [Entry(c.nodes[i].term, value, id)] else []
    case _ => []
  }

  /** All that landed, and all that was submitted at node i, over a run. */
  function Landed(c: Cluster, e: Epoch, evs: seq<Event>): seq<Landing>
    requires ClusterOk(c) && e.leader < |c.nodes|
  {
    if evs == [] then []
    else
      var before := evs[..|evs| - 1];
      Landed(c, e, before) + Lands(Exec(c, before), e, evs[|evs| - 1])
  }

  function Submitted(c: Cluster, evs: seq<Event>, i: nat): seq<Entry>
    requires ClusterOk(c) && i < |c.nodes|
  {
    if evs == [] then []
    else
      var before := evs[..|evs| - 1];
      Submitted(c, before, i) + Submits(Exec(c, before), evs[|evs| - 1], i)
  }

  // ---- one event ----

  /** The balance of one event for node i, and the growth of the leader's log. */
  ghost predicate Balanced(c: Cluster, c': Cluster, e: Epoch, ev: Event, i: nat)
    requires ClusterOk(c) && ClusterOk(c') && |c'.nodes| == |c.nodes| && e.leader < |c.nodes| && i < |c.nodes|
  {
    && c'.nodes[e.leader].log == c.nodes[e.leader].log + Entries(Lands(c, e, ev))
    && Waiting(c, e, i) + Submits(c, ev, i) == From(Lands(c, e, ev), i) + Waiting(c', e, i)
  }

  lemma OneLanding(x: Landing)
    ensures Entries([x]) == [x.entry]
    ensures forall i: nat :: From([x], i) == if x.origin == Some(i) then [x.entry] else []
  {
    assert [x][..0] == [];
  }

  lemma ForwardedOne(m: Message)
    ensures Forwarded([m]) == if m.ClientRequest? then [m.entry] else []
  {
    assert [m][1..] == [];
  }

  /** What a follower forwards when it reads a message is what leaves its queue. */
  lemma FollowerForwards(e: Epoch, s: Node, src: nat, m: Message)
    requires FollowerOk(e, s) && s.me != e.leader && MessageOk(e, src, s.me, m)
    ensures var eff := FollowerOn(s, m);
      Forwarded(Routed(eff.sent, e.leader)) + eff.node.queue == s.queue
  {
    FollowerSends(e, s, src, m);
    var eff := FollowerOn(s, m);
    hide FollowerOn, FollowerOk, MessageOk, Routed, Forwarded;
    if eff.sent == [] {
      NothingRouted(e.leader);
      NothingForwarded([]);
    } else {
      assert eff.sent == [eff.sent[0]];
      RoutedOne(eff.sent[0], e.leader);
      ForwardedOne(eff.sent[0].msg);
      NothingForwarded([]);
    }
  }

  /** A follower sends at most one message, and forwards a request only to the leader. */
  lemma FollowerSends(e: Epoch, s: Node, src: nat, m: Message)
    requires FollowerOk(e, s) && s.me != e.leader && MessageOk(e, src, s.me, m)
    ensures var eff := FollowerOn(s, m);
      && |eff.sent| <= 1
      && (eff.sent != [] && eff.sent[0].msg.ClientRequest? ==>
            eff.sent[0].receiver == Some(e.leader) && s.queue == [eff.sent[0].msg.entry] + eff.node.queue)
      && (eff.sent == [] || !eff.sent[0].msg.ClientRequest? ==> eff.node.queue == s.queue)
  {
  }

  /** What a follower's reading does to the nodes and to the channels towards the leader. */
  lemma FollowerNext(c: Cluster, e: Epoch, src: nat, v: nat, i: nat)
    requires Common(c, e) && InFlight(c, src, v, 0) && v != e.leader && i < |c.nodes|
    ensures e.leader < |c.nodes| && v < |c.nodes| && (i, e.leader) in c.net
    ensures var eff := FollowerOn(c.nodes[v], c.net[(src, v)][0]);
      var c' := Next(c, Deliver(src, v, 0));
      && c'.nodes[i] == (if i == v then eff.node else c.nodes[i])
      && c'.nodes[e.leader] == c.nodes[e.leader]
      && (i, e.leader) in c'.net
      && c'.net[(i, e.leader)] == c.net[(i, e.leader)] + (if i == v then Routed(eff.sent, e.leader) else [])
  {
    hide *;
    CommonRange(c, e, src, v, i);
    FollowerStepCommon(c, e, src, v);
    var base, eff := Take(c, src, v, 0), FollowerOn(c.nodes[v], c.net[(src, v)][0]);
    assert (i, e.leader) != (src, v);
    assert base.net[(i, e.leader)] == c.net[(i, e.leader)];
    ApplyAt(base, v, eff, i, e.leader);
    ApplyNode(base, v, eff, e.leader);
    assert c.net[(i, e.leader)] + [] == c.net[(i, e.leader)];
  }

  lemma CommonRange(c: Cluster, e: Epoch, src: nat, v: nat, i: nat)
    requires Common(c, e) && InFlight(c, src, v, 0) && i < |c.nodes|
    ensures e.leader < |c.nodes| && v < |c.nodes| && (i, e.leader) in c.net && Take(c, src, v, 0).nodes == c.nodes
    ensures ClusterOk(c) && (src, v) in c.net && c.net[(src, v)] != []
  {
    hide MessagesOk, FollowerOk;
  }

  /** Requests that leave a queue for the tail of a channel, or its head for the log, keep their order. */
  lemma QueueToChannel(ch: seq<Message>, r: seq<Message>, queue: seq<Entry>, queue': seq<Entry>)
    requires Forwarded(r) + queue' == queue
    ensures Forwarded(ch + r) + queue' == Forwarded(ch) + queue
  {
    ForwardedConcat(ch, r);
    assert Forwarded(ch) + (Forwarded(r) + queue') == (Forwarded(ch) + Forwarded(r)) + queue';
  }

  lemma FollowerWaiting(c: Cluster, e: Epoch, src: nat, v: nat, i: nat)
    requires Common(c, e) && InFlight(c, src, v, 0) && v != e.leader && i < |c.nodes|
    ensures Waiting(Next(c, Deliver(src, v, 0)), e, i) == Waiting(c, e, i)
  {
    var s, m := c.nodes[v], c.net[(src, v)][0];
    MessageAt(c, e, src, v);
    assert FollowerOk(e, s) && s.me == v;
    FollowerNext(c, e, src, v, i);
    hide Next, MoveOf, FollowerOn, Routed, MessagesOk, FollowerOk, Forwarded, Common;
    var ch := c.net[(i, e.leader)];
    if i == v {
      FollowerForwards(e, s, src, m);
      QueueToChannel(ch, Routed(FollowerOn(s, m).sent, e.leader), s.queue, FollowerOn(s, m).node.queue);
    } else {
      assert ch + [] == ch;
    }
  }

  lemma FollowerBalance(c: Cluster, e: Epoch, src: nat, v: nat, i: nat)
    requires Common(c, e) && InFlight(c, src, v, 0) && v != e.leader && i < |c.nodes|
    ensures var ev := Deliver(src, v, 0); Balanced(c, Next(c, ev), e, ev, i)
  {
    CommonRange(c, e, src, v, i);
    hide *;
    FollowerWaiting(c, e, src, v, i);
    FollowerNext(c, e, src, v, i);
    NothingLands(c, Next(c, Deliver(src, v, 0)), e, Deliver(src, v, 0), i);
  }

  lemma NothingLands(c: Cluster, c': Cluster, e: Epoch, ev: Event, i: nat)
    requires ClusterOk(c) && ClusterOk(c') && |c'.nodes| == |c.nodes| && e.leader < |c.nodes| && i < |c.nodes|
    requires ev.Deliver? && ev.dst != e.leader
    requires c'.nodes[e.leader] == c.nodes[e.leader] && Waiting(c', e, i) == Waiting(c, e, i)
    ensures Balanced(c, c', e, ev, i)
  {
    hide ClusterOk, Waiting;
    var log := c.nodes[e.leader].log;
    assert log + [] == log;
    assert Waiting(c, e, i) + [] == Waiting(c, e, i);
  }

  /** What the leader does to its log and queue when it reads m. */
  lemma LeaderAppends(e: Epoch, s: Node, src: nat, m: Message)
    requires NodeOk(s) && s.role == Leader && s.me == e.leader && s.term == e.term
    requires m.sender < s.n && MessageOk(e, src, s.me, m)
    ensures var eff := On(s, m);
      && eff.node.log == s.log + (if m.ClientRequest? then [m.entry] else [])
      && eff.node.queue == s.queue
  {
    if m.Acknowledge? {
      AckKept(e, s, m.sender, m.success);
      if s.nextIndex[m.sender].Some? {
        var a := AdvanceOnAck(s, m.sender, m.success).node;
        assert Minimum(a.matchIndex) <= a.matchIndex[a.me];
      }
    }
  }

  /** A node of an epoch that leads sends no client request. */
  lemma NoneFromLeader(c: Cluster, e: Epoch)
    requires Common(c, e)
    ensures Forwarded(c.net[(e.leader, e.leader)]) == []
  {
    var ch := c.net[(e.leader, e.leader)];
    forall p | 0 <= p < |ch| ensures !ch[p].ClientRequest? {
      assert MessageOk(e, e.leader, e.leader, ch[p]);
    }
    NothingForwarded(ch);
  }

  /** What the leader's reading does to the nodes and to the channels towards it. */
  lemma LeaderNext(c: Cluster, e: Epoch, src: nat, i: nat)
    requires Active(c, e) && InFlight(c, src, e.leader, 0) && i < |c.nodes|
    ensures var eff := On(c.nodes[e.leader], c.net[(src, e.leader)][0]);
      var c' := Next(c, Deliver(src, e.leader, 0));
      && c'.nodes[i] == (if i == e.leader then eff.node else c.nodes[i])
      && c'.nodes[e.leader] == eff.node
      && (i != e.leader ==>
            c'.net[(i, e.leader)] == if i == src then c.net[(i, e.leader)][1..] else c.net[(i, e.leader)])
  {
    ActiveRange(c, e, src, i);
    hide *;
    NextReads(c, src, e.leader, 0);
    TakeCommon(c, e, src, e.leader);
    var base, eff := Take(c, src, e.leader, 0), On(c.nodes[e.leader], c.net[(src, e.leader)][0]);
    ApplyAt(base, e.leader, eff, i, e.leader);
    ApplyNode(base, e.leader, eff, e.leader);
  }

  lemma ActiveRange(c: Cluster, e: Epoch, src: nat, i: nat)
    requires Active(c, e) && InFlight(c, src, e.leader, 0) && i < |c.nodes|
    ensures Common(c, e) && ClusterOk(c) && Reads(c.nodes[e.leader].role) && (i, e.leader) in c.net
    ensures Take(c, src, e.leader, 0).nodes == c.nodes
  {
    hide LinkInv, MessagesOk, FollowerOk;
  }

  lemma LeaderLands(c: Cluster, e: Epoch, src: nat, i: nat)
    requires ClusterOk(c) && e.leader < |c.nodes| && InFlight(c, src, e.leader, 0)
    requires c.nodes[e.leader].role == Leader
    ensures var m := c.net[(src, e.leader)][0];
      var landings := Lands(c, e, Deliver(src, e.leader, 0));
      && Entries(landings) == (if m.ClientRequest? then [m.entry] else [])
      && From(landings, i) == if m.ClientRequest? && i == src then [m.entry] else []
  {
    var m := c.net[(src, e.leader)][0];
    if m.ClientRequest? {
      OneLanding(Landing(Some(src), m.entry));
    }
  }

  lemma LeaderBalance(c: Cluster, e: Epoch, src: nat, i: nat)
    requires Active(c, e) && InFlight(c, src, e.leader, 0) && i < |c.nodes|
    requires Active(Next(c, Deliver(src, e.leader, 0)), e)
    ensures var ev := Deliver(src, e.leader, 0); Balanced(c, Next(c, ev), e, ev, i)
  {
    ActiveRange(c, e, src, i);
    LeaderHead(c, e, src);
    hide *;
    var s, m := c.nodes[e.leader], c.net[(src, e.leader)][0];
    LeaderAppends(e, s, src, m);
    LeaderLands(c, e, src, i);
    LeaderWaiting(c, e, src, i);
    LeaderNext(c, e, src, e.leader);
    AppendBalance(c, Next(c, Deliver(src, e.leader, 0)), e, Deliver(src, e.leader, 0), i);
  }

  /** What a read by the leader must do to be balanced. */
  lemma AppendBalance(c: Cluster, c': Cluster, e: Epoch, ev: Event, i: nat)
    requires ClusterOk(c) && ClusterOk(c') && |c'.nodes| == |c.nodes| && e.leader < |c.nodes| && i < |c.nodes|
    requires ev.Deliver? && c'.nodes[e.leader].log == c.nodes[e.leader].log + Entries(Lands(c, e, ev))
    requires Waiting(c, e, i) == From(Lands(c, e, ev), i) + Waiting(c', e, i)
    ensures Balanced(c, c', e, ev, i)
  {
    hide ClusterOk, Waiting, Lands, Entries, From;
    assert Waiting(c, e, i) + [] == Waiting(c, e, i);
  }

  lemma LeaderWaiting(c: Cluster, e: Epoch, src: nat, i: nat)
    requires Active(c, e) && InFlight(c, src, e.leader, 0) && i < |c.nodes|
    requires Active(Next(c, Deliver(src, e.leader, 0)), e)
    ensures var m := c.net[(src, e.leader)][0];
      Waiting(c, e, i)
      == (if m.ClientRequest? && i == src then [m.entry] else []) + Waiting(Next(c, Deliver(src, e.leader, 0)), e, i)
  {
    hide LinkInv, On, Next, MoveOf;
    if i == e.leader {
      LeaderOwnWaiting(c, e, src);
    } else {
      LeaderNext(c, e, src, i);
      if i == src {
        ChannelHead(c.net[(i, e.leader)], c.nodes[i].queue);
      }
    }
  }

  lemma LeaderOwnWaiting(c: Cluster, e: Epoch, src: nat)
    requires Active(c, e) && InFlight(c, src, e.leader, 0)
    requires Active(Next(c, Deliver(src, e.leader, 0)), e)
    ensures Waiting(c, e, e.leader) == Waiting(Next(c, Deliver(src, e.leader, 0)), e, e.leader)
    ensures c.net[(src, e.leader)][0].ClientRequest? ==> src != e.leader
  {
    var s, m := c.nodes[e.leader], c.net[(src, e.leader)][0];
    hide LinkInv, On, Next, MoveOf;
    MessageAt(c, e, src, e.leader);
    LeaderAppends(e, s, src, m);
    NoneFromLeader(c, e);
    NoneFromLeader(Next(c, Deliver(src, e.leader, 0)), e);
    LeaderNext(c, e, src, e.leader);
  }

  lemma ChannelHead(ch: seq<Message>, queue: seq<Entry>)
    requires ch != []
    ensures Forwarded(ch) + queue
         == (if ch[0].ClientRequest? then [ch[0].entry] else []) + (Forwarded(ch[1..]) + queue)
  {
  }

  /** What a local event does to the nodes and to the channels towards the leader. */
  lemma LocalNext(c: Cluster, e: Epoch, ev: Event, i: nat)
    requires EpochInv(c, e) && Allowed(c, e, ev) && i < |c.nodes| && !ev.Deliver?
    requires MoveOf(c, ev).Act?
    ensures var eff := LocalStep(c.nodes[ev.node], ev).value;
      && ev.node < |c.nodes| && LocalStep(c.nodes[ev.node], ev).Some?
      && Next(c, ev).nodes[i] == (if i == ev.node then eff.node else c.nodes[i])
      && (i != ev.node ==> Next(c, ev).net[(i, e.leader)] == c.net[(i, e.leader)])
      && (i == ev.node ==> Next(c, ev).net[(i, e.leader)] == c.net[(i, e.leader)] + Routed(eff.sent, e.leader))
  {
    hide LinkInv, StartLink, Routed, EnterLeader, EnterCandidate, PopClient;
    NextActs(c, ev);
  }

  lemma SubmitBalance(c: Cluster, e: Epoch, ev: Event, i: nat)
    requires EpochInv(c, e) && Allowed(c, e, ev) && i < |c.nodes| && ev.SubmitRequest?
    ensures Balanced(c, Next(c, ev), e, ev, i)
  {
    EpochCommon(c, e);
    EpochBasics(c, e);
    assert MoveOf(c, ev).Act?;
    LocalNext(c, e, ev, i);
    LocalNext(c, e, ev, e.leader);
    hide EpochInv, Common, Next, MoveOf, Allowed, Forwarded, ClusterOk, Balanced;
    NothingRouted(e.leader);
    assert c.net[(i, e.leader)] + [] == c.net[(i, e.leader)];
    SubmitWaits(c, Next(c, ev), e, ev, i);
  }

  lemma NothingRouted(dst: nat)
    ensures Routed([], dst) == []
  {
  }

  lemma SubmitWaits(c: Cluster, c': Cluster, e: Epoch, ev: Event, i: nat)
    requires ClusterOk(c) && ClusterOk(c') && |c'.nodes| == |c.nodes| && e.leader < |c.nodes| && i < |c.nodes|
    requires ev.SubmitRequest? && c'.nodes[e.leader].log == c.nodes[e.leader].log
    requires (i, e.leader) in c.net && (i, e.leader) in c'.net && c'.net[(i, e.leader)] == c.net[(i, e.leader)]
    requires c'.nodes[i].queue
          == c.nodes[i].queue + (if i == ev.node then [Entry(c.nodes[i].term, ev.value, ev.id)] else [])
    ensures Balanced(c, c', e, ev, i)
  {
    hide ClusterOk, Forwarded;
    var log := c.nodes[e.leader].log;
    assert log + [] == log;
  }

  /** The elected node enters, sends a heartbeat or serves its own queue. */
  lemma LeaderLocalStart(c: Cluster, e: Epoch, ev: Event)
    requires EpochInv(c, e) && Allowed(c, e, ev)
    requires (ev.Enter? || ev.HeartbeatTick? || ev.ServeClient?) && MoveOf(c, ev).Act?
    ensures ev.node == e.leader && LocalStep(c.nodes[e.leader], ev).Some?
    ensures forall i :: 0 <= i < |c.nodes| ==> (i, e.leader) in c.net
  {
    hide LinkInv, StartLink;
  }

  lemma LeaderLocalWaiting(c: Cluster, e: Epoch, ev: Event, i: nat)
    requires EpochInv(c, e) && Allowed(c, e, ev) && i < |c.nodes|
    requires (ev.Enter? || ev.HeartbeatTick? || ev.ServeClient?) && MoveOf(c, ev).Act?
    requires EpochInv(Next(c, ev), e)
    ensures Waiting(c, e, i) == From(Lands(c, e, ev), i) + Waiting(Next(c, ev), e, i)
    ensures Next(c, ev).nodes[e.leader].log == c.nodes[e.leader].log + Entries(Lands(c, e, ev))
  {
    hide *;
    EpochBasics(c, e);
    EpochCommon(c, e);
    EpochCommon(Next(c, ev), e);
    LeaderLocalStart(c, e, ev);
    LocalNext(c, e, ev, e.leader);
    LeaderLocalLog(c, e, ev);
    GrowsMeans(c.nodes[e.leader], Next(c, ev).nodes[e.leader], Lands(c, e, ev), e.leader);
    if i == e.leader {
      NoneFromLeader(c, e);
      NoneFromLeader(Next(c, ev), e);
      OwnWaiting(c, e);
      OwnWaiting(Next(c, ev), e);
    } else {
      LocalNext(c, e, ev, i);
      SameWaiting(c, Next(c, ev), e, i);
      assert [] + Waiting(c, e, i) == Waiting(c, e, i);
    }
  }

  lemma GrowsMeans(s: Node, s': Node, landings: seq<Landing>, v: nat)
    requires LogGrows(s, s', landings, v)
    ensures s'.log == s.log + Entries(landings) && s.queue == From(landings, v) + s'.queue
    ensures forall i: nat :: i != v ==> From(landings, i) == []
  {
  }

  lemma OwnWaiting(c: Cluster, e: Epoch)
    requires ClusterOk(c) && e.leader < |c.nodes| && Forwarded(c.net[(e.leader, e.leader)]) == []
    ensures Waiting(c, e, e.leader) == c.nodes[e.leader].queue
  {
    hide Forwarded;
  }

  lemma SameWaiting(c: Cluster, c': Cluster, e: Epoch, i: nat)
    requires ClusterOk(c) && ClusterOk(c') && |c'.nodes| == |c.nodes| && e.leader < |c.nodes| && i < |c.nodes|
    requires c'.nodes[i] == c.nodes[i] && c'.net[(i, e.leader)] == c.net[(i, e.leader)]
    ensures Waiting(c', e, i) == Waiting(c, e, i)
  {
    hide Forwarded;
  }

  lemma EpochCommon(c: Cluster, e: Epoch)
    requires EpochInv(c, e)
    ensures Common(c, e) && e.leader < |c.nodes|
    ensures forall i :: 0 <= i < |c.nodes| ==> (i, e.leader) in c.net
  {
    hide LinkInv, StartLink;
  }

  lemma LeaderLocalBalance(c: Cluster, e: Epoch, ev: Event, i: nat)
    requires EpochInv(c, e) && Allowed(c, e, ev) && i < |c.nodes|
    requires (ev.Enter? || ev.HeartbeatTick? || ev.ServeClient?) && MoveOf(c, ev).Act?
    requires EpochInv(Next(c, ev), e)
    ensures Balanced(c, Next(c, ev), e, ev, i)
  {
    EpochBasics(c, e);
    hide EpochInv, Next, MoveOf, Lands, From, Entries, Allowed, Waiting, ClusterOk;
    LeaderLocalWaiting(c, e, ev, i);
    assert Waiting(c, e, i) + [] == Waiting(c, e, i);
  }

  /** What lands is appended, and what the leader takes from its queue lands. */
  ghost predicate LogGrows(s: Node, s': Node, landings: seq<Landing>, v: nat)
  {
    && s'.log == s.log + Entries(landings)
    && s.queue == From(landings, v) + s'.queue
    && forall i: nat :: i != v ==> From(landings, i) == []
  }

  lemma GrowsByOne(s: Node, s': Node, x: Landing, v: nat)
    requires s'.log == s.log + [x.entry] && x.origin in {None, Some(v)}
    requires s.queue == (if x.origin == None then [] else [x.entry]) + s'.queue
    ensures LogGrows(s, s', [x], v)
  {
    OneLanding(x);
  }

  lemma GrowsNot(s: Node, s': Node, v: nat)
    requires s'.log == s.log && s'.queue == s.queue
    ensures LogGrows(s, s', [], v)
  {
    assert s.log + [] == s.log;
  }

  lemma LeaderLocalLog(c: Cluster, e: Epoch, ev: Event)
    requires EpochInv(c, e) && Allowed(c, e, ev)
    requires (ev.Enter? || ev.HeartbeatTick? || ev.ServeClient?) && ev.node == e.leader
    requires LocalStep(c.nodes[e.leader], ev).Some?
    ensures LogGrows(c.nodes[e.leader], LocalStep(c.nodes[e.leader], ev).value.node, Lands(c, e, ev), e.leader)
  {
    LeaderNotStanding(c, e);
    var s := c.nodes[e.leader];
    hide EpochInv, UpToDate, Multicast, EnterCandidate, ClusterOk, Allowed, LogGrows, NodeOk;
    if ev.Enter? {
      var x := Landing(None, Entry(s.term, "{}", -1));
      assert Lands(c, e, ev) == [x];
      GrowsByOne(s, EnterLeader(s).node, x, e.leader);
    } else if ev.ServeClient? && s.queue != [] {
      var x := Landing(Some(e.leader), s.queue[0]);
      assert Lands(c, e, ev) == [x];
      GrowsByOne(s, PopClient(s).node, x, e.leader);
    } else {
      assert Lands(c, e, ev) == [];
      GrowsNot(s, s, e.leader);
    }
  }

  lemma LeaderNotStanding(c: Cluster, e: Epoch)
    requires EpochInv(c, e)
    ensures ClusterOk(c) && e.leader < |c.nodes| && NodeOk(c.nodes[e.leader]) && c.nodes[e.leader].role != Standing
  {
    hide LinkInv, StartLink;
  }

  /** An event that changes nothing lands nothing and submits nothing. */
  lemma IdleBalance(c: Cluster, e: Epoch, ev: Event, i: nat)
    requires EpochInv(c, e) && Allowed(c, e, ev) && i < |c.nodes| && (MoveOf(c, ev).Idle? || ev.ResendTick?)
    ensures Balanced(c, Next(c, ev), e, ev, i)
  {
    hide LinkInv, StartLink, MessagesOk, FollowerOk, Next, EnterLeader, EnterCandidate, PopClient, On;
    if ev.ResendTick? {
      ResendNothing(c, ev.node, ev.dst);
    } else {
      IdleStep(c, e, ev);
    }
    assert Lands(c, e, ev) == [] && Submits(c, ev, i) == [];
  }

  lemma BalanceStep(c: Cluster, e: Epoch, ev: Event, i: nat)
    requires EpochInv(c, e) && Allowed(c, e, ev) && i < |c.nodes|
    ensures Balanced(c, Next(c, ev), e, ev, i)
  {
    EpochStep(c, e, ev);
    hide LinkInv, StartLink, Next, MoveOf, Balanced;
    if ev.Deliver? && InFlight(c, ev.src, ev.dst, 0) && ev.dst != e.leader {
      FollowerBalance(c, e, ev.src, ev.dst, i);
    } else if ev.Deliver? && InFlight(c, ev.src, ev.dst, 0) && Active(c, e) {
      LeaderBalance(c, e, ev.src, i);
    } else if ev.SubmitRequest? {
      SubmitBalance(c, e, ev, i);
    } else if ev.ResendTick? {
      IdleBalance(c, e, ev, i);
    } else if MoveOf(c, ev).Act? && !ev.Deliver? {
      LeaderLocalBalance(c, e, ev, i);
    } else {
      RestIsIdle(c, e, ev);
      IdleBalance(c, e, ev, i);
    }
  }

  lemma RestIsIdle(c: Cluster, e: Epoch, ev: Event)
    requires EpochInv(c, e) && Allowed(c, e, ev)
    requires ev.Deliver? ==> !InFlight(c, ev.src, ev.dst, 0) || (ev.dst == e.leader && Start(c, e))
    requires !ev.Deliver? ==> !MoveOf(c, ev).Act?
    ensures MoveOf(c, ev).Idle?
  {
    hide LinkInv, StartLink, MessagesOk, FollowerOk, On, EnterLeader, EnterCandidate, PopClient;
  }

  // ---- every run ----

  lemma {:induction false} EntriesConcat(a: seq<Landing>, b: seq<Landing>)
    ensures Entries(a + b) == Entries(a) + Entries(b)
  {
    if b == [] {
      assert a + b == a;
    } else {
      assert (a + b)[..|a + b| - 1] == a + b[..|b| - 1];
      EntriesConcat(a, b[..|b| - 1]);
    }
  }

  lemma {:induction false} FromConcat(a: seq<Landing>, b: seq<Landing>, i: nat)
    ensures From(a + b, i) == From(a, i) + From(b, i)
  {
    if b == [] {
      assert a + b == a;
    } else {
      assert (a + b)[..|a + b| - 1] == a + b[..|b| - 1];
      FromConcat(a, b[..|b| - 1], i);
    }
  }

  lemma Chain(w: seq<Entry>, sub: seq<Entry>, lf: seq<Entry>, mid: seq<Entry>,
              sub': seq<Entry>, lf': seq<Entry>, end: seq<Entry>)
    requires w + sub == lf + mid && mid + sub' == lf' + end
    ensures w + (sub + sub') == (lf + lf') + end
  {
    assert w + (sub + sub') == (w + sub) + sub';
    assert lf + (mid + sub') == (lf + mid) + sub';
    assert lf + (lf' + end) == (lf + lf') + end;
  }

  lemma NothingYet(c: Cluster, e: Epoch, i: nat)
    requires ClusterOk(c) && e.leader < |c.nodes| && i < |c.nodes|
    ensures Exec(c, []) == c && Landed(c, e, []) == [] && Submitted(c, [], i) == []
    ensures Entries([]) == [] && From([], i) == []
  {
  }

  lemma LastEvent(c: Cluster, e: Epoch, evs: seq<Event>, i: nat)
    requires ClusterOk(c) && e.leader < |c.nodes| && i < |c.nodes| && evs != []
    ensures var k := |evs| - 1;
      var mid := Exec(c, evs[..k]);
      && Exec(c, evs) == Next(mid, evs[k])
      && Landed(c, e, evs) == Landed(c, e, evs[..k]) + Lands(mid, e, evs[k])
      && Submitted(c, evs, i) == Submitted(c, evs[..k], i) + Submits(mid, evs[k], i)
  {
  }

  lemma BalanceMeans(c: Cluster, c': Cluster, e: Epoch, ev: Event, i: nat)
    requires ClusterOk(c) && ClusterOk(c') && |c'.nodes| == |c.nodes| && e.leader < |c.nodes| && i < |c.nodes|
    requires Balanced(c, c', e, ev, i)
    ensures c'.nodes[e.leader].log == c.nodes[e.leader].log + Entries(Lands(c, e, ev))
    ensures Waiting(c, e, i) + Submits(c, ev, i) == From(Lands(c, e, ev), i) + Waiting(c', e, i)
  {
  }

  ghost predicate Conserved(c: Cluster, e: Epoch, evs: seq<Event>, i: nat)
    requires ClusterOk(c) && e.leader < |c.nodes| && i < |c.nodes|
  {
    var c' := Exec(c, evs);
    && c'.nodes[e.leader].log == c.nodes[e.leader].log + Entries(Landed(c, e, evs))
    && Waiting(c, e, i) + Submitted(c, evs, i) == From(Landed(c, e, evs), i) + Waiting(c', e, i)
  }

  lemma LogChain(a: seq<Entry>, b: seq<Entry>, c: seq<Entry>, x: seq<Landing>, y: seq<Landing>)
    requires b == a + Entries(x) && c == b + Entries(y)
    ensures c == a + Entries(x + y)
  {
    EntriesConcat(x, y);
    assert a + (Entries(x) + Entries(y)) == (a + Entries(x)) + Entries(y);
  }

  lemma ConservedMore(c: Cluster, e: Epoch, evs: seq<Event>, i: nat)
    requires ClusterOk(c) && e.leader < |c.nodes| && i < |c.nodes| && evs != []
    requires Conserved(c, e, evs[..|evs| - 1], i)
    requires Balanced(Exec(c, evs[..|evs| - 1]), Exec(c, evs), e, evs[|evs| - 1], i)
    ensures Conserved(c, e, evs, i)
  {
    hide ClusterOk, Exec, Landed, Submitted, Entries, From, Lands, Submits, Waiting;
    var k := |evs| - 1;
    var before, mid := evs[..k], Exec(c, evs[..k]);
    LastEvent(c, e, evs, i);
    BalanceMeans(mid, Exec(c, evs), e, evs[k], i);
    FromConcat(Landed(c, e, before), Lands(mid, e, evs[k]), i);
    LogChain(c.nodes[e.leader].log, mid.nodes[e.leader].log, Exec(c, evs).nodes[e.leader].log,
             Landed(c, e, before), Lands(mid, e, evs[k]));
    Chain(Waiting(c, e, i), Submitted(c, before, i), From(Landed(c, e, before), i), Waiting(mid, e, i),
          Submits(mid, evs[k], i), From(Lands(mid, e, evs[k]), i), Waiting(Exec(c, evs), e, i));
  }

  lemma NothingConserved(c: Cluster, e: Epoch, i: nat)
    requires ClusterOk(c) && e.leader < |c.nodes| && i < |c.nodes|
    ensures Conserved(c, e, [], i)
  {
    NothingYet(c, e, i);
    hide ClusterOk, Waiting;
    assert c.nodes[e.leader].log + [] == c.nodes[e.leader].log;
    assert Waiting(c, e, i) + [] == [] + Waiting(c, e, i);
  }

  lemma {:induction false} ConservedRun(c: Cluster, e: Epoch, evs: seq<Event>, i: nat)
    requires EpochInv(c, e) && EpochRun(c, e, evs) && i < |c.nodes|
    ensures ClusterOk(c) && e.leader < |c.nodes|
    ensures Conserved(c, e, evs, i)
  {
    hide *;
    EpochBasics(c, e);
    if evs == [] {
      NothingConserved(c, e, i);
    } else {
      var k := |evs| - 1;
      RunParts(c, e, evs, k);
      EpochKept(c, e, evs[..k]);
      ConservedRun(c, e, evs[..k], i);
      BalanceStep(Exec(c, evs[..k]), e, evs[k], i);
      LastEvent(c, e, evs, i);
      ConservedMore(c, e, evs, i);
    }
  }

  /** Conservation: over every epoch run, the leader's log grows by exactly the landed entries; and for each node,
      what waited at the start followed by what was submitted is what landed from it followed by what still waits,
      in the same order. */
  lemma RequestsAreConserved(c: Cluster, e: Epoch, evs: seq<Event>, i: nat)
    requires EpochInv(c, e) && EpochRun(c, e, evs) && i < |c.nodes|
    ensures ClusterOk(c) && e.leader < |c.nodes|
    ensures var c' := Exec(c, evs);
      && c'.nodes[e.leader].log == c.nodes[e.leader].log + Entries(Landed(c, e, evs))
      && Waiting(c, e, i) + Submitted(c, evs, i) == From(Landed(c, e, evs), i) + Waiting(c', e, i)
  {
    ConservedRun(c, e, evs, i);
    hide EpochInv, EpochRun, ClusterOk, Exec, Landed, Submitted, Waiting, From, Entries;
  }
}
