/** A turn of the leader loop is a run of the cluster model: what the imperative
    node does in one pass is what a list of events does. */
module RaftLoops {
  import opened RaftProtocol
  import opened RaftSpec
  import opened RaftCluster
  import opened RaftNodes

  datatype Incoming = Incoming(src: nat, pos: nat)

  function ResendEvents(v: nat, overdue: seq<bool>): seq<Event>
  {
    if overdue == [] then []
    else
      var i := |overdue| - 1;
      ResendEvents(v, overdue[..i]) + (if overdue[i] then [ResendTick(v, i)] else [])
  }

  function BeatEvents(v: nat, heartbeatDue: bool, overdue: seq<bool>): seq<Event>
  {
    (if heartbeatDue then [HeartbeatTick(v)] else []) + ResendEvents(v, overdue)
  }

  function TurnEvents(v: nat, heartbeatDue: bool, overdue: seq<bool>, incoming: Option<Incoming>): seq<Event>
  {
    BeatEvents(v, heartbeatDue, overdue)
    + (if incoming.Some? then [Deliver(incoming.value.src, v, incoming.value.pos)] else [])
    + [ServeClient(v)]
  }

  lemma SendTwice(ch: seq<Message>, a: seq<Envelope>, b: seq<Envelope>, dst: nat)
    ensures ch + Routed(a, dst) + Routed(b, dst) == ch + Routed(a + b, dst)
  {
    hide Routed;
    RoutedConcat(a, b, dst);
  }

  lemma SendThen(net: Net, v: nat, a: seq<Envelope>, b: seq<Envelope>)
    ensures Send(Send(net, v, a), v, b) == Send(net, v, a + b)
  {
    hide Routed;
    var one, two := Send(Send(net, v, a), v, b), Send(net, v, a + b);
    forall k | k in net ensures one[k] == two[k] {
      SendTwice(net[k], a, b, k.1);
    }
    assert one == two;
  }

  lemma ApplyThen(c: Cluster, v: nat, a: Effect, b: Effect)
    requires v < |c.nodes|
    ensures Apply(Apply(c, v, a), v, b) == Apply(c, v, Then(a, b))
  {
    hide Send;
    SendThen(c.net, v, a.sent, b.sent);
  }

  /** Sending does not disturb the messages already in a channel. */
  lemma TakeAfterApply(c: Cluster, v: nat, a: Effect, src: nat, pos: nat)
    requires v < |c.nodes| && InFlight(c, src, v, pos)
    ensures InFlight(Apply(c, v, a), src, v, pos)
    ensures Apply(c, v, a).net[(src, v)][pos] == c.net[(src, v)][pos]
    ensures Take(Apply(c, v, a), src, v, pos) == Apply(Take(c, src, v, pos), v, a)
  {
    hide Routed, Without, Send;
    var key := (src, v);
    TakeAfterSend(c.net, v, a.sent, key, pos);
  }

  /** Taking a message from a channel and adding to the channels of v commute. */
  lemma TakeAfterSend(net: Net, v: nat, sent: seq<Envelope>, key: (nat, nat), pos: nat)
    requires key in net && pos < |net[key]|
    ensures key in Send(net, v, sent) && pos < |Send(net, v, sent)[key]|
    ensures Send(net, v, sent)[key][pos] == net[key][pos]
    ensures Send(net, v, sent)[key := Without(Send(net, v, sent)[key], pos)]
         == Send(net[key := Without(net[key], pos)], v, sent)
  {
    hide Routed, Without;
    var one := Send(net, v, sent)[key := Without(Send(net, v, sent)[key], pos)];
    var two := Send(net[key := Without(net[key], pos)], v, sent);
    WithoutAppend(net[key], Routed(sent, key.1), pos);
    assert one.Keys == two.Keys;
    forall k | k in one ensures one[k] == two[k] {}
  }

  lemma WithoutAppend(ch: seq<Message>, r: seq<Message>, pos: nat)
    requires pos < |ch|
    ensures Without(ch + r, pos) == Without(ch, pos) + r
  {
  }

  lemma LeaderActs(c: Cluster, ev: Event, v: nat)
    requires ClusterOk(c) && v < |c.nodes| && c.nodes[v].role == Leader
    requires ev == HeartbeatTick(v) || ev == ServeClient(v) || (ev.ResendTick? && ev.node == v && ev.dst < |c.nodes|)
    ensures LocalStep(c.nodes[v], ev).Some?
    ensures Next(c, ev) == Apply(c, v, LocalStep(c.nodes[v], ev).value)
  {
    hide PopClient, SendHeartbeat, Resend;
    NextActs(c, ev);
  }

  lemma {:induction false} BeatIsRun(c: Cluster, v: nat, heartbeatDue: bool, overdue: seq<bool>)
    requires ClusterOk(c) && v < |c.nodes| && c.nodes[v].role == Leader && |overdue| <= |c.nodes|
    ensures Exec(c, BeatEvents(v, heartbeatDue, overdue)) == Apply(c, v, Beat(c.nodes[v], heartbeatDue, overdue))
    decreases |overdue|
  {
    hide Next, Exec, Apply, Resend, CursorsInRange;
    var s := c.nodes[v];
    ExecNothing(c);
    if overdue == [] {
      if heartbeatDue {
        ExecOne(c, [], HeartbeatTick(v));
        LeaderActs(c, HeartbeatTick(v), v);
        assert [] + [HeartbeatTick(v)] == BeatEvents(v, true, overdue);
        assert SendHeartbeat(s).sent + [] == SendHeartbeat(s).sent;
      } else {
        ApplyNothing(c, v);
        assert Beat(s, false, overdue) == Effect(s, []) && BeatEvents(v, false, overdue) == [];
      }
    } else {
      var i := |overdue| - 1;
      BeatIsRun(c, v, heartbeatDue, overdue[..i]);
      var before := Beat(s, heartbeatDue, overdue[..i]);
      if overdue[i] {
        var evs := BeatEvents(v, heartbeatDue, overdue[..i]);
        assert BeatEvents(v, heartbeatDue, overdue) == evs + [ResendTick(v, i)];
        ExecOne(c, evs, ResendTick(v, i));
        AppliedNode(c, v, before);
        LeaderActs(Exec(c, evs), ResendTick(v, i), v);
        ApplyThen(c, v, before, Resend(s, i));
        BeatMore(s, heartbeatDue, overdue);
      } else {
        assert Resends(s, overdue) == Resends(s, overdue[..i]);
        assert BeatEvents(v, heartbeatDue, overdue) == BeatEvents(v, heartbeatDue, overdue[..i]);
      }
    }
  }

  lemma AppliedNode(c: Cluster, v: nat, a: Effect)
    requires v < |c.nodes|
    ensures Apply(c, v, a).nodes[v] == a.node && |Apply(c, v, a).nodes| == |c.nodes|
  {
  }

  lemma BeatMore(s: Node, heartbeatDue: bool, overdue: seq<bool>)
    requires Shape(s) && CursorsInRange(s) && 0 < |overdue| <= s.n && overdue[|overdue| - 1]
    ensures var i := |overdue| - 1;
      Beat(s, heartbeatDue, overdue) == Then(Beat(s, heartbeatDue, overdue[..i]), Resend(s, i))
  {
    var i := |overdue| - 1;
    var hb := if heartbeatDue then SendHeartbeat(s).sent else [];
    assert hb + (Resends(s, overdue[..i]) + Resend(s, i).sent) == (hb + Resends(s, overdue[..i])) + Resend(s, i).sent;
  }

  /** The last part of a turn: the leader's own queue, unless it was deposed. */
  lemma ServeIsRun(c: Cluster, v: nat, a: Effect)
    requires v < |c.nodes| && ClusterOk(Apply(c, v, a)) && NodeOk(a.node)
    requires a.node.role == Leader || a.node.role == Follower
    ensures Next(Apply(c, v, a), ServeClient(v))
         == Apply(c, v, if a.node.role == Leader then Then(a, PopClient(a.node)) else a)
  {
    AppliedNode(c, v, a);
    if a.node.role == Leader {
      LeaderActs(Apply(c, v, a), ServeClient(v), v);
      ApplyThen(c, v, a, PopClient(a.node));
    }
  }

  /** The effect of a turn of the leader loop on the cluster is that of its events in order. */
  lemma LeaderTurnIsRun(c: Cluster, v: nat, heartbeatDue: bool, overdue: seq<bool>, incoming: Option<Incoming>)
    requires ClusterOk(c) && v < |c.nodes| && c.nodes[v].role == Leader && |overdue| == |c.nodes|
    requires incoming.Some? ==> InFlight(c, incoming.value.src, v, incoming.value.pos)
    ensures var evs := TurnEvents(v, heartbeatDue, overdue, incoming);
      match incoming
      case None => Exec(c, evs) == Apply(c, v, LeaderLoop(c.nodes[v], heartbeatDue, overdue, None))
      case Some(x) =>
        Exec(c, evs) == Apply(Take(c, x.src, v, x.pos), v,
                              LeaderLoop(c.nodes[v], heartbeatDue, overdue, Some(c.net[(x.src, v)][x.pos])))
  {
    hide Next, Exec, Apply, Take, LeaderOn, PopClient, Beat, BeatEvents;
    var s := c.nodes[v];
    var evs := BeatEvents(v, heartbeatDue, overdue);
    var beat := Beat(s, heartbeatDue, overdue);
    BeatIsRun(c, v, heartbeatDue, overdue);
    BeatKeeps(s, heartbeatDue, overdue);
    match incoming {
      case None =>
        assert TurnEvents(v, heartbeatDue, overdue, incoming) == evs + [ServeClient(v)];
        ExecOne(c, evs, ServeClient(v));
        ServeIsRun(c, v, beat);
      case Some(x) =>
        var m := c.net[(x.src, v)][x.pos];
        var ev := Deliver(x.src, v, x.pos);
        assert TurnEvents(v, heartbeatDue, overdue, incoming) == (evs + [ev]) + [ServeClient(v)];
        ExecOne(c, evs, ev);
        ExecOne(c, evs + [ev], ServeClient(v));
        DeliverAfter(c, v, beat, x.src, x.pos);
        LeaderReadsOk(s, m);
        LeaderOrFollower(s, m);
        ServeIsRun(Take(c, x.src, v, x.pos), v, Then(beat, LeaderOn(s, m)));
    }
  }

  lemma BeatKeeps(s: Node, heartbeatDue: bool, overdue: seq<bool>)
    requires Shape(s) && CursorsInRange(s) && |overdue| <= s.n
    ensures Beat(s, heartbeatDue, overdue).node == s
  {
  }

  lemma LeaderOrFollower(s: Node, m: Message)
    requires NodeOk(s) && s.role == Leader && m.sender < s.n
    ensures LeaderOn(s, m).node.role == Leader || LeaderOn(s, m).node.role == Follower
  {
  }

  /** After sending `a`, which leaves its state alone, the leader reads a message that was already there. */
  lemma DeliverAfter(c: Cluster, v: nat, a: Effect, src: nat, pos: nat)
    requires ClusterOk(c) && v < |c.nodes| && c.nodes[v].role == Leader && InFlight(c, src, v, pos)
    requires a.node == c.nodes[v] && ClusterOk(Apply(c, v, a))
    ensures var m := c.net[(src, v)][pos];
      && m.sender < |c.nodes|
      && Next(Apply(c, v, a), Deliver(src, v, pos))
         == Apply(Take(c, src, v, pos), v, Then(a, LeaderOn(c.nodes[v], m)))
      && |Take(c, src, v, pos).nodes| == |c.nodes|
  {
    TakeAfterApply(c, v, a, src, pos);
    AppliedNode(c, v, a);
    hide Next, Apply, On, LeaderOn, MoveOf;
    NextReads(Apply(c, v, a), src, v, pos);
    OnIsLeaderOn(c.nodes[v], c.net[(src, v)][pos]);
    ApplyThen(Take(c, src, v, pos), v, a, LeaderOn(c.nodes[v], c.net[(src, v)][pos]));
  }
}
