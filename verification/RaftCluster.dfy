/** A cluster of Raft nodes joined by one message channel per ordered pair of
    nodes.  Messages may be delivered in any order and may be lost; each one is
    delivered at most once. */
module RaftCluster {
  import opened RaftProtocol
  import opened RaftSpec

  type Net = map<(nat, nat), seq<Message>>

  datatype Cluster = Cluster(nodes: seq<Node>, net: Net)

  datatype Event =
    | Deliver(src: nat, dst: nat, pos: nat)   // dst reads the message at position pos of the channel from src
    | Drop(src: nat, dst: nat, pos: nat)
    | Timeout(node: nat)                      // an election timer fires
    | Enter(node: nat)                        // the candidate or leader procedure starts
    | HeartbeatTick(node: nat)
    | ResendTick(node: nat, dst: nat)
    | ServeClient(node: nat)                  // the leader takes a request from its own queue
    | SubmitRequest(node: nat, value: string, id: int)
    | Pause(node: nat)
    | Unpause(node: nat)

  ghost predicate NetOk(n: nat, net: Net)
  {
    && (forall k: (nat, nat) :: k in net <==> k.0 < n && k.1 < n)
    && (forall k: (nat, nat), p: nat :: k in net && 0 <= p < |net[k]| ==> net[k][p].sender == k.0)
  }

  predicate NodesOk(nodes: seq<Node>)
  {
    && |nodes| >= 1
    && forall i :: 0 <= i < |nodes| ==> nodes[i].n == |nodes| && nodes[i].me == i && NodeOk(nodes[i])
  }

  ghost predicate ClusterOk(c: Cluster)
  {
    NodesOk(c.nodes) && NetOk(|c.nodes|, c.net)
  }

  function Boot(n: nat): (c: Cluster)
    requires n >= 1
    ensures ClusterOk(c) && |c.nodes| == n
    ensures forall i :: 0 <= i < n ==> c.nodes[i] == InitNode(n, i)
    ensures forall k :: k in c.net ==> c.net[k] == []
  {
    Cluster(seq(n, i requires 0 <= i < n => InitNode(n, i)),
            map src, dst | 0 <= src < n && 0 <= dst < n :: (src, dst) := [])
  }

  function Send(net: Net, src: nat, sent: seq<Envelope>): (r: Net)
    ensures r.Keys == net.Keys
    ensures forall k :: k in net ==> r[k] == if k.0 == src then net[k] + Routed(sent, k.1) else net[k]
  {
    map k | k in net :: if k.0 == src then net[k] + Routed(sent, k.1) else net[k]
  }

  function Without(ch: seq<Message>, pos: nat): seq<Message>
    requires pos < |ch|
  {
    ch[..pos] + ch[pos + 1..]
  }

  predicate InFlight(c: Cluster, src: nat, dst: nat, pos: nat)
  {
    (src, dst) in c.net && pos < |c.net[(src, dst)]|
  }

  function Take(c: Cluster, src: nat, dst: nat, pos: nat): Cluster
    requires InFlight(c, src, dst, pos)
  {
    c.(net := c.net[(src, dst) := Without(c.net[(src, dst)], pos)])
  }

  /** Node v changes state and sends messages. */
  function Apply(c: Cluster, v: nat, eff: Effect): Cluster
    requires v < |c.nodes|
  {
    Cluster(c.nodes[v := eff.node], Send(c.net, v, eff.sent))
  }

  /** Node i and its channel to dst after node v acted. */
  lemma ApplyAt(c: Cluster, v: nat, eff: Effect, i: nat, dst: nat)
    requires v < |c.nodes| && i < |c.nodes| && (i, dst) in c.net
    ensures var c' := Apply(c, v, eff);
      && |c'.nodes| == |c.nodes| && c'.nodes[i] == (if i == v then eff.node else c.nodes[i])
      && (i, dst) in c'.net
      && c'.net[(i, dst)] == if i == v then c.net[(i, dst)] + Routed(eff.sent, dst) else c.net[(i, dst)]
  {
    hide Routed;
  }

  lemma ApplyNode(c: Cluster, v: nat, eff: Effect, i: nat)
    requires v < |c.nodes| && i < |c.nodes|
    ensures |Apply(c, v, eff).nodes| == |c.nodes|
    ensures Apply(c, v, eff).nodes[i] == if i == v then eff.node else c.nodes[i]
  {
    hide Routed;
  }

  predicate Reads(role: Role)
  {
    role == Follower || role == Candidate || role == Leader
  }

  /** What node v does on a local event; None when the event does not apply to it. */
  function LocalStep(s: Node, ev: Event): Option<Effect>
    requires NodeOk(s)
  {
    match ev
    case Timeout(_) =>
      if s.role == Follower || s.role == Candidate then Some(Effect(s.(role := Standing), [])) else None
    case Enter(_) =>
      if s.role == Standing then Some(EnterCandidate(s))
      else if s.role == Elected then Some(EnterLeader(s)) else None
    case HeartbeatTick(_) => if s.role == Leader then Some(SendHeartbeat(s)) else None
    case ResendTick(_, dst) => if s.role == Leader && dst < s.n then Some(Resend(s, dst)) else None
    case ServeClient(_) => if s.role == Leader then Some(PopClient(s)) else None
    case SubmitRequest(_, value, id) => Some(Effect(Submit(s, value, id), []))
    case Pause(_) => Some(Effect(s.(role := Paused), []))
    case Unpause(_) => if s.role == Paused then Some(Effect(s.(role := Follower), [])) else None
    case _ => None
  }

  /** How an event takes effect: not at all, by losing a message, or by one node acting on `base`, the cluster
      without the message that it read. */
  datatype Move = Idle | Lose(base: Cluster) | Act(base: Cluster, v: nat, eff: Effect)

  function MoveOf(c: Cluster, ev: Event): (m: Move)
    requires ClusterOk(c)
    ensures !m.Idle? ==> ClusterOk(m.base) && m.base.nodes == c.nodes
    ensures m.Act? ==> m.v < |c.nodes| && EffectOk(c.nodes[m.v], m.eff)
  {
    match ev
    case Deliver(src, dst, pos) =>
      if InFlight(c, src, dst, pos) && Reads(c.nodes[dst].role) then
        var m := c.net[(src, dst)][pos];
        TakeOk(c, src, dst, pos);
        OnKeepsNodeOk(c.nodes[dst], m);
        Act(Take(c, src, dst, pos), dst, On(c.nodes[dst], m))
      else Idle
    case Drop(src, dst, pos) =>
      if InFlight(c, src, dst, pos) then
        TakeOk(c, src, dst, pos);
        Lose(Take(c, src, dst, pos))
      else Idle
    case _ =>
      if ev.node < |c.nodes| then
        LocalStepKeepsNodeOk(c.nodes[ev.node], ev);
        match LocalStep(c.nodes[ev.node], ev)
        case Some(eff) => Act(c, ev.node, eff)
        case None => Idle
      else Idle
  }

  /** One event. */
  function Next(c: Cluster, ev: Event): (c': Cluster)
    requires ClusterOk(c)
    ensures ClusterOk(c') && |c'.nodes| == |c.nodes|
  {
    match MoveOf(c, ev)
    case Idle => c
    case Lose(base) => base
    case Act(base, v, eff) =>
      ApplyOk(base, v, eff);
      Apply(base, v, eff)
  }

  lemma ApplyNothing(c: Cluster, v: nat)
    requires v < |c.nodes|
    ensures Apply(c, v, Effect(c.nodes[v], [])) == c
  {
    var net': Net := Apply(c, v, Effect(c.nodes[v], [])).net;
    forall k | k in c.net ensures net'[k] == c.net[k] {
      assert c.net[k] + [] == c.net[k];
    }
    assert net' == c.net;
  }

  lemma NextActs(c: Cluster, ev: Event)
    requires ClusterOk(c) && MoveOf(c, ev).Act?
    ensures Next(c, ev) == Apply(MoveOf(c, ev).base, MoveOf(c, ev).v, MoveOf(c, ev).eff)
  {
    hide MoveOf;
  }

  /** Reading a message is taking it from its channel and acting on it. */
  lemma NextReads(c: Cluster, src: nat, dst: nat, pos: nat)
    requires ClusterOk(c) && InFlight(c, src, dst, pos) && Reads(c.nodes[dst].role)
    ensures var m := c.net[(src, dst)][pos];
      && EffectOk(c.nodes[dst], On(c.nodes[dst], m))
      && ClusterOk(Take(c, src, dst, pos))
      && MoveOf(c, Deliver(src, dst, pos)) == Act(Take(c, src, dst, pos), dst, On(c.nodes[dst], m))
      && Next(c, Deliver(src, dst, pos)) == Apply(Take(c, src, dst, pos), dst, On(c.nodes[dst], m))
  {
    hide On;
    OnKeepsNodeOk(c.nodes[dst], c.net[(src, dst)][pos]);
    TakeOk(c, src, dst, pos);
    NextActs(c, Deliver(src, dst, pos));
  }

  /** The state after a list of events. */
  function Exec(c: Cluster, evs: seq<Event>): (c': Cluster)
    requires ClusterOk(c)
    ensures ClusterOk(c') && |c'.nodes| == |c.nodes|
  {
    if evs == [] then c else Next(Exec(c, evs[..|evs| - 1]), evs[|evs| - 1])
  }

  lemma ExecStep(c: Cluster, evs: seq<Event>, k: nat)
    requires ClusterOk(c) && k < |evs|
    ensures Exec(c, evs[..k + 1]) == Next(Exec(c, evs[..k]), evs[k])
  {
    assert evs[..k + 1][..k] == evs[..k];
  }

  lemma ExecNothing(c: Cluster)
    requires ClusterOk(c)
    ensures Exec(c, []) == c
  {
  }

  lemma ExecOne(c: Cluster, evs: seq<Event>, ev: Event)
    requires ClusterOk(c)
    ensures Exec(c, evs + [ev]) == Next(Exec(c, evs), ev)
  {
    assert (evs + [ev])[..|evs|] == evs;
  }

  lemma {:induction false} ExecConcat(c: Cluster, a: seq<Event>, b: seq<Event>)
    requires ClusterOk(c)
    ensures Exec(c, a + b) == Exec(Exec(c, a), b)
  {
    if b == [] {
      assert a + b == a;
    } else {
      assert (a + b)[..|a + b| - 1] == a + b[..|b| - 1];
      ExecConcat(c, a, b[..|b| - 1]);
    }
  }

  // ---- every handler keeps the node well formed ----

  ghost predicate SentBy(sent: seq<Envelope>, me: nat)
  {
    forall e :: e in sent ==> e.msg.sender == me
  }

  ghost predicate EffectOk(s: Node, eff: Effect)
  {
    NodeOk(eff.node) && eff.node.n == s.n && eff.node.me == s.me && SentBy(eff.sent, s.me)
  }

  lemma BroadcastAppendOk(s: Node, e: Entry)
    requires Shape(s)
    requires forall i :: 0 <= i < s.n && i != s.me && s.nextIndex[i].Some? ==>
      1 <= s.nextIndex[i].value < |s.log|
    ensures var b := BroadcastAppend(s, e);
      Shape(b.node) && CursorsInRange(b.node) && b.node.n == s.n && b.node.me == s.me && SentBy(b.sent, s.me)
  {
    var b := BroadcastAppend(s, e);
    forall x | x in b.sent ensures x.msg.sender == s.me {
      MulticastIn(UpToDate(s.nextIndex), AppendMessage(s, |s.log| - 1, s.log[|s.log| - 1].term, e), x);
    }
  }

  lemma CommitIfReplicatedOk(s: Node)
    requires Shape(s) && CursorsInRange(s)
    ensures var b := CommitIfReplicated(s);
      Shape(b.node) && CursorsInRange(b.node) && b.node.n == s.n && b.node.me == s.me && SentBy(b.sent, s.me)
  {
    var committable := Minimum(s.matchIndex);
    assert committable <= s.matchIndex[s.me];
    if committable > s.commitIndex {
      var s1 := CommitEntry(s, committable, s.log[committable].term);
      forall x | x in BroadcastCommit(s, committable).sent ensures x.msg.sender == s.me {
        MulticastIn(Everyone(s1.n), CommittalMessage(s1), x);
      }
    }
  }

  /** Any acknowledgement, stale or repeated, keeps every cursor in range. */
  lemma LeaderOnAckOk(s: Node, i: nat, success: bool)
    requires Shape(s) && CursorsInRange(s)
    requires i < s.n
    ensures var b := LeaderOnAck(s, i, success);
      Shape(b.node) && CursorsInRange(b.node) && b.node.n == s.n && b.node.me == s.me && SentBy(b.sent, s.me)
  {
    if s.nextIndex[i].Some? {
      CommitIfReplicatedOk(AdvanceOnAck(s, i, success).node);
    }
  }

  lemma OnKeepsNodeOk(s: Node, m: Message)
    requires NodeOk(s) && m.sender < s.n
    ensures EffectOk(s, On(s, m))
  {
    if s.role == Leader {
      if m.Acknowledge? {
        LeaderOnAckOk(s, m.sender, m.success);
      } else if m.ClientRequest? {
        BroadcastAppendOk(s, m.entry);
      }
    }
  }

  lemma LocalStepKeepsNodeOk(s: Node, ev: Event)
    requires NodeOk(s)
    ensures LocalStep(s, ev).Some? ==> EffectOk(s, LocalStep(s, ev).value)
  {
    if ev.Enter? && s.role == Elected {
      var s1 := s.(role := Leader, leaderId := Some(s.me),
                   matchIndex := seq(s.n, _ => s.commitIndex), nextIndex := seq(s.n, _ => None));
      BroadcastAppendOk(s1, Entry(s.term, "{}", -1));
    } else if ev.ServeClient? && s.role == Leader && s.queue != [] {
      BroadcastAppendOk(s.(queue := s.queue[1..]), s.queue[0]);
    }
  }

  lemma TakeOk(c: Cluster, src: nat, dst: nat, pos: nat)
    requires ClusterOk(c) && InFlight(c, src, dst, pos)
    ensures ClusterOk(Take(c, src, dst, pos))
  {
    var ch := c.net[(src, dst)];
    var net': Net := Take(c, src, dst, pos).net;
    forall k: (nat, nat), p: nat | k in net' && 0 <= p < |net'[k]| ensures net'[k][p].sender == k.0 {
      if k == (src, dst) {
        assert net'[k][p] == ch[if p < pos then p else p + 1];
      }
    }
  }

  lemma ApplyOk(c: Cluster, v: nat, eff: Effect)
    requires ClusterOk(c) && v < |c.nodes|
    requires EffectOk(c.nodes[v], eff)
    ensures ClusterOk(Apply(c, v, eff))
  {
    var net': Net := Apply(c, v, eff).net;
    forall k: (nat, nat), p: nat | k in net' && 0 <= p < |net'[k]| ensures net'[k][p].sender == k.0 {
      if k.0 == v && p >= |c.net[k]| {
        RoutedIn(eff.sent, k.1, net'[k][p]);
      }
    }
  }

  // ---- a whole leadership ----

  ghost predicate Progress(s: Node, s': Node)
  {
    s.log <= s'.log && s.commitIndex <= s'.commitIndex && s.term == s'.term
  }

  lemma AckProgress(s: Node, i: nat, success: bool)
    requires Shape(s) && CursorsInRange(s) && i < s.n
    ensures Progress(s, LeaderOnAck(s, i, success).node)
  {
  }

  lemma LeaderProgress(s: Node, m: Message)
    requires NodeOk(s) && s.role == Leader && m.sender < s.n
    requires On(s, m).node.role == Leader
    ensures Progress(s, On(s, m).node)
  {
    if m.Acknowledge? {
      AckProgress(s, m.sender, m.success);
    }
  }

  /** While a node leads, its log only grows and its commit index never goes back; every other cursor names
      a real entry with a predecessor, whatever acknowledgements arrive. */
  lemma LeadershipStep(c: Cluster, ev: Event, i: nat)
    requires ClusterOk(c) && i < |c.nodes|
    requires c.nodes[i].role == Leader && Next(c, ev).nodes[i].role == Leader
    ensures Progress(c.nodes[i], Next(c, ev).nodes[i])
  {
    if ev.Deliver? {
      if InFlight(c, ev.src, ev.dst, ev.pos) && ev.dst == i {
        hide LeaderOn, NetOk;
        NextReads(c, ev.src, i, ev.pos);
        LeaderProgress(c.nodes[i], c.net[(ev.src, i)][ev.pos]);
      } else {
        hide On;
      }
    } else {
      hide On, EnterCandidate, EnterLeader, Multicast;
    }
  }

  lemma {:induction false} Leadership(c: Cluster, evs: seq<Event>, i: nat)
    requires ClusterOk(c) && i < |c.nodes|
    requires forall k :: 0 <= k <= |evs| ==> Exec(c, evs[..k]).nodes[i].role == Leader
    ensures Progress(c.nodes[i], Exec(c, evs).nodes[i])
    ensures CursorsInRange(Exec(c, evs).nodes[i])
  {
    assert evs[..|evs|] == evs;
    assert evs[..0] == [];
    if evs != [] {
      var k := |evs| - 1;
      forall j | 0 <= j <= k ensures Exec(c, evs[..k][..j]).nodes[i].role == Leader {
        assert evs[..k][..j] == evs[..j];
      }
      Leadership(c, evs[..k], i);
      ExecStep(c, evs, k);
      LeadershipStep(Exec(c, evs[..k]), evs[k], i);
    }
  }
}
