/** What a candidate and a leader do, seen from outside: the node before and
    after the event, and what joins each channel. */
module RaftActions {
  import opened RaftProtocol
  import opened RaftSpec
  import opened RaftCluster
  import opened RaftReactions
  import RaftEpoch

  /** Node v becomes s'; no other node changes, and nothing happens to the channels from other nodes. */
  ghost predicate Becomes(c: Cluster, c': Cluster, v: nat, s': Node)
  {
    && |c'.nodes| == |c.nodes| && c'.net.Keys == c.net.Keys
    && (forall u :: 0 <= u < |c.nodes| ==> c'.nodes[u] == if u == v then s' else c.nodes[u])
    && forall k :: k in c.net && k.0 != v ==> c'.net[k] == c.net[k]
  }

  lemma LocalActs(c: Cluster, ev: Event)
    requires ClusterOk(c) && !ev.Deliver? && !ev.Drop? && ev.node < |c.nodes|
    ensures var s := c.nodes[ev.node];
      && NodeOk(s) && s.me == ev.node && s.n == |c.nodes|
      && (LocalStep(s, ev).None? ==> Next(c, ev) == c)
      && (LocalStep(s, ev).Some? ==> Becomes(c, Next(c, ev), ev.node, LocalStep(s, ev).value.node))
      && (LocalStep(s, ev).Some? ==>
            forall i: nat :: i < |c.nodes| ==>
              && (ev.node, i) in c.net
              && Next(c, ev).net[(ev.node, i)]
                 == c.net[(ev.node, i)] + Routed(LocalStep(s, ev).value.sent, i))
  {
    var s := c.nodes[ev.node];
    hide LocalStep, Routed, NodeOk;
    if LocalStep(s, ev).Some? {
      NextActs(c, ev);
      hide Next, MoveOf;
    }
  }

  lemma NothingRouted(i: nat)
    ensures Routed([], i) == []
  {
  }

  /** A new cluster: followers of term 1 that have voted for nobody and know no leader, with the sentinel applied and
      committed, and nothing on its way. */
  lemma Boots(n: nat, v: nat)
    requires v < n
    ensures var c := Boot(n);
      && |c.nodes| == n && (forall k :: k in c.net ==> c.net[k] == [])
      && (forall a: nat, b: nat :: (a, b) in c.net <==> a < n && b < n)
      && var s := c.nodes[v];
         && s == Node(n, v, Follower, 1, None, [Entry(1, "{}", -1)], 0, 0, 1, s.nextIndex, s.matchIndex, None, [], 0, 0)
         && |s.nextIndex| == |s.matchIndex| == n
         && forall i :: 0 <= i < n ==> s.nextIndex[i] == None && s.matchIndex[i] == 0
  {
    hide Boot;
    assert Boot(n).nodes[v] == InitNode(n, v);
  }

  // ---- candidates ----

  /** A follower or candidate whose timer fires is about to stand; in other roles the timer does nothing. */
  lemma TimesOut(c: Cluster, v: nat)
    requires ClusterOk(c) && v < |c.nodes|
    ensures var c', s := Next(c, Timeout(v)), c.nodes[v];
      if s.role == Follower || s.role == Candidate then
        && Becomes(c, c', v, s.(role := Standing))
        && forall i: nat :: i < |c.nodes| ==> c'.net[(v, i)] == c.net[(v, i)]
      else c' == c
  {
    hide Next, Becomes, ClusterOk, Routed;
    LocalActs(c, Timeout(v));
    forall i: nat ensures Routed([], i) == [] { NothingRouted(i); }
  }

  /** The request of a candidacy of s. */
  function RequestOf(s: Node): Message
  {
    RequestVote(s.term + 1, s.me, s.me, s.lastAppliedIndex, s.lastAppliedTerm)
  }

  /** A node that stands starts a new term with its own vote and an empty tally, sends every node a request with the
      index and term of what it has applied, and itself a granted vote. */
  lemma Stands(c: Cluster, v: nat)
    requires ClusterOk(c) && v < |c.nodes| && c.nodes[v].role == Standing
    ensures var c', s := Next(c, Enter(v)), c.nodes[v];
      && Becomes(c, c', v, s.(role := Candidate, term := s.term + 1, votedFor := Some(v), votesForMe := 0,
                              totalVotes := 0))
      && forall i: nat :: i < |c.nodes| ==>
        c'.net[(v, i)] == c.net[(v, i)] + [RequestOf(s)] + if i == v then [VoteOf(s, s.term + 1, v, true)] else []
  {
    hide Next, Becomes, EnterLeader;
    LocalActs(c, Enter(v));
    var s := c.nodes[v];
    hide ClusterOk;
    CandidateSends(s);
  }

  lemma CandidateSends(s: Node)
    ensures EnterCandidate(s).node == s.(role := Candidate, term := s.term + 1, votedFor := Some(s.me),
                                         votesForMe := 0, totalVotes := 0)
    ensures forall i: nat ::
              Routed(EnterCandidate(s).sent, i)
              == [RequestOf(s)] + if i == s.me then [VoteOf(s, s.term + 1, s.me, true)] else []
  {
    var request, vote := Envelope(None, RequestOf(s)), Envelope(Some(s.me), VoteOf(s, s.term + 1, s.me, true));
    assert EnterCandidate(s).sent == [request] + [vote];
    hide Routed, EnterCandidate;
    forall i: nat
      ensures Routed([request] + [vote], i)
           == [RequestOf(s)] + if i == s.me then [VoteOf(s, s.term + 1, s.me, true)] else []
    {
      RoutedConcat([request], [vote], i);
      RoutedOne(request, i);
      RoutedOne(vote, i);
    }
  }

  // ---- leaders ----

  /** The append for the entry behind the log of s. */
  function AppendOf(s: Node, entry: Entry): Message
    requires |s.log| >= 1
  {
    AppendEntries(s.term, s.me, s.me, |s.log| - 1, s.log[|s.log| - 1].term, entry, s.commitIndex)
  }

  /** What a leader becomes that appends an entry: nodes that were up to date wait for it from then on. */
  ghost predicate Appended(s: Node, s': Node, entry: Entry)
  {
    && s' == s.(log := s.log + [entry], nextIndex := s'.nextIndex, matchIndex := s'.matchIndex)
    && |s'.nextIndex| == |s.nextIndex| == |s'.matchIndex| == |s.matchIndex| == s.n
    && (forall i :: 0 <= i < s.n ==>
          s'.nextIndex[i] == if i == s.me then None else if s.nextIndex[i].None? then Some(|s.log|) else s.nextIndex[i])
    && forall i :: 0 <= i < s.n ==> s'.matchIndex[i] == if i == s.me then |s.log| else s.matchIndex[i]
  }

  lemma AppendSends(s: Node, entry: Entry, i: nat)
    requires Shape(s) && i < s.n
    ensures Appended(s, BroadcastAppend(s, entry).node, entry)
    ensures Routed(BroadcastAppend(s, entry).sent, i)
         == if s.nextIndex[i].None? then [AppendOf(s, entry)] else []
  {
    RoutedMulticast(UpToDate(s.nextIndex), AppendOf(s, entry), i);
    hide Routed, Multicast;
  }

  /** A client request that a leader reads is appended to its log and sent to exactly the nodes that were up to date. */
  lemma LeaderReadsRequest(c: Cluster, src: nat, dst: nat, pos: nat)
    requires Reading(c, src, dst, pos, Leader) && Read(c, src, dst, pos).ClientRequest?
    ensures ClusterOk(c) && dst < |c.nodes|
    ensures var c', s, m := Next(c, Deliver(src, dst, pos)), c.nodes[dst], Read(c, src, dst, pos);
      && |c'.nodes| == |c.nodes| && Appended(s, c'.nodes[dst], m.entry)
      && (forall u :: 0 <= u < |c.nodes| && u != dst ==> c'.nodes[u] == c.nodes[u])
      && forall i: nat :: i < |c.nodes| ==>
        && (dst, i) in c.net
        && c'.net[(dst, i)]
           == Left(c, src, dst, pos, (dst, i)) + if s.nextIndex[i].None? then [AppendOf(s, m.entry)] else []
  {
    ReadingMeans(c, src, dst, pos, Leader);
    var s, m := c.nodes[dst], Read(c, src, dst, pos);
    hide NodeOk, On, BroadcastAppend, Next, Apply, Take, Appended, Routed;
    OnRequest(s, m);
    AppendSends(s, m.entry, 0);
    ReadNodes(c, src, dst, pos, BroadcastAppend(s, m.entry));
    forall i: nat | i < |c.nodes|
      ensures (dst, i) in c.net
      ensures Next(c, Deliver(src, dst, pos)).net[(dst, i)]
           == Left(c, src, dst, pos, (dst, i)) + if s.nextIndex[i].None? then [AppendOf(s, m.entry)] else []
    {
      ChannelAfter(c, src, dst, pos, BroadcastAppend(s, m.entry), (dst, i));
      AppendSends(s, m.entry, i);
    }
  }

  lemma OnRequest(s: Node, m: Message)
    requires NodeOk(s) && s.role == Leader && m.sender < s.n && m.ClientRequest?
    ensures Shape(s) && On(s, m) == BroadcastAppend(s, m.entry)
  {
    hide BroadcastAppend;
  }

  lemma ReadNodes(c: Cluster, src: nat, dst: nat, pos: nat, eff: Effect)
    requires InFlight(c, src, dst, pos) && dst < |c.nodes|
    ensures var c' := Apply(Take(c, src, dst, pos), dst, eff);
      && |c'.nodes| == |c.nodes| && c'.net.Keys == c.net.Keys
      && forall u :: 0 <= u < |c.nodes| ==> c'.nodes[u] == if u == dst then eff.node else c.nodes[u]
  {
    hide Routed;
  }

  /** The entry at k, for a node whose log should end before it. */
  function CatchUpOf(s: Node, k: nat): Message
    requires 1 <= k < |s.log|
  {
    AppendEntries(s.term, s.me, s.me, k - 1, s.log[k - 1].term, s.log[k], s.commitIndex)
  }

  /** The smallest of the match indices. */
  ghost predicate Least(x: nat, xs: seq<nat>)
  {
    x in xs && forall i :: 0 <= i < |xs| ==> x <= xs[i]
  }

  /** The cursor after an acknowledgement at k: one on after a success, one back after a refusal but not below 1;
      none when that is behind the log. */
  function Moved(k: nat, success: bool, size: nat): Option<nat>
  {
    var k' := if success then k + 1 else if k > 1 then k - 1 else 1;
    if k' < size then Some(k') else None
  }

  /** What an acknowledgement from node i, whose cursor is k, makes of a leader. */
  ghost predicate Acknowledged(s: Node, s': Node, i: nat, k: nat, success: bool)
  {
    && i < |s.matchIndex| && i < |s.nextIndex|
    && s' == s.(matchIndex := if success then s.matchIndex[i := k] else s.matchIndex,
                nextIndex := s.nextIndex[i := Moved(k, success, |s.log|)],
                commitIndex := s'.commitIndex, lastAppliedIndex := s'.lastAppliedIndex,
                lastAppliedTerm := s'.lastAppliedTerm)
    && if exists j :: 0 <= j < |s'.matchIndex| && s'.matchIndex[j] <= s.commitIndex then
         && s'.commitIndex == s.commitIndex
         && s'.lastAppliedIndex == s.lastAppliedIndex && s'.lastAppliedTerm == s.lastAppliedTerm
       else
         && Least(s'.commitIndex, s'.matchIndex)
         && s'.lastAppliedIndex == s'.commitIndex < |s.log|
         && s'.lastAppliedTerm == s.log[s'.commitIndex].term
  }

  /** What it then sends to node j: the next entry to node i, and to every node what it newly committed. */
  function AckSends(s: Node, s': Node, i: nat, j: nat): seq<Message>
    requires i < |s'.nextIndex| && (s'.nextIndex[i].Some? ==> 1 <= s'.nextIndex[i].value < |s.log|)
  {
    (if j == i && s'.nextIndex[i].Some? then [CatchUpOf(s, s'.nextIndex[i].value)] else [])
    + CommitSends(s, s')
  }

  /** What the commit part makes of a leader. */
  ghost predicate Committed(s: Node, s': Node)
  {
    && s' == s.(commitIndex := s'.commitIndex, lastAppliedIndex := s'.lastAppliedIndex,
                lastAppliedTerm := s'.lastAppliedTerm)
    && if exists i :: 0 <= i < |s.matchIndex| && s.matchIndex[i] <= s.commitIndex then s' == s
       else
         && Least(s'.commitIndex, s.matchIndex)
         && s.commitIndex < s'.lastAppliedIndex == s'.commitIndex < |s.log|
         && s'.lastAppliedTerm == s.log[s'.commitIndex].term
  }

  function CommitSends(s: Node, s': Node): seq<Message>
  {
    if s.commitIndex < s'.commitIndex < |s.log| then
      [Committal(s.term, s.me, s.me, s'.commitIndex, s.log[s'.commitIndex].term, s'.commitIndex)]
    else []
  }

  lemma CommitSees(s: Node, j: nat)
    requires NodeOk(s) && s.role == Leader && j < s.n
    ensures Shape(s) && CursorsInRange(s)
    ensures Committed(s, CommitIfReplicated(s).node)
    ensures Routed(CommitIfReplicated(s).sent, j) == CommitSends(s, CommitIfReplicated(s).node)
  {
    hide Routed, Multicast;
    var least := Minimum(s.matchIndex);
    assert least <= s.matchIndex[s.me];
    var i :| 0 <= i < |s.matchIndex| && s.matchIndex[i] == least;
    if least > s.commitIndex {
      var s1 := CommitEntry(s, least, s.log[least].term);
      RoutedMulticast(Everyone(s1.n), CommittalMessage(s1), j);
    } else {
      NothingRouted(j);
    }
  }

  /** The cursor part of an acknowledgement; at most one append, to node i. */
  lemma CursorSees(s: Node, i: nat, success: bool, j: nat)
    requires NodeOk(s) && s.role == Leader && i < s.n && s.nextIndex[i].Some?
    ensures Shape(s) && CursorsInRange(s)
    ensures var a, k := AdvanceOnAck(s, i, success), s.nextIndex[i].value;
      && NodeOk(a.node) && a.node.n == s.n && a.node.role == Leader
      && a.node == s.(matchIndex := if success then s.matchIndex[i := k] else s.matchIndex,
                      nextIndex := s.nextIndex[i := Moved(k, success, |s.log|)])
      && (a.node.nextIndex[i].Some? ==> 1 <= a.node.nextIndex[i].value < |s.log|)
      && Routed(a.sent, j)
         == if j == i && a.node.nextIndex[i].Some? then [CatchUpOf(s, a.node.nextIndex[i].value)] else []
  {
    RaftEpoch.AdvanceMeans(s, i, success);
    var a := AdvanceOnAck(s, i, success);
    assert s.matchIndex[i := s.matchIndex[i]] == s.matchIndex;
    hide AdvanceOnAck, Routed;
    NothingRouted(j);
    if a.sent != [] {
      RoutedOne(CatchUp(a.node, i), j);
    }
  }

  /** The two parts together. */
  lemma Together(s: Node, a: Node, s': Node, i: nat, k: nat, success: bool)
    requires i < |s.matchIndex| && i < |s.nextIndex|
    requires a == s.(matchIndex := if success then s.matchIndex[i := k] else s.matchIndex,
                     nextIndex := s.nextIndex[i := Moved(k, success, |s.log|)])
    requires Committed(a, s')
    ensures Acknowledged(s, s', i, k, success) && s'.nextIndex == a.nextIndex && s'.matchIndex == a.matchIndex
    ensures CommitSends(a, s') == CommitSends(s, s')
  {
    hide Moved;
  }

  lemma AckSees(s: Node, i: nat, success: bool, j: nat)
    requires NodeOk(s) && s.role == Leader && i < s.n && j < s.n && s.nextIndex[i].Some?
    ensures Shape(s) && CursorsInRange(s)
    ensures var eff, k := LeaderOnAck(s, i, success), s.nextIndex[i].value;
      && Acknowledged(s, eff.node, i, k, success)
      && |eff.node.nextIndex| == s.n
      && (eff.node.nextIndex[i].Some? ==> 1 <= eff.node.nextIndex[i].value < |s.log|)
      && Routed(eff.sent, j) == AckSends(s, eff.node, i, j)
  {
    assert Shape(s);
    hide *;
    CursorSees(s, i, success, j);
    RaftEpoch.AckIsTwoSteps(s, i, success);
    var a := AdvanceOnAck(s, i, success);
    CommitSees(a.node, j);
    RoutedConcat(a.sent, CommitIfReplicated(a.node).sent, j);
    Together(s, a.node, CommitIfReplicated(a.node).node, i, s.nextIndex[i].value, success);
    SendsTogether(s, LeaderOnAck(s, i, success).node, i, j);
  }

  lemma SendsTogether(s: Node, s': Node, i: nat, j: nat)
    requires i < |s'.nextIndex| && (s'.nextIndex[i].Some? ==> 1 <= s'.nextIndex[i].value < |s.log|)
    ensures AckSends(s, s', i, j)
         == (if j == i && s'.nextIndex[i].Some? then [CatchUpOf(s, s'.nextIndex[i].value)] else []) + CommitSends(s, s')
  {
  }

  /** An acknowledgement from a node that is up to date changes nothing; one from another node moves its cursor, and
      is followed by the next entry for it; the leader commits the smallest match index once it is above the commit
      index, and tells every node. */
  lemma LeaderReadsAck(c: Cluster, src: nat, dst: nat, pos: nat)
    requires Reading(c, src, dst, pos, Leader) && Read(c, src, dst, pos).Acknowledge?
    ensures ClusterOk(c) && dst < |c.nodes| && src < |c.nodes|
    ensures var c', s, m := Next(c, Deliver(src, dst, pos)), c.nodes[dst], Read(c, src, dst, pos);
      if s.nextIndex[src].None? then Reacts(c, c', src, dst, pos, s, src, [])
      else
        && |c'.nodes| == |c.nodes|
        && (forall u :: 0 <= u < |c.nodes| && u != dst ==> c'.nodes[u] == c.nodes[u])
        && Acknowledged(s, c'.nodes[dst], src, s.nextIndex[src].value, m.success)
        && src < |c'.nodes[dst].nextIndex|
        && (c'.nodes[dst].nextIndex[src].Some? ==> 1 <= c'.nodes[dst].nextIndex[src].value < |s.log|)
        && forall i: nat :: i < |c.nodes| ==>
          && (dst, i) in c.net
          && c'.net[(dst, i)] == Left(c, src, dst, pos, (dst, i)) + AckSends(s, c'.nodes[dst], src, i)
  {
    ReadingMeans(c, src, dst, pos, Leader);
    var s, m := c.nodes[dst], Read(c, src, dst, pos);
    assert Shape(s);
    OnAck(s, m);
    hide NodeOk, On, LeaderOnAck, Next, Apply, Take, Acknowledged, Routed, Reacts, AckSends;
    if s.nextIndex[src].None? {
      NoCursor(s, src, m.success);
      NoAnswer(c, src, dst, pos, s, src);
    } else {
      var eff := LeaderOnAck(s, src, m.success);
      AckSees(s, src, m.success, 0);
      ReadNodes(c, src, dst, pos, eff);
      forall i: nat | i < |c.nodes|
        ensures (dst, i) in c.net
        ensures Next(c, Deliver(src, dst, pos)).net[(dst, i)]
             == Left(c, src, dst, pos, (dst, i)) + AckSends(s, eff.node, src, i)
      {
        ChannelAfter(c, src, dst, pos, eff, (dst, i));
        AckSees(s, src, m.success, i);
      }
    }
  }

  lemma OnAck(s: Node, m: Message)
    requires NodeOk(s) && s.role == Leader && m.sender < s.n && m.Acknowledge?
    ensures Shape(s) && CursorsInRange(s) && On(s, m) == LeaderOnAck(s, m.sender, m.success)
  {
    hide LeaderOnAck;
  }

  lemma NoCursor(s: Node, i: nat, success: bool)
    requires Shape(s) && CursorsInRange(s) && i < s.n && s.nextIndex[i].None?
    ensures LeaderOnAck(s, i, success) == Effect(s, [])
  {
  }

  /** A leader's heartbeat goes to every node, itself included. */
  lemma Beats(c: Cluster, v: nat)
    requires ClusterOk(c) && v < |c.nodes|
    ensures var c', s := Next(c, HeartbeatTick(v)), c.nodes[v];
      if s.role == Leader then
        && Becomes(c, c', v, s)
        && forall i: nat :: i < |c.nodes| ==> c'.net[(v, i)] == c.net[(v, i)] + [Heartbeat(s.term, v, v, s.commitIndex)]
      else c' == c
  {
    hide Next, Becomes, ClusterOk, Routed;
    LocalActs(c, HeartbeatTick(v));
    var s := c.nodes[v];
    forall i: nat ensures Routed(SendHeartbeat(s).sent, i) == [HeartbeatMessage(s)] {
      RoutedOne(SendHeartbeat(s).sent[0], i);
    }
  }

  /** A leader sends a node that is not up to date the entry at its cursor again. */
  lemma SendsAgain(c: Cluster, v: nat, dst: nat)
    requires ClusterOk(c) && v < |c.nodes| && dst < |c.nodes| && c.nodes[v].role == Leader
    ensures var c', s := Next(c, ResendTick(v, dst)), c.nodes[v];
      && dst < |s.nextIndex| && (s.nextIndex[dst].Some? ==> 1 <= s.nextIndex[dst].value < |s.log|)
      && Becomes(c, c', v, s)
      && forall i: nat :: i < |c.nodes| ==>
        c'.net[(v, i)] == c.net[(v, i)] + if i == dst && s.nextIndex[dst].Some? then
                                            [CatchUpOf(s, s.nextIndex[dst].value)]
                                          else []
  {
    hide Next, Becomes, Routed;
    LocalActs(c, ResendTick(v, dst));
    var s := c.nodes[v];
    hide ClusterOk;
    forall i: nat
      ensures Routed(Resend(s, dst).sent, i)
           == if i == dst && s.nextIndex[dst].Some? then [CatchUpOf(s, s.nextIndex[dst].value)] else []
    {
      NothingRouted(i);
      if s.nextIndex[dst].Some? {
        RoutedOne(CatchUp(s, dst), i);
      }
    }
  }

  /** A leader takes the oldest of its own client requests, if it has one, and treats it like one that it reads. */
  lemma ServesItself(c: Cluster, v: nat)
    requires ClusterOk(c) && v < |c.nodes| && c.nodes[v].role == Leader && c.nodes[v].queue != []
    ensures var c', s := Next(c, ServeClient(v)), c.nodes[v].(queue := c.nodes[v].queue[1..]);
      && |s.log| >= 1 && |s.nextIndex| == |c.nodes| == |c'.nodes|
      && Appended(s, c'.nodes[v], c.nodes[v].queue[0]) && Becomes(c, c', v, c'.nodes[v])
      && forall i: nat :: i < |c.nodes| ==>
        c'.net[(v, i)]
        == c.net[(v, i)] + if s.nextIndex[i].None? then [AppendOf(s, c.nodes[v].queue[0])] else []
  {
    LocalActs(c, ServeClient(v));
    var s := c.nodes[v].(queue := c.nodes[v].queue[1..]);
    assert PopClient(c.nodes[v]) == BroadcastAppend(s, c.nodes[v].queue[0]);
    hide Next, Becomes, Routed, ClusterOk, Appended, PopClient, BroadcastAppend;
    AppendSends(s, c.nodes[v].queue[0], 0);
    assert Becomes(c, Next(c, ServeClient(v)), v, BroadcastAppend(s, c.nodes[v].queue[0]).node);
    BecomesNode(c, Next(c, ServeClient(v)), v, BroadcastAppend(s, c.nodes[v].queue[0]).node);
    forall i: nat | i < |c.nodes|
      ensures Routed(BroadcastAppend(s, c.nodes[v].queue[0]).sent, i)
           == if s.nextIndex[i].None? then [AppendOf(s, c.nodes[v].queue[0])] else []
    {
      AppendSends(s, c.nodes[v].queue[0], i);
    }
  }

  lemma BecomesNode(c: Cluster, c': Cluster, v: nat, s': Node)
    requires Becomes(c, c', v, s') && v < |c.nodes|
    ensures |c'.nodes| == |c.nodes| && c'.nodes[v] == s'
  {
  }

  /** The node that was elected starts to lead: all match indices are its commit index, it sends every node a
      heartbeat and then its opening entry, for which every other node's cursor waits. */
  lemma Enters(c: Cluster, v: nat)
    requires ClusterOk(c) && v < |c.nodes| && c.nodes[v].role == Elected
    ensures var c', s, opening := Next(c, Enter(v)), c.nodes[v], Entry(c.nodes[v].term, "{}", -1);
      && |s.log| >= 1 && |c'.nodes| == |c.nodes| && Becomes(c, c', v, c'.nodes[v])
      && c'.nodes[v] == s.(role := Leader, leaderId := Some(v), log := s.log + [opening],
                           nextIndex := c'.nodes[v].nextIndex, matchIndex := c'.nodes[v].matchIndex)
      && |c'.nodes[v].nextIndex| == |c'.nodes[v].matchIndex| == |c.nodes|
      && (forall i :: 0 <= i < |c.nodes| ==>
            && c'.nodes[v].nextIndex[i] == (if i == v then None else Some(|s.log|))
            && c'.nodes[v].matchIndex[i] == if i == v then |s.log| else s.commitIndex)
      && forall i: nat :: i < |c.nodes| ==>
        c'.net[(v, i)] == c.net[(v, i)] + [Heartbeat(s.term, v, v, s.commitIndex), AppendOf(s, opening)]
  {
    LocalActs(c, Enter(v));
    var s := c.nodes[v];
    EntersNode(s);
    hide Next, Becomes, Routed, ClusterOk, EnterLeader;
    BecomesNode(c, Next(c, Enter(v)), v, EnterLeader(s).node);
    forall i: nat | i < |c.nodes|
      ensures Routed(EnterLeader(s).sent, i)
           == [Heartbeat(s.term, v, v, s.commitIndex), AppendOf(s, Entry(s.term, "{}", -1))]
    {
      EntersSending(s, i);
    }
  }

  lemma EntersNode(s: Node)
    requires Shape(s)
    ensures var s' := EnterLeader(s).node;
      && s' == s.(role := Leader, leaderId := Some(s.me), log := s.log + [Entry(s.term, "{}", -1)],
                  nextIndex := s'.nextIndex, matchIndex := s'.matchIndex)
      && |s'.nextIndex| == |s'.matchIndex| == s.n
      && forall i :: 0 <= i < s.n ==>
        && s'.nextIndex[i] == (if i == s.me then None else Some(|s.log|))
        && s'.matchIndex[i] == if i == s.me then |s.log| else s.commitIndex
  {
    hide Multicast, UpToDate;
  }

  lemma EntersSending(s: Node, i: nat)
    requires Shape(s) && i < s.n
    ensures Routed(EnterLeader(s).sent, i)
         == [Heartbeat(s.term, s.me, s.me, s.commitIndex), AppendOf(s, Entry(s.term, "{}", -1))]
  {
    var entry := Entry(s.term, "{}", -1);
    var s1 := s.(role := Leader, leaderId := Some(s.me),
                 matchIndex := seq(s.n, _ => s.commitIndex), nextIndex := seq(s.n, _ => None));
    var beat := Envelope(None, HeartbeatMessage(s));
    AppendSends(s1, entry, i);
    assert EnterLeader(s).sent == [beat] + BroadcastAppend(s1, entry).sent;
    hide Routed, EnterLeader, BroadcastAppend;
    RoutedConcat([beat], BroadcastAppend(s1, entry).sent, i);
    RoutedOne(beat, i);
  }

  // ---- any role ----

  /** A client request is queued behind the others, with the node's term of that moment. */
  lemma Queues(c: Cluster, v: nat, value: string, id: int)
    requires ClusterOk(c) && v < |c.nodes|
    ensures var c', s := Next(c, SubmitRequest(v, value, id)), c.nodes[v];
      && Becomes(c, c', v, s.(queue := s.queue + [Entry(s.term, value, id)]))
      && forall i: nat :: i < |c.nodes| ==> c'.net[(v, i)] == c.net[(v, i)]
  {
    hide Next, Becomes, ClusterOk, Routed;
    LocalActs(c, SubmitRequest(v, value, id));
    forall i: nat ensures Routed([], i) == [] { NothingRouted(i); }
  }

  /** A pause stops a node in any role; only a paused node is resumed, as a follower that remembers everything. */
  lemma PausesAndResumes(c: Cluster, v: nat)
    requires ClusterOk(c) && v < |c.nodes|
    ensures Becomes(c, Next(c, Pause(v)), v, c.nodes[v].(role := Paused))
    ensures if c.nodes[v].role == Paused then Becomes(c, Next(c, Unpause(v)), v, c.nodes[v].(role := Follower))
            else Next(c, Unpause(v)) == c
  {
    hide Next, Becomes, ClusterOk, Routed;
    LocalActs(c, Pause(v));
    LocalActs(c, Unpause(v));
  }
}
