/** What a node's reading of a message does, seen from outside: the node before
    and after the event, and the channels before and after it. */
module RaftReactions {
  import opened RaftProtocol
  import opened RaftSpec
  import opened RaftCluster

  /** The message at that place of the channel. */
  function Read(c: Cluster, src: nat, dst: nat, pos: nat): Message
    requires InFlight(c, src, dst, pos)
  {
    c.net[(src, dst)][pos]
  }

  /** Channel k without the message that is read. */
  function Left(c: Cluster, src: nat, dst: nat, pos: nat, k: (nat, nat)): seq<Message>
    requires InFlight(c, src, dst, pos) && k in c.net
  {
    if k == (src, dst) then c.net[k][..pos] + c.net[k][pos + 1..] else c.net[k]
  }

  /** Node dst takes the message off its channel and becomes s'; it sends `answer`, to node `to` and to nobody else;
      no other node changes. */
  ghost predicate Reacts(c: Cluster, c': Cluster, src: nat, dst: nat, pos: nat, s': Node, to: nat, answer: seq<Message>)
    requires InFlight(c, src, dst, pos)
  {
    && |c'.nodes| == |c.nodes| && c'.net.Keys == c.net.Keys
    && (forall u :: 0 <= u < |c.nodes| ==> c'.nodes[u] == if u == dst then s' else c.nodes[u])
    && forall k :: k in c.net ==> c'.net[k] == Left(c, src, dst, pos, k) + if k == (dst, to) then answer else []
  }

  /** Node dst of the cluster is about to read that message in its present role. */
  ghost predicate Reading(c: Cluster, src: nat, dst: nat, pos: nat, role: Role)
  {
    ClusterOk(c) && InFlight(c, src, dst, pos) && c.nodes[dst].role == role && Reads(role)
  }

  // ---- from effects to what is seen ----

  lemma ReadingMeans(c: Cluster, src: nat, dst: nat, pos: nat, role: Role)
    requires Reading(c, src, dst, pos, role)
    ensures ClusterOk(c) && InFlight(c, src, dst, pos) && src < |c.nodes| && dst < |c.nodes|
    ensures var s, m := c.nodes[dst], Read(c, src, dst, pos);
      && NodeOk(s) && s.role == role && s.me == dst && s.n == |c.nodes| && m.sender == src
      && Next(c, Deliver(src, dst, pos)) == Apply(Take(c, src, dst, pos), dst, On(s, m))
  {
    hide On, Next, MoveOf;
    NextReads(c, src, dst, pos);
  }

  /** Channel k after node dst took that message off its channel and did `eff`. */
  lemma ChannelAfter(c: Cluster, src: nat, dst: nat, pos: nat, eff: Effect, k: (nat, nat))
    requires InFlight(c, src, dst, pos) && dst < |c.nodes| && k in c.net
    ensures var c' := Apply(Take(c, src, dst, pos), dst, eff);
      && |c'.nodes| == |c.nodes| && c'.net.Keys == c.net.Keys
      && c'.net[k] == Left(c, src, dst, pos, k) + if k.0 == dst then Routed(eff.sent, k.1) else []
  {
    hide Routed;
    var l := Left(c, src, dst, pos, k);
    assert l + [] == l;
  }

  lemma OneAnswer(c: Cluster, src: nat, dst: nat, pos: nat, s': Node, to: nat, m: Message)
    requires InFlight(c, src, dst, pos) && dst < |c.nodes|
    ensures var c' := Apply(Take(c, src, dst, pos), dst, Effect(s', [Envelope(Some(to), m)]));
      Reacts(c, c', src, dst, pos, s', to, [m])
  {
    var eff := Effect(s', [Envelope(Some(to), m)]);
    var c' := Apply(Take(c, src, dst, pos), dst, eff);
    ChannelAfter(c, src, dst, pos, eff, (src, dst));
    assert forall u :: 0 <= u < |c.nodes| ==> c'.nodes[u] == if u == dst then s' else c.nodes[u];
    hide Routed, Apply, Take, Left;
    forall k | k in c.net
      ensures c'.net[k] == Left(c, src, dst, pos, k) + if k == (dst, to) then [m] else []
    {
      ChannelAfter(c, src, dst, pos, eff, k);
      RoutedOne(Envelope(Some(to), m), k.1);
    }
  }

  lemma NoAnswer(c: Cluster, src: nat, dst: nat, pos: nat, s': Node, to: nat)
    requires InFlight(c, src, dst, pos) && dst < |c.nodes|
    ensures Reacts(c, Apply(Take(c, src, dst, pos), dst, Effect(s', [])), src, dst, pos, s', to, [])
  {
    var c' := Apply(Take(c, src, dst, pos), dst, Effect(s', []));
    forall k | k in c.net ensures c'.net[k] == Left(c, src, dst, pos, k) + [] {
      var l := Left(c, src, dst, pos, k);
      assert l + [] == l;
    }
  }

  // ---- vote requests ----

  /** The answer of a node to a vote request: it carries the node's term, and how far the node has applied its log. */
  function VoteOf(s: Node, term: nat, candidate: nat, granted: bool): Message
  {
    Vote(term, s.me, candidate, s.lastAppliedIndex, s.lastAppliedTerm, granted)
  }

  /** A leader or candidate that reads a vote request of a higher term becomes a follower of that term and grants its
      vote; a request of its own term or a lower one changes nothing and is not answered. */
  lemma YieldsToHigherTerm(c: Cluster, src: nat, dst: nat, pos: nat)
    requires Reading(c, src, dst, pos, Leader) || Reading(c, src, dst, pos, Candidate)
    requires Read(c, src, dst, pos).RequestVote?
    ensures dst < |c.nodes|
    ensures var c', s, m := Next(c, Deliver(src, dst, pos)), c.nodes[dst], Read(c, src, dst, pos);
      && (m.term > s.term ==>
            Reacts(c, c', src, dst, pos, s.(role := Follower, term := m.term, votedFor := Some(src)), src,
                   [VoteOf(s, m.term, src, true)]))
      && (m.term <= s.term ==> Reacts(c, c', src, dst, pos, s, src, []))
  {
    hide Reacts, Next, Take, Apply, ClusterOk;
    ReadingMeans(c, src, dst, pos, if Reading(c, src, dst, pos, Leader) then Leader else Candidate);
    var s, m := c.nodes[dst], Read(c, src, dst, pos);
    if m.term > s.term {
      OneAnswer(c, src, dst, pos, s.(role := Follower, term := m.term, votedFor := Some(src)), src,
                VoteOf(s, m.term, src, true));
    } else {
      NoAnswer(c, src, dst, pos, s, src);
    }
  }

  function Larger(a: nat, b: nat): nat
  {
    if a > b then a else b
  }

  /** A follower grants its vote exactly when it has not voted in the term it then has and the candidate has applied
      its log at least as far, by index and by term; otherwise it refuses.  Either answer is recorded as its vote. */
  predicate Grants(s: Node, m: Message)
    requires m.RequestVote?
  {
    && (m.term > s.term || s.votedFor == None)
    && m.lastLogIndex >= s.lastAppliedIndex
    && m.lastLogTerm >= s.lastAppliedTerm
  }

  lemma FollowerVotes(c: Cluster, src: nat, dst: nat, pos: nat)
    requires Reading(c, src, dst, pos, Follower) && Read(c, src, dst, pos).RequestVote?
    ensures dst < |c.nodes|
    ensures var c', s, m := Next(c, Deliver(src, dst, pos)), c.nodes[dst], Read(c, src, dst, pos);
      Reacts(c, c', src, dst, pos, s.(term := Larger(m.term, s.term), votedFor := Some(src)), src,
             [VoteOf(s, Larger(m.term, s.term), src, Grants(s, m))])
  {
    hide Reacts, Next, Take, Apply, ClusterOk;
    ReadingMeans(c, src, dst, pos, Follower);
    var s, m := c.nodes[dst], Read(c, src, dst, pos);
    OneAnswer(c, src, dst, pos, s.(term := Larger(m.term, s.term), votedFor := Some(src)), src,
              VoteOf(s, Larger(m.term, s.term), src, Grants(s, m)));
  }

  // ---- heartbeats ----

  /** A follower that reads a heartbeat moves up to its term, with no vote cast yet if that is a new one, knows its
      leader, and forwards it the oldest of its own client requests, if it has one. */
  lemma FollowerHears(c: Cluster, src: nat, dst: nat, pos: nat)
    requires Reading(c, src, dst, pos, Follower) && Read(c, src, dst, pos).Heartbeat?
    ensures dst < |c.nodes|
    ensures var c', s, m := Next(c, Deliver(src, dst, pos)), c.nodes[dst], Read(c, src, dst, pos);
      var t := Larger(m.term, s.term);
      var s' := s.(term := t, votedFor := if m.term > s.term then None else s.votedFor, leaderId := Some(m.leaderId));
      && (s.queue == [] ==> Reacts(c, c', src, dst, pos, s', src, []))
      && (s.queue != [] ==>
            Reacts(c, c', src, dst, pos, s'.(queue := s.queue[1..]), m.leaderId,
                   [ClientRequest(t, dst, Some(m.leaderId), s.lastAppliedIndex, s.lastAppliedTerm, s.queue[0],
                                  s.commitIndex)]))
  {
    hide Reacts, Next, Take, Apply, ClusterOk;
    ReadingMeans(c, src, dst, pos, Follower);
    var s, m := c.nodes[dst], Read(c, src, dst, pos);
    var t := Larger(m.term, s.term);
    var s' := s.(term := t, votedFor := if m.term > s.term then None else s.votedFor, leaderId := Some(m.leaderId));
    if s.queue == [] {
      NoAnswer(c, src, dst, pos, s', src);
    } else {
      OneAnswer(c, src, dst, pos, s'.(queue := s.queue[1..]), m.leaderId,
                ClientRequest(t, dst, Some(m.leaderId), s.lastAppliedIndex, s.lastAppliedTerm, s.queue[0],
                              s.commitIndex));
    }
  }

  /** What of that concerns terms: the larger term, the vote cleared only if that is a new one, the leader named. */
  lemma HeartbeatBrings(c: Cluster, src: nat, dst: nat, pos: nat)
    requires Reading(c, src, dst, pos, Follower) && Read(c, src, dst, pos).Heartbeat?
    ensures dst < |c.nodes|
    ensures var s, s', m := c.nodes[dst], Next(c, Deliver(src, dst, pos)).nodes[dst], Read(c, src, dst, pos);
      && s'.role == Follower && s'.term == Larger(m.term, s.term) && s'.leaderId == Some(m.leaderId)
      && s'.votedFor == (if s'.term > s.term then None else s.votedFor)
  {
    FollowerHears(c, src, dst, pos);
    hide Next, ClusterOk;
  }

  /** A candidate gives up on a heartbeat of its own term or a higher one, with no vote cast in that term. */
  lemma CandidateHears(c: Cluster, src: nat, dst: nat, pos: nat)
    requires Reading(c, src, dst, pos, Candidate) && Read(c, src, dst, pos).Heartbeat?
    ensures dst < |c.nodes|
    ensures var c', s, m := Next(c, Deliver(src, dst, pos)), c.nodes[dst], Read(c, src, dst, pos);
      Reacts(c, c', src, dst, pos,
             if m.term >= s.term then
               s.(role := Follower, term := m.term, votedFor := None, leaderId := Some(m.leaderId))
             else s,
             src, [])
  {
    hide Reacts, Next, Take, Apply, ClusterOk;
    ReadingMeans(c, src, dst, pos, Candidate);
    var s, m := c.nodes[dst], Read(c, src, dst, pos);
    NoAnswer(c, src, dst, pos,
             if m.term >= s.term then
               s.(role := Follower, term := m.term, votedFor := None, leaderId := Some(m.leaderId))
             else s,
             src);
  }

  // ---- votes ----

  /** A candidate counts a granted vote, whatever its term, and is elected by a majority of all nodes. */
  lemma CandidateCounts(c: Cluster, src: nat, dst: nat, pos: nat)
    requires Reading(c, src, dst, pos, Candidate) && Read(c, src, dst, pos).Vote?
    ensures dst < |c.nodes|
    ensures var c', s, m := Next(c, Deliver(src, dst, pos)), c.nodes[dst], Read(c, src, dst, pos);
      var votes := s.votesForMe + if m.granted then 1 else 0;
      Reacts(c, c', src, dst, pos,
             s.(votesForMe := votes, totalVotes := s.totalVotes + 1,
                role := if 2 * votes > |c.nodes| || |c.nodes| == 1 then Elected else Candidate),
             src, [])
  {
    hide Reacts, Next, Take, Apply, ClusterOk;
    ReadingMeans(c, src, dst, pos, Candidate);
    var s, m := c.nodes[dst], Read(c, src, dst, pos);
    var votes := s.votesForMe + if m.granted then 1 else 0;
    NoAnswer(c, src, dst, pos,
             s.(votesForMe := votes, totalVotes := s.totalVotes + 1,
                role := if 2 * votes > |c.nodes| || |c.nodes| == 1 then Elected else Candidate),
             src);
  }

  // ---- appends and committals ----

  /** An append is accepted when it is not of an older term and the entry before it is there, in that term. */
  predicate Accepts(s: Node, m: Message)
    requires m.AppendEntries?
  {
    m.term >= s.term && m.prevLogIndex < |s.log| && s.log[m.prevLogIndex].term == m.prevLogTerm
  }

  /** The acknowledgement of s. */
  function AckOf(s: Node, success: bool): Message
  {
    Acknowledge(s.term, s.me, s.leaderId, s.lastAppliedIndex, s.lastAppliedTerm, s.commitIndex, success)
  }

  /** A follower's log changes on reading an append exactly as far as it accepts it, and the acknowledgement says
      whether it did.  When the leader has committed more than the follower, the follower takes the place before the
      new entry for committed, and the term of the new entry for the term there. */
  lemma FollowerAppends(c: Cluster, src: nat, dst: nat, pos: nat)
    requires Reading(c, src, dst, pos, Follower) && Read(c, src, dst, pos).AppendEntries?
    ensures dst < |c.nodes|
    ensures var c', s, m := Next(c, Deliver(src, dst, pos)), c.nodes[dst], Read(c, src, dst, pos);
      && c'.nodes[dst].log == (if Accepts(s, m) then s.log[..m.prevLogIndex + 1] + [m.entry] else s.log)
      && (if Accepts(s, m) && m.leaderCommit > s.commitIndex then
            && c'.nodes[dst].commitIndex == m.prevLogIndex == c'.nodes[dst].lastAppliedIndex
            && c'.nodes[dst].lastAppliedTerm == m.entry.term
          else
            && c'.nodes[dst].commitIndex == s.commitIndex
            && c'.nodes[dst].lastAppliedIndex == s.lastAppliedIndex
            && c'.nodes[dst].lastAppliedTerm == s.lastAppliedTerm)
      && var s' := s.(log := c'.nodes[dst].log, commitIndex := c'.nodes[dst].commitIndex,
                      lastAppliedIndex := c'.nodes[dst].lastAppliedIndex,
                      lastAppliedTerm := c'.nodes[dst].lastAppliedTerm);
         Reacts(c, c', src, dst, pos, s', m.leaderId, [AckOf(s', Accepts(s, m))])
  {
    hide Reacts, Next, Take, ClusterOk;
    ReadingMeans(c, src, dst, pos, Follower);
    var s, m := c.nodes[dst], Read(c, src, dst, pos);
    var s' := On(s, m).node;
    assert On(s, m) == Effect(s', [Envelope(Some(m.leaderId), AckOf(s', Accepts(s, m)))]);
    OneAnswer(c, src, dst, pos, s', m.leaderId, AckOf(s', Accepts(s, m)));
    assert Apply(Take(c, src, dst, pos), dst, On(s, m)).nodes[dst] == s' by {
      TakesNoNode(c, src, dst, pos);
    }
  }

  lemma TakesNoNode(c: Cluster, src: nat, dst: nat, pos: nat)
    requires InFlight(c, src, dst, pos)
    ensures Take(c, src, dst, pos).nodes == c.nodes
  {
  }

  /** A follower that reads a committal takes over its index and term without looking at its log. */
  lemma FollowerCommits(c: Cluster, src: nat, dst: nat, pos: nat)
    requires Reading(c, src, dst, pos, Follower) && Read(c, src, dst, pos).Committal?
    ensures dst < |c.nodes|
    ensures var c', s, m := Next(c, Deliver(src, dst, pos)), c.nodes[dst], Read(c, src, dst, pos);
      Reacts(c, c', src, dst, pos,
             s.(commitIndex := m.prevLogIndex, lastAppliedIndex := m.prevLogIndex, lastAppliedTerm := m.prevLogTerm),
             src, [])
  {
    hide Reacts, Next, Take, Apply, ClusterOk;
    ReadingMeans(c, src, dst, pos, Follower);
    var s, m := c.nodes[dst], Read(c, src, dst, pos);
    NoAnswer(c, src, dst, pos,
             s.(commitIndex := m.prevLogIndex, lastAppliedIndex := m.prevLogIndex, lastAppliedTerm := m.prevLogTerm),
             src);
  }

  // ---- messages that are not for the role ----

  predicate NotFor(role: Role, m: Message)
  {
    match role
    case Follower => m.Vote? || m.Acknowledge? || m.ClientRequest?
    case Candidate => m.AppendEntries? || m.Committal? || m.Acknowledge? || m.ClientRequest?
    case Leader => m.Vote? || m.Heartbeat? || m.AppendEntries? || m.Committal?
    case _ => true
  }

  /** A message that is not for the reader's role is taken off its channel and changes nothing else. */
  lemma Ignores(c: Cluster, src: nat, dst: nat, pos: nat, role: Role)
    requires Reading(c, src, dst, pos, role) && NotFor(role, Read(c, src, dst, pos))
    ensures dst < |c.nodes|
    ensures Reacts(c, Next(c, Deliver(src, dst, pos)), src, dst, pos, c.nodes[dst], src, [])
  {
    hide Reacts, Next, Take, Apply, ClusterOk;
    ReadingMeans(c, src, dst, pos, role);
    NoAnswer(c, src, dst, pos, c.nodes[dst], src);
  }

  /** A node that is about to stand or to lead, or is paused, reads nothing. */
  lemma Waits(c: Cluster, src: nat, dst: nat, pos: nat)
    requires ClusterOk(c) && InFlight(c, src, dst, pos)
    requires c.nodes[dst].role == Standing || c.nodes[dst].role == Elected || c.nodes[dst].role == Paused
    ensures Next(c, Deliver(src, dst, pos)) == c
  {
    hide On;
  }

  /** A message that is lost is gone, and nothing else happens. */
  lemma Loses(c: Cluster, src: nat, dst: nat, pos: nat)
    requires ClusterOk(c) && InFlight(c, src, dst, pos)
    ensures var c' := Next(c, Drop(src, dst, pos));
      && c'.nodes == c.nodes && c'.net.Keys == c.net.Keys
      && forall k :: k in c.net ==> c'.net[k] == Left(c, src, dst, pos, k)
  {
    assert Next(c, Drop(src, dst, pos)) == Take(c, src, dst, pos);
    hide Next, ClusterOk;
  }
}
