/** What the reactions of the nodes add up to over runs: old terms stay over,
    stale appends stay refused, votes go to candidates that have applied as
    much, and what is applied is what is committed. */
module RaftRuns {
  import opened RaftProtocol
  import opened RaftSpec
  import opened RaftCluster
  import opened RaftReactions
  import RaftElection

  /** The state before event k of the run. */
  function At(c: Cluster, evs: seq<Event>, k: nat): (c': Cluster)
    requires ClusterOk(c) && k <= |evs|
    ensures ClusterOk(c') && |c'.nodes| == |c.nodes|
  {
    Exec(c, evs[..k])
  }

  lemma TermsLater(c: Cluster, evs: seq<Event>, k: nat, j: nat, v: nat)
    requires ClusterOk(c) && k <= j <= |evs| && v < |c.nodes|
    ensures At(c, evs, k).nodes[v].term <= At(c, evs, j).nodes[v].term
  {
    hide Exec;
    assert evs[..j] == evs[..k] + evs[k..j];
    ExecConcat(c, evs[..k], evs[k..j]);
    RaftElection.TermsNeverDecrease(At(c, evs, k), evs[k..j], v);
  }

  // ---- old terms ----

  /** In event k node v reads a vote request of a term above its own. */
  ghost predicate SeesHigherTerm(c: Cluster, evs: seq<Event>, k: nat, v: nat, src: nat, pos: nat)
    requires ClusterOk(c) && k < |evs| && v < |c.nodes|
  {
    var now := At(c, evs, k);
    && evs[k] == Deliver(src, v, pos)
    && InFlight(now, src, v, pos) && Reads(now.nodes[v].role)
    && Read(now, src, v, pos).RequestVote? && Read(now, src, v, pos).term > now.nodes[v].term
  }

  lemma HigherTermTaken(c: Cluster, src: nat, v: nat, pos: nat)
    requires ClusterOk(c) && InFlight(c, src, v, pos) && v < |c.nodes| && Reads(c.nodes[v].role)
    requires Read(c, src, v, pos).RequestVote? && Read(c, src, v, pos).term > c.nodes[v].term
    ensures var s' := Next(c, Deliver(src, v, pos)).nodes[v];
      s'.role == Follower && s'.term == Read(c, src, v, pos).term && s'.votedFor == Some(src)
  {
    hide Next, ClusterOk;
    if c.nodes[v].role == Follower {
      FollowerVotes(c, src, v, pos);
    } else {
      YieldsToHigherTerm(c, src, v, pos);
    }
  }

  /** A node that has read a vote request of a higher term follows at once, and never again stands, leads or does
      anything else in its old term or an older one. */
  lemma OldTermIsOver(c: Cluster, evs: seq<Event>, k: nat, v: nat, src: nat, pos: nat, j: nat)
    requires ClusterOk(c) && k < j <= |evs| && v < |c.nodes| && SeesHigherTerm(c, evs, k, v, src, pos)
    ensures At(c, evs, k + 1).nodes[v].role == Follower && At(c, evs, k + 1).nodes[v].votedFor == Some(src)
    ensures At(c, evs, j).nodes[v].term >= Read(At(c, evs, k), src, v, pos).term > At(c, evs, k).nodes[v].term
  {
    hide Exec, Next, ClusterOk;
    ExecStep(c, evs, k);
    HigherTermTaken(At(c, evs, k), src, v, pos);
    TermsLater(c, evs, k + 1, j, v);
  }

  /** Once a node is in a term, an append of an older term that it reads as a follower leaves its log, its commit
      index and all else as they are, and is refused. */
  lemma StaleAppendsAreRefused(c: Cluster, evs: seq<Event>, k: nat, v: nat, src: nat, pos: nat, j: nat)
    requires ClusterOk(c) && k <= j < |evs| && v < |c.nodes| && evs[j] == Deliver(src, v, pos)
    requires Reading(At(c, evs, j), src, v, pos, Follower) && Read(At(c, evs, j), src, v, pos).AppendEntries?
    requires Read(At(c, evs, j), src, v, pos).term < At(c, evs, k).nodes[v].term
    ensures var now, m := At(c, evs, j), Read(At(c, evs, j), src, v, pos);
      Reacts(now, At(c, evs, j + 1), src, v, pos, now.nodes[v], m.leaderId, [AckOf(now.nodes[v], false)])
  {
    hide Exec, Next, ClusterOk, Reacts;
    ExecStep(c, evs, j);
    TermsLater(c, evs, k, j, v);
    FollowerAppends(At(c, evs, j), src, v, pos);
  }

  /** Reading an append takes a follower's commit index back exactly when it accepts the append, the leader has
      committed more, and the place before the new entry is below what was committed. */
  lemma CommitGoesBackIff(c: Cluster, src: nat, dst: nat, pos: nat)
    requires Reading(c, src, dst, pos, Follower) && Read(c, src, dst, pos).AppendEntries?
    ensures dst < |c.nodes|
    ensures var s, s', m := c.nodes[dst], Next(c, Deliver(src, dst, pos)).nodes[dst], Read(c, src, dst, pos);
      && (s'.commitIndex < s.commitIndex
          <==> Accepts(s, m) && m.prevLogIndex < s.commitIndex < m.leaderCommit)
      && (s'.commitIndex > m.leaderCommit && s'.commitIndex != s.commitIndex
          <==> Accepts(s, m) && s.commitIndex < m.leaderCommit < m.prevLogIndex)
  {
    hide Next, ClusterOk, Reacts;
    FollowerAppends(c, src, dst, pos);
  }

  // ---- what is applied ----

  ghost predicate AppliedIsCommit(s: Node)
  {
    s.lastAppliedIndex == s.commitIndex
  }

  lemma ReadKeepsApplied(s: Node, m: Message)
    requires NodeOk(s) && m.sender < s.n && AppliedIsCommit(s)
    ensures AppliedIsCommit(On(s, m).node)
  {
    hide Multicast, UpToDate;
    if s.role == Leader && m.Acknowledge? && s.nextIndex[m.sender].Some? {
      var a := AdvanceOnAck(s, m.sender, m.success).node;
      assert Minimum(a.matchIndex) <= a.matchIndex[a.me];
    }
  }

  lemma LocalKeepsApplied(s: Node, ev: Event)
    requires NodeOk(s) && AppliedIsCommit(s) && LocalStep(s, ev).Some?
    ensures AppliedIsCommit(LocalStep(s, ev).value.node)
  {
    hide Multicast, UpToDate;
  }

  lemma AppliedStep(c: Cluster, ev: Event, v: nat)
    requires ClusterOk(c) && v < |c.nodes| && AppliedIsCommit(c.nodes[v])
    ensures AppliedIsCommit(Next(c, ev).nodes[v])
  {
    hide On, LocalStep, AppliedIsCommit, Routed;
    match MoveOf(c, ev) {
      case Act(base, u, eff) =>
        if u == v {
          if ev.Deliver? {
            ReadKeepsApplied(c.nodes[u], c.net[(ev.src, ev.dst)][ev.pos]);
          } else {
            LocalKeepsApplied(c.nodes[u], ev);
          }
        }
      case _ =>
    }
  }

  /** Over every run the last applied index of every node is its commit index. */
  lemma {:induction false} AppliedIsCommitted(n: nat, evs: seq<Event>, v: nat)
    requires n >= 1 && v < n
    ensures Exec(Boot(n), evs).nodes[v].lastAppliedIndex == Exec(Boot(n), evs).nodes[v].commitIndex
  {
    if evs == [] {
      assert Boot(n).nodes[v] == InitNode(n, v);
    } else {
      hide Boot, Next;
      AppliedIsCommitted(n, evs[..|evs| - 1], v);
      AppliedStep(Exec(Boot(n), evs[..|evs| - 1]), evs[|evs| - 1], v);
    }
  }

  // ---- what a vote request says ----

  /** In event k node a, about to stand, sends that request: it carries what the node has applied by then. */
  ghost predicate AskedAt(n: nat, evs: seq<Event>, k: nat, a: nat, m: Message)
    requires n >= 1
  {
    && k < |evs| && a < n && evs[k] == Enter(a)
    && var s := At(Boot(n), evs, k).nodes[a];
       && s.role == Standing
       && m == RequestVote(s.term + 1, a, a, s.lastAppliedIndex, s.lastAppliedTerm)
  }

  /** What a node sends when it reads a message: no vote request and no heartbeat. */
  predicate Reply(m: Message)
  {
    !m.RequestVote? && !m.Heartbeat?
  }

  ghost predicate Replies(sent: seq<Envelope>)
  {
    forall x :: x in sent ==> Reply(x.msg)
  }

  lemma MulticastReplies(to: seq<bool>, msg: Message)
    requires Reply(msg)
    ensures Replies(Multicast(to, msg))
  {
    forall x | x in Multicast(to, msg) ensures Reply(x.msg) {
      MulticastIn(to, msg, x);
    }
  }

  lemma BroadcastReplies(s: Node, entry: Entry)
    requires Shape(s)
    ensures Replies(BroadcastAppend(s, entry).sent)
  {
    var prev := |s.log| - 1;
    MulticastReplies(UpToDate(s.nextIndex), AppendMessage(s, prev, s.log[prev].term, entry));
  }

  lemma AckReplies(s: Node, i: nat, success: bool)
    requires NodeOk(s) && s.role == Leader && i < s.n
    ensures Replies(LeaderOnAck(s, i, success).sent)
  {
    if s.nextIndex[i].Some? {
      var a := AdvanceOnAck(s, i, success);
      var least := Minimum(a.node.matchIndex);
      assert least <= a.node.matchIndex[s.me];
      var s1 := CommitEntry(a.node, least, a.node.log[least].term);
      MulticastReplies(Everyone(s1.n), CommittalMessage(s1));
    }
  }

  lemma ReadingReplies(s: Node, m: Message)
    requires NodeOk(s) && m.sender < s.n
    ensures Replies(On(s, m).sent)
  {
    hide LeaderOnAck, BroadcastAppend;
    if s.role == Leader && m.Acknowledge? {
      AckReplies(s, m.sender, m.success);
    } else if s.role == Leader && m.ClientRequest? {
      BroadcastReplies(s, m.entry);
    }
  }

  /** Vote requests come only from a node that starts to stand, heartbeats only from one that leads or starts to. */
  lemma LocalSends(s: Node, ev: Event, x: Envelope)
    requires NodeOk(s) && LocalStep(s, ev).Some? && x in LocalStep(s, ev).value.sent && !Reply(x.msg)
    ensures x.msg.RequestVote? ==>
      && ev.Enter? && s.role == Standing
      && x.msg == RequestVote(s.term + 1, s.me, s.me, s.lastAppliedIndex, s.lastAppliedTerm)
    ensures x.msg.Heartbeat? ==> (s.role == Elected || s.role == Leader) && x.msg.term == s.term
  {
    if ev.Enter? && s.role == Elected {
      var s1 := s.(role := Leader, leaderId := Some(s.me),
                   matchIndex := seq(s.n, _ => s.commitIndex), nextIndex := seq(s.n, _ => None));
      BroadcastReplies(s1, Entry(s.term, "{}", -1));
      hide BroadcastAppend;
    } else if ev.ServeClient? && s.queue != [] {
      BroadcastReplies(s.(queue := s.queue[1..]), s.queue[0]);
      hide BroadcastAppend;
    } else {
      hide EnterLeader, PopClient;
    }
  }

  /** A message in a channel was there before the event, or its sender sent it in the event. */
  lemma NewMessage(c: Cluster, ev: Event, k: (nat, nat), m: Message)
    requires ClusterOk(c) && k in c.net && m in Next(c, ev).net[k] && m !in c.net[k]
    ensures MoveOf(c, ev).Act? && MoveOf(c, ev).v == k.0 < |c.nodes|
    ensures exists x :: x in MoveOf(c, ev).eff.sent && x.msg == m
  {
    hide On, LocalStep, Routed, ClusterOk, EffectOk;
    match MoveOf(c, ev) {
      case Idle =>
      case Lose(base) =>
      case Act(base, u, eff) =>
        assert m !in base.net[k];
        RoutedIn(eff.sent, k.1, m);
    }
  }

  /** A vote request or heartbeat in a channel was there before the event, or its sender acted on its own. */
  lemma NewCall(c: Cluster, ev: Event, k: (nat, nat), m: Message)
    requires ClusterOk(c) && k in c.net && m in Next(c, ev).net[k] && m !in c.net[k] && !Reply(m)
    ensures k.0 < |c.nodes|
    ensures var s := c.nodes[k.0];
      && (m.RequestVote? ==>
            && ev == Enter(k.0) && s.role == Standing
            && m == RequestVote(s.term + 1, k.0, k.0, s.lastAppliedIndex, s.lastAppliedTerm))
      && (m.Heartbeat? ==> (s.role == Elected || s.role == Leader) && m.term == s.term)
  {
    hide *;
    NewMessage(c, ev, k, m);
    ActMeans(c, ev);
    var x :| x in MoveOf(c, ev).eff.sent && x.msg == m;
    if ev.Deliver? {
      ReadingReplies(c.nodes[k.0], c.net[(ev.src, ev.dst)][ev.pos]);
      NoCall(MoveOf(c, ev).eff.sent, x);
    } else {
      CallKinds(m);
      LocalSends(c.nodes[k.0], ev, x);
    }
  }

  lemma NoCall(sent: seq<Envelope>, x: Envelope)
    requires Replies(sent) && x in sent
    ensures Reply(x.msg)
  {
  }

  lemma CallKinds(m: Message)
    ensures !Reply(m) <==> m.RequestVote? || m.Heartbeat?
  {
  }

  /** Who acts in an event, and how. */
  lemma ActMeans(c: Cluster, ev: Event)
    requires ClusterOk(c) && MoveOf(c, ev).Act?
    ensures var v, eff := MoveOf(c, ev).v, MoveOf(c, ev).eff;
      && v < |c.nodes| && NodeOk(c.nodes[v]) && c.nodes[v].me == v && c.nodes[v].n == |c.nodes|
      && (ev.Deliver? ==>
            && InFlight(c, ev.src, ev.dst, ev.pos) && v == ev.dst
            && (ev.src, ev.dst) in c.net && ev.pos < |c.net[(ev.src, ev.dst)]|
            && c.net[(ev.src, ev.dst)][ev.pos].sender < |c.nodes|
            && eff == On(c.nodes[v], c.net[(ev.src, ev.dst)][ev.pos]))
      && (!ev.Deliver? ==> !ev.Drop? && v == ev.node && LocalStep(c.nodes[v], ev) == Some(eff))
  {
    hide On, LocalStep;
  }

  /** Every vote request on its way carries the index and the term of what its candidate had applied when it began
      to stand. */
  lemma {:induction false} RequestsTellWhatIsApplied(n: nat, evs: seq<Event>, a: nat, b: nat, m: Message)
    requires n >= 1 && (a, b) in Exec(Boot(n), evs).net && m in Exec(Boot(n), evs).net[(a, b)] && m.RequestVote?
    ensures exists k: nat :: AskedAt(n, evs, k, a, m)
  {
    if evs == [] {
      hide Boot;
      assert false;
    } else {
      var k := |evs| - 1;
      hide Boot, Next, AskedAt;
      assert evs[..k + 1] == evs;
      var before := Exec(Boot(n), evs[..k]);
      if m !in before.net[(a, b)] {
        NewCall(before, evs[k], (a, b), m);
      }
      if m in before.net[(a, b)] {
        RequestsTellWhatIsApplied(n, evs[..k], a, b, m);
        var j: nat :| AskedAt(n, evs[..k], j, a, m);
        AskedLater(n, evs, k, j, a, m);
      } else {
        AskedNow(n, evs, k, a, m);
      }
    }
  }

  lemma AskedLater(n: nat, evs: seq<Event>, k: nat, j: nat, a: nat, m: Message)
    requires n >= 1 && k <= |evs| && AskedAt(n, evs[..k], j, a, m)
    ensures AskedAt(n, evs, j, a, m) && j < k
  {
    hide Boot, Exec;
    assert evs[..k][..j] == evs[..j];
  }

  lemma AskedNow(n: nat, evs: seq<Event>, k: nat, a: nat, m: Message)
    requires n >= 1 && k < |evs| && a < n && evs[k] == Enter(a)
    requires var s := Exec(Boot(n), evs[..k]).nodes[a];
      s.role == Standing && m == RequestVote(s.term + 1, a, a, s.lastAppliedIndex, s.lastAppliedTerm)
    ensures AskedAt(n, evs, k, a, m)
  {
    hide Boot, Exec;
  }

  /** Over every run: a follower that reads a vote request grants its vote exactly when it has not voted in the term
      of the answer and the candidate, when it began to stand, had applied at least as far as the follower has by
      now, by index and by term. */
  lemma VotesGoToTheAppliedIff(n: nat, evs: seq<Event>, src: nat, dst: nat, pos: nat)
    returns (k: nat, granted: bool)
    requires n >= 1
    requires Reading(Exec(Boot(n), evs), src, dst, pos, Follower)
    requires Read(Exec(Boot(n), evs), src, dst, pos).RequestVote?
    ensures dst < n && src < n && AskedAt(n, evs, k, src, Read(Exec(Boot(n), evs), src, dst, pos))
    ensures var c, m := Exec(Boot(n), evs), Read(Exec(Boot(n), evs), src, dst, pos);
      var voter, candidate := c.nodes[dst], At(Boot(n), evs, k).nodes[src];
      && (granted <==> && (m.term > voter.term || voter.votedFor == None)
                       && candidate.lastAppliedIndex >= voter.lastAppliedIndex
                       && candidate.lastAppliedTerm >= voter.lastAppliedTerm)
      && Reacts(c, Next(c, Deliver(src, dst, pos)), src, dst, pos,
                voter.(term := Larger(m.term, voter.term), votedFor := Some(src)), src,
                [VoteOf(voter, Larger(m.term, voter.term), src, granted)])
  {
    hide Boot, Exec, Next, ClusterOk, Reacts;
    var c := Exec(Boot(n), evs);
    var m := Read(c, src, dst, pos);
    ReadingMeans(c, src, dst, pos, Follower);
    RequestsTellWhatIsApplied(n, evs, src, dst, m);
    k :| AskedAt(n, evs, k, src, m);
    granted := Grants(c.nodes[dst], m);
    FollowerVotes(c, src, dst, pos);
  }
}
