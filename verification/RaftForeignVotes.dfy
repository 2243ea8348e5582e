/** Why election safety needs the tally condition: a candidate counts the votes
    that it cast for itself in its own earlier terms, so in a cluster of any
    size above one two nodes can lead the same term. */
module RaftForeignVotes {
  import opened RaftProtocol
  import opened RaftSpec
  import opened RaftCluster

  /** Reliable delivery in channel order. */
  predicate InOrder(ev: Event)
  {
    !ev.Drop? && (ev.Deliver? ==> ev.pos == 0)
  }

  ghost predicate AllInOrder(evs: seq<Event>)
  {
    forall i :: 0 <= i < |evs| ==> InOrder(evs[i])
  }

  /** Nothing changed but node v and the channels from it to others. */
  ghost predicate OthersKept(c: Cluster, c': Cluster, v: nat)
    requires ClusterOk(c) && ClusterOk(c')
  {
    && |c'.nodes| == |c.nodes|
    && forall u :: 0 <= u < |c.nodes| && u != v ==> c'.nodes[u] == c.nodes[u] && c'.net[(u, u)] == c.net[(u, u)]
  }

  /** The messages that k candidacies leave a node in its channel to itself. */
  ghost predicate Backlog(ch: seq<Message>, k: nat, term: nat)
  {
    && |ch| == 2 * k
    && forall i :: 0 <= i < k ==>
      ch[2 * i].RequestVote? && ch[2 * i].term <= term && ch[2 * i + 1].IsGrant()
  }

  lemma KeptKept(a: Cluster, b: Cluster, c: Cluster, v: nat)
    requires ClusterOk(a) && ClusterOk(b) && ClusterOk(c)
    requires OthersKept(a, b, v) && OthersKept(b, c, v)
    ensures OthersKept(a, c, v)
  {
    hide ClusterOk;
  }

  lemma Acts(c: Cluster, ev: Event, base: Cluster, v: nat, eff: Effect)
    requires ClusterOk(c) && MoveOf(c, ev) == Act(base, v, eff)
    requires forall u :: 0 <= u < |c.nodes| && u != v ==> base.net[(u, u)] == c.net[(u, u)]
    ensures OthersKept(c, Next(c, ev), v)
    ensures Next(c, ev).nodes[v] == eff.node
    ensures Next(c, ev).net[(v, v)] == base.net[(v, v)] + Routed(eff.sent, v)
  {
    hide MoveOf;
  }

  lemma ActsLocally(c: Cluster, ev: Event, v: nat)
    requires ClusterOk(c) && v < |c.nodes| && (ev == Timeout(v) || ev == Enter(v))
    requires LocalStep(c.nodes[v], ev).Some?
    ensures var eff := LocalStep(c.nodes[v], ev).value;
      && OthersKept(c, Next(c, ev), v)
      && Next(c, ev).nodes[v] == eff.node
      && Next(c, ev).net[(v, v)] == c.net[(v, v)] + Routed(eff.sent, v)
  {
    var eff := LocalStep(c.nodes[v], ev).value;
    assert MoveOf(c, ev) == Act(c, v, eff) by {
      hide LocalStep;
    }
    hide LocalStep;
    Acts(c, ev, c, v, eff);
  }

  /** The messages of a new candidacy that come back to the candidate. */
  lemma OwnMessages(s: Node)
    ensures var r := Routed(EnterCandidate(s).sent, s.me);
      && |r| == 2
      && r[0].RequestVote? && r[0].term == s.term + 1
      && r[1].IsGrant()
  {
    var sent := EnterCandidate(s).sent;
    assert sent == [sent[0]] + [sent[1]];
    RoutedConcat([sent[0]], [sent[1]], s.me);
    RoutedOne(sent[0], s.me);
    RoutedOne(sent[1], s.me);
  }

  ghost predicate Stood(c: Cluster, c': Cluster, v: nat)
    requires ClusterOk(c) && ClusterOk(c') && v < |c.nodes|
  {
    && OthersKept(c, c', v)
    && c'.nodes[v].role == Candidate
    && c'.nodes[v].term == c.nodes[v].term + 1
    && c'.nodes[v].votesForMe == 0
    && exists r :: c'.net[(v, v)] == c.net[(v, v)] + r && Backlog(r, 1, c'.nodes[v].term)
  }

  /** One candidacy: the timer fires, the candidate procedure starts. */
  lemma Candidacy(c: Cluster, v: nat)
    requires ClusterOk(c) && v < |c.nodes| && c.nodes[v].role in {Follower, Candidate}
    ensures Stood(c, Next(Next(c, Timeout(v)), Enter(v)), v)
  {
    hide Next, OthersKept;
    var c1 := Next(c, Timeout(v));
    ActsLocally(c, Timeout(v), v);
    var s := c.nodes[v].(role := Standing);
    assert c1.nodes[v] == s;
    assert c1.net[(v, v)] == c.net[(v, v)] + Routed([], v) == c.net[(v, v)];
    ActsLocally(c1, Enter(v), v);
    OwnMessages(s);
    var r := Routed(EnterCandidate(s).sent, v);
    var c2 := Next(c1, Enter(v));
    assert c2.net[(v, v)] == c.net[(v, v)] + r;
    assert r[2 * 0] == r[0];
    assert Backlog(r, 1, c2.nodes[v].term);
    KeptKept(c, c1, c2, v);
  }

  function Candidacies(v: nat, k: nat): seq<Event>
  {
    if k == 0 then [] else Candidacies(v, k - 1) + [Timeout(v)] + [Enter(v)]
  }

  lemma ExecNone(c: Cluster)
    requires ClusterOk(c)
    ensures Exec(c, []) == c && OthersKept(c, c, 0)
  {
  }

  lemma ExecTwo(c: Cluster, evs: seq<Event>, a: Event, b: Event)
    requires ClusterOk(c)
    ensures Exec(c, evs + [a] + [b]) == Next(Next(Exec(c, evs), a), b)
  {
    var two := evs + [a] + [b];
    assert two[..|two| - 1] == evs + [a];
    assert (evs + [a])[..|evs|] == evs;
  }

  lemma MoreBacklog(ch: seq<Message>, k: nat, r: seq<Message>, term: nat)
    requires Backlog(ch, k, term) && Backlog(r, 1, term + 1)
    ensures Backlog(ch + r, k + 1, term + 1)
  {
    forall i | 0 <= i < k + 1
      ensures var all := ch + r;
        all[2 * i].RequestVote? && all[2 * i].term <= term + 1 && all[2 * i + 1].IsGrant()
    {
      if i == k {
        assert (ch + r)[2 * i] == r[2 * 0] && (ch + r)[2 * i + 1] == r[2 * 0 + 1];
      }
    }
  }

  ghost predicate Campaigned(c: Cluster, c': Cluster, v: nat, k: nat)
    requires ClusterOk(c) && ClusterOk(c') && v < |c.nodes|
  {
    && OthersKept(c, c', v)
    && c'.nodes[v].role == (if k == 0 then Follower else Candidate)
    && c'.nodes[v].term == c.nodes[v].term + k
    && (k > 0 ==> c'.nodes[v].votesForMe == 0)
    && Backlog(c'.net[(v, v)], k, c'.nodes[v].term)
  }

  lemma OneMore(c: Cluster, c1: Cluster, c2: Cluster, v: nat, k: nat)
    requires ClusterOk(c) && ClusterOk(c1) && ClusterOk(c2) && v < |c.nodes|
    requires Campaigned(c, c1, v, k) && Stood(c1, c2, v)
    ensures Campaigned(c, c2, v, k + 1)
  {
    KeptKept(c, c1, c2, v);
    hide OthersKept;
    var r :| c2.net[(v, v)] == c1.net[(v, v)] + r && Backlog(r, 1, c2.nodes[v].term);
    MoreBacklog(c1.net[(v, v)], k, r, c1.nodes[v].term);
  }

  lemma {:induction false} CandidaciesInOrder(v: nat, k: nat)
    ensures AllInOrder(Candidacies(v, k))
  {
    if k > 0 {
      CandidaciesInOrder(v, k - 1);
    }
  }

  lemma NoCandidacy(c: Cluster, v: nat)
    requires ClusterOk(c) && v < |c.nodes| && c.nodes[v].role == Follower && c.net[(v, v)] == []
    ensures Candidacies(v, 0) == [] && Campaigned(c, Exec(c, []), v, 0)
  {
    ExecNone(c);
    hide Exec;
  }

  lemma CampaignRole(c: Cluster, c': Cluster, v: nat, k: nat)
    requires ClusterOk(c) && ClusterOk(c') && v < |c.nodes| && Campaigned(c, c', v, k)
    ensures v < |c'.nodes| && c'.nodes[v].role in {Follower, Candidate}
  {
    hide Backlog;
  }

  lemma {:induction false} ManyCandidacies(c: Cluster, v: nat, k: nat)
    requires ClusterOk(c) && v < |c.nodes| && c.nodes[v].role == Follower && c.net[(v, v)] == []
    ensures AllInOrder(Candidacies(v, k))
    ensures Campaigned(c, Exec(c, Candidacies(v, k)), v, k)
  {
    CandidaciesInOrder(v, k);
    hide Next, Exec, Stood, Campaigned, AllInOrder, ClusterOk;
    if k == 0 {
      NoCandidacy(c, v);
    } else {
      ManyCandidacies(c, v, k - 1);
      var c1 := Exec(c, Candidacies(v, k - 1));
      CampaignRole(c, c1, v, k - 1);
      ExecTwo(c, Candidacies(v, k - 1), Timeout(v), Enter(v));
      Candidacy(c1, v);
      OneMore(c, c1, Exec(c, Candidacies(v, k)), v, k - 1);
    }
  }

  /** The candidate reads the head of its own channel. */
  lemma ReadsOwn(c: Cluster, v: nat)
    requires ClusterOk(c) && v < |c.nodes| && c.nodes[v].role == Candidate && c.net[(v, v)] != []
    requires c.net[(v, v)][0].sender == v
    ensures var eff := CandidateOn(c.nodes[v], c.net[(v, v)][0]);
      var c' := Next(c, Deliver(v, v, 0));
      && OthersKept(c, c', v)
      && c'.nodes[v] == eff.node
      && c'.net[(v, v)] == c.net[(v, v)][1..] + Routed(eff.sent, v)
  {
    var eff := On(c.nodes[v], c.net[(v, v)][0]);
    var base := Take(c, v, v, 0);
    assert Without(c.net[(v, v)], 0) == c.net[(v, v)][1..];
    assert MoveOf(c, Deliver(v, v, 0)) == Act(base, v, eff) by {
      hide On;
    }
    Acts(c, Deliver(v, v, 0), base, v, eff);
  }

  ghost predicate Counted(c: Cluster, c': Cluster, v: nat, k: nat, left: nat)
    requires ClusterOk(c) && ClusterOk(c') && v < |c.nodes|
  {
    && OthersKept(c, c', v)
    && c'.nodes[v].term == c.nodes[v].term
    && c'.nodes[v].votesForMe == c.nodes[v].votesForMe + k
    && c'.nodes[v].role == (if k > 0 && c'.nodes[v].votesForMe > |c.nodes| / 2 then Elected else Candidate)
    && Backlog(c'.net[(v, v)], left, c.nodes[v].term)
  }

  /** The candidate reads its own request, then its own vote. */
  lemma CountOne(c: Cluster, v: nat, k: nat)
    requires ClusterOk(c) && v < |c.nodes| && c.nodes[v].role == Candidate && k > 0 && |c.nodes| >= 2
    requires Backlog(c.net[(v, v)], k, c.nodes[v].term)
    ensures Counted(c, Next(Next(c, Deliver(v, v, 0)), Deliver(v, v, 0)), v, 1, k - 1)
  {
    hide Next, OthersKept;
    var ch := c.net[(v, v)];
    assert ch[2 * 0].RequestVote? && ch[2 * 0].term <= c.nodes[v].term && ch[2 * 0 + 1].IsGrant();
    ReadsOwn(c, v);
    var c1 := Next(c, Deliver(v, v, 0));
    assert Routed([], v) == [];
    assert c1.nodes[v] == c.nodes[v] && c1.net[(v, v)] == ch[1..];
    ReadsOwn(c1, v);
    var c2 := Next(c1, Deliver(v, v, 0));
    assert c2.net[(v, v)] == ch[2..];
    KeptKept(c, c1, c2, v);
    forall i | 0 <= i < k - 1
      ensures ch[2..][2 * i].RequestVote? && ch[2..][2 * i].term <= c.nodes[v].term && ch[2..][2 * i + 1].IsGrant()
    {
      assert ch[2 * (i + 1)].RequestVote?;
    }
  }

  function Count(v: nat, k: nat): seq<Event>
  {
    if k == 0 then [] else Count(v, k - 1) + [Deliver(v, v, 0)] + [Deliver(v, v, 0)]
  }

  lemma {:induction false} CountOwnVotes(c: Cluster, v: nat, total: nat, k: nat)
    requires ClusterOk(c) && v < |c.nodes| && |c.nodes| >= 2 && total == |c.nodes| / 2 + 1 && k <= total
    requires c.nodes[v].role == Candidate && c.nodes[v].votesForMe == 0
    requires Backlog(c.net[(v, v)], total, c.nodes[v].term)
    ensures AllInOrder(Count(v, k))
    ensures Counted(c, Exec(c, Count(v, k)), v, k, total - k)
  {
    CountInOrder(v, k);
    hide Next, Exec, Counted, AllInOrder, ClusterOk, Backlog;
    if k == 0 {
      NothingCounted(c, v, total);
    } else {
      CountOwnVotes(c, v, total, k - 1);
      ExecTwo(c, Count(v, k - 1), Deliver(v, v, 0), Deliver(v, v, 0));
      var c1 := Exec(c, Count(v, k - 1));
      StillCandidate(c, c1, v, k - 1, total);
      CountOne(c1, v, total - (k - 1));
      CountMore(c, c1, Exec(c, Count(v, k)), v, k - 1, total);
    }
  }

  lemma {:induction false} CountInOrder(v: nat, k: nat)
    ensures AllInOrder(Count(v, k))
  {
    if k > 0 {
      CountInOrder(v, k - 1);
    }
  }

  lemma NothingCounted(c: Cluster, v: nat, total: nat)
    requires ClusterOk(c) && v < |c.nodes| && c.nodes[v].role == Candidate && c.nodes[v].votesForMe == 0
    requires Backlog(c.net[(v, v)], total, c.nodes[v].term)
    ensures Count(v, 0) == [] && Counted(c, Exec(c, []), v, 0, total)
  {
    ExecNone(c);
    hide Exec, Backlog;
  }

  /** With half of the votes counted at most, the candidate goes on. */
  lemma StillCandidate(c: Cluster, c1: Cluster, v: nat, k: nat, total: nat)
    requires ClusterOk(c) && ClusterOk(c1) && v < |c.nodes| && c.nodes[v].votesForMe == 0
    requires k < total == |c.nodes| / 2 + 1 && Counted(c, c1, v, k, total - k)
    ensures |c1.nodes| == |c.nodes| && c1.nodes[v].role == Candidate
    ensures Backlog(c1.net[(v, v)], total - k, c1.nodes[v].term)
  {
    hide Backlog;
  }

  lemma CountMore(c: Cluster, c1: Cluster, c2: Cluster, v: nat, k: nat, total: nat)
    requires ClusterOk(c) && ClusterOk(c1) && ClusterOk(c2) && v < |c.nodes| && v < |c1.nodes|
    requires k < total && Counted(c, c1, v, k, total - k) && Counted(c1, c2, v, 1, total - k - 1)
    ensures Counted(c, c2, v, k + 1, total - k - 1)
  {
    KeptKept(c, c1, c2, v);
    hide Backlog, ClusterOk;
  }

  function ElectSelf(n: nat, v: nat): seq<Event>
  {
    Candidacies(v, n / 2 + 1) + Count(v, n / 2 + 1)
  }

  /** Any follower can make itself leader alone, without a vote from another node. */
  lemma ElectsItself(c: Cluster, v: nat)
    requires ClusterOk(c) && v < |c.nodes| && |c.nodes| >= 2
    requires c.nodes[v].role == Follower && c.net[(v, v)] == []
    ensures AllInOrder(ElectSelf(|c.nodes|, v))
    ensures var c' := Exec(c, ElectSelf(|c.nodes|, v));
      && OthersKept(c, c', v)
      && c'.nodes[v].role == Elected
      && c'.nodes[v].term == c.nodes[v].term + |c.nodes| / 2 + 1
  {
    hide Exec;
    var k := |c.nodes| / 2 + 1;
    ManyCandidacies(c, v, k);
    var c1 := Exec(c, Candidacies(v, k));
    CountOwnVotes(c1, v, k, k);
    KeptKept(c, c1, Exec(c1, Count(v, k)), v);
    ExecConcat(c, Candidacies(v, k), Count(v, k));
  }

  /** In every cluster of two nodes or more, a run with reliable in-order delivery reaches two leaders of one term. */
  lemma TwoLeadersOfOneTerm(n: nat) returns (evs: seq<Event>)
    requires n >= 2
    ensures AllInOrder(evs)
    ensures var c := Exec(Boot(n), evs);
      c.nodes[0].role == Elected && c.nodes[1].role == Elected && c.nodes[0].term == c.nodes[1].term
  {
    hide Boot, Exec, ElectSelf;
    var c := Boot(n);
    ElectsItself(c, 0);
    var c1 := Exec(c, ElectSelf(n, 0));
    ElectsItself(c1, 1);
    evs := ElectSelf(n, 0) + ElectSelf(n, 1);
    ExecConcat(c, ElectSelf(n, 0), ElectSelf(n, 1));
  }
}
