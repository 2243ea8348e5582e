/** Boot: when the first promotion puts a cluster at the start of an epoch. */
module RaftBoot {
  import opened RaftProtocol
  import opened RaftSpec
  import opened RaftCluster
  import opened RaftEpoch
  import RaftForeignVotes

  /** Until the first leader enters office: any timer may fire, messages may be lost or reordered. */
  predicate BootEvent(c: Cluster, ev: Event)
  {
    match ev
    case Deliver(_, _, _) => true
    case Drop(_, _, _) => true
    case Timeout(_) => true
    case Enter(u) => u < |c.nodes| && c.nodes[u].role == Standing
    case _ => false
  }

  ghost predicate BootRun(n: nat, evs: seq<Event>)
    requires n >= 1
  {
    forall k :: 0 <= k < |evs| ==> BootEvent(Exec(Boot(n), evs[..k]), evs[k])
  }

  /** What a node of term `term` has sent: votes, and requests for votes of its terms so far. */
  predicate ElectionTalk(m: Message, term: nat)
  {
    m.Vote? || (m.RequestVote? && m.term <= term)
  }

  ghost predicate Fresh(s: Node)
  {
    && s.log == [SENTINEL] && s.commitIndex == 0 && s.queue == []
    && s.lastAppliedIndex == 0 && s.lastAppliedTerm == 1
    && s.role in {Follower, Standing, Candidate, Elected}
    && s.term >= (if s.role in {Candidate, Elected} then 2 else 1)
  }

  ghost predicate ChannelTalk(ch: seq<Message>, term: nat)
  {
    forall p :: 0 <= p < |ch| ==> ElectionTalk(ch[p], term)
  }

  ghost predicate TalkOnly(nodes: seq<Node>, net: Net)
  {
    forall k :: k in net ==> k.0 < |nodes| && ChannelTalk(net[k], nodes[k.0].term)
  }

  ghost predicate AllFresh(nodes: seq<Node>)
  {
    forall i :: 0 <= i < |nodes| ==> Fresh(nodes[i])
  }

  ghost predicate BootPhase(c: Cluster)
  {
    ClusterOk(c) && AllFresh(c.nodes) && TalkOnly(c.nodes, c.net)
  }

  ghost predicate SendsTalk(sent: seq<Envelope>, term: nat)
  {
    forall x :: x in sent ==> ElectionTalk(x.msg, term)
  }

  ghost predicate FreshEffect(s: Node, eff: Effect)
  {
    Fresh(eff.node) && s.term <= eff.node.term && SendsTalk(eff.sent, eff.node.term)
  }

  lemma FreshReads(s: Node, m: Message, term: nat)
    requires NodeOk(s) && Fresh(s) && ElectionTalk(m, term) && m.sender < s.n && Reads(s.role)
    ensures FreshEffect(s, On(s, m))
  {
  }

  lemma FreshLocal(c: Cluster, ev: Event)
    requires ClusterOk(c) && BootEvent(c, ev) && !ev.Deliver? && !ev.Drop? && MoveOf(c, ev).Act?
    requires Fresh(c.nodes[ev.node])
    ensures ev.node < |c.nodes| && MoveOf(c, ev).base == c && MoveOf(c, ev).v == ev.node
    ensures FreshEffect(c.nodes[ev.node], MoveOf(c, ev).eff)
  {
  }

  lemma MoreTalk(ch: seq<Message>, sent: seq<Envelope>, dst: nat, term: nat, term': nat)
    requires ChannelTalk(ch, term) && SendsTalk(sent, term') && term <= term'
    ensures ChannelTalk(ch, term') && ChannelTalk(ch + Routed(sent, dst), term')
  {
    var all := ch + Routed(sent, dst);
    forall p | 0 <= p < |all| ensures ElectionTalk(all[p], term') {
      if p >= |ch| {
        RoutedIn(sent, dst, all[p]);
      }
    }
  }

  lemma TalkApply(c: Cluster, v: nat, eff: Effect)
    requires v < |c.nodes| && TalkOnly(c.nodes, c.net) && FreshEffect(c.nodes[v], eff)
    ensures TalkOnly(Apply(c, v, eff).nodes, Apply(c, v, eff).net)
  {
    var c' := Apply(c, v, eff);
    forall k | k in c'.net ensures k.0 < |c'.nodes| && ChannelTalk(c'.net[k], c'.nodes[k.0].term) {
      MoreTalk(c.net[k], if k.0 == v then eff.sent else [], k.1, c.nodes[k.0].term, c'.nodes[k.0].term);
    }
  }

  lemma TalkTake(c: Cluster, src: nat, dst: nat, pos: nat)
    requires InFlight(c, src, dst, pos) && TalkOnly(c.nodes, c.net)
    ensures TalkOnly(c.nodes, Take(c, src, dst, pos).net)
  {
    var ch := c.net[(src, dst)];
    var rest := Without(ch, pos);
    forall p | 0 <= p < |rest| ensures ElectionTalk(rest[p], c.nodes[src].term) {
      assert rest[p] == ch[if p < pos then p else p + 1];
    }
  }

  lemma BootActs(c: Cluster, v: nat, eff: Effect)
    requires v < |c.nodes| && AllFresh(c.nodes) && TalkOnly(c.nodes, c.net) && FreshEffect(c.nodes[v], eff)
    requires ClusterOk(Apply(c, v, eff))
    ensures BootPhase(Apply(c, v, eff))
  {
    TalkApply(c, v, eff);
    hide ClusterOk, TalkOnly;
  }

  /** What node dst reads in the boot phase is election talk of a node that is there. */
  lemma BootMessage(c: Cluster, src: nat, dst: nat, pos: nat)
    requires BootPhase(c) && InFlight(c, src, dst, pos) && Reads(c.nodes[dst].role)
    ensures var m := c.net[(src, dst)][pos];
      && src < |c.nodes| && m.sender < |c.nodes| && ElectionTalk(m, c.nodes[src].term)
      && NodeOk(c.nodes[dst]) && Fresh(c.nodes[dst]) && c.nodes[dst].n == |c.nodes|
  {
    assert ChannelTalk(c.net[(src, dst)], c.nodes[src].term);
  }

  lemma BootReads(c: Cluster, src: nat, dst: nat, pos: nat)
    requires BootPhase(c) && InFlight(c, src, dst, pos) && Reads(c.nodes[dst].role)
    ensures BootPhase(Next(c, Deliver(src, dst, pos)))
  {
    assert AllFresh(Take(c, src, dst, pos).nodes);
    BootMessage(c, src, dst, pos);
    TalkTake(c, src, dst, pos);
    hide Next, On, MoveOf, AllFresh, TalkOnly, ClusterOk;
    NextReads(c, src, dst, pos);
    FreshReads(c.nodes[dst], c.net[(src, dst)][pos], c.nodes[src].term);
    BootActs(Take(c, src, dst, pos), dst, On(c.nodes[dst], c.net[(src, dst)][pos]));
  }

  lemma BootLocal(c: Cluster, ev: Event)
    requires BootPhase(c) && BootEvent(c, ev) && !ev.Deliver? && !ev.Drop? && MoveOf(c, ev).Act?
    ensures BootPhase(Next(c, ev))
  {
    FreshLocal(c, ev);
    hide Next, MoveOf, AllFresh, TalkOnly, ClusterOk, BootEvent, Apply;
    NextActs(c, ev);
    BootActs(c, ev.node, MoveOf(c, ev).eff);
  }

  lemma BootLoses(c: Cluster, src: nat, dst: nat, pos: nat)
    requires BootPhase(c) && InFlight(c, src, dst, pos)
    ensures BootPhase(Next(c, Drop(src, dst, pos)))
  {
    TalkTake(c, src, dst, pos);
    assert Next(c, Drop(src, dst, pos)) == Take(c, src, dst, pos);
    hide Next, MoveOf, TalkOnly, ClusterOk;
  }

  lemma IdleMoves(c: Cluster, ev: Event)
    requires ClusterOk(c) && BootEvent(c, ev)
    ensures ev.Deliver? && !MoveOf(c, ev).Idle? ==>
      InFlight(c, ev.src, ev.dst, ev.pos) && Reads(c.nodes[ev.dst].role)
    ensures ev.Drop? && !MoveOf(c, ev).Idle? ==> InFlight(c, ev.src, ev.dst, ev.pos)
    ensures !ev.Drop? && !MoveOf(c, ev).Idle? ==> MoveOf(c, ev).Act?
    ensures MoveOf(c, ev).Idle? ==> Next(c, ev) == c
  {
    hide On, LocalStep;
  }

  lemma BootStep(c: Cluster, ev: Event)
    requires BootPhase(c) && BootEvent(c, ev)
    ensures BootPhase(Next(c, ev))
  {
    hide Next, AllFresh, TalkOnly, MoveOf, BootEvent;
    IdleMoves(c, ev);
    if MoveOf(c, ev).Idle? {
    } else if ev.Deliver? {
      BootReads(c, ev.src, ev.dst, ev.pos);
    } else if ev.Drop? {
      BootLoses(c, ev.src, ev.dst, ev.pos);
    } else {
      BootLocal(c, ev);
    }
  }

  lemma {:induction false} BootKept(n: nat, evs: seq<Event>)
    requires n >= 1 && BootRun(n, evs)
    ensures BootPhase(Exec(Boot(n), evs))
  {
    if evs == [] {
      BootIsPhase(n);
    } else {
      var k := |evs| - 1;
      hide BootEvent, BootPhase;
      forall j | 0 <= j < k ensures BootEvent(Exec(Boot(n), evs[..k][..j]), evs[..k][j]) {
        assert evs[..k][..j] == evs[..j];
      }
      BootKept(n, evs[..k]);
      assert evs[..k + 1] == evs;
      ExecStep(Boot(n), evs, k);
      hide Exec, Boot, Next;
      BootStep(Exec(Boot(n), evs[..k]), evs[k]);
    }
  }

  lemma BootIsPhase(n: nat)
    requires n >= 1
    ensures BootPhase(Exec(Boot(n), []))
  {
    hide Boot;
    assert forall i :: 0 <= i < n ==> Boot(n).nodes[i] == InitNode(n, i);
  }

  /** Node v is elected and nobody competes: the other nodes follow, in terms not above v's. */
  predicate Unrivalled(c: Cluster, v: nat)
    requires v < |c.nodes|
  {
    && c.nodes[v].role == Elected
    && forall i :: 0 <= i < |c.nodes| && i != v ==> c.nodes[i].role == Follower && c.nodes[i].term <= c.nodes[v].term
  }

  lemma TermBound(c: Cluster, v: nat, i: nat)
    requires v < |c.nodes| && Unrivalled(c, v) && i < |c.nodes|
    ensures c.nodes[i].term <= c.nodes[v].term
  {
  }

  lemma PhaseMessages(c: Cluster, v: nat)
    requires BootPhase(c) && v < |c.nodes| && Unrivalled(c, v)
    ensures MessagesOk(Epoch(v, c.nodes[v].term, 0), c.net)
  {
    var e := Epoch(v, c.nodes[v].term, 0);
    hide Unrivalled;
    forall src, dst, p | (src, dst) in c.net && 0 <= p < |c.net[(src, dst)]|
      ensures MessageOk(e, src, dst, c.net[(src, dst)][p])
    {
      assert ChannelTalk(c.net[(src, dst)], c.nodes[src].term);
      TermBound(c, v, src);
    }
  }

  lemma PhaseLight(c: Cluster, src: nat, dst: nat)
    requires BootPhase(c) && (src, dst) in c.net
    ensures AllLight(c.net[(src, dst)])
  {
  }

  lemma PhaseLink(c: Cluster, v: nat, i: nat)
    requires BootPhase(c) && v < |c.nodes| && c.nodes[v].role == Elected && i < |c.nodes|
    requires Common(c, Epoch(v, c.nodes[v].term, 0))
    ensures StartLink(c.nodes[v].log, Epoch(v, c.nodes[v].term, 0), LinkOf(c, Epoch(v, c.nodes[v].term, 0), i))
  {
    PhaseLight(c, v, i);
    PhaseLight(c, i, v);
    assert Fresh(c.nodes[v]) && Fresh(c.nodes[i]);
    hide ClusterOk, MessagesOk, TalkOnly;
  }

  lemma PhaseIsStart(c: Cluster, v: nat)
    requires BootPhase(c) && v < |c.nodes| && Unrivalled(c, v)
    ensures Start(c, Epoch(v, c.nodes[v].term, 0))
  {
    var e := Epoch(v, c.nodes[v].term, 0);
    PhaseMessages(c, v);
    hide MessagesOk, TalkOnly;
    assert Fresh(c.nodes[v]);
    assert Common(c, e);
    hide StartLink, Common;
    forall i | 0 <= i < |c.nodes| && i != v ensures StartLink(c.nodes[v].log, e, LinkOf(c, e, i)) {
      PhaseLink(c, v, i);
    }
  }

  lemma StartIsUnrivalled(c: Cluster, v: nat)
    requires v < |c.nodes| && Start(c, Epoch(v, c.nodes[v].term, 0))
    ensures Unrivalled(c, v)
  {
  }

  /** After any boot under loss, reordering and any timers, a node that is elected starts an epoch exactly when
      nobody competes with it any more; all that is proved of epochs holds from there. */
  lemma FirstLeaderStartsEpoch(n: nat, v: nat, evs: seq<Event>)
    requires n >= 1 && v < n && BootRun(n, evs)
    ensures var c := Exec(Boot(n), evs);
      Start(c, Epoch(v, c.nodes[v].term, 0)) <==> Unrivalled(c, v)
  {
    BootKept(n, evs);
    var c := Exec(Boot(n), evs);
    hide Exec, Boot, BootPhase, Start, Unrivalled;
    if Unrivalled(c, v) {
      PhaseIsStart(c, v);
    }
    if Start(c, Epoch(v, c.nodes[v].term, 0)) {
      StartIsUnrivalled(c, v);
    }
  }

  // ---- such a boot happens ----

  lemma TimeoutStands(c: Cluster, v: nat)
    requires ClusterOk(c) && v < |c.nodes| && (c.nodes[v].role == Follower || c.nodes[v].role == Candidate)
    ensures Next(c, Timeout(v)).nodes[v].role == Standing
  {
  }

  lemma BootMore(n: nat, evs: seq<Event>, ev: Event)
    requires n >= 1 && BootRun(n, evs) && BootEvent(Exec(Boot(n), evs), ev)
    ensures BootRun(n, evs + [ev]) && Exec(Boot(n), evs + [ev]) == Next(Exec(Boot(n), evs), ev)
  {
    var more := evs + [ev];
    assert more[..|evs|] == evs;
    hide Next, BootEvent;
    forall k | 0 <= k < |more| ensures BootEvent(Exec(Boot(n), more[..k]), more[k]) {
      assert k < |evs| ==> more[..k] == evs[..k];
    }
  }

  /** A candidacy, and a read of a node's own channel, are events of a boot. */
  lemma OwnEvents(c: Cluster, v: nat)
    requires v < |c.nodes|
    ensures BootEvent(c, Timeout(v)) && BootEvent(c, Deliver(v, v, 0))
    ensures c.nodes[v].role == Standing ==> BootEvent(c, Enter(v))
  {
  }

  lemma CandidacyRole(n: nat, v: nat, k: nat)
    requires n >= 2 && v < n
    ensures Exec(Boot(n), RaftForeignVotes.Candidacies(v, k)).nodes[v].role == if k == 0 then Follower else Candidate
  {
    RaftForeignVotes.ManyCandidacies(Boot(n), v, k);
    hide Exec, Boot;
  }

  lemma CandidaciesParts(v: nat, k: nat)
    ensures RaftForeignVotes.Candidacies(v, 0) == [] == RaftForeignVotes.Count(v, 0)
    ensures k > 0 ==>
      && RaftForeignVotes.Candidacies(v, k) == RaftForeignVotes.Candidacies(v, k - 1) + [Timeout(v)] + [Enter(v)]
      && RaftForeignVotes.Count(v, k)
         == RaftForeignVotes.Count(v, k - 1) + [Deliver(v, v, 0)] + [Deliver(v, v, 0)]
  {
  }

  lemma BootNothing(n: nat)
    requires n >= 1
    ensures BootRun(n, [])
  {
  }

  /** One more candidacy of a node that is follower or candidate. */
  lemma BootCandidacy(n: nat, v: nat, evs: seq<Event>)
    requires n >= 2 && v < n && BootRun(n, evs)
    requires Exec(Boot(n), evs).nodes[v].role == Follower || Exec(Boot(n), evs).nodes[v].role == Candidate
    ensures BootRun(n, evs + [Timeout(v)] + [Enter(v)])
  {
    hide *;
    var c := Exec(Boot(n), evs);
    OwnEvents(c, v);
    BootMore(n, evs, Timeout(v));
    TimeoutStands(c, v);
    OwnEvents(Next(c, Timeout(v)), v);
    BootMore(n, evs + [Timeout(v)], Enter(v));
  }

  lemma BootRead(n: nat, v: nat, evs: seq<Event>)
    requires n >= 2 && v < n && BootRun(n, evs)
    ensures BootRun(n, evs + [Deliver(v, v, 0)])
  {
    hide *;
    OwnEvents(Exec(Boot(n), evs), v);
    BootMore(n, evs, Deliver(v, v, 0));
  }

  lemma {:induction false} CandidaciesBoot(n: nat, v: nat, k: nat)
    requires n >= 2 && v < n
    ensures BootRun(n, RaftForeignVotes.Candidacies(v, k))
  {
    hide *;
    CandidaciesParts(v, k);
    if k == 0 {
      BootNothing(n);
    } else {
      CandidaciesBoot(n, v, k - 1);
      CandidacyRole(n, v, k - 1);
      BootCandidacy(n, v, RaftForeignVotes.Candidacies(v, k - 1));
    }
  }

  lemma {:induction false} CountBoot(n: nat, v: nat, evs: seq<Event>, k: nat)
    requires n >= 2 && v < n && BootRun(n, evs)
    ensures BootRun(n, evs + RaftForeignVotes.Count(v, k))
  {
    hide *;
    CandidaciesParts(v, k);
    if k == 0 {
      assert evs + [] == evs;
    } else {
      var d, before := Deliver(v, v, 0), RaftForeignVotes.Count(v, k - 1);
      CountBoot(n, v, evs, k - 1);
      BootRead(n, v, evs + before);
      BootRead(n, v, evs + before + [d]);
      assert evs + (before + [d] + [d]) == evs + before + [d] + [d];
    }
  }

  lemma ElectedAlone(n: nat, v: nat, c: Cluster)
    requires n >= 1 && v < n && ClusterOk(c) && RaftForeignVotes.OthersKept(Boot(n), c, v)
    requires c.nodes[v].role == Elected && c.nodes[v].term >= 1
    ensures Unrivalled(c, v)
  {
    hide Boot;
    assert forall i :: 0 <= i < n ==> Boot(n).nodes[i] == InitNode(n, i);
  }

  /** In every cluster of two nodes or more every node can be the first leader, so epochs do start. */
  lemma FirstLeaderExists(n: nat, v: nat) returns (evs: seq<Event>)
    requires n >= 2 && v < n
    ensures BootRun(n, evs)
    ensures Exec(Boot(n), evs).nodes[v].role == Elected
    ensures Start(Exec(Boot(n), evs), Epoch(v, Exec(Boot(n), evs).nodes[v].term, 0))
  {
    var k := n / 2 + 1;
    evs := RaftForeignVotes.ElectSelf(n, v);
    RaftForeignVotes.ElectsItself(Boot(n), v);
    CandidaciesBoot(n, v, k);
    CountBoot(n, v, RaftForeignVotes.Candidacies(v, k), k);
    ElectedAlone(n, v, Exec(Boot(n), evs));
    FirstLeaderStartsEpoch(n, v, evs);
  }
}
