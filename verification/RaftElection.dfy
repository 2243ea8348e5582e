/** Elections over all runs: how many votes a node grants per term, and why two
    promotions in one term are of the same node when more than half of the
    nodes support each of them with a vote of that term. */
module RaftElection {
  import opened RaftProtocol
  import opened RaftSpec
  import opened RaftCluster

  // ---- granted votes ----

  datatype Ballot = Ballot(voter: nat, candidate: nat, term: nat)

  /** The granted votes of an outgoing batch, in order. */
  function Grants(sent: seq<Envelope>): seq<Ballot>
  {
    if sent == [] then []
    else
      var m := sent[|sent| - 1].msg;
      Grants(sent[..|sent| - 1]) + (if m.IsGrant() then [Ballot(m.sender, m.candidateId, m.term)] else [])
  }

  /** The candidates for whom `voter` granted a vote in `term`, in order. */
  function Choices(ballots: seq<Ballot>, voter: nat, term: nat): seq<nat>
  {
    if ballots == [] then []
    else
      var b := ballots[|ballots| - 1];
      Choices(ballots[..|ballots| - 1], voter, term)
      + (if b.voter == voter && b.term == term then [b.candidate] else [])
  }

  lemma ChoicesPush(ballots: seq<Ballot>, b: Ballot, voter: nat, term: nat)
    ensures Choices(ballots + [b], voter, term)
         == Choices(ballots, voter, term) + (if b.voter == voter && b.term == term then [b.candidate] else [])
  {
    assert (ballots + [b])[..|ballots|] == ballots;
  }

  ghost predicate NoGrants(sent: seq<Envelope>)
  {
    forall e :: e in sent ==> !e.msg.IsGrant()
  }

  lemma {:induction false} NoGrantsEmpty(sent: seq<Envelope>)
    requires NoGrants(sent)
    ensures Grants(sent) == []
  {
    if sent != [] {
      NoGrantsEmpty(sent[..|sent| - 1]);
      assert sent[|sent| - 1] in sent;
    }
  }

  /** A batch whose last message is its only granted vote. */
  ghost predicate OneGrant(sent: seq<Envelope>, m: Message)
  {
    && m.IsGrant()
    && |sent| >= 1
    && sent[|sent| - 1] == Envelope(Some(m.candidateId), m)
    && NoGrants(sent[..|sent| - 1])
  }

  lemma OneGrantBallot(sent: seq<Envelope>, m: Message)
    requires OneGrant(sent, m)
    ensures Grants(sent) == [Ballot(m.sender, m.candidateId, m.term)]
  {
    NoGrantsEmpty(sent[..|sent| - 1]);
  }

  // ---- what an event does to an election ----

  function SentIn(c: Cluster, ev: Event): seq<Envelope>
    requires ClusterOk(c)
  {
    match MoveOf(c, ev)
    case Act(_, _, eff) => eff.sent
    case _ => []
  }

  /** The message that node v reads in this event. */
  function ReadBy(c: Cluster, ev: Event, v: nat): Option<Message>
    requires ClusterOk(c)
  {
    match ev
    case Deliver(src, dst, pos) =>
      if dst == v && InFlight(c, src, dst, pos) && Reads(c.nodes[dst].role) then Some(c.net[(src, dst)][pos]) else None
    case _ => None
  }

  /** Candidate v gives up its candidacy on a heartbeat of its own term. */
  predicate StepsDown(c: Cluster, ev: Event, v: nat)
    requires ClusterOk(c)
  {
    match ReadBy(c, ev, v)
    case Some(m) => m.Heartbeat? && c.nodes[v].role == Candidate && m.term == c.nodes[v].term
    case None => false
  }

  /** Candidate v counts a granted vote. */
  predicate Tallies(c: Cluster, ev: Event, v: nat)
    requires ClusterOk(c)
  {
    match ReadBy(c, ev, v)
    case Some(m) => m.IsGrant() && c.nodes[v].role == Candidate
    case None => false
  }

  predicate Promotes(c: Cluster, ev: Event, v: nat)
    requires ClusterOk(c)
  {
    v < |c.nodes| && c.nodes[v].role == Candidate && Next(c, ev).nodes[v].role == Elected
  }

  // ---- the history of a run ----

  /** Keys are (node, term). */
  datatype History = History(
    granted: seq<Ballot>,
    stepped: set<(nat, nat)>,          // candidacies given up on a heartbeat of the same term
    tainted: set<(nat, nat)>,          // candidacies that tallied a vote of another term
    voters: map<(nat, nat), set<nat>>, // senders of the granted votes of its own term that a candidacy tallied
    won: set<(nat, nat)>)

  const NOTHING := History([], {}, {}, map[], {})

  function VotersOf(h: History, v: nat, term: nat): set<nat>
  {
    if (v, term) in h.voters then h.voters[(v, term)] else {}
  }

  function Record(h: History, c: Cluster, ev: Event): History
    requires ClusterOk(c)
  {
    var granted := h.granted + Grants(SentIn(c, ev));
    if !ev.Deliver? || ev.dst >= |c.nodes| then h.(granted := granted)
    else
      var v := ev.dst;
      var key := (v, c.nodes[v].term);
      var r := ReadBy(c, ev, v);
      History(granted,
              if StepsDown(c, ev, v) then h.stepped + {key} else h.stepped,
              if Tallies(c, ev, v) && r.value.term != key.1 then h.tainted + {key} else h.tainted,
              if Tallies(c, ev, v) && r.value.term == key.1 then
                h.voters[key := VotersOf(h, v, key.1) + {r.value.sender}]
              else h.voters,
              if Promotes(c, ev, v) then h.won + {key} else h.won)
  }

  function Track(c: Cluster, evs: seq<Event>): History
    requires ClusterOk(c)
  {
    if evs == [] then NOTHING
    else
      var before := evs[..|evs| - 1];
      Record(Track(c, before), Exec(c, before), evs[|evs| - 1])
  }

  // ---- the invariant ----

  ghost predicate NodeInv(s: Node, v: nat, h: History)
  {
    && (forall t: nat :: t > s.term ==> Choices(h.granted, v, t) == [])
    && (forall t: nat ::
          (v, t) in h.stepped || (v, t) in h.won || (v, t) in h.tainted || (v, t) in h.voters ==> t <= s.term)
    && (forall t: nat :: |Choices(h.granted, v, t)| <= 1
                 || (|Choices(h.granted, v, t)| == 2 && (v, t) in h.stepped))
    && (forall t: nat :: (v, t) in h.stepped ==>
          Choices(h.granted, v, t) != [] && Choices(h.granted, v, t)[0] == v && (v, t) !in h.won)
    && (s.votedFor == None ==>
          |Choices(h.granted, v, s.term)| == if (v, s.term) in h.stepped then 1 else 0)
    && (s.role == Candidate ==>
          && (v, s.term) !in h.stepped
          && (v, s.term) !in h.won
          && s.votedFor == Some(v)
          && Choices(h.granted, v, s.term) == [v])
  }

  ghost predicate FreeOfGrants(ch: seq<Message>, term: nat)
  {
    forall p :: 0 <= p < |ch| && ch[p].IsGrant() ==> ch[p].term != term
  }

  ghost predicate Backers(h: History, v: nat, term: nat, n: nat, w: set<nat>)
  {
    forall u :: u in w ==> u < n && v in Choices(h.granted, u, term)
  }

  /** No second vote of a backer is on its way, and a candidacy that counted votes of its own term only counted one
      for each. */
  ghost predicate TallyInv(c: Cluster, v: nat, h: History)
    requires ClusterOk(c) && v < |c.nodes|
  {
    var s := c.nodes[v];
    s.role == Candidate ==>
      var w := VotersOf(h, v, s.term);
      && ((v, s.term) !in h.tainted ==> |w| == s.votesForMe)
      && Backers(h, v, s.term, |c.nodes|, w)
      && forall u :: u in w ==> FreeOfGrants(c.net[(u, v)], s.term)
  }

  ghost predicate WonBy(h: History, v: nat, t: nat, n: nat)
  {
    var w := VotersOf(h, v, t);
    Backers(h, v, t, n, w) && ((v, t) in h.won && (v, t) !in h.tainted ==> |w| > n / 2 || n == 1)
  }

  ghost predicate WonInv(h: History, n: nat)
  {
    forall v: nat, t: nat :: WonBy(h, v, t, n)
  }

  predicate SameTermGrants(m: Message, m': Message)
  {
    m.IsGrant() && m'.IsGrant() && m.term == m'.term
  }

  /** Granted votes in flight were cast, and each is the only one of its term in its channel, except those that a
      node sent itself after stepping down. */
  ghost predicate NetInv(c: Cluster, h: History)
    requires ClusterOk(c)
  {
    && (forall a, b, p :: (a, b) in c.net && 0 <= p < |c.net[(a, b)]| && c.net[(a, b)][p].IsGrant() ==>
          b in Choices(h.granted, a, c.net[(a, b)][p].term))
    && (forall a, b, p, q :: (a, b) in c.net && 0 <= p < q < |c.net[(a, b)]|
                             && SameTermGrants(c.net[(a, b)][p], c.net[(a, b)][q]) ==>
          a == b && (a, c.net[(a, b)][p].term) in h.stepped)
  }

  ghost predicate ElectionInv(c: Cluster, h: History)
  {
    && ClusterOk(c)
    && (forall v :: 0 <= v < |c.nodes| ==> NodeInv(c.nodes[v], v, h) && TallyInv(c, v, h))
    && WonInv(h, |c.nodes|)
    && NetInv(c, h)
  }

  // ---- losing a message keeps the invariant ----

  /** A message of a channel with one taken out was in the channel before, and in the same order. */
  lemma WithoutKeeps(ch: seq<Message>, pos: nat, p: nat)
    requires pos < |ch| && p < |Without(ch, pos)|
    ensures Without(ch, pos)[p] == ch[if p < pos then p else p + 1]
  {
  }

  lemma TakeNet(c: Cluster, h: History, src: nat, dst: nat, pos: nat)
    requires ClusterOk(c) && NetInv(c, h) && InFlight(c, src, dst, pos) && ClusterOk(Take(c, src, dst, pos))
    ensures NetInv(Take(c, src, dst, pos), h)
  {
    var c1 := Take(c, src, dst, pos);
    var ch := c.net[(src, dst)];
    hide ClusterOk;
    forall a, b, p | (a, b) in c1.net && 0 <= p < |c1.net[(a, b)]| && c1.net[(a, b)][p].IsGrant()
      ensures b in Choices(h.granted, a, c1.net[(a, b)][p].term)
    {
      if (a, b) == (src, dst) {
        WithoutKeeps(ch, pos, p);
      }
    }
    forall a, b, p, q | (a, b) in c1.net && 0 <= p < q < |c1.net[(a, b)]|
      && SameTermGrants(c1.net[(a, b)][p], c1.net[(a, b)][q])
      ensures a == b && (a, c1.net[(a, b)][p].term) in h.stepped
    {
      if (a, b) == (src, dst) {
        WithoutKeeps(ch, pos, p);
        WithoutKeeps(ch, pos, q);
      }
    }
  }

  lemma TakeFree(c: Cluster, src: nat, dst: nat, pos: nat, u: nat, v: nat, t: nat)
    requires InFlight(c, src, dst, pos) && (u, v) in c.net && FreeOfGrants(c.net[(u, v)], t)
    ensures FreeOfGrants(Take(c, src, dst, pos).net[(u, v)], t)
  {
    var c1 := Take(c, src, dst, pos);
    if (u, v) == (src, dst) {
      forall p | 0 <= p < |c1.net[(u, v)]| && c1.net[(u, v)][p].IsGrant() ensures c1.net[(u, v)][p].term != t {
        WithoutKeeps(c.net[(src, dst)], pos, p);
      }
    }
  }

  lemma TakeTally(c: Cluster, h: History, src: nat, dst: nat, pos: nat, v: nat)
    requires ClusterOk(c) && InFlight(c, src, dst, pos) && ClusterOk(Take(c, src, dst, pos))
    requires v < |c.nodes| && TallyInv(c, v, h)
    ensures TallyInv(Take(c, src, dst, pos), v, h)
  {
    hide FreeOfGrants;
    if c.nodes[v].role == Candidate {
      var t := c.nodes[v].term;
      forall u | u in VotersOf(h, v, t)
        ensures FreeOfGrants(Take(c, src, dst, pos).net[(u, v)], t)
      {
        TakeFree(c, src, dst, pos, u, v, t);
      }
    }
  }

  lemma TakeInv(c: Cluster, h: History, src: nat, dst: nat, pos: nat)
    requires ElectionInv(c, h) && InFlight(c, src, dst, pos)
    ensures ClusterOk(Take(c, src, dst, pos)) && ElectionInv(Take(c, src, dst, pos), h)
  {
    TakeOk(c, src, dst, pos);
    hide NetInv, TallyInv, NodeInv, WonInv, ClusterOk;
    TakeNet(c, h, src, dst, pos);
    forall v: nat | v < |c.nodes| ensures TallyInv(Take(c, src, dst, pos), v, h) {
      TakeTally(c, h, src, dst, pos, v);
    }
  }

  // ---- what a batch adds to the channels ----

  lemma QuietNet(c: Cluster, v: nat, eff: Effect)
    requires ClusterOk(c) && v < |c.nodes| && NoGrants(eff.sent)
    ensures var net': Net := Apply(c, v, eff).net;
      forall a, b, p :: (a, b) in net' && 0 <= p < |net'[(a, b)]| && net'[(a, b)][p].IsGrant() ==>
        p < |c.net[(a, b)]| && net'[(a, b)][p] == c.net[(a, b)][p]
  {
    var net': Net := Apply(c, v, eff).net;
    forall a, b, p | (a, b) in net' && 0 <= p < |net'[(a, b)]| && net'[(a, b)][p].IsGrant()
      ensures p < |c.net[(a, b)]| && net'[(a, b)][p] == c.net[(a, b)][p]
    {
      if p >= |c.net[(a, b)]| {
        RoutedIn(eff.sent, b, net'[(a, b)][p]);
        assert false;
      }
    }
  }

  lemma GrantNet(c: Cluster, v: nat, eff: Effect, m: Message)
    requires ClusterOk(c) && v < |c.nodes| && OneGrant(eff.sent, m)
    ensures var net': Net := Apply(c, v, eff).net;
      forall a, b, p :: (a, b) in net' && 0 <= p < |net'[(a, b)]| && net'[(a, b)][p].IsGrant() ==>
        || (p < |c.net[(a, b)]| && net'[(a, b)][p] == c.net[(a, b)][p])
        || (a == v && b == m.candidateId && p == |net'[(a, b)]| - 1 && net'[(a, b)][p] == m)
  {
    var net': Net := Apply(c, v, eff).net;
    var front := eff.sent[..|eff.sent| - 1];
    forall a, b, p | (a, b) in net' && 0 <= p < |net'[(a, b)]| && net'[(a, b)][p].IsGrant()
      && p >= |c.net[(a, b)]|
      ensures a == v && b == m.candidateId && p == |net'[(a, b)]| - 1 && net'[(a, b)][p] == m
    {
      assert a == v;
      var i := p - |c.net[(a, b)]|;
      assert net'[(a, b)][p] == Routed(eff.sent, b)[i];
      if i < |Routed(front, b)| {
        assert Routed(front, b)[i] == Routed(eff.sent, b)[i];
        RoutedIn(front, b, Routed(front, b)[i]);
        assert false;
      }
    }
  }

  // ---- the kinds of node steps, as far as elections are concerned ----

  /** Grants nothing in the same term and starts no candidacy. */
  ghost predicate Quiet(s: Node, eff: Effect)
  {
    && NoGrants(eff.sent)
    && eff.node.term == s.term
    && (eff.node.votedFor == s.votedFor || (eff.node.votedFor.Some? && eff.node.role != Candidate))
    && (eff.node.role == Candidate ==> s.role == Candidate && eff.node.votesForMe == s.votesForMe)
  }

  /** Moves to a higher term, granting nothing. */
  ghost predicate Advances(s: Node, eff: Effect)
  {
    NoGrants(eff.sent) && eff.node.term > s.term && eff.node.role != Candidate
  }

  /** Grants one vote: to anybody when it has none in this term, else in a higher term. */
  ghost predicate GrantsOne(s: Node, eff: Effect, m: Message)
  {
    && OneGrant(eff.sent, m)
    && m.sender == s.me
    && m.term == eff.node.term
    && eff.node.votedFor.Some?
    && eff.node.role != Candidate
    && (eff.node.term > s.term || (eff.node.term == s.term && s.votedFor == None))
  }

  /** Starts a candidacy in the next term and votes for itself. */
  ghost predicate Stands(s: Node, eff: Effect, m: Message)
  {
    && OneGrant(eff.sent, m)
    && m.sender == m.candidateId == s.me
    && m.term == eff.node.term == s.term + 1
    && eff.node.votedFor == Some(s.me)
    && eff.node.role == Candidate
    && eff.node.votesForMe == 0
  }

  // ---- how a step changes the history ----

  /** Only the record of node v changes, and its votes are only added to. */
  ghost predicate Extends(h: History, h': History, v: nat)
  {
    && (forall u: nat, t: nat :: u != v ==> Choices(h'.granted, u, t) == Choices(h.granted, u, t))
    && (forall u: nat, t: nat :: u != v ==> ((u, t) in h'.stepped <==> (u, t) in h.stepped))
    && (forall u: nat, t: nat :: u != v ==> ((u, t) in h'.tainted <==> (u, t) in h.tainted))
    && (forall u: nat, t: nat :: u != v ==> ((u, t) in h'.won <==> (u, t) in h.won))
    && (forall u: nat, t: nat :: u != v ==> ((u, t) in h'.voters <==> (u, t) in h.voters))
    && (forall u: nat, t: nat :: u != v ==> VotersOf(h', u, t) == VotersOf(h, u, t))
    && (forall t: nat :: Choices(h.granted, v, t) <= Choices(h'.granted, v, t))
    && (forall t: nat :: (v, t) in h.stepped ==> (v, t) in h'.stepped)
  }

  /** What node v may send: no granted vote, or one that it may cast now and that h' records. */
  ghost predicate MayCast(h: History, h': History, v: nat, sent: seq<Envelope>, g: Option<Message>)
  {
    match g
    case None => NoGrants(sent)
    case Some(m) =>
      && OneGrant(sent, m)
      && m.candidateId in Choices(h'.granted, v, m.term)
      && (m.candidateId in Choices(h.granted, v, m.term) ==> m.candidateId == v && (v, m.term) in h.stepped)
  }

  lemma BackersGrow(h: History, h': History, v: nat, a: nat, t: nat, n: nat, w: set<nat>)
    requires Extends(h, h', v) && Backers(h, a, t, n, w)
    ensures Backers(h', a, t, n, w)
  {
    forall u | u in w ensures a in Choices(h'.granted, u, t) {
      if u == v {
        assert Choices(h.granted, v, t) <= Choices(h'.granted, v, t);
      }
    }
  }

  lemma CastNet(c: Cluster, v: nat, eff: Effect, h: History, h': History, g: Option<Message>)
    requires ClusterOk(c) && v < |c.nodes| && MayCast(h, h', v, eff.sent, g)
    ensures var net': Net := Apply(c, v, eff).net;
      forall a, b, p :: (a, b) in net' && 0 <= p < |net'[(a, b)]| && net'[(a, b)][p].IsGrant() ==>
        || (p < |c.net[(a, b)]| && net'[(a, b)][p] == c.net[(a, b)][p])
        || (a == v && g.Some? && b == g.value.candidateId && p == |net'[(a, b)]| - 1 && net'[(a, b)][p] == g.value)
  {
    match g
    case None => QuietNet(c, v, eff);
    case Some(m) => GrantNet(c, v, eff, m);
  }

  lemma StepNetCast(c: Cluster, h: History, h': History, v: nat, eff: Effect, g: Option<Message>)
    requires ClusterOk(c) && NetInv(c, h) && v < |c.nodes|
    requires Extends(h, h', v) && MayCast(h, h', v, eff.sent, g)
    ensures var net': Net := Apply(c, v, eff).net;
      forall a, b, p :: (a, b) in net' && 0 <= p < |net'[(a, b)]| && net'[(a, b)][p].IsGrant() ==>
        b in Choices(h'.granted, a, net'[(a, b)][p].term)
  {
    CastNet(c, v, eff, h, h', g);
    var net': Net := Apply(c, v, eff).net;
    hide Apply, ClusterOk;
    forall a, b, p | (a, b) in net' && 0 <= p < |net'[(a, b)]| && net'[(a, b)][p].IsGrant()
      ensures b in Choices(h'.granted, a, net'[(a, b)][p].term)
    {
      var t := net'[(a, b)][p].term;
      ChoicesGrow(h, h', v, a, t);
      if p < |c.net[(a, b)]| && net'[(a, b)][p] == c.net[(a, b)][p] {
        assert b in Choices(h.granted, a, t);
      }
    }
  }

  lemma ChoicesGrow(h: History, h': History, v: nat, a: nat, t: nat)
    requires Extends(h, h', v)
    ensures Choices(h.granted, a, t) <= Choices(h'.granted, a, t)
  {
    hide Choices;
    if a != v {
      assert Choices(h'.granted, a, t) == Choices(h.granted, a, t);
    }
  }

  lemma StepNetOnce(c: Cluster, h: History, h': History, v: nat, eff: Effect, g: Option<Message>,
                    a: nat, b: nat, p: nat, q: nat)
    requires ClusterOk(c) && NetInv(c, h) && v < |c.nodes|
    requires Extends(h, h', v) && MayCast(h, h', v, eff.sent, g)
    requires var net': Net := Apply(c, v, eff).net;
      (a, b) in net' && p < q < |net'[(a, b)]| && SameTermGrants(net'[(a, b)][p], net'[(a, b)][q])
    ensures a == b && (a, Apply(c, v, eff).net[(a, b)][p].term) in h'.stepped
  {
    CastNet(c, v, eff, h, h', g);
    var ch, ch' := c.net[(a, b)], Apply(c, v, eff).net[(a, b)];
    assert ch'[p] == ch[p];
    if q < |ch| {
      assert SameTermGrants(ch[p], ch[q]);
    } else {
      assert b in Choices(h.granted, a, ch[p].term);
    }
  }

  lemma StepNetInv(c: Cluster, h: History, h': History, v: nat, eff: Effect, g: Option<Message>)
    requires ClusterOk(c) && NetInv(c, h) && v < |c.nodes| && EffectOk(c.nodes[v], eff)
    requires Extends(h, h', v) && MayCast(h, h', v, eff.sent, g)
    ensures ClusterOk(Apply(c, v, eff)) && NetInv(Apply(c, v, eff), h')
  {
    ApplyOk(c, v, eff);
    StepNetCast(c, h, h', v, eff, g);
    var net': Net := Apply(c, v, eff).net;
    forall a, b, p, q | (a, b) in net' && 0 <= p < q < |net'[(a, b)]|
      && SameTermGrants(net'[(a, b)][p], net'[(a, b)][q])
      ensures a == b && (a, net'[(a, b)][p].term) in h'.stepped
    {
      StepNetOnce(c, h, h', v, eff, g, a, b, p, q);
    }
  }

  lemma OtherNodeInv(s: Node, u: nat, h: History, h': History, v: nat)
    requires NodeInv(s, u, h) && Extends(h, h', v) && u != v
    ensures NodeInv(s, u, h')
  {
    hide Choices;
  }

  lemma StepOther(c: Cluster, h: History, h': History, v: nat, eff: Effect, g: Option<Message>, u: nat)
    requires ClusterOk(c) && v < |c.nodes| && u < |c.nodes| && u != v && EffectOk(c.nodes[v], eff)
    requires NodeInv(c.nodes[u], u, h) && TallyInv(c, u, h)
    requires Extends(h, h', v) && MayCast(h, h', v, eff.sent, g)
    ensures ClusterOk(Apply(c, v, eff))
    ensures NodeInv(c.nodes[u], u, h') && TallyInv(Apply(c, v, eff), u, h')
  {
    OtherNodeInv(c.nodes[u], u, h, h', v);
    hide NodeInv;
    ApplyOk(c, v, eff);
    CastNet(c, v, eff, h, h', g);
    var s := c.nodes[u];
    var c' := Apply(c, v, eff);
    if s.role == Candidate {
      var w := VotersOf(h, u, s.term);
      BackersGrow(h, h', v, u, s.term, |c.nodes|, w);
      forall x | x in w ensures FreeOfGrants(c'.net[(x, u)], s.term) {
        assert FreeOfGrants(c.net[(x, u)], s.term);
        assert u in Choices(h.granted, x, s.term);
      }
    }
  }

  lemma StepWonInv(h: History, h': History, v: nat, n: nat)
    requires WonInv(h, n) && Extends(h, h', v)
    requires forall t: nat :: WonBy(h', v, t, n)
    ensures WonInv(h', n)
  {
    forall a: nat, t: nat ensures WonBy(h', a, t, n) {
      if a != v {
        assert WonBy(h, a, t, n);
        BackersGrow(h, h', v, a, t, n, VotersOf(h, a, t));
      }
    }
  }

  /** A step of node v that leaves its tallies alone. */
  lemma SameWon(h: History, h': History, v: nat, n: nat)
    requires WonInv(h, n) && Extends(h, h', v) && h'.voters == h.voters && h'.won == h.won && h'.tainted == h.tainted
    ensures WonInv(h', n)
  {
    forall t: nat ensures WonBy(h', v, t, n) {
      assert WonBy(h, v, t, n);
      BackersGrow(h, h', v, v, t, n, VotersOf(h, v, t));
    }
    StepWonInv(h, h', v, n);
  }

  /** Assembling the invariant after a step of node v. */
  lemma StepInv(c: Cluster, h: History, h': History, v: nat, eff: Effect, g: Option<Message>)
    requires ElectionInv(c, h) && v < |c.nodes| && EffectOk(c.nodes[v], eff)
    requires Extends(h, h', v) && MayCast(h, h', v, eff.sent, g)
    requires ClusterOk(Apply(c, v, eff))
    requires NodeInv(eff.node, v, h') && TallyInv(Apply(c, v, eff), v, h')
    requires WonInv(h', |c.nodes|)
    ensures ElectionInv(Apply(c, v, eff), h')
  {
    StepNetInv(c, h, h', v, eff, g);
    var c' := Apply(c, v, eff);
    forall u | 0 <= u < |c.nodes| ensures NodeInv(c'.nodes[u], u, h') && TallyInv(c', u, h') {
      if u != v {
        StepOther(c, h, h', v, eff, g, u);
      }
    }
  }

  // ---- each kind of step keeps the invariant ----

  lemma QuietNode(s: Node, v: nat, h: History, eff: Effect)
    requires NodeInv(s, v, h)
    requires Quiet(s, eff) || Advances(s, eff)
    ensures NodeInv(eff.node, v, h)
  {
  }

  lemma QuietInv(c: Cluster, h: History, v: nat, eff: Effect)
    requires ElectionInv(c, h) && v < |c.nodes| && EffectOk(c.nodes[v], eff)
    requires Quiet(c.nodes[v], eff) || Advances(c.nodes[v], eff)
    ensures ClusterOk(Apply(c, v, eff)) && ElectionInv(Apply(c, v, eff), h)
  {
    ApplyOk(c, v, eff);
    QuietNode(c.nodes[v], v, h, eff);
    CastNet(c, v, eff, h, h, None);
    var c' := Apply(c, v, eff);
    assert TallyInv(c', v, h) by {
      assert TallyInv(c, v, h);
      var s := eff.node;
      if s.role == Candidate {
        forall u | u in VotersOf(h, v, s.term) ensures FreeOfGrants(c'.net[(u, v)], s.term) {
          assert FreeOfGrants(c.net[(u, v)], s.term);
        }
      }
    }
    StepInv(c, h, h, v, eff, None);
  }

  function Cast(h: History, m: Message): History
    requires m.Vote?
  {
    h.(granted := h.granted + [Ballot(m.sender, m.candidateId, m.term)])
  }

  lemma CastExtends(h: History, m: Message)
    requires m.Vote?
    ensures Extends(h, Cast(h, m), m.sender)
    ensures forall t: nat ::
              Choices(Cast(h, m).granted, m.sender, t)
              == Choices(h.granted, m.sender, t) + (if t == m.term then [m.candidateId] else [])
  {
    var b := Ballot(m.sender, m.candidateId, m.term);
    forall u: nat, t: nat
      ensures Choices(Cast(h, m).granted, u, t)
           == Choices(h.granted, u, t) + (if u == m.sender && t == m.term then [m.candidateId] else [])
    {
      ChoicesPush(h.granted, b, u, t);
    }
  }

  lemma GrantInv(c: Cluster, h: History, v: nat, eff: Effect, m: Message)
    requires ElectionInv(c, h) && v < |c.nodes| && EffectOk(c.nodes[v], eff)
    requires GrantsOne(c.nodes[v], eff, m)
    ensures ClusterOk(Apply(c, v, eff)) && ElectionInv(Apply(c, v, eff), Cast(h, m))
  {
    ApplyOk(c, v, eff);
    var h' := Cast(h, m);
    CastExtends(h, m);
    GrantNode(c.nodes[v], v, h, eff, m) by {
      assert NodeInv(c.nodes[v], v, h);
    }
    hide NodeInv, NetInv;
    SameWon(h, h', v, |c.nodes|);
    StepInv(c, h, h', v, eff, Some(m));
  }

  lemma GrantNode(s: Node, v: nat, h: History, eff: Effect, m: Message)
    requires NodeInv(s, v, h) && s.me == v && GrantsOne(s, eff, m)
    ensures NodeInv(eff.node, v, Cast(h, m)) && MayCast(h, Cast(h, m), v, eff.sent, Some(m))
  {
    CastExtends(h, m);
    hide Choices, Extends;
  }

  lemma StandInv(c: Cluster, h: History, v: nat, eff: Effect, m: Message)
    requires ElectionInv(c, h) && v < |c.nodes| && EffectOk(c.nodes[v], eff)
    requires Stands(c.nodes[v], eff, m)
    ensures ClusterOk(Apply(c, v, eff)) && ElectionInv(Apply(c, v, eff), Cast(h, m))
  {
    ApplyOk(c, v, eff);
    var h' := Cast(h, m);
    CastExtends(h, m);
    assert NodeInv(c.nodes[v], v, h);
    assert NodeInv(eff.node, v, h');
    assert VotersOf(h', v, eff.node.term) == {};
    SameWon(h, h', v, |c.nodes|);
    StepInv(c, h, h', v, eff, Some(m));
  }

  lemma StepDownInv(c: Cluster, h: History, v: nat, eff: Effect)
    requires ElectionInv(c, h) && v < |c.nodes| && EffectOk(c.nodes[v], eff)
    requires c.nodes[v].role == Candidate && eff.sent == []
    requires eff.node.term == c.nodes[v].term && eff.node.votedFor == None && eff.node.role == Follower
    ensures ClusterOk(Apply(c, v, eff))
    ensures ElectionInv(Apply(c, v, eff), h.(stepped := h.stepped + {(v, c.nodes[v].term)}))
  {
    ApplyOk(c, v, eff);
    var h' := h.(stepped := h.stepped + {(v, c.nodes[v].term)});
    StepDownNode(c.nodes[v], h, v, eff) by {
      assert NodeInv(c.nodes[v], v, h);
    }
    StepDownWon(c, h, v);
    hide NodeInv, TallyInv;
    StepInv(c, h, h', v, eff, None);
  }

  lemma StepDownNode(s: Node, h: History, v: nat, eff: Effect)
    requires NodeInv(s, v, h) && s.role == Candidate
    requires eff.node.term == s.term && eff.node.votedFor == None && eff.node.role == Follower
    ensures NodeInv(eff.node, v, h.(stepped := h.stepped + {(v, s.term)}))
  {
  }

  lemma StepDownWon(c: Cluster, h: History, v: nat)
    requires ElectionInv(c, h) && v < |c.nodes| && c.nodes[v].role == Candidate
    ensures WonInv(h.(stepped := h.stepped + {(v, c.nodes[v].term)}), |c.nodes|)
  {
    var h' := h.(stepped := h.stepped + {(v, c.nodes[v].term)});
    SameWon(h, h', v, |c.nodes|);
  }

  /** Candidate v reads vote m in channel (src, v): the record afterwards. */
  function Tallied(h: History, s: Node, src: nat, m: Message, promoted: bool): History
  {
    var key := (s.me, s.term);
    h.(tainted := if m.IsGrant() && m.term != s.term then h.tainted + {key} else h.tainted,
       voters := if m.IsGrant() && m.term == s.term then h.voters[key := VotersOf(h, s.me, s.term) + {src}]
          else h.voters,
       won := if promoted then h.won + {key} else h.won)
  }

  /** A tallied vote of the candidate's own term is from a new backer, and no second one is on its way. */
  lemma FreshBacker(c: Cluster, h: History, src: nat, v: nat, pos: nat)
    requires ElectionInv(c, h) && InFlight(c, src, v, pos) && v < |c.nodes|
    requires c.nodes[v].role == Candidate
    requires c.net[(src, v)][pos].IsGrant() && c.net[(src, v)][pos].term == c.nodes[v].term
    ensures src !in VotersOf(h, v, c.nodes[v].term)
    ensures v in Choices(h.granted, src, c.nodes[v].term)
    ensures FreeOfGrants(Without(c.net[(src, v)], pos), c.nodes[v].term)
  {
    var t := c.nodes[v].term;
    var ch := c.net[(src, v)];
    assert TallyInv(c, v, h) && NodeInv(c.nodes[v], v, h);
    assert !FreeOfGrants(ch, t);
    forall p | 0 <= p < |Without(ch, pos)| && Without(ch, pos)[p].IsGrant() ensures Without(ch, pos)[p].term != t {
      if p < pos {
        assert !SameTermGrants(ch[p], ch[pos]);
      } else {
        assert !SameTermGrants(ch[pos], ch[p + 1]);
      }
    }
  }

  lemma TallyWon(h: History, h': History, s: Node, src: nat, m: Message, n: nat)
    requires WonInv(h, n) && Extends(h, h', s.me)
    requires NodeInv(s, s.me, h) && s.role == Candidate
    requires var s' := CandidateOn(s, m).node; h' == Tallied(h, s, src, m, s'.role == Elected) && s.n == n
    requires m.Vote?
    requires var w := VotersOf(h', s.me, s.term);
      && Backers(h', s.me, s.term, n, w)
      && ((s.me, s.term) !in h'.tainted ==> |w| == CandidateOn(s, m).node.votesForMe)
    ensures WonInv(h', n)
  {
    var v := s.me;
    forall t: nat ensures WonBy(h', v, t, n) {
      if t != s.term {
        assert WonBy(h, v, t, n);
        BackersGrow(h, h', v, v, t, n, VotersOf(h, v, t));
      }
    }
    StepWonInv(h, h', v, n);
  }

  lemma TalliedExtends(h: History, s: Node, src: nat, m: Message, promoted: bool)
    ensures Extends(h, Tallied(h, s, src, m, promoted), s.me)
    ensures MayCast(h, Tallied(h, s, src, m, promoted), s.me, [], None)
  {
  }

  lemma TallyNode(s: Node, v: nat, h: History, src: nat, m: Message)
    requires NodeInv(s, v, h) && s.me == v && s.role == Candidate && m.Vote?
    ensures var s' := CandidateOn(s, m).node;
      NodeInv(s', v, Tallied(h, s, src, m, s'.role == Elected))
  {
  }

  lemma TallyTally(c: Cluster, h: History, src: nat, v: nat, pos: nat)
    requires ElectionInv(c, h) && InFlight(c, src, v, pos) && v < |c.nodes|
    requires c.nodes[v].role == Candidate && c.net[(src, v)][pos].Vote?
    requires ClusterOk(Take(c, src, v, pos)) && TallyInv(Take(c, src, v, pos), v, h)
    ensures var s := c.nodes[v];
      var m := c.net[(src, v)][pos];
      var s' := CandidateOn(s, m).node;
      var h' := Tallied(h, s, src, m, s'.role == Elected);
      var w := VotersOf(h', v, s.term);
      && ((v, s.term) !in h'.tainted ==> |w| == s'.votesForMe)
      && Backers(h', v, s.term, |c.nodes|, w)
      && forall u :: u in w ==> FreeOfGrants(Take(c, src, v, pos).net[(u, v)], s.term)
  {
    var s := c.nodes[v];
    var m := c.net[(src, v)][pos];
    var h' := Tallied(h, s, src, m, CandidateOn(s, m).node.role == Elected);
    var c1 := Take(c, src, v, pos);
    if m.IsGrant() && m.term == s.term {
      FreshBacker(c, h, src, v, pos);
      assert VotersOf(h', v, s.term) == VotersOf(h, v, s.term) + {src};
      assert c1.net[(src, v)] == Without(c.net[(src, v)], pos);
    }
  }

  lemma SilentTally(c: Cluster, h: History, v: nat, eff: Effect)
    requires ClusterOk(c) && v < |c.nodes| && eff.sent == [] && eff.node.term == c.nodes[v].term
    requires var w := VotersOf(h, v, eff.node.term);
      && ((v, eff.node.term) !in h.tainted ==> |w| == eff.node.votesForMe)
      && Backers(h, v, eff.node.term, |c.nodes|, w)
      && forall u :: u in w ==> FreeOfGrants(c.net[(u, v)], eff.node.term)
    requires ClusterOk(Apply(c, v, eff))
    ensures TallyInv(Apply(c, v, eff), v, h)
  {
    assert Routed([], v) == [];
    forall u | (u, v) in c.net ensures Apply(c, v, eff).net[(u, v)] == c.net[(u, v)] {}
  }

  lemma TallyStepInv(c: Cluster, h: History, src: nat, v: nat, pos: nat)
    requires ElectionInv(c, h) && InFlight(c, src, v, pos) && v < |c.nodes|
    requires c.nodes[v].role == Candidate && c.net[(src, v)][pos].Vote?
    ensures var s := c.nodes[v];
      var eff := CandidateOn(s, c.net[(src, v)][pos]);
      && ClusterOk(Take(c, src, v, pos)) && ClusterOk(Apply(Take(c, src, v, pos), v, eff))
      && ElectionInv(Apply(Take(c, src, v, pos), v, eff),
                     Tallied(h, s, src, c.net[(src, v)][pos], eff.node.role == Elected))
  {
    var s := c.nodes[v];
    var m := c.net[(src, v)][pos];
    var eff := CandidateOn(s, m);
    var h' := Tallied(h, s, src, m, eff.node.role == Elected);
    var c1 := Take(c, src, v, pos);
    TakeInv(c, h, src, v, pos);
    ApplyOk(c1, v, eff);
    var c' := Apply(c1, v, eff);
    assert NodeInv(s, v, h) && TallyInv(c1, v, h);
    TalliedExtends(h, s, src, m, eff.node.role == Elected);
    TallyNode(s, v, h, src, m);
    TallyTally(c, h, src, v, pos);
    SilentTally(c1, h', v, eff);
    TallyWon(h, h', s, src, m, |c.nodes|);
    StepInv(c1, h, h', v, eff, None);
  }

  // ---- classification of the handlers ----

  lemma MulticastNoGrants(to: seq<bool>, msg: Message)
    requires !msg.IsGrant()
    ensures NoGrants(Multicast(to, msg))
  {
    forall e | e in Multicast(to, msg) ensures !e.msg.IsGrant() {
      MulticastIn(to, msg, e);
    }
  }

  lemma BroadcastAppendQuiet(s: Node, e: Entry)
    requires Shape(s)
    ensures NoGrants(BroadcastAppend(s, e).sent)
  {
    var prev := |s.log| - 1;
    MulticastNoGrants(UpToDate(s.nextIndex), AppendMessage(s, prev, s.log[prev].term, e));
  }

  lemma LeaderOnAckQuiet(s: Node, i: nat, success: bool)
    requires NodeOk(s) && s.role == Leader && i < s.n
    ensures Quiet(s, LeaderOnAck(s, i, success))
  {
    if s.nextIndex[i].Some? {
      var a := AdvanceOnAck(s, i, success);
      var committable := Minimum(a.node.matchIndex);
      assert committable <= a.node.matchIndex[s.me];
      var s1 := CommitEntry(a.node, committable, a.node.log[committable].term);
      MulticastNoGrants(Everyone(s1.n), CommittalMessage(s1));
      assert NoGrants(a.sent);
    }
  }

  ghost predicate Plain(s: Node, eff: Effect)
  {
    || Quiet(s, eff)
    || Advances(s, eff)
    || (|eff.sent| >= 1
        && (var m := eff.sent[|eff.sent| - 1].msg; GrantsOne(s, eff, m) || Stands(s, eff, m)))
  }

  lemma FollowerPlain(s: Node, m: Message)
    requires NodeOk(s) && s.role == Follower
    ensures Plain(s, FollowerOn(s, m)) && FollowerOn(s, m).node.role == Follower
  {
    if m.RequestVote? {
      var eff := FollowerOnRequestVote(s, m);
      var vote := eff.sent[0].msg;
      assert eff.sent == [Envelope(Some(m.sender), vote)];
      if vote.granted {
        assert OneGrant(eff.sent, vote);
      } else {
        assert NoGrants(eff.sent);
      }
    }
  }

  lemma LeaderPlain(s: Node, m: Message)
    requires NodeOk(s) && s.role == Leader && m.sender < s.n
    ensures Plain(s, LeaderOn(s, m)) && LeaderOn(s, m).node.role in {Leader, Follower}
  {
    if m.Acknowledge? {
      LeaderOnAckQuiet(s, m.sender, m.success);
    } else if m.ClientRequest? {
      BroadcastAppendQuiet(s, m.entry);
    } else if m.RequestVote? && m.term > s.term {
      var eff := LeaderOn(s, m);
      assert OneGrant(eff.sent, eff.sent[0].msg);
    }
  }

  lemma CandidatePlain(s: Node, m: Message)
    requires NodeOk(s) && s.role == Candidate
    requires !m.Vote? && !(m.Heartbeat? && m.term == s.term)
    ensures Plain(s, CandidateOn(s, m)) && CandidateOn(s, m).node.role in {Candidate, Follower}
  {
    if m.RequestVote? && m.term > s.term {
      var eff := CandidateOn(s, m);
      assert OneGrant(eff.sent, eff.sent[0].msg);
    }
  }

  lemma OnPlain(s: Node, m: Message)
    requires NodeOk(s) && Reads(s.role) && m.sender < s.n
    requires s.role == Candidate ==> !m.Vote? && !(m.Heartbeat? && m.term == s.term)
    ensures Plain(s, On(s, m))
  {
    match s.role {
      case Follower => FollowerPlain(s, m);
      case Candidate => CandidatePlain(s, m);
      case Leader => LeaderPlain(s, m);
    }
  }

  lemma EnterPlain(s: Node)
    requires NodeOk(s)
    ensures s.role == Standing ==> Plain(s, EnterCandidate(s))
    ensures s.role == Elected ==> Plain(s, EnterLeader(s))
  {
    if s.role == Standing {
      var eff := EnterCandidate(s);
      assert OneGrant(eff.sent, eff.sent[1].msg);
    } else if s.role == Elected {
      var s1 := s.(role := Leader, leaderId := Some(s.me),
                   matchIndex := seq(s.n, _ => s.commitIndex), nextIndex := seq(s.n, _ => None));
      BroadcastAppendQuiet(s1, Entry(s.term, "{}", -1));
      hide Multicast;
    }
  }

  lemma ServePlain(s: Node)
    requires NodeOk(s) && s.role == Leader
    ensures Plain(s, PopClient(s))
  {
    if s.queue != [] {
      BroadcastAppendQuiet(s.(queue := s.queue[1..]), s.queue[0]);
    }
  }

  lemma LocalPlain(s: Node, ev: Event)
    requires NodeOk(s) && LocalStep(s, ev).Some?
    ensures Plain(s, LocalStep(s, ev).value)
  {
    if ev.Enter? {
      hide Plain, EnterCandidate, EnterLeader;
      EnterPlain(s);
    } else if ev.ServeClient? {
      hide Plain, PopClient;
      ServePlain(s);
    } else {
      hide EnterCandidate, EnterLeader, PopClient;
    }
  }

  /** A plain step keeps the invariant, with its granted vote recorded. */
  lemma PlainInv(c: Cluster, h: History, v: nat, eff: Effect)
    requires ElectionInv(c, h) && v < |c.nodes| && EffectOk(c.nodes[v], eff)
    requires Plain(c.nodes[v], eff)
    ensures ClusterOk(Apply(c, v, eff))
    ensures ElectionInv(Apply(c, v, eff), h.(granted := h.granted + Grants(eff.sent)))
  {
    var s := c.nodes[v];
    if Quiet(s, eff) || Advances(s, eff) {
      NoGrantsEmpty(eff.sent);
      assert h.granted + Grants(eff.sent) == h.granted;
      QuietInv(c, h, v, eff);
    } else {
      var m := eff.sent[|eff.sent| - 1].msg;
      OneGrantBallot(eff.sent, m);
      if GrantsOne(s, eff, m) {
        GrantInv(c, h, v, eff, m);
      } else {
        StandInv(c, h, v, eff, m);
      }
    }
  }

  // ---- every run ----

  /** Only a candidate that reads a vote is promoted. */
  lemma NotPromoted(c: Cluster, h: History, ev: Event)
    requires ClusterOk(c) && ev.Deliver? && InFlight(c, ev.src, ev.dst, ev.pos) && Reads(c.nodes[ev.dst].role)
    requires !(c.nodes[ev.dst].role == Candidate && c.net[(ev.src, ev.dst)][ev.pos].Vote?)
    ensures !Promotes(c, ev, ev.dst) && !Tallies(c, ev, ev.dst)
  {
  }

  lemma DeliverInv(c: Cluster, h: History, ev: Event)
    requires ElectionInv(c, h) && ev.Deliver? && InFlight(c, ev.src, ev.dst, ev.pos) && Reads(c.nodes[ev.dst].role)
    ensures ElectionInv(Next(c, ev), Record(h, c, ev))
  {
    var s := c.nodes[ev.dst];
    var m := c.net[(ev.src, ev.dst)][ev.pos];
    if s.role == Candidate && m.Vote? {
      VoteDeliverInv(c, h, ev);
    } else {
      NotPromoted(c, h, ev);
      OtherDeliverInv(c, h, ev);
    }
  }

  /** A candidate that reads a vote. */
  lemma VoteRead(c: Cluster, ev: Event)
    requires ClusterOk(c) && ev.Deliver? && InFlight(c, ev.src, ev.dst, ev.pos)
    requires c.nodes[ev.dst].role == Candidate && c.net[(ev.src, ev.dst)][ev.pos].Vote?
    ensures var s, m := c.nodes[ev.dst], c.net[(ev.src, ev.dst)][ev.pos];
      var eff := CandidateOn(s, m);
      && eff.sent == [] && m.sender == ev.src && s.me == ev.dst
      && Next(c, ev) == Apply(Take(c, ev.src, ev.dst, ev.pos), ev.dst, eff)
      && SentIn(c, ev) == []
      && ReadBy(c, ev, ev.dst) == Some(m)
      && !StepsDown(c, ev, ev.dst)
      && (Tallies(c, ev, ev.dst) <==> m.granted)
      && (Promotes(c, ev, ev.dst) <==> eff.node.role == Elected)
  {
    var s, m := c.nodes[ev.dst], c.net[(ev.src, ev.dst)][ev.pos];
    assert On(s, m) == CandidateOn(s, m);
    assert CandidateOn(s, m).sent == [];
    hide On, CandidateOn, MoveOf, Next;
    NextReads(c, ev.src, ev.dst, ev.pos);
  }

  lemma VoteRecord(c: Cluster, h: History, ev: Event)
    requires ClusterOk(c) && ev.Deliver? && InFlight(c, ev.src, ev.dst, ev.pos)
    requires c.nodes[ev.dst].role == Candidate && c.net[(ev.src, ev.dst)][ev.pos].Vote?
    ensures var s, m := c.nodes[ev.dst], c.net[(ev.src, ev.dst)][ev.pos];
      Record(h, c, ev) == Tallied(h, s, ev.src, m, CandidateOn(s, m).node.role == Elected)
  {
    VoteRead(c, ev);
    hide ClusterOk, SentIn, ReadBy, StepsDown, Tallies, Promotes, CandidateOn, Next;
    assert h.granted + Grants([]) == h.granted;
  }

  lemma VoteDeliverInv(c: Cluster, h: History, ev: Event)
    requires ElectionInv(c, h) && ev.Deliver? && InFlight(c, ev.src, ev.dst, ev.pos)
    requires c.nodes[ev.dst].role == Candidate && c.net[(ev.src, ev.dst)][ev.pos].Vote?
    ensures ElectionInv(Next(c, ev), Record(h, c, ev))
  {
    assert ClusterOk(c);
    hide *;
    VoteRead(c, ev);
    VoteRecord(c, h, ev);
    TallyStepInv(c, h, ev.src, ev.dst, ev.pos);
  }

  lemma StepDownRecord(c: Cluster, h: History, ev: Event)
    requires ClusterOk(c) && ev.Deliver? && InFlight(c, ev.src, ev.dst, ev.pos) && Reads(c.nodes[ev.dst].role)
    requires !Promotes(c, ev, ev.dst) && !Tallies(c, ev, ev.dst) && StepsDown(c, ev, ev.dst)
    ensures Record(h, c, ev) == h.(stepped := h.stepped + {(ev.dst, c.nodes[ev.dst].term)})
  {
    hide Promotes, Tallies;
    assert h.granted + Grants([]) == h.granted;
  }

  lemma PlainRecord(c: Cluster, h: History, ev: Event)
    requires ClusterOk(c) && ev.Deliver? && InFlight(c, ev.src, ev.dst, ev.pos) && Reads(c.nodes[ev.dst].role)
    requires !Promotes(c, ev, ev.dst) && !Tallies(c, ev, ev.dst) && !StepsDown(c, ev, ev.dst)
    ensures Record(h, c, ev)
         == h.(granted := h.granted + Grants(On(c.nodes[ev.dst], c.net[(ev.src, ev.dst)][ev.pos]).sent))
  {
    hide Promotes, Tallies, StepsDown, On;
  }

  lemma OtherDeliverInv(c: Cluster, h: History, ev: Event)
    requires ElectionInv(c, h) && ev.Deliver? && InFlight(c, ev.src, ev.dst, ev.pos) && Reads(c.nodes[ev.dst].role)
    requires !(c.nodes[ev.dst].role == Candidate && c.net[(ev.src, ev.dst)][ev.pos].Vote?)
    requires !Promotes(c, ev, ev.dst) && !Tallies(c, ev, ev.dst)
    ensures ElectionInv(Next(c, ev), Record(h, c, ev))
  {
    var s := c.nodes[ev.dst];
    var m := c.net[(ev.src, ev.dst)][ev.pos];
    var eff := On(s, m);
    var c1 := Take(c, ev.src, ev.dst, ev.pos);
    TakeInv(c, h, ev.src, ev.dst, ev.pos);
    hide ElectionInv, Record, Promotes, Tallies;
    if StepsDown(c, ev, ev.dst) {
      StepDownRecord(c, h, ev);
      StepDownInv(c1, h, ev.dst, eff);
    } else {
      OnPlain(s, m);
      PlainRecord(c, h, ev);
      PlainInv(c1, h, ev.dst, eff);
    }
  }

  lemma ElectionStep(c: Cluster, h: History, ev: Event)
    requires ElectionInv(c, h)
    ensures ElectionInv(Next(c, ev), Record(h, c, ev))
  {
    match MoveOf(c, ev) {
      case Idle =>
        assert h.granted + [] == h.granted;
        assert Record(h, c, ev) == h;
      case Lose(base) =>
        assert h.granted + [] == h.granted;
        TakeInv(c, h, ev.src, ev.dst, ev.pos);
      case Act(base, v, eff) =>
        if ev.Deliver? {
          DeliverInv(c, h, ev);
        } else {
          LocalPlain(c.nodes[v], ev);
          PlainInv(c, h, v, eff);
        }
    }
  }

  lemma BootInv(n: nat)
    requires n >= 1
    ensures ElectionInv(Boot(n), NOTHING)
  {
    hide Boot;
    var c := Boot(n);
    forall v | 0 <= v < n ensures NodeInv(c.nodes[v], v, NOTHING) && TallyInv(c, v, NOTHING) {
      assert c.nodes[v] == InitNode(n, v);
    }
    forall v: nat, t: nat ensures WonBy(NOTHING, v, t, n) {}
    assert NetInv(c, NOTHING);
  }

  lemma {:induction false} RunInv(n: nat, evs: seq<Event>)
    requires n >= 1
    ensures ElectionInv(Exec(Boot(n), evs), Track(Boot(n), evs))
  {
    BootInv(n);
    if evs != [] {
      var before := evs[..|evs| - 1];
      RunInv(n, before);
      ElectionStep(Exec(Boot(n), before), Track(Boot(n), before), evs[|evs| - 1]);
    }
  }

  // ---- the theorems ----

  lemma TrackStep(c: Cluster, evs: seq<Event>, k: nat)
    requires ClusterOk(c) && k < |evs|
    ensures Track(c, evs[..k + 1]) == Record(Track(c, evs[..k]), Exec(c, evs[..k]), evs[k])
  {
    assert evs[..k + 1][..k] == evs[..k];
  }

  // What one event adds to the record.

  lemma RecordWon(h: History, c: Cluster, ev: Event, v: nat)
    requires ClusterOk(c)
    ensures h.won <= Record(h, c, ev).won
    ensures Promotes(c, ev, v) ==> (v, c.nodes[v].term) in Record(h, c, ev).won
  {
    if Promotes(c, ev, v) {
      PromotesDelivers(c, ev, v);
    }
    hide Promotes, Next, Tallies, StepsDown, ReadBy, SentIn, ClusterOk;
  }

  /** Only reading a message promotes a candidate. */
  lemma PromotesDelivers(c: Cluster, ev: Event, v: nat)
    requires ClusterOk(c) && Promotes(c, ev, v)
    ensures ev.Deliver? && ev.dst == v
  {
  }

  lemma RecordTainted(h: History, c: Cluster, ev: Event, v: nat, t: nat)
    requires ClusterOk(c) && (v, t) in Record(h, c, ev).tainted && (v, t) !in h.tainted
    ensures Tallies(c, ev, v) && c.nodes[v].term == t && ReadBy(c, ev, v).value.term != t
  {
  }

  lemma RecordStepped(h: History, c: Cluster, ev: Event, v: nat, t: nat)
    requires ClusterOk(c) && (v, t) in Record(h, c, ev).stepped && (v, t) !in h.stepped
    ensures StepsDown(c, ev, v) && c.nodes[v].term == t && c.nodes[v].role == Candidate
  {
  }

  lemma {:induction false} WonStays(c: Cluster, evs: seq<Event>, k: nat, key: (nat, nat))
    requires ClusterOk(c) && k <= |evs|
    requires key in Track(c, evs[..k]).won
    ensures key in Track(c, evs).won
    decreases |evs| - k
  {
    hide *;
    if k == |evs| {
      assert evs[..k] == evs;
    } else {
      TrackStep(c, evs, k);
      RecordWon(Track(c, evs[..k]), Exec(c, evs[..k]), evs[k], key.0);
      WonStays(c, evs, k + 1, key);
    }
  }

  /** Node v, candidate in `term`, counts a granted vote at event i. */
  ghost predicate TalliesAt(n: nat, evs: seq<Event>, i: nat, v: nat, term: nat)
    requires n >= 1 && i < |evs|
  {
    v < n && Tallies(Exec(Boot(n), evs[..i]), evs[i], v) && Exec(Boot(n), evs[..i]).nodes[v].term == term
  }

  function VoteAt(n: nat, evs: seq<Event>, i: nat, v: nat): Message
    requires n >= 1 && i < |evs| && Tallies(Exec(Boot(n), evs[..i]), evs[i], v)
  {
    ReadBy(Exec(Boot(n), evs[..i]), evs[i], v).value
  }

  /** As candidate in `term`, v counts a granted vote of node u that is of that term. */
  ghost predicate SupportedBy(n: nat, evs: seq<Event>, v: nat, term: nat, u: nat)
    requires n >= 1
  {
    exists i: nat :: i < |evs| && TalliesAt(n, evs, i, v, term)
                     && VoteAt(n, evs, i, v).term == term && VoteAt(n, evs, i, v).sender == u
  }

  /** The nodes that support v in `term` with a vote of that term, whatever other votes v counts. */
  ghost function Supporters(n: nat, evs: seq<Event>, v: nat, term: nat): set<nat>
    requires n >= 1
  {
    set u: nat | u < n && SupportedBy(n, evs, v, term, u)
  }

  /** Candidate v counts no granted vote of another term. */
  ghost predicate CleanTally(n: nat, evs: seq<Event>, v: nat, term: nat)
    requires n >= 1
  {
    forall i: nat :: i < |evs| && TalliesAt(n, evs, i, v, term) ==> VoteAt(n, evs, i, v).term == term
  }

  lemma CleanAt(n: nat, evs: seq<Event>, i: nat, v: nat, term: nat)
    requires n >= 1 && v < n && i < |evs| && CleanTally(n, evs, v, term)
    ensures var c := Exec(Boot(n), evs[..i]);
      Tallies(c, evs[i], v) && c.nodes[v].term == term ==> ReadBy(c, evs[i], v).value.term == term
  {
    hide Tallies, ReadBy, Exec, Boot;
    assert TalliesAt(n, evs, i, v, term) ==> VoteAt(n, evs, i, v).term == term;
  }

  lemma {:induction false} CleanIsUntainted(n: nat, evs: seq<Event>, k: nat, v: nat, term: nat)
    requires n >= 1 && v < n && k <= |evs| && CleanTally(n, evs, v, term)
    ensures (v, term) !in Track(Boot(n), evs[..k]).tainted
  {
    if k > 0 {
      hide *;
      CleanIsUntainted(n, evs, k - 1, v, term);
      CleanAt(n, evs, k - 1, v, term);
      TrackStep(Boot(n), evs, k - 1);
      var h, c := Track(Boot(n), evs[..k - 1]), Exec(Boot(n), evs[..k - 1]);
      if (v, term) in Record(h, c, evs[k - 1]).tainted {
        RecordTainted(h, c, evs[k - 1], v, term);
      }
    } else {
      assert evs[..0] == [];
      NothingAtStart(Boot(n));
    }
  }

  lemma RecordVoters(h: History, c: Cluster, ev: Event, v: nat, t: nat, u: nat)
    requires ClusterOk(c) && u in VotersOf(Record(h, c, ev), v, t) && u !in VotersOf(h, v, t)
    ensures v < |c.nodes| && Tallies(c, ev, v) && c.nodes[v].term == t
    ensures ReadBy(c, ev, v).value.term == t && ReadBy(c, ev, v).value.sender == u
  {
    hide Promotes, StepsDown, SentIn;
  }

  lemma VotersStay(h: History, c: Cluster, ev: Event, v: nat, t: nat)
    requires ClusterOk(c)
    ensures VotersOf(h, v, t) <= VotersOf(Record(h, c, ev), v, t)
  {
    hide Promotes, StepsDown, SentIn, Tallies, ReadBy;
  }

  /** The recorded voters are supporters. */
  lemma {:induction false} VotersSupport(n: nat, evs: seq<Event>, k: nat, v: nat, term: nat, u: nat)
    requires n >= 1 && k <= |evs| && u in VotersOf(Track(Boot(n), evs[..k]), v, term)
    ensures SupportedBy(n, evs, v, term, u)
  {
    hide *;
    if k == 0 {
      assert evs[..0] == [];
      NothingAtStart(Boot(n));
      NoVoters(v, term);
    } else {
      TrackStep(Boot(n), evs, k - 1);
      var h, c := Track(Boot(n), evs[..k - 1]), Exec(Boot(n), evs[..k - 1]);
      if u in VotersOf(h, v, term) {
        VotersSupport(n, evs, k - 1, v, term, u);
      } else {
        RecordVoters(h, c, evs[k - 1], v, term, u);
        SupportAt(n, evs, k - 1, v, term);
      }
    }
  }

  lemma NoVoters(v: nat, t: nat)
    ensures VotersOf(NOTHING, v, t) == {}
  {
  }

  lemma SupportAt(n: nat, evs: seq<Event>, i: nat, v: nat, term: nat)
    requires n >= 1 && i < |evs| && v < n
    requires var c := Exec(Boot(n), evs[..i]);
      Tallies(c, evs[i], v) && c.nodes[v].term == term && ReadBy(c, evs[i], v).value.term == term
    ensures SupportedBy(n, evs, v, term, ReadBy(Exec(Boot(n), evs[..i]), evs[i], v).value.sender)
  {
    hide Tallies, ReadBy, Exec, Boot;
    assert TalliesAt(n, evs, i, v, term);
    assert VoteAt(n, evs, i, v).term == term;
  }

  lemma RecordsVoter(h: History, c: Cluster, ev: Event, v: nat, t: nat)
    requires ClusterOk(c) && v < |c.nodes|
    requires Tallies(c, ev, v) && c.nodes[v].term == t && ReadBy(c, ev, v).value.term == t
    ensures ReadBy(c, ev, v).value.sender in VotersOf(Record(h, c, ev), v, t)
  {
    hide Promotes, StepsDown, SentIn;
  }

  lemma {:induction false} VoterStays(c: Cluster, evs: seq<Event>, k: nat, v: nat, t: nat, u: nat)
    requires ClusterOk(c) && k <= |evs| && u in VotersOf(Track(c, evs[..k]), v, t)
    ensures u in VotersOf(Track(c, evs), v, t)
    decreases |evs| - k
  {
    hide *;
    if k == |evs| {
      assert evs[..k] == evs;
    } else {
      TrackStep(c, evs, k);
      VotersStay(Track(c, evs[..k]), Exec(c, evs[..k]), evs[k], v, t);
      VoterStays(c, evs, k + 1, v, t, u);
    }
  }

  lemma SupportersVote(n: nat, evs: seq<Event>, v: nat, term: nat, u: nat)
    requires n >= 1 && SupportedBy(n, evs, v, term, u)
    ensures u in VotersOf(Track(Boot(n), evs), v, term)
  {
    hide Exec, Boot, Track, Tallies, ReadBy, VotersOf, Record;
    var i: nat :| i < |evs| && TalliesAt(n, evs, i, v, term)
                  && VoteAt(n, evs, i, v).term == term && VoteAt(n, evs, i, v).sender == u;
    TrackStep(Boot(n), evs, i);
    RecordsVoter(Track(Boot(n), evs[..i]), Exec(Boot(n), evs[..i]), evs[i], v, term);
    VoterStays(Boot(n), evs, i + 1, v, term, u);
  }

  /** The supporters of a candidacy are its recorded voters. */
  lemma SupportersAre(n: nat, evs: seq<Event>, v: nat, term: nat)
    requires n >= 1
    ensures Supporters(n, evs, v, term) == VotersOf(Track(Boot(n), evs), v, term)
  {
    hide Exec, Boot, Track, VotersOf, SupportedBy, ElectionInv;
    RunInv(n, evs);
    assert evs[..|evs|] == evs;
    forall u: nat ensures u in Supporters(n, evs, v, term) <==> u in VotersOf(Track(Boot(n), evs), v, term) {
      if u in VotersOf(Track(Boot(n), evs), v, term) {
        VoterIsNode(Exec(Boot(n), evs), Track(Boot(n), evs), v, term, u);
        VotersSupport(n, evs, |evs|, v, term, u);
      }
      if u in Supporters(n, evs, v, term) {
        SupportersVote(n, evs, v, term, u);
      }
    }
  }

  lemma VoterIsNode(c: Cluster, h: History, v: nat, t: nat, u: nat)
    requires ElectionInv(c, h) && u in VotersOf(h, v, t)
    ensures u < |c.nodes|
  {
    assert WonBy(h, v, t, |c.nodes|);
  }

  /** At most n distinct numbers are below n. */
  lemma {:induction false} SubsetSize(w: set<nat>, n: nat)
    requires forall u :: u in w ==> u < n
    ensures |w| <= n
  {
    if n == 0 {
      assert w == {};
    } else {
      SubsetSize(w - {n - 1}, n - 1);
    }
  }

  lemma Quorums(a: set<nat>, b: set<nat>, n: nat) returns (u: nat)
    requires forall x :: x in a + b ==> x < n
    requires |a| > n / 2 && |b| > n / 2
    ensures u in a && u in b
  {
    if a * b == {} {
      assert |a + b| == |a| + |b|;
      SubsetSize(a + b, n);
      assert false;
    }
    u :| u in a * b;
  }

  lemma OneWinner(c: Cluster, h: History, a: nat, b: nat, t: nat)
    requires ElectionInv(c, h) && a < |c.nodes| && b < |c.nodes|
    requires (a, t) in h.won && (b, t) in h.won
    requires |VotersOf(h, a, t)| > |c.nodes| / 2 && |VotersOf(h, b, t)| > |c.nodes| / 2
    ensures a == b
  {
    if a != b {
      assert WonBy(h, a, t, |c.nodes|) && WonBy(h, b, t, |c.nodes|);
      var u := Quorums(VotersOf(h, a, t), VotersOf(h, b, t), |c.nodes|);
      assert a in Choices(h.granted, u, t) && b in Choices(h.granted, u, t);
      TwoChoices(c.nodes[u], u, h, t, a, b);
    }
  }

  /** Of two candidates that u chose in one term, one is u itself, which then cannot have won. */
  lemma TwoChoices(s: Node, u: nat, h: History, t: nat, a: nat, b: nat)
    requires NodeInv(s, u, h) && a != b
    requires a in Choices(h.granted, u, t) && b in Choices(h.granted, u, t)
    ensures (a == u || b == u) && (u, t) !in h.won
  {
    var cs := Choices(h.granted, u, t);
    assert |cs| == 2;
  }

  lemma PromotionIsRecorded(n: nat, evs: seq<Event>, k: nat, a: nat)
    requires n >= 1 && k < |evs| && a < n
    requires Promotes(Exec(Boot(n), evs[..k]), evs[k], a)
    ensures (a, Exec(Boot(n), evs[..k]).nodes[a].term) in Track(Boot(n), evs[..k + 1]).won
    ensures (a, Exec(Boot(n), evs[..k]).nodes[a].term) in Track(Boot(n), evs).won
  {
    hide *;
    var c := Exec(Boot(n), evs[..k]);
    TrackStep(Boot(n), evs, k);
    RecordWon(Track(Boot(n), evs[..k]), c, evs[k], a);
    WonStays(Boot(n), evs, k + 1, (a, c.nodes[a].term));
  }

  /** Election safety: over every run from boot, two promotions to leader in the same term are one and the same
      event when each of the two candidacies has supporters among more than half of the nodes, counted by their
      votes of that term; votes of other terms may have been counted as well. */
  lemma ElectionSafety(n: nat, evs: seq<Event>, j: nat, k: nat, a: nat, b: nat)
    requires n >= 1 && j < |evs| && k < |evs| && a < n && b < n
    requires Promotes(Exec(Boot(n), evs[..j]), evs[j], a)
    requires Promotes(Exec(Boot(n), evs[..k]), evs[k], b)
    requires Exec(Boot(n), evs[..j]).nodes[a].term == Exec(Boot(n), evs[..k]).nodes[b].term
    requires |Supporters(n, evs, a, Exec(Boot(n), evs[..j]).nodes[a].term)| > n / 2
    requires |Supporters(n, evs, b, Exec(Boot(n), evs[..k]).nodes[b].term)| > n / 2
    ensures a == b && j == k
  {
    hide *;
    var t := Exec(Boot(n), evs[..j]).nodes[a].term;
    PromotionIsRecorded(n, evs, j, a);
    PromotionIsRecorded(n, evs, k, b);
    SupportersAre(n, evs, a, t);
    SupportersAre(n, evs, b, t);
    RunInv(n, evs);
    OneWinner(Exec(Boot(n), evs), Track(Boot(n), evs), a, b, t);
    if j < k {
      NoSecondPromotion(n, evs, j, k, a);
    } else if k < j {
      NoSecondPromotion(n, evs, k, j, a);
    }
  }

  lemma UntaintedMajority(c: Cluster, h: History, v: nat, t: nat)
    requires ElectionInv(c, h) && (v, t) in h.won && (v, t) !in h.tainted
    ensures |VotersOf(h, v, t)| > |c.nodes| / 2 || |c.nodes| == 1
  {
    assert WonBy(h, v, t, |c.nodes|);
  }

  /** In particular, a promotion without any counted vote of another term has the support of more than half. */
  lemma CleanTallyHasSupport(n: nat, evs: seq<Event>, k: nat, v: nat)
    requires n >= 1 && k < |evs| && v < n && Promotes(Exec(Boot(n), evs[..k]), evs[k], v)
    requires CleanTally(n, evs, v, Exec(Boot(n), evs[..k]).nodes[v].term)
    ensures |Supporters(n, evs, v, Exec(Boot(n), evs[..k]).nodes[v].term)| > n / 2 || n == 1
  {
    hide *;
    var t := Exec(Boot(n), evs[..k]).nodes[v].term;
    PromotionIsRecorded(n, evs, k, v);
    assert evs[..|evs|] == evs;
    CleanIsUntainted(n, evs, |evs|, v, t);
    SupportersAre(n, evs, v, t);
    RunInv(n, evs);
    UntaintedMajority(Exec(Boot(n), evs), Track(Boot(n), evs), v, t);
  }

  lemma PromotedHadNotWon(c: Cluster, h: History, ev: Event, v: nat)
    requires ElectionInv(c, h) && Promotes(c, ev, v)
    ensures (v, c.nodes[v].term) !in h.won
  {
    assert NodeInv(c.nodes[v], v, h);
  }

  /** A node is promoted at most once in a term, whatever votes it counts. */
  lemma NoSecondPromotion(n: nat, evs: seq<Event>, j: nat, k: nat, a: nat)
    requires n >= 1 && j < k < |evs| && a < n
    requires Promotes(Exec(Boot(n), evs[..j]), evs[j], a)
    requires Promotes(Exec(Boot(n), evs[..k]), evs[k], a)
    ensures Exec(Boot(n), evs[..j]).nodes[a].term != Exec(Boot(n), evs[..k]).nodes[a].term
  {
    hide *;
    PromotionIsRecorded(n, evs, j, a);
    assert evs[..k][..j + 1] == evs[..j + 1];
    WonStays(Boot(n), evs[..k], j + 1, (a, Exec(Boot(n), evs[..j]).nodes[a].term));
    RunInv(n, evs[..k]);
    PromotedHadNotWon(Exec(Boot(n), evs[..k]), Track(Boot(n), evs[..k]), evs[k], a);
  }

  /** The candidates for whom v sent a granted vote in a term, in order, over a run from boot. */
  function VotesCast(n: nat, evs: seq<Event>, v: nat, term: nat): seq<nat>
    requires n >= 1
  {
    Choices(Track(Boot(n), evs).granted, v, term)
  }

  /** Ballot discipline, over every run: at most two granted votes per node and term, and two only when the node
      first voted for itself and then stepped down on a heartbeat of that same term. */
  lemma BallotDiscipline(n: nat, evs: seq<Event>, v: nat, term: nat)
    requires n >= 1 && v < n
    ensures |VotesCast(n, evs, v, term)| <= 2
    ensures |VotesCast(n, evs, v, term)| == 2 ==>
      && VotesCast(n, evs, v, term)[0] == v
      && exists k :: 0 <= k < |evs| && StepsDown(Exec(Boot(n), evs[..k]), evs[k], v)
                     && Exec(Boot(n), evs[..k]).nodes[v].term == term
                     && VotesCast(n, evs[..k], v, term) == [v]
  {
    RunInv(n, evs);
    var h := Track(Boot(n), evs);
    assert NodeInv(Exec(Boot(n), evs).nodes[v], v, h);
    if |Choices(h.granted, v, term)| == 2 {
      assert evs[..|evs|] == evs;
      SteppedWhen(n, evs, |evs|, v, term);
    }
  }

  lemma {:induction false} SteppedWhen(n: nat, evs: seq<Event>, i: nat, v: nat, term: nat)
    requires n >= 1 && v < n && i <= |evs|
    requires (v, term) in Track(Boot(n), evs[..i]).stepped
    ensures exists k :: 0 <= k < i && StepsDown(Exec(Boot(n), evs[..k]), evs[k], v)
                        && Exec(Boot(n), evs[..k]).nodes[v].term == term
                        && VotesCast(n, evs[..k], v, term) == [v]
  {
    hide *;
    assert evs[..0] == [];
    NothingAtStart(Boot(n));
    TrackStep(Boot(n), evs, i - 1);
    var c, h := Exec(Boot(n), evs[..i - 1]), Track(Boot(n), evs[..i - 1]);
    if (v, term) in h.stepped {
      SteppedWhen(n, evs, i - 1, v, term);
    } else {
      RecordStepped(h, c, evs[i - 1], v, term);
      RunInv(n, evs[..i - 1]);
      OwnVote(n, evs[..i - 1], v);
    }
  }

  lemma NothingAtStart(c: Cluster)
    requires ClusterOk(c)
    ensures Track(c, []) == NOTHING && NOTHING.stepped == {} == NOTHING.tainted
  {
  }

  /** A candidate has voted for itself in its term and for nobody else. */
  lemma OwnVote(n: nat, evs: seq<Event>, v: nat)
    requires n >= 1 && v < n
    requires Exec(Boot(n), evs).nodes[v].role == Candidate
    ensures VotesCast(n, evs, v, Exec(Boot(n), evs).nodes[v].term) == [v]
  {
    RunInv(n, evs);
    assert NodeInv(Exec(Boot(n), evs).nodes[v], v, Track(Boot(n), evs));
  }

  /** A node's term never goes back, from any state and over any events. */
  lemma {:induction false} TermsNeverDecrease(c: Cluster, evs: seq<Event>, v: nat)
    requires ClusterOk(c) && v < |c.nodes|
    ensures c.nodes[v].term <= Exec(c, evs).nodes[v].term
  {
    if evs != [] {
      var before := evs[..|evs| - 1];
      TermsNeverDecrease(c, before, v);
      TermStep(Exec(c, before), evs[|evs| - 1], v);
    }
  }

  lemma TermStep(c: Cluster, ev: Event, v: nat)
    requires ClusterOk(c) && v < |c.nodes|
    ensures c.nodes[v].term <= Next(c, ev).nodes[v].term
  {
    match MoveOf(c, ev) {
      case Act(base, u, eff) =>
        if ev.Deliver? {
          ReadTerm(c.nodes[u], c.net[(ev.src, ev.dst)][ev.pos]);
        } else {
          LocalPlain(c.nodes[u], ev);
        }
        assert eff.node.term >= c.nodes[u].term;
        hide MoveOf, On, LocalStep;
      case _ =>
        hide On, LocalStep;
    }
  }

  lemma ReadTerm(s: Node, m: Message)
    requires NodeOk(s) && m.sender < s.n && Reads(s.role)
    ensures On(s, m).node.term >= s.term
  {
    if !(s.role == Candidate && (m.Vote? || m.Heartbeat?)) {
      OnPlain(s, m);
    }
  }
}
