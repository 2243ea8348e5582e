/** A cluster of two nodes, event by event: an ordinary election, and after it a
    resend that makes the leader commit an entry which only it holds. */
module RaftTwoNodes {
  import opened RaftProtocol
  import opened RaftSpec
  import opened RaftCluster
  import opened RaftEpoch
  import RaftBoot
  import RaftElection
  import RaftForeignVotes
  import RaftResend

  /** The two nodes and the four channels, each named after its two ends. */
  datatype Pair = Pair(a: Node, b: Node, aa: seq<Message>, ab: seq<Message>, ba: seq<Message>, bb: seq<Message>)

  function Two(p: Pair): Cluster
  {
    Cluster([p.a, p.b], map[(0, 0) := p.aa, (0, 1) := p.ab, (1, 0) := p.ba, (1, 1) := p.bb])
  }

  function FirstActs(p: Pair, eff: Effect): Pair
  {
    p.(a := eff.node, aa := p.aa + Routed(eff.sent, 0), ab := p.ab + Routed(eff.sent, 1))
  }

  function SecondActs(p: Pair, eff: Effect): Pair
  {
    p.(b := eff.node, ba := p.ba + Routed(eff.sent, 0), bb := p.bb + Routed(eff.sent, 1))
  }

  lemma FirstApplies(p: Pair, eff: Effect)
    ensures Apply(Two(p), 0, eff) == Two(FirstActs(p, eff))
  {
    hide Routed;
  }

  lemma SecondApplies(p: Pair, eff: Effect)
    ensures Apply(Two(p), 1, eff) == Two(SecondActs(p, eff))
  {
    hide Routed;
  }

  lemma FirstLocal(p: Pair, ev: Event)
    requires ClusterOk(Two(p)) && !ev.Deliver? && !ev.Drop? && ev.node == 0
    ensures NodeOk(p.a) && p.a.n == 2 && p.a.me == 0
    ensures LocalStep(p.a, ev).Some? ==> Next(Two(p), ev) == Two(FirstActs(p, LocalStep(p.a, ev).value))
  {
    assert Two(p).nodes[0] == p.a;
    if LocalStep(p.a, ev).Some? {
      hide Two, LocalStep, FirstActs;
      FirstApplies(p, LocalStep(p.a, ev).value);
      NextActs(Two(p), ev);
    }
  }

  lemma FirstReadsOwn(p: Pair)
    requires ClusterOk(Two(p)) && p.aa != [] && Reads(p.a.role)
    ensures NodeOk(p.a) && p.a.n == 2 && p.aa[0].sender == 0
    ensures Next(Two(p), Deliver(0, 0, 0)) == Two(FirstActs(p.(aa := p.aa[1..]), On(p.a, p.aa[0])))
  {
    var q := p.(aa := p.aa[1..]);
    assert Two(p).nodes[0] == p.a && Two(p).net[(0, 0)] == p.aa;
    assert Without(p.aa, 0) == q.aa;
    assert Take(Two(p), 0, 0, 0) == Two(q);
    NextReads(Two(p), 0, 0, 0);
    FirstApplies(q, On(p.a, p.aa[0]));
    hide On, FirstActs, Next;
  }

  lemma FirstReads(p: Pair)
    requires ClusterOk(Two(p)) && p.ba != [] && Reads(p.a.role)
    ensures NodeOk(p.a) && p.a.n == 2 && p.ba[0].sender == 1
    ensures Next(Two(p), Deliver(1, 0, 0)) == Two(FirstActs(p.(ba := p.ba[1..]), On(p.a, p.ba[0])))
  {
    var q := p.(ba := p.ba[1..]);
    assert Two(p).nodes[0] == p.a && Two(p).net[(1, 0)] == p.ba;
    assert Without(p.ba, 0) == q.ba;
    assert Take(Two(p), 1, 0, 0) == Two(q);
    NextReads(Two(p), 1, 0, 0);
    FirstApplies(q, On(p.a, p.ba[0]));
    hide On, FirstActs, Next;
  }

  lemma SecondReads(p: Pair)
    requires ClusterOk(Two(p)) && p.ab != [] && Reads(p.b.role)
    ensures NodeOk(p.b) && p.b.n == 2 && p.ab[0].sender == 0
    ensures Next(Two(p), Deliver(0, 1, 0)) == Two(SecondActs(p.(ab := p.ab[1..]), On(p.b, p.ab[0])))
  {
    var q := p.(ab := p.ab[1..]);
    assert Two(p).nodes[1] == p.b && Two(p).net[(0, 1)] == p.ab;
    assert Without(p.ab, 0) == q.ab;
    assert Take(Two(p), 0, 1, 0) == Two(q);
    NextReads(Two(p), 0, 1, 0);
    SecondApplies(q, On(p.b, p.ab[0]));
    hide On, SecondActs, Next;
  }

  // ---- the run ----

  /** Node 0 in its second term, and node 1 once it has voted for it. */
  function First(role: Role, votes: nat): Node
  {
    InitNode(2, 0).(role := role, term := 2, votedFor := Some(0), votesForMe := votes, totalVotes := votes)
  }

  function Second(): Node
  {
    InitNode(2, 1).(term := 2, votedFor := Some(0))
  }

  function Request(): Message
  {
    RequestVote(2, 0, 0, 0, 1)
  }

  function Yes(voter: nat): Message
  {
    Vote(2, voter, 0, 0, 1, true)
  }

  /** An ordinary election: node 0 stands, both nodes vote for it, it counts both votes. */
  function Campaign(): seq<Event>
  {
    [Timeout(0), Enter(0), Deliver(0, 1, 0), Deliver(0, 0, 0), Deliver(0, 0, 0), Deliver(1, 0, 0)]
  }

  function Stage(k: nat): Pair
  {
    if k == 0 then Pair(InitNode(2, 0), InitNode(2, 1), [], [], [], [])
    else if k == 1 then Pair(InitNode(2, 0).(role := Standing), InitNode(2, 1), [], [], [], [])
    else if k == 2 then Pair(First(Candidate, 0), InitNode(2, 1), [Request(), Yes(0)], [Request()], [], [])
    else if k == 3 then Pair(First(Candidate, 0), Second(), [Request(), Yes(0)], [], [Yes(1)], [])
    else if k == 4 then Pair(First(Candidate, 0), Second(), [Yes(0)], [], [Yes(1)], [])
    else if k == 5 then Pair(First(Candidate, 1), Second(), [], [], [Yes(1)], [])
    else Pair(First(Elected, 2), Second(), [], [], [], [])
  }

  lemma TwoNet(p: Pair)
    ensures forall k: (nat, nat) :: k in Two(p).net <==> k.0 < 2 && k.1 < 2
    ensures Two(p).nodes == [p.a, p.b]
    ensures Two(p).net[(0, 0)] == p.aa && Two(p).net[(0, 1)] == p.ab
    ensures Two(p).net[(1, 0)] == p.ba && Two(p).net[(1, 1)] == p.bb
  {
  }

  lemma BootIsTwo()
    ensures Boot(2) == Two(Stage(0))
  {
    hide Boot, Two, InitNode;
    var c, d := Boot(2), Two(Stage(0));
    TwoNet(Stage(0));
    assert c.nodes == d.nodes;
    forall k | k in c.net ensures k in d.net && c.net[k] == d.net[k] {
      assert k == (0, 0) || k == (0, 1) || k == (1, 0) || k == (1, 1);
    }
    assert c.net == d.net;
  }

  lemma StandsUp()
    requires ClusterOk(Two(Stage(0)))
    ensures Next(Two(Stage(0)), Timeout(0)) == Two(Stage(1))
  {
    FirstLocal(Stage(0), Timeout(0));
    assert Routed([], 0) == [] == Routed([], 1);
    hide Two, Next;
  }

  lemma AskMeans()
    ensures EnterCandidate(InitNode(2, 0).(role := Standing))
         == Effect(First(Candidate, 0), [Envelope(None, Request())] + [Envelope(Some(0), Yes(0))])
  {
  }

  lemma Asks()
    requires ClusterOk(Two(Stage(1)))
    ensures Next(Two(Stage(1)), Enter(0)) == Two(Stage(2))
  {
    hide Two, Next, ClusterOk, EnterCandidate, EnterLeader, InitNode, Routed;
    AskMeans();
    StandingNode();
    FirstLocal(Stage(1), Enter(0));
    RoutedPair(Envelope(None, Request()), Envelope(Some(0), Yes(0)), 0);
    RoutedPair(Envelope(None, Request()), Envelope(Some(0), Yes(0)), 1);
    assert [] + [Request(), Yes(0)] == [Request(), Yes(0)] && [] + [Request()] == [Request()];
  }

  lemma StandingNode()
    ensures Stage(1).a == InitNode(2, 0).(role := Standing) && Stage(1).a.role == Standing
  {
  }

  lemma RoutedPair(x: Envelope, y: Envelope, dst: nat)
    requires x.receiver == None
    ensures Routed([x] + [y], dst) == if y.receiver == None || y.receiver == Some(dst) then [x.msg, y.msg] else [x.msg]
  {
    RoutedConcat([x], [y], dst);
    RoutedOne(x, dst);
    RoutedOne(y, dst);
  }

  lemma NothingRouted(dst: nat)
    ensures Routed([], dst) == []
  {
  }

  lemma OnFollower(s: Node, m: Message)
    requires NodeOk(s) && m.sender < s.n && s.role == Follower
    ensures On(s, m) == FollowerOn(s, m)
  {
    hide FollowerOn;
  }

  lemma OnCandidate(s: Node, m: Message)
    requires NodeOk(s) && m.sender < s.n && s.role == Candidate
    ensures On(s, m) == CandidateOn(s, m)
  {
    hide CandidateOn;
  }

  /** Node 1 follows, reads m and answers with x. */
  lemma SecondAnswers(p: Pair, q: Pair, m: Message, x: Envelope)
    requires ClusterOk(Two(p)) && p.ab == [m] + q.ab && p.b.role == Follower
    requires FollowerOn(p.b, m) == Effect(q.b, [x]) && x.receiver == Some(0)
    requires q == p.(b := q.b, ab := q.ab, ba := p.ba + [x.msg])
    ensures Next(Two(p), Deliver(0, 1, 0)) == Two(q)
  {
    hide On, FollowerOn, Two, Next, ClusterOk;
    SecondReads(p);
    OnFollower(p.b, m);
    RoutedOne(x, 0);
    RoutedOne(x, 1);
    hide Routed, NodeOk;
    assert p.ab[1..] == q.ab;
    assert p.bb + [] == p.bb;
  }

  /** Node 0 is a candidate, reads m in its own channel or in that from node 1, and sends nothing. */
  lemma FirstCounts(p: Pair, q: Pair, m: Message, own: bool)
    requires ClusterOk(Two(p)) && p.a.role == Candidate && CandidateOn(p.a, m) == Effect(q.a, [])
    requires own ==> p.aa == [m] + q.aa && q == p.(a := q.a, aa := q.aa)
    requires !own ==> p.ba == [m] + q.ba && q == p.(a := q.a, ba := q.ba)
    ensures Next(Two(p), Deliver(if own then 0 else 1, 0, 0)) == Two(q)
  {
    hide On, CandidateOn, Two, Next, ClusterOk;
    if own {
      FirstReadsOwn(p);
      assert p.aa[1..] == q.aa;
    } else {
      FirstReads(p);
      assert p.ba[1..] == q.ba;
    }
    OnCandidate(p.a, m);
    NothingRouted(0);
    NothingRouted(1);
    hide Routed, NodeOk;
    assert q.aa + [] == q.aa && q.ab + [] == q.ab;
  }

  lemma VoteGiven()
    ensures FollowerOn(InitNode(2, 1), Request()) == Effect(Second(), [Envelope(Some(0), Yes(1))])
  {
  }

  lemma Votes()
    requires ClusterOk(Two(Stage(2)))
    ensures Next(Two(Stage(2)), Deliver(0, 1, 0)) == Two(Stage(3))
  {
    hide Two, Next, FollowerOn, ClusterOk;
    VoteGiven();
    SecondAnswers(Stage(2), Stage(3), Request(), Envelope(Some(0), Yes(1)));
  }

  lemma VotesCounted()
    ensures CandidateOn(First(Candidate, 0), Request()) == Effect(First(Candidate, 0), [])
    ensures CandidateOn(First(Candidate, 0), Yes(0)) == Effect(First(Candidate, 1), [])
    ensures CandidateOn(First(Candidate, 1), Yes(1)) == Effect(First(Elected, 2), [])
  {
  }

  lemma HearsItself()
    requires ClusterOk(Two(Stage(3)))
    ensures Next(Two(Stage(3)), Deliver(0, 0, 0)) == Two(Stage(4))
  {
    hide Two, Next, CandidateOn, ClusterOk;
    VotesCounted();
    FirstCounts(Stage(3), Stage(4), Request(), true);
  }

  lemma CountsItself()
    requires ClusterOk(Two(Stage(4)))
    ensures Next(Two(Stage(4)), Deliver(0, 0, 0)) == Two(Stage(5))
  {
    hide Two, Next, CandidateOn, ClusterOk;
    VotesCounted();
    FirstCounts(Stage(4), Stage(5), Yes(0), true);
  }

  lemma CountsTheOther()
    requires ClusterOk(Two(Stage(5)))
    ensures Next(Two(Stage(5)), Deliver(1, 0, 0)) == Two(Stage(6))
  {
    hide Two, Next, CandidateOn, ClusterOk;
    VotesCounted();
    FirstCounts(Stage(5), Stage(6), Yes(1), false);
  }

  lemma CampaignStep(k: nat)
    requires k < 6 && ClusterOk(Two(Stage(k)))
    ensures Next(Two(Stage(k)), Campaign()[k]) == Two(Stage(k + 1))
  {
    hide Two, Next, Stage;
    match k
    case 0 => StandsUp();
    case 1 => Asks();
    case 2 => Votes();
    case 3 => HearsItself();
    case 4 => CountsItself();
    case 5 => CountsTheOther();
  }

  lemma {:induction false} CampaignStage(k: nat)
    requires k <= 6
    ensures ClusterOk(Two(Stage(k))) && Exec(Boot(2), Campaign()[..k]) == Two(Stage(k))
  {
    hide *;
    BootIsTwo();
    if k == 0 {
      ExecNothing(Boot(2));
      assert Campaign()[..0] == [];
    } else {
      CampaignLength();
      CampaignStage(k - 1);
      CampaignStep(k - 1);
      ExecStep(Boot(2), Campaign(), k - 1);
    }
  }

  lemma CampaignLength()
    ensures |Campaign()| == 6 && Campaign()[4] == Deliver(0, 0, 0) && Campaign()[5] == Deliver(1, 0, 0)
    ensures Yes(0).sender == 0 && Yes(1).sender == 1 && Yes(0).term == 2 == Yes(1).term
  {
  }

  /** An ordinary election is a boot in which nothing is lost or reordered: the one promotion counts only votes of
      its term, has both nodes as supporters, and starts an epoch. */
  lemma OrdinaryElection()
    ensures RaftBoot.BootRun(2, Campaign()) && RaftForeignVotes.AllInOrder(Campaign())
    ensures RaftElection.Promotes(Exec(Boot(2), Campaign()[..5]), Campaign()[5], 0)
    ensures Exec(Boot(2), Campaign()[..5]).nodes[0].term == 2
    ensures RaftElection.Supporters(2, Campaign(), 0, 2) == {0, 1}
    ensures Start(Exec(Boot(2), Campaign()), Epoch(0, 2, 0))
  {
    hide Exec, Boot, Two, Stage, Start, RaftElection.Promotes, RaftElection.Supporters, RaftBoot.Unrivalled;
    hide RaftBoot.BootRun;
    CampaignBoots();
    CampaignStage(5);
    CampaignStage(6);
    assert Campaign()[..6] == Campaign();
    ElectedNow();
    BothSupport();
    RaftBoot.FirstLeaderStartsEpoch(2, 0, Campaign());
  }

  lemma CampaignBoots()
    ensures RaftBoot.BootRun(2, Campaign())
  {
    hide Exec, Boot, Next, Two;
    forall k | 0 <= k < |Campaign()| ensures RaftBoot.BootEvent(Exec(Boot(2), Campaign()[..k]), Campaign()[k]) {
      CampaignStage(k);
      EnterWhenStanding();
    }
  }

  lemma EnterWhenStanding()
    ensures |Two(Stage(1)).nodes| == 2 && Two(Stage(1)).nodes[0].role == Standing
  {
  }

  lemma Roles()
    ensures var c, d := Two(Stage(5)), Two(Stage(6));
      && |c.nodes| == 2 && c.nodes[0].role == Candidate && c.nodes[0].term == 2
      && |d.nodes| == 2 && d.nodes[0].role == Elected && d.nodes[0].term == 2
      && d.nodes[1].role == Follower && d.nodes[1].term == 2
  {
  }

  lemma ElectedNow()
    requires ClusterOk(Two(Stage(5)))
    ensures RaftElection.Promotes(Two(Stage(5)), Deliver(1, 0, 0), 0)
    ensures RaftBoot.Unrivalled(Two(Stage(6)), 0) && Two(Stage(6)).nodes[0].term == 2
    ensures Two(Stage(5)).nodes[0].term == 2
  {
    hide Next, ClusterOk, InitNode, Two, Stage;
    CountsTheOther();
    Roles();
  }

  lemma TalliesOwn()
    requires ClusterOk(Two(Stage(4))) && ClusterOk(Two(Stage(5)))
    ensures RaftElection.Tallies(Two(Stage(4)), Deliver(0, 0, 0), 0)
    ensures RaftElection.ReadBy(Two(Stage(4)), Deliver(0, 0, 0), 0).value == Yes(0)
    ensures RaftElection.Tallies(Two(Stage(5)), Deliver(1, 0, 0), 0)
    ensures RaftElection.ReadBy(Two(Stage(5)), Deliver(1, 0, 0), 0).value == Yes(1)
    ensures Two(Stage(4)).nodes[0].term == 2 == Two(Stage(5)).nodes[0].term
  {
  }

  lemma BothSupport()
    ensures RaftElection.Supporters(2, Campaign(), 0, 2) == {0, 1}
  {
    hide *;
    CampaignStage(4);
    CampaignStage(5);
    TalliesOwn();
    CampaignLength();
    RaftElection.SupportAt(2, Campaign(), 4, 0, 2);
    RaftElection.SupportAt(2, Campaign(), 5, 0, 2);
    TwoSupporters(Campaign(), 0, 2);
  }

  lemma TwoSupporters(evs: seq<Event>, v: nat, term: nat)
    requires RaftElection.SupportedBy(2, evs, v, term, 0) && RaftElection.SupportedBy(2, evs, v, term, 1)
    ensures RaftElection.Supporters(2, evs, v, term) == {0, 1}
  {
    hide RaftElection.SupportedBy;
  }

  // ---- a resend that makes the cursor lie ----

  const OPENING := Entry(2, "{}", -1)

  /** Node 0 leads, and believes this of node 1. */
  predicate Leads(s: Node, log: seq<Entry>, next: Option<nat>, match_: nat, commit: nat, queue: seq<Entry>)
  {
    && NodeOk(s) && s.role == Leader && s.n == 2 && s.me == 0 && s.term == 2
    && s.log == log && s.nextIndex[1] == next && s.matchIndex[1] == match_ && s.commitIndex == commit
    && s.queue == queue
  }

  predicate Follows(s: Node, log: seq<Entry>)
  {
    s.role == Follower && s.term == 2 && s.log == log && s.commitIndex == 0 && s.queue == []
  }

  predicate OpeningAppend(m: Message)
  {
    && m.AppendEntries? && m.term == 2 && m.leaderId == 0
    && m.prevLogIndex == 0 && m.prevLogTerm == 1 && m.entry == OPENING && m.leaderCommit == 0
  }

  predicate AllOpening(ms: seq<Message>, count: nat)
  {
    |ms| == count && forall i :: 0 <= i < count ==> OpeningAppend(ms[i])
  }

  predicate AllSuccess(ms: seq<Message>, count: nat)
  {
    |ms| == count && forall i :: 0 <= i < count ==> ms[i].Acknowledge? && ms[i].success
  }

  /** The elected node enters office and serves a request while its first entry is on its way; the resend timer
      fires; node 1 reads all three messages; node 0 reads both acknowledgements. */
  function Trouble(value: string, id: int): seq<Event>
  {
    [Enter(0), SubmitRequest(0, value, id), ServeClient(0), ResendTick(0, 1),
     Deliver(0, 1, 0), Deliver(0, 1, 0), Deliver(0, 1, 0), Deliver(1, 0, 0), Deliver(1, 0, 0)]
  }

  /** The cluster after k of these events. */
  predicate After(k: nat, p: Pair, e: Entry)
  {
    var one, two := [SENTINEL, OPENING], [SENTINEL, OPENING, e];
    if k == 0 then p == Stage(6)
    else if k <= 4 then
      && Leads(p.a, if k < 3 then one else two, Some(1), 0, 0, if k == 2 then [e] else [])
      && Follows(p.b, [SENTINEL])
      && p.ab != [] && p.ab[0] == Heartbeat(2, 0, 0, 0) && AllOpening(p.ab[1..], if k == 4 then 2 else 1)
      && p.ba == []
    else if k <= 7 then
      && Leads(p.a, two, Some(1), 0, 0, [])
      && Follows(p.b, if k == 5 then [SENTINEL] else one)
      && AllOpening(p.ab, 7 - k) && AllSuccess(p.ba, k - 5)
    else
      && k <= 9
      && Leads(p.a, two, if k == 8 then Some(2) else None, k - 7, k - 7, [])
      && Follows(p.b, one)
      && AllSuccess(p.ba, 9 - k)
  }

  lemma OfficeMeans(s: Node)
    requires NodeOk(s) && s == First(Elected, 2)
    ensures Leads(EnterLeader(s).node, [SENTINEL, OPENING], Some(1), 0, 0, [])
    ensures var r := Routed(EnterLeader(s).sent, 1);
      |r| == 2 && r[0] == Heartbeat(2, 0, 0, 0) && OpeningAppend(r[1])
  {
    EnterMeans(s, 1);
    EnterKeepsQueue(s);
    hide EnterLeader, Routed, NodeOk;
  }

  lemma EnterKeepsQueue(s: Node)
    requires Shape(s)
    ensures EnterLeader(s).node.queue == s.queue
  {
  }

  lemma ElectedPair(p: Pair, e: Entry)
    requires After(0, p, e)
    ensures p.a == First(Elected, 2) && p.a.role == Elected && p.ab == [] == p.ba && Follows(p.b, [SENTINEL])
  {
  }

  lemma ElectedEnters(s: Node)
    requires NodeOk(s) && s.role == Elected
    ensures Shape(s)
    ensures LocalStep(s, Enter(0)) == Some(EnterLeader(s))
  {
    hide EnterLeader;
  }

  lemma InOffice(p: Pair, e: Entry, r: seq<Message>)
    requires Leads(p.a, [SENTINEL, OPENING], Some(1), 0, 0, []) && Follows(p.b, [SENTINEL]) && p.ba == []
    requires p.ab == [] + r && |r| == 2 && r[0] == Heartbeat(2, 0, 0, 0) && OpeningAppend(r[1])
    ensures After(1, p, e)
  {
    hide Leads, Follows, OpeningAppend, Stage;
    assert p.ab[1..] == [r[1]];
  }

  lemma OfficeEntered(p: Pair, e: Entry) returns (q: Pair)
    requires ClusterOk(Two(p)) && After(0, p, e)
    ensures After(1, q, e) && Next(Two(p), Enter(0)) == Two(q)
  {
    hide *;
    ElectedPair(p, e);
    FirstLocal(p, Enter(0));
    ElectedEnters(p.a);
    OfficeMeans(p.a);
    q := FirstActs(p, EnterLeader(p.a));
    FirstKeeps(p, EnterLeader(p.a));
    InOffice(q, e, Routed(EnterLeader(p.a).sent, 1));
  }

  lemma Submitted(p: Pair, value: string, id: int) returns (q: Pair)
    requires ClusterOk(Two(p)) && After(1, p, Entry(2, value, id))
    ensures After(2, q, Entry(2, value, id)) && Next(Two(p), SubmitRequest(0, value, id)) == Two(q)
  {
    FirstLocal(p, SubmitRequest(0, value, id));
    NothingRouted(0);
    NothingRouted(1);
    hide Routed, Two, Next;
    q := FirstActs(p, Effect(Submit(p.a, value, id), []));
  }

  lemma ServeMeans(s: Node, log: seq<Entry>, e: Entry)
    requires |log| == 2 && Leads(s, log, Some(1), 0, 0, [e])
    ensures Leads(PopClient(s).node, log + [e], Some(1), 0, 0, []) && Routed(PopClient(s).sent, 1) == []
  {
    var s1 := s.(queue := []);
    assert PopClient(s) == BroadcastAppend(s1, e);
    RoutedMulticast(UpToDate(s1.nextIndex), AppendMessage(s1, 1, s1.log[1].term, e), 1);
    BroadcastAppendOk(s1, e);
    hide Routed, Multicast;
  }

  lemma Served(p: Pair, e: Entry) returns (q: Pair)
    requires ClusterOk(Two(p)) && After(2, p, e)
    ensures After(3, q, e) && Next(Two(p), ServeClient(0)) == Two(q)
  {
    FirstLocal(p, ServeClient(0));
    assert p.a.role == Leader;
    ServeMeans(p.a, [SENTINEL, OPENING], e);
    hide Routed, Two, Next, PopClient, Leads, Follows, NodeOk;
    q := FirstActs(p, PopClient(p.a));
    assert [SENTINEL, OPENING] + [e] == [SENTINEL, OPENING, e];
  }

  lemma AgainMeans(s: Node, e: Entry)
    requires Leads(s, [SENTINEL, OPENING, e], Some(1), 0, 0, [])
    ensures Resend(s, 1).node == s
    ensures |Routed(Resend(s, 1).sent, 1)| == 1 && OpeningAppend(Routed(Resend(s, 1).sent, 1)[0])
  {
    RoutedOne(CatchUp(s, 1), 1);
    hide Routed;
  }

  lemma SentAgain(p: Pair, e: Entry) returns (q: Pair)
    requires ClusterOk(Two(p)) && After(3, p, e)
    ensures After(4, q, e) && Next(Two(p), ResendTick(0, 1)) == Two(q)
  {
    FirstLocal(p, ResendTick(0, 1));
    assert p.a.role == Leader;
    AgainMeans(p.a, e);
    hide Routed, Two, Next, Resend, Leads, Follows, NodeOk, OpeningAppend;
    q := FirstActs(p, Resend(p.a, 1));
    assert q.ab[1..] == p.ab[1..] + Routed(Resend(p.a, 1).sent, 1);
  }

  lemma HeartbeatMeans(s: Node, log: seq<Entry>)
    requires Follows(s, log)
    ensures Follows(FollowerOn(s, Heartbeat(2, 0, 0, 0)).node, log)
    ensures Routed(FollowerOn(s, Heartbeat(2, 0, 0, 0)).sent, 0) == []
  {
    NothingRouted(0);
    hide Routed;
  }

  lemma HeartbeatRead(p: Pair, e: Entry) returns (q: Pair)
    requires ClusterOk(Two(p)) && After(4, p, e)
    ensures After(5, q, e) && Next(Two(p), Deliver(0, 1, 0)) == Two(q)
  {
    hide Routed, Two, Next, On, FollowerOn, Leads, Follows, AllOpening, ClusterOk, Stage;
    FollowerRole(p.b, [SENTINEL]);
    SecondReads(p);
    OnFollower(p.b, p.ab[0]);
    HeartbeatMeans(p.b, [SENTINEL]);
    q := SecondActs(p.(ab := p.ab[1..]), FollowerOn(p.b, p.ab[0]));
  }

  /** Node 1 accepts the leader's first entry, each time it comes. */
  lemma OpeningMeans(s: Node, m: Message)
    requires OpeningAppend(m) && (Follows(s, [SENTINEL]) || Follows(s, [SENTINEL, OPENING]))
    ensures Follows(FollowerOn(s, m).node, [SENTINEL, OPENING])
    ensures AllSuccess(Routed(FollowerOn(s, m).sent, 0), 1)
  {
    var eff := FollowerOn(s, m);
    RoutedOne(eff.sent[0], 0);
    assert eff.sent == [eff.sent[0]];
    hide Routed;
  }

  lemma FollowerRole(s: Node, log: seq<Entry>)
    requires Follows(s, log)
    ensures s.role == Follower
  {
  }

  lemma FewerOpening(ms: seq<Message>, count: nat)
    requires count > 0 && AllOpening(ms, count)
    ensures ms != [] && OpeningAppend(ms[0]) && AllOpening(ms[1..], count - 1)
  {
    hide OpeningAppend;
  }

  lemma MoreSuccess(ms: seq<Message>, count: nat, more: seq<Message>)
    requires AllSuccess(ms, count) && AllSuccess(more, 1)
    ensures AllSuccess(ms + more, count + 1)
  {
  }

  lemma FewerSuccess(ms: seq<Message>, count: nat)
    requires count > 0 && AllSuccess(ms, count)
    ensures ms != [] && ms[0].Acknowledge? && ms[0].success && AllSuccess(ms[1..], count - 1)
  {
  }

  lemma OpeningRead(p: Pair, log: seq<Entry>, opening: nat, success: nat) returns (q: Pair)
    requires ClusterOk(Two(p)) && Follows(p.b, log) && (log == [SENTINEL] || log == [SENTINEL, OPENING])
    requires opening > 0 && AllOpening(p.ab, opening) && AllSuccess(p.ba, success)
    ensures q.a == p.a && Follows(q.b, [SENTINEL, OPENING])
    ensures AllOpening(q.ab, opening - 1) && AllSuccess(q.ba, success + 1)
    ensures Next(Two(p), Deliver(0, 1, 0)) == Two(q)
  {
    hide *;
    FollowerRole(p.b, log);
    FewerOpening(p.ab, opening);
    FollowerReads();
    SecondReads(p);
    OnFollower(p.b, p.ab[0]);
    OpeningMeans(p.b, p.ab[0]);
    var r := p.(ab := p.ab[1..]);
    var eff := FollowerOn(p.b, p.ab[0]);
    q := SecondActs(r, eff);
    SecondKeeps(r, eff);
    MoreSuccess(p.ba, success, Routed(eff.sent, 0));
  }

  lemma FollowerReads()
    ensures Reads(Follower) && Reads(Leader)
  {
  }

  lemma SecondKeeps(p: Pair, eff: Effect)
    ensures var q := SecondActs(p, eff);
      q.a == p.a && q.b == eff.node && q.ab == p.ab && q.ba == p.ba + Routed(eff.sent, 0)
  {
  }

  lemma FirstKeeps(p: Pair, eff: Effect)
    ensures var q := FirstActs(p, eff);
      q.a == eff.node && q.b == p.b && q.ab == p.ab + Routed(eff.sent, 1) && q.ba == p.ba
  {
  }

  lemma OnLeader(s: Node, m: Message)
    requires NodeOk(s) && m.sender < s.n && s.role == Leader && m.Acknowledge?
    ensures On(s, m) == LeaderOnAck(s, m.sender, m.success)
  {
    hide LeaderOnAck;
  }

  /** Node 0 takes each acknowledgement for one of the entry it waits for, and commits it. */
  lemma AckMeans(s: Node, log: seq<Entry>, k: nat)
    requires |log| == 3 && 1 <= k <= 2 && Leads(s, log, Some(k), k - 1, k - 1, [])
    ensures Leads(LeaderOnAck(s, 1, true).node, log, if k == 1 then Some(2) else None, k, k, [])
  {
    LeaderOnAckOk(s, 1, true);
    var a := AdvanceOnAck(s, 1, true).node;
    assert a.matchIndex == [2, k];
    assert Minimum(a.matchIndex) == k;
  }

  lemma LeaderRole(s: Node, log: seq<Entry>, next: Option<nat>, match_: nat, commit: nat, queue: seq<Entry>)
    requires Leads(s, log, next, match_, commit, queue)
    ensures s.role == Leader
  {
  }

  lemma AckRead(p: Pair, log: seq<Entry>, k: nat, success: nat) returns (q: Pair)
    requires ClusterOk(Two(p)) && |log| == 3 && 1 <= k <= 2 && Leads(p.a, log, Some(k), k - 1, k - 1, [])
    requires success > 0 && AllSuccess(p.ba, success)
    ensures q.b == p.b && Leads(q.a, log, if k == 1 then Some(2) else None, k, k, [])
    ensures AllSuccess(q.ba, success - 1)
    ensures Next(Two(p), Deliver(1, 0, 0)) == Two(q)
  {
    hide *;
    LeaderRole(p.a, log, Some(k), k - 1, k - 1, []);
    FewerSuccess(p.ba, success);
    FollowerReads();
    FirstReads(p);
    OnLeader(p.a, p.ba[0]);
    AckMeans(p.a, log, k);
    var r := p.(ba := p.ba[1..]);
    q := FirstActs(r, On(p.a, p.ba[0]));
    FirstKeeps(r, On(p.a, p.ba[0]));
  }

  /** One of the events, from the state after k of them. */
  lemma TroubleStep(p: Pair, value: string, id: int, k: nat) returns (q: Pair)
    requires k < 9 && ClusterOk(Two(p)) && After(k, p, Entry(2, value, id))
    ensures After(k + 1, q, Entry(2, value, id))
    ensures Next(Two(p), Trouble(value, id)[k]) == Two(q)
  {
    hide Two, Next, Leads, Follows, AllOpening, AllSuccess, ClusterOk;
    var e := Entry(2, value, id);
    match k {
      case 0 => q := OfficeEntered(p, e);
      case 1 => q := Submitted(p, value, id);
      case 2 => q := Served(p, e);
      case 3 => q := SentAgain(p, e);
      case 4 => q := HeartbeatRead(p, e);
      case 5 => q := OpeningRead(p, [SENTINEL], 2, 0);
      case 6 => q := OpeningRead(p, [SENTINEL, OPENING], 1, 1);
      case 7 => q := AckRead(p, [SENTINEL, OPENING, e], 1, 2);
      case 8 => q := AckRead(p, [SENTINEL, OPENING, e], 2, 1);
    }
  }

  lemma {:induction false} TroubleRun(value: string, id: int, k: nat) returns (q: Pair)
    requires k <= 9
    ensures ClusterOk(Two(Stage(6))) && After(k, q, Entry(2, value, id))
    ensures Exec(Two(Stage(6)), Trouble(value, id)[..k]) == Two(q)
  {
    hide *;
    CampaignStage(6);
    TroubleLength(value, id);
    if k == 0 {
      q := Stage(6);
      AtFirst(q, Entry(2, value, id));
      ExecNothing(Two(q));
      assert Trouble(value, id)[..0] == [];
    } else {
      var p := TroubleRun(value, id, k - 1);
      q := TroubleStep(p, value, id, k - 1);
      ExecStep(Two(Stage(6)), Trouble(value, id), k - 1);
    }
  }

  lemma AtFirst(p: Pair, e: Entry)
    requires p == Stage(6)
    ensures After(0, p, e)
  {
  }

  lemma TroubleLength(value: string, id: int)
    ensures |Trouble(value, id)| == 9
  {
  }

  lemma FirstTerm(k: nat, p: Pair, e: Entry)
    requires k <= 9 && After(k, p, e)
    ensures p.a.term == 2
  {
  }

  lemma TroubleEvent(c: Cluster, value: string, id: int, k: nat)
    requires ClusterOk(c) && |c.nodes| == 2 && c.nodes[0].term == 2 && k < 9
    ensures var ev := Trouble(value, id)[k];
      && (Allowed(c, Epoch(0, 2, 0), ev) || ev.ResendTick?)
      && (ev.ResendTick? ==> k == 3)
  {
    hide ClusterOk;
  }

  lemma TroubleAt(value: string, id: int, k: nat)
    requires k < 9
    ensures ClusterOk(Two(Stage(6)))
    ensures var c, ev := Exec(Two(Stage(6)), Trouble(value, id)[..k]), Trouble(value, id)[k];
      && (Allowed(c, Epoch(0, 2, 0), ev) || ev.ResendTick?)
      && (ev.ResendTick? ==> k == 3)
  {
    hide *;
    var p := TroubleRun(value, id, k);
    FirstTerm(k, p, Entry(2, value, id));
    TwoNet(p);
    TroubleEvent(Two(p), value, id, k);
  }

  lemma TroubleAllowed(value: string, id: int)
    ensures ClusterOk(Two(Stage(6))) && RaftResend.ResendRun(Two(Stage(6)), Epoch(0, 2, 0), Trouble(value, id))
    ensures forall k :: 0 <= k < |Trouble(value, id)| && Trouble(value, id)[k].ResendTick? ==> k == 3
  {
    CampaignStage(6);
    TroubleLength(value, id);
    hide Exec, Next, Boot, Stage, After, ClusterOk, Trouble, Two, Allowed;
    forall k | 0 <= k < 9
      ensures var c, ev := Exec(Two(Stage(6)), Trouble(value, id)[..k]), Trouble(value, id)[k];
        && (Allowed(c, Epoch(0, 2, 0), ev) || ev.ResendTick?)
        && (ev.ResendTick? ==> k == 3)
    {
      TroubleAt(value, id, k);
    }
  }

  /** In the end the cursor says that node 1 is up to date and its match index names an entry that node 1 does not
      hold, and the leader has committed that entry. */
  lemma InTheEnd(p: Pair, e: Entry)
    requires ClusterOk(Two(p)) && After(9, p, e)
    ensures var l, f := Two(p).nodes[0], Two(p).nodes[1];
      && l.role == Leader && l.nextIndex[1] == None && l.matchIndex[1] == 2 == l.commitIndex
      && l.log == f.log + [e] && |f.log| == 2
      && !Honest(Two(p), Epoch(0, 2, 0), 1)
  {
  }

  /** A resend makes the replication cursor lie.  After an ordinary election, with delivery in order, no loss and one
      resend timer that fires before the acknowledgement comes, the leader takes node 1 for up to date and commits
      an entry that only it holds. */
  lemma ResendMakesCursorLie(value: string, id: int)
    ensures RaftBoot.BootRun(2, Campaign()) && Start(Exec(Boot(2), Campaign()), Epoch(0, 2, 0))
    ensures var c, e, evs := Exec(Boot(2), Campaign()), Epoch(0, 2, 0), Trouble(value, id);
      && RaftResend.ResendRun(c, e, evs)
      && (forall k :: 0 <= k < |evs| && evs[k].ResendTick? ==> k == 3)
      && var c' := Exec(c, evs);
         var l, f := c'.nodes[0], c'.nodes[1];
         && l.role == Leader && l.nextIndex[1] == None && l.matchIndex[1] == 2 == l.commitIndex
         && l.log == f.log + [Entry(2, value, id)] && |f.log| == 2
         && !Honest(c', e, 1)
  {
    hide *;
    OrdinaryElection();
    CampaignLength();
    CampaignStage(6);
    assert Campaign()[..6] == Campaign();
    TroubleAllowed(value, id);
    var p := TroubleRun(value, id, 9);
    TroubleLength(value, id);
    assert Trouble(value, id)[..9] == Trouble(value, id);
    InTheEnd(p, Entry(2, value, id));
  }

  // ---- an append that takes the commit index back ----

  /** Node 1 holds two entries of term 1 behind the sentinel and has committed both; an append for the first place,
      from a leader that has committed three, is on its way to it. */
  function Ahead(): Pair
  {
    var e := Entry(1, "x", 0);
    Pair(InitNode(2, 0),
         InitNode(2, 1).(log := [SENTINEL, e, e], commitIndex := 2, lastAppliedIndex := 2),
         [], [AppendEntries(1, 0, 0, 0, 1, e, 3)], [], [])
  }

  lemma AheadIsOk()
    ensures ClusterOk(Two(Ahead()))
  {
    TwoNet(Ahead());
    hide Two;
  }

  /** Reading it, node 1 cuts its log to two entries and its commit index goes back from 2 to 0. */
  lemma AppendTakesCommitBack()
    ensures ClusterOk(Two(Ahead()))
    ensures var s, s' := Two(Ahead()).nodes[1], Next(Two(Ahead()), Deliver(0, 1, 0)).nodes[1];
      && s.role == Follower && s.commitIndex == 2 && |s.log| == 3
      && s'.commitIndex == 0 && |s'.log| == 2
  {
    AheadIsOk();
    TwoNet(Ahead());
    var m := AppendEntries(1, 0, 0, 0, 1, Entry(1, "x", 0), 3);
    AheadReads();
    hide Two, Next, On, FollowerOn, ClusterOk, Ahead;
    SecondReads(Ahead());
    OnFollower(Ahead().b, m);
    var q := SecondActs(Ahead().(ab := Ahead().ab[1..]), FollowerOn(Ahead().b, m));
    TwoNet(q);
  }

  lemma AheadReads()
    ensures var p := Ahead();
      && p.b.role == Follower && p.b.commitIndex == 2 && |p.b.log| == 3
      && p.ab == [AppendEntries(1, 0, 0, 0, 1, Entry(1, "x", 0), 3)]
      && var s' := FollowerOn(p.b, p.ab[0]).node; s'.commitIndex == 0 && |s'.log| == 2
  {
  }
}
