/** In an epoch every node knows the term of what it has applied, committals
    carry it, and a heartbeat brings a follower into the epoch's term. */
module RaftApplied {
  import opened RaftProtocol
  import opened RaftSpec
  import opened RaftCluster
  import opened RaftReactions
  import opened RaftRuns
  import opened RaftEpoch
  import RaftBoot

  /** The last applied index is the commit index, and the last applied term that of the entry there. */
  ghost predicate TermApplied(s: Node)
  {
    && s.lastAppliedIndex == s.commitIndex < |s.log|
    && s.lastAppliedTerm == s.log[s.commitIndex].term
  }

  /** A committal names an entry of that log by its index and term. */
  ghost predicate Names(log: seq<Entry>, m: Message)
  {
    m.Committal? ==> m.prevLogIndex < |log| && m.prevLogTerm == log[m.prevLogIndex].term
  }

  ghost predicate AllNamed(log: seq<Entry>, ch: seq<Message>)
  {
    forall p :: 0 <= p < |ch| ==> Names(log, ch[p])
  }

  ghost predicate AppliedInv(c: Cluster, e: Epoch)
  {
    && e.leader < |c.nodes|
    && (forall i :: 0 <= i < |c.nodes| ==> TermApplied(c.nodes[i]))
    && forall k :: k in c.net && k.0 == e.leader ==> AllNamed(c.nodes[e.leader].log, c.net[k])
  }

  // ---- one node ----

  /** Committals name what their sender has applied. */
  ghost predicate CommittalsTell(eff: Effect)
  {
    forall x :: x in eff.sent && x.msg.Committal? ==>
      x.msg.prevLogIndex == eff.node.lastAppliedIndex && x.msg.prevLogTerm == eff.node.lastAppliedTerm
  }

  lemma MulticastTells(to: seq<bool>, msg: Message, node: Node)
    requires msg.Committal? ==> msg.prevLogIndex == node.lastAppliedIndex && msg.prevLogTerm == node.lastAppliedTerm
    ensures CommittalsTell(Effect(node, Multicast(to, msg)))
  {
    forall x | x in Multicast(to, msg) && x.msg.Committal?
      ensures x.msg.prevLogIndex == node.lastAppliedIndex && x.msg.prevLogTerm == node.lastAppliedTerm
    {
      MulticastIn(to, msg, x);
    }
  }

  lemma BroadcastTells(s: Node, entry: Entry)
    requires Shape(s)
    ensures CommittalsTell(BroadcastAppend(s, entry))
    ensures TermApplied(s) ==> TermApplied(BroadcastAppend(s, entry).node)
  {
    var prev := |s.log| - 1;
    MulticastTells(UpToDate(s.nextIndex), AppendMessage(s, prev, s.log[prev].term, entry),
                   BroadcastAppend(s, entry).node);
    hide Multicast, UpToDate;
  }

  lemma CommitTells(s: Node)
    requires Shape(s) && CursorsInRange(s) && TermApplied(s)
    ensures CommittalsTell(CommitIfReplicated(s)) && TermApplied(CommitIfReplicated(s).node)
  {
    var least := Minimum(s.matchIndex);
    assert least <= s.matchIndex[s.me];
    var s1 := CommitEntry(s, least, s.log[least].term);
    MulticastTells(Everyone(s1.n), CommittalMessage(s1), s1);
    hide Multicast, Everyone;
  }

  lemma AckTells(s: Node, i: nat, success: bool)
    requires NodeOk(s) && s.role == Leader && i < s.n && TermApplied(s)
    ensures Shape(s) && CursorsInRange(s)
    ensures CommittalsTell(LeaderOnAck(s, i, success)) && TermApplied(LeaderOnAck(s, i, success).node)
  {
    if s.nextIndex[i].Some? {
      AckIsTwoSteps(s, i, success);
      AdvanceMeans(s, i, success);
      var a := AdvanceOnAck(s, i, success);
      CommitTells(a.node);
      hide LeaderOnAck, AdvanceOnAck, CommitIfReplicated;
      assert forall x :: x in a.sent ==> !x.msg.Committal?;
    }
  }

  lemma LeaderTells(s: Node, m: Message)
    requires NodeOk(s) && s.role == Leader && m.sender < s.n && TermApplied(s)
    ensures CommittalsTell(On(s, m)) && TermApplied(On(s, m).node)
  {
    hide LeaderOnAck, BroadcastAppend;
    if m.Acknowledge? {
      AckTells(s, m.sender, m.success);
    } else if m.ClientRequest? {
      BroadcastTells(s, m.entry);
    }
  }

  lemma EnterTells(s: Node)
    requires Shape(s)
    ensures CommittalsTell(EnterLeader(s)) && (TermApplied(s) ==> TermApplied(EnterLeader(s).node))
  {
    var s1 := s.(role := Leader, leaderId := Some(s.me),
                 matchIndex := seq(s.n, _ => s.commitIndex), nextIndex := seq(s.n, _ => None));
    BroadcastTells(s1, Entry(s.term, "{}", -1));
    hide BroadcastAppend;
  }

  lemma LocalTells(s: Node, ev: Event)
    requires NodeOk(s) && LocalStep(s, ev).Some? && TermApplied(s)
    ensures CommittalsTell(LocalStep(s, ev).value) && TermApplied(LocalStep(s, ev).value.node)
  {
    hide EnterLeader, BroadcastAppend;
    if ev.Enter? && s.role == Elected {
      EnterTells(s);
    } else if ev.ServeClient? && s.queue != [] {
      BroadcastTells(s.(queue := s.queue[1..]), s.queue[0]);
    }
  }

  // ---- one event ----

  lemma NamedLater(log: seq<Entry>, log': seq<Entry>, ch: seq<Message>)
    requires log <= log' && AllNamed(log, ch)
    ensures AllNamed(log', ch)
  {
    forall p | 0 <= p < |ch| ensures Names(log', ch[p]) {
      assert Names(log, ch[p]);
    }
  }

  lemma NamedConcat(log: seq<Entry>, a: seq<Message>, b: seq<Message>)
    requires AllNamed(log, a) && AllNamed(log, b)
    ensures AllNamed(log, a + b)
  {
  }

  lemma NamedWithout(log: seq<Entry>, ch: seq<Message>, pos: nat)
    requires AllNamed(log, ch) && pos < |ch|
    ensures AllNamed(log, Without(ch, pos))
  {
    forall p | 0 <= p < |Without(ch, pos)| ensures Names(log, Without(ch, pos)[p]) {
      assert Names(log, ch[if p < pos then p else p + 1]);
    }
  }

  lemma SentAreNamed(eff: Effect, dst: nat)
    requires CommittalsTell(eff) && TermApplied(eff.node)
    ensures AllNamed(eff.node.log, Routed(eff.sent, dst))
  {
    var r := Routed(eff.sent, dst);
    forall p | 0 <= p < |r| ensures Names(eff.node.log, r[p]) {
      RoutedIn(eff.sent, dst, r[p]);
    }
  }

  /** Node u acts on `base`: what the invariant asks of it. */
  lemma ActKeeps(base: Cluster, e: Epoch, u: nat, eff: Effect)
    requires AppliedInv(base, e) && u < |base.nodes| && TermApplied(eff.node)
    requires u == e.leader ==> CommittalsTell(eff) && base.nodes[u].log <= eff.node.log
    ensures AppliedInv(Apply(base, u, eff), e)
  {
    hide TermApplied, AllNamed, CommittalsTell, Routed;
    var c' := Apply(base, u, eff);
    forall k | k in c'.net && k.0 == e.leader ensures AllNamed(c'.nodes[e.leader].log, c'.net[k]) {
      NamedLater(base.nodes[e.leader].log, c'.nodes[e.leader].log, base.net[k]);
      if u == e.leader {
        SentAreNamed(eff, k.1);
        NamedConcat(eff.node.log, base.net[k], Routed(eff.sent, k.1));
      }
    }
  }

  lemma TakeKeeps(c: Cluster, e: Epoch, src: nat, dst: nat, pos: nat)
    requires AppliedInv(c, e) && InFlight(c, src, dst, pos)
    ensures AppliedInv(Take(c, src, dst, pos), e)
  {
    hide TermApplied, AllNamed;
    if src == e.leader {
      NamedWithout(c.nodes[e.leader].log, c.net[(src, dst)], pos);
    }
  }

  /** The entry at its commit index that node i holds, when that index was already committed. */
  lemma SameEntry(c: Cluster, e: Epoch, i: nat, log: seq<Entry>)
    requires EpochInv(c, e) && i < |c.nodes| && e.leader < |c.nodes| && c.nodes[i].commitIndex < |log|
    requires c.nodes[e.leader].log <= log
    ensures c.nodes[i].commitIndex < |c.nodes[i].log|
    ensures c.nodes[i].log[c.nodes[i].commitIndex] == log[c.nodes[i].commitIndex]
  {
    InvSafe(c, e, i);
    hide EpochInv;
    var s, l := c.nodes[i], c.nodes[e.leader];
    assert s.log[..s.commitIndex + 1][s.commitIndex] == l.log[..s.commitIndex + 1][s.commitIndex];
  }

  /** What a follower that reads the head of a channel takes for applied: what it did before, or what the committal
      says. */
  lemma FollowerApplies(c: Cluster, e: Epoch, src: nat, i: nat)
    requires EpochInv(c, e) && InFlight(c, src, i, 0) && i != e.leader
    ensures i < |c.nodes|
    ensures var s, m := c.nodes[i], Read(c, src, i, 0);
      var s' := FollowerOn(s, m).node;
      if m.Committal? then
        && src == e.leader && s'.lastAppliedIndex == s'.commitIndex == m.prevLogIndex
        && s'.lastAppliedTerm == m.prevLogTerm
      else
        && s'.commitIndex == s.commitIndex && s'.lastAppliedIndex == s.lastAppliedIndex
        && s'.lastAppliedTerm == s.lastAppliedTerm
  {
    EpochCommonOf(c, e);
    MessageAt(c, e, src, i);
    var m := Read(c, src, i, 0);
    if m.AppendEntries? {
      NoCommitWithAppend(c, e, i);
    }
  }

  lemma EpochCommonOf(c: Cluster, e: Epoch)
    requires EpochInv(c, e)
    ensures Common(c, e)
  {
  }

  lemma NoCommitWithAppend(c: Cluster, e: Epoch, i: nat)
    requires EpochInv(c, e) && InFlight(c, e.leader, i, 0) && i != e.leader && Read(c, e.leader, i, 0).AppendEntries?
    ensures i < |c.nodes| && Read(c, e.leader, i, 0).leaderCommit <= c.nodes[i].commitIndex
  {
    EpochCommonOf(c, e);
    assert i < |c.nodes|;
    if Active(c, e) {
      ActiveLink(c, e, i);
      hide Active, Start;
      AppendAtHead(e, LeadOf(c, e), ViewOf(c, e, i), LinkOf(c, e, i));
    } else {
      StartIsLight(c, e, i);
    }
  }

  lemma StartIsLight(c: Cluster, e: Epoch, i: nat)
    requires Start(c, e) && InFlight(c, e.leader, i, 0) && i != e.leader
    ensures Light(Read(c, e.leader, i, 0))
  {
    hide MessagesOk, FollowerOk;
    assert StartLink(c.nodes[e.leader].log, e, LinkOf(c, e, i));
  }

  lemma ActiveLink(c: Cluster, e: Epoch, i: nat)
    requires Active(c, e) && i < |c.nodes| && i != e.leader
    ensures LinkInv(e, LeadOf(c, e), ViewOf(c, e, i), LinkOf(c, e, i))
  {
    hide LinkInv;
  }

  lemma FollowerStepApplied(c: Cluster, e: Epoch, src: nat, i: nat)
    requires EpochInv(c, e) && AppliedInv(c, e) && InFlight(c, src, i, 0) && i != e.leader
    requires EpochInv(Next(c, Deliver(src, i, 0)), e)
    ensures AppliedInv(Next(c, Deliver(src, i, 0)), e)
  {
    EpochCommonOf(c, e);
    FollowerApplies(c, e, src, i);
    FollowerStepCommon(c, e, src, i);
    hide EpochInv, Common, FollowerOn, Next, Routed;
    var s, m := c.nodes[i], Read(c, src, i, 0);
    var eff, base := FollowerOn(s, m), Take(c, src, i, 0);
    var c' := Next(c, Deliver(src, i, 0));
    assert c'.nodes[i] == eff.node && c'.nodes[e.leader] == c.nodes[e.leader];
    InvSafe(c', e, i);
    SameEntry(c', e, i, c.nodes[e.leader].log);
    if m.Committal? {
      assert AllNamed(c.nodes[e.leader].log, c.net[(src, i)]);
      assert Names(c.nodes[e.leader].log, m);
    } else {
      SameEntry(c, e, i, c.nodes[e.leader].log);
    }
    TakeKeeps(c, e, src, i, 0);
    ActKeeps(base, e, i, eff);
  }

  lemma LeaderStepApplied(c: Cluster, e: Epoch, src: nat)
    requires Active(c, e) && AppliedInv(c, e) && InFlight(c, src, e.leader, 0)
    ensures AppliedInv(Next(c, Deliver(src, e.leader, 0)), e)
  {
    ActiveIsCommon(c, e);
    LeaderHead(c, e, src);
    LeaderReadsHead(c, e, src);
    hide Active, Common, ClusterOk, On, Next, MoveOf, EffectOk, LeaderKept, AllNamed, TermApplied;
    var s, m := c.nodes[e.leader], c.net[(src, e.leader)][0];
    NextReads(c, src, e.leader, 0);
    LeaderTells(s, m);
    TakeKeeps(c, e, src, e.leader, 0);
    ActKeeps(Take(c, src, e.leader, 0), e, e.leader, On(s, m));
  }

  lemma LocalStepApplied(c: Cluster, e: Epoch, ev: Event)
    requires ClusterOk(c) && AppliedInv(c, e) && !ev.Deliver? && !ev.Drop? && MoveOf(c, ev).Act?
    ensures AppliedInv(Next(c, ev), e)
  {
    assert ev.node < |c.nodes| && LocalStep(c.nodes[ev.node], ev).Some?;
    var s, eff := c.nodes[ev.node], LocalStep(c.nodes[ev.node], ev).value;
    assert MoveOf(c, ev) == Act(c, ev.node, eff) && NodeOk(s);
    LocalLog(s, ev);
    LocalTells(s, ev);
    hide LocalStep, ClusterOk, TermApplied, AllNamed, CommittalsTell, MoveOf, Next;
    NextActs(c, ev);
    ActKeeps(c, e, ev.node, eff);
  }

  lemma LocalLog(s: Node, ev: Event)
    requires NodeOk(s) && LocalStep(s, ev).Some?
    ensures s.log <= LocalStep(s, ev).value.node.log
  {
    hide Multicast, UpToDate, AdvanceCursors;
  }

  lemma AppliedEvent(c: Cluster, e: Epoch, ev: Event)
    requires EpochInv(c, e) && Allowed(c, e, ev) && AppliedInv(c, e)
    ensures AppliedInv(Next(c, ev), e)
  {
    EpochBasics(c, e);
    EpochStep(c, e, ev);
    hide Start, Active, AppliedInv, Next, On, LocalStep;
    if MoveOf(c, ev).Idle? {
      IdleStep(c, e, ev);
    } else if ev.Deliver? {
      if ev.dst != e.leader {
        FollowerStepApplied(c, e, ev.src, ev.dst);
      } else {
        ReadsWhenActive(c, e);
        LeaderStepApplied(c, e, ev.src);
      }
    } else {
      LocalStepApplied(c, e, ev);
    }
  }

  lemma ReadsWhenActive(c: Cluster, e: Epoch)
    requires EpochInv(c, e) && Reads(c.nodes[e.leader].role)
    ensures Active(c, e)
  {
  }

  // ---- every run ----

  lemma {:induction false} AppliedKept(c: Cluster, e: Epoch, evs: seq<Event>)
    requires EpochInv(c, e) && EpochRun(c, e, evs) && AppliedInv(c, e)
    ensures ClusterOk(c) && AppliedInv(Exec(c, evs), e)
  {
    hide *;
    EpochBasics(c, e);
    if evs == [] {
      ExecNothing(c);
    } else {
      var k := |evs| - 1;
      RunParts(c, e, evs, k);
      EpochKept(c, e, evs[..k]);
      AppliedKept(c, e, evs[..k]);
      AppliedEvent(Exec(c, evs[..k]), e, evs[k]);
      assert evs[..k + 1] == evs;
      ExecStep(c, evs, k);
    }
  }

  lemma AppliedMeans(c: Cluster, e: Epoch, i: nat)
    requires AppliedInv(c, e) && i < |c.nodes|
    ensures c.nodes[i].lastAppliedIndex == c.nodes[i].commitIndex < |c.nodes[i].log|
    ensures c.nodes[i].lastAppliedTerm == c.nodes[i].log[c.nodes[i].commitIndex].term
  {
  }

  lemma NamedMeans(c: Cluster, e: Epoch, i: nat, m: Message)
    requires AppliedInv(c, e) && (e.leader, i) in c.net && m in c.net[(e.leader, i)] && m.Committal?
    ensures m.prevLogIndex < |c.nodes[e.leader].log| && m.prevLogTerm == c.nodes[e.leader].log[m.prevLogIndex].term
  {
    var p :| 0 <= p < |c.net[(e.leader, i)]| && c.net[(e.leader, i)][p] == m;
    assert Names(c.nodes[e.leader].log, c.net[(e.leader, i)][p]);
  }

  /** At every moment of an epoch that starts so, the last applied index of every node is its commit index, and its
      last applied term that of its entry there. */
  lemma AppliedTermIsLogged(c: Cluster, e: Epoch, evs: seq<Event>, i: nat)
    requires EpochInv(c, e) && EpochRun(c, e, evs) && AppliedInv(c, e) && i < |c.nodes|
    ensures var s := Exec(c, evs).nodes[i];
      && s.lastAppliedIndex == s.commitIndex < |s.log|
      && s.lastAppliedTerm == s.log[s.commitIndex].term
  {
    hide *;
    AppliedKept(c, e, evs);
    AppliedMeans(Exec(c, evs), e, i);
  }

  /** Every committal on its way in such an epoch names an entry of the leader's log by its index and its term. */
  lemma CommittalsNameEntries(c: Cluster, e: Epoch, evs: seq<Event>, src: nat, dst: nat, m: Message)
    requires EpochInv(c, e) && EpochRun(c, e, evs) && AppliedInv(c, e)
    requires (src, dst) in Exec(c, evs).net && m in Exec(c, evs).net[(src, dst)] && m.Committal?
    ensures var l := Exec(c, evs).nodes[e.leader];
      src == e.leader && m.prevLogIndex < |l.log| && m.prevLogTerm == l.log[m.prevLogIndex].term
  {
    hide *;
    AppliedKept(c, e, evs);
    EpochKept(c, e, evs);
    EpochCommonOf(Exec(c, evs), e);
    FromLeader(Exec(c, evs), e, src, dst, m);
    NamedMeans(Exec(c, evs), e, dst, m);
  }

  lemma FromLeader(c: Cluster, e: Epoch, src: nat, dst: nat, m: Message)
    requires Common(c, e) && (src, dst) in c.net && m in c.net[(src, dst)] && m.Committal?
    ensures src == e.leader < |c.nodes|
  {
    var p :| 0 <= p < |c.net[(src, dst)]| && c.net[(src, dst)][p] == m;
    assert MessageOk(e, src, dst, c.net[(src, dst)][p]);
  }

  // ---- the epoch's term ----

  /** Every heartbeat on its way is of the epoch's term. */
  ghost predicate HeartbeatsCurrent(c: Cluster, e: Epoch)
  {
    forall k, m :: k in c.net && m in c.net[k] && m.Heartbeat? ==> m.term == e.term
  }

  lemma OnlyTheLeaderLeads(c: Cluster, e: Epoch)
    requires EpochInv(c, e)
    ensures ClusterOk(c)
    ensures forall i :: 0 <= i < |c.nodes| && (c.nodes[i].role == Elected || c.nodes[i].role == Leader) ==>
              c.nodes[i].term == e.term
  {
  }

  lemma {:induction false} HeartbeatsKept(c: Cluster, e: Epoch, evs: seq<Event>)
    requires EpochInv(c, e) && EpochRun(c, e, evs) && HeartbeatsCurrent(c, e)
    ensures ClusterOk(c) && HeartbeatsCurrent(Exec(c, evs), e)
  {
    EpochBasics(c, e);
    hide EpochInv, EpochRun, Exec, Next, ClusterOk;
    if evs == [] {
      ExecNothing(c);
    } else {
      var k := |evs| - 1;
      RunParts(c, e, evs, k);
      EpochKept(c, e, evs[..k]);
      HeartbeatsKept(c, e, evs[..k]);
      OnlyTheLeaderLeads(Exec(c, evs[..k]), e);
      assert evs[..k + 1] == evs;
      ExecStep(c, evs, k);
      forall key, m | key in Exec(c, evs).net && m in Exec(c, evs).net[key] && m.Heartbeat? ensures m.term == e.term {
        if m !in Exec(c, evs[..k]).net[key] {
          NewCall(Exec(c, evs[..k]), evs[k], key, m);
        }
      }
    }
  }

  /** In event k follower i reads a heartbeat. */
  ghost predicate HearsAt(c: Cluster, evs: seq<Event>, k: nat, src: nat, i: nat)
    requires ClusterOk(c) && k < |evs|
  {
    && evs[k] == Deliver(src, i, 0)
    && Reading(At(c, evs, k), src, i, 0, Follower) && Read(At(c, evs, k), src, i, 0).Heartbeat?
  }

  lemma HeardTerm(c: Cluster, e: Epoch, src: nat, i: nat)
    requires EpochInv(c, e) && Reading(c, src, i, 0, Follower) && Read(c, src, i, 0).Heartbeat?
    requires HeartbeatsCurrent(c, e)
    ensures i < |c.nodes|
    ensures var s' := Next(c, Deliver(src, i, 0)).nodes[i];
      s'.term == e.term && s'.leaderId == Some(e.leader)
  {
    hide *;
    ReadingMeans(c, src, i, 0, Follower);
    EpochCommonOf(c, e);
    LeaderNamed(c, e, src, i);
    TermAtMost(c, e, i);
    HeartbeatBrings(c, src, i, 0);
    HeartbeatAt(c, e, src, i);
    LargerIs(e.term, c.nodes[i].term);
  }

  lemma LargerIs(a: nat, b: nat)
    requires b <= a
    ensures Larger(a, b) == a
  {
  }

  lemma LeaderNamed(c: Cluster, e: Epoch, src: nat, i: nat)
    requires Common(c, e) && InFlight(c, src, i, 0) && Read(c, src, i, 0).Heartbeat?
    ensures Read(c, src, i, 0).leaderId == e.leader
  {
    MessageAt(c, e, src, i);
    hide MessagesOk, ClusterOk, FollowerOk;
  }

  lemma HeartbeatAt(c: Cluster, e: Epoch, src: nat, i: nat)
    requires HeartbeatsCurrent(c, e) && InFlight(c, src, i, 0) && Read(c, src, i, 0).Heartbeat?
    ensures Read(c, src, i, 0).term == e.term
  {
    assert Read(c, src, i, 0) in c.net[(src, i)];
  }

  lemma TermAtMost(c: Cluster, e: Epoch, i: nat)
    requires EpochInv(c, e) && i < |c.nodes|
    ensures c.nodes[i].term <= e.term
  {
  }

  /** From the first heartbeat that a follower has read in an epoch on, it is in the epoch's term, so that client
      requests submitted there carry that term. */
  lemma HeartbeatBringsTheTerm(c: Cluster, e: Epoch, evs: seq<Event>, k: nat, src: nat, i: nat, j: nat,
                               value: string, id: int)
    requires EpochInv(c, e) && EpochRun(c, e, evs) && HeartbeatsCurrent(c, e)
    requires ClusterOk(c) && k < j <= |evs| && i < |c.nodes| && HearsAt(c, evs, k, src, i)
    ensures At(c, evs, k + 1).nodes[i].leaderId == Some(e.leader)
    ensures At(c, evs, j).nodes[i].term == e.term
    ensures Allowed(At(c, evs, j), e, SubmitRequest(i, value, id))
  {
    hide EpochInv, EpochRun, Exec, Next, HeartbeatsCurrent, NetOk, NodesOk;
    RunParts(c, e, evs, k);
    EpochKept(c, e, evs[..k]);
    HeartbeatsKept(c, e, evs[..k]);
    HeardTerm(At(c, evs, k), e, src, i);
    ExecStep(c, evs, k);
    TermsLater(c, evs, k + 1, j, i);
    PartKept(c, e, evs, j);
    TermAtMost(At(c, evs, j), e, i);
  }

  lemma PartKept(c: Cluster, e: Epoch, evs: seq<Event>, j: nat)
    requires EpochInv(c, e) && EpochRun(c, e, evs) && ClusterOk(c) && j <= |evs|
    ensures EpochInv(At(c, evs, j), e)
  {
    hide EpochInv, EpochRun, Exec;
    if j < |evs| {
      RunParts(c, e, evs, j);
    } else {
      assert evs[..j] == evs;
    }
    EpochKept(c, e, evs[..j]);
  }

  // ---- epochs that start so ----

  /** The epoch of the first leader after a boot starts with all this in order. */
  lemma FirstEpochStartsSo(n: nat, v: nat, evs: seq<Event>)
    requires n >= 1 && v < n && RaftBoot.BootRun(n, evs) && RaftBoot.Unrivalled(Exec(Boot(n), evs), v)
    ensures var c := Exec(Boot(n), evs);
      var e := Epoch(v, c.nodes[v].term, 0);
      Start(c, e) && AppliedInv(c, e) && HeartbeatsCurrent(c, e)
  {
    RaftBoot.FirstLeaderStartsEpoch(n, v, evs);
    RaftBoot.BootKept(n, evs);
    hide Exec, Boot, Start, RaftBoot.BootRun, RaftBoot.Unrivalled;
    TalkIsNamed(Exec(Boot(n), evs), v);
  }

  lemma TalkIsNamed(c: Cluster, v: nat)
    requires RaftBoot.BootPhase(c) && v < |c.nodes|
    ensures var e := Epoch(v, c.nodes[v].term, 0); AppliedInv(c, e) && HeartbeatsCurrent(c, e)
  {
    forall k, p | k in c.net && 0 <= p < |c.net[k]| ensures !c.net[k][p].Committal? && !c.net[k][p].Heartbeat? {
      assert RaftBoot.ChannelTalk(c.net[k], c.nodes[k.0].term);
    }
    assert forall i :: 0 <= i < |c.nodes| ==> RaftBoot.Fresh(c.nodes[i]);
    hide ClusterOk, RaftBoot.TalkOnly, RaftBoot.AllFresh;
  }
}
