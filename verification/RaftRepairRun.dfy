/** Log repair runs to its end: reading nothing but the two channels between the leader and a follower makes the
    follower's log equal to the leader's. */
module RaftRepairRun {
  import opened RaftProtocol
  import opened RaftSpec
  import opened RaftCluster
  import opened RaftEpoch
  import opened RaftRepair

  predicate NoRequests(ch: seq<Message>)
  {
    forall p :: 0 <= p < |ch| ==> !ch[p].ClientRequest?
  }

  /** In the epoch, follower i has no client requests waiting, in its queue or on their way to the leader. */
  ghost predicate Quiet(c: Cluster, e: Epoch, i: nat)
  {
    Active(c, e) && i < |c.nodes| && i != e.leader && c.nodes[i].queue == [] && NoRequests(c.net[(i, e.leader)])
  }

  lemma FollowerQuiet(s: Node, m: Message, dst: nat)
    requires s.queue == []
    ensures FollowerOn(s, m).node.queue == [] && NoRequests(Routed(FollowerOn(s, m).sent, dst))
  {
    var sent := FollowerOn(s, m).sent;
    if sent != [] {
      RoutedOne(sent[0], dst);
    }
  }

  lemma OneInFlight(c: Cluster, e: Epoch, i: nat)
    requires Quiet(c, e, i) && c.nodes[e.leader].nextIndex[i].Some?
    ensures |Appends(c.net[(e.leader, i)])| + |Acks(c.net[(i, e.leader)])| == 1
    ensures Appends(c.net[(e.leader, i)]) != [] ==> InFlight(c, e.leader, i, 0)
    ensures Acks(c.net[(i, e.leader)]) != [] ==> InFlight(c, i, e.leader, 0)
  {
    assert LinkInv(e, LeadOf(c, e), ViewOf(c, e, i), LinkOf(c, e, i));
  }

  /** The follower reads the head of its channel. */
  lemma ReadDown(c: Cluster, e: Epoch, i: nat)
    requires Quiet(c, e, i) && InFlight(c, e.leader, i, 0)
    ensures var c' := Next(c, Deliver(e.leader, i, 0));
      && Quiet(c', e, i)
      && c'.nodes[e.leader] == c.nodes[e.leader]
      && c'.net[(e.leader, i)] == c.net[(e.leader, i)][1..]
      && RoundsFor(c', e, i) == RoundsFor(c, e, i)
  {
    QuietRange(c, e, i);
    var ev := Deliver(e.leader, i, 0);
    var s, m := c.nodes[i], c.net[(e.leader, i)][0];
    EpochStep(c, e, ev);
    FollowerStep(c, e, e.leader, i);
    FollowerStepCommon(c, e, e.leader, i);
    FollowerQuiet(s, m, e.leader);
    hide *;
    var base, eff := Take(c, e.leader, i, 0), FollowerOn(s, m);
    ApplyAt(base, i, eff, i, e.leader);
    ApplyAt(base, i, eff, e.leader, i);
    RoundsStep(c, e, ev, i);
    StillQuiet(Next(c, ev), e, i, c.net[(i, e.leader)], Routed(eff.sent, e.leader));
  }

  /** The two ends of the link of a quiet follower. */
  lemma QuietRange(c: Cluster, e: Epoch, i: nat)
    requires Quiet(c, e, i)
    ensures Active(c, e) && Common(c, e) && EpochInv(c, e) && ClusterOk(c) && e.leader < |c.nodes| && i != e.leader
    ensures (e.leader, i) in c.net && (i, e.leader) in c.net && NoRequests(c.net[(i, e.leader)])
    ensures c.nodes[i].queue == [] && c.nodes[e.leader].role == Leader
    ensures Allowed(c, e, Deliver(e.leader, i, 0))
    ensures InFlight(c, e.leader, i, 0) ==> c.net[(e.leader, i)] != [] && Take(c, e.leader, i, 0).nodes == c.nodes
  {
    hide LinkInv, MessagesOk, FollowerOk;
  }

  lemma StillQuiet(c: Cluster, e: Epoch, i: nat, up: seq<Message>, more: seq<Message>)
    requires Active(c, e) && i < |c.nodes| && i != e.leader && c.nodes[i].queue == []
    requires (i, e.leader) in c.net && c.net[(i, e.leader)] == up + more && NoRequests(up) && NoRequests(more)
    ensures Quiet(c, e, i)
  {
    hide Active;
  }

  lemma LeaderKeepsLog(e: Epoch, s: Node, src: nat, m: Message)
    requires NodeOk(s) && s.role == Leader && s.me == e.leader && s.term == e.term && m.sender < s.n
    requires MessageOk(e, src, s.me, m) && !m.ClientRequest?
    ensures On(s, m).node.log == s.log
  {
  }

  /** The leader reads the head of the follower's channel. */
  lemma ReadUp(c: Cluster, e: Epoch, i: nat)
    requires Quiet(c, e, i) && InFlight(c, i, e.leader, 0)
    ensures var c', ack := Next(c, Deliver(i, e.leader, 0)), c.net[(i, e.leader)][0].Acknowledge?;
      && Quiet(c', e, i)
      && c'.nodes[e.leader].log == c.nodes[e.leader].log
      && c'.net[(i, e.leader)] == c.net[(i, e.leader)][1..]
      && RoundsFor(c, e, i) == RoundsFor(c', e, i) + if ack then 1 else 0
  {
    var ev := Deliver(i, e.leader, 0);
    var s, m := c.nodes[e.leader], c.net[(i, e.leader)][0];
    assert MessageOk(e, i, e.leader, m) && NodeOk(s) && m.sender < s.n;
    LeaderKeepsLog(e, s, i, m);
    NextReads(c, i, e.leader, 0);
    hide LinkInv, On, Next, MessagesOk, MoveOf;
    EpochStep(c, e, ev);
    RoundsStep(c, e, ev, i);
  }

  /** Whose turn it is to read: 1 the follower's, while an append is on its way. */
  function Turn(c: Cluster, e: Epoch, i: nat): nat
    requires ClusterOk(c) && e.leader < |c.nodes| && i < |c.nodes|
  {
    if Appends(c.net[(e.leader, i)]) != [] then 1 else 0
  }

  lemma ExecFirst(c: Cluster, ev: Event, rest: seq<Event>)
    requires ClusterOk(c)
    ensures Exec(c, [ev] + rest) == Exec(Next(c, ev), rest)
  {
    ExecConcat(c, [ev], rest);
    assert Exec(c, [ev]) == Next(c, ev) by {
      assert [ev][..0] == [];
    }
  }

  lemma RunFirst(c: Cluster, e: Epoch, ev: Event, rest: seq<Event>)
    requires ClusterOk(c) && Allowed(c, e, ev) && EpochRun(Next(c, ev), e, rest)
    ensures EpochRun(c, e, [ev] + rest)
  {
    var evs := [ev] + rest;
    assert Exec(c, []) == c;
    hide Next, Allowed, Exec, ClusterOk;
    forall k | 0 <= k < |evs| ensures Allowed(Exec(c, evs[..k]), e, evs[k]) {
      if k == 0 {
        assert evs[..0] == [];
      } else {
        assert evs[..k] == [ev] + rest[..k - 1] && evs[k] == rest[k - 1];
        ExecFirst(c, ev, rest[..k - 1]);
      }
    }
  }

  /** An event that the leader or follower i takes off the channels between them. */
  predicate Between(e: Epoch, i: nat, ev: Event)
  {
    ev == Deliver(e.leader, i, 0) || ev == Deliver(i, e.leader, 0)
  }

  function Unread(c: Cluster, e: Epoch, i: nat): nat
    requires ClusterOk(c) && e.leader < |c.nodes| && i < |c.nodes|
  {
    if Turn(c, e, i) == 1 then |c.net[(e.leader, i)]| else |c.net[(i, e.leader)]|
  }

  /** The next read brings the repair nearer to its end. */
  lemma OneRead(c: Cluster, e: Epoch, i: nat) returns (ev: Event)
    requires Quiet(c, e, i) && RoundsFor(c, e, i) > 0
    ensures Allowed(c, e, ev) && Between(e, i, ev)
    ensures var c' := Next(c, ev);
      && Quiet(c', e, i)
      && c'.nodes[e.leader].log == c.nodes[e.leader].log
      && (|| RoundsFor(c', e, i) < RoundsFor(c, e, i)
          || (RoundsFor(c', e, i) == RoundsFor(c, e, i)
              && (Turn(c', e, i) < Turn(c, e, i)
                  || (Turn(c', e, i) == Turn(c, e, i) && Unread(c', e, i) < Unread(c, e, i)))))
  {
    RoundsMeaning(c, e, i);
    OneInFlight(c, e, i);
    var append := Appends(c.net[(e.leader, i)]) != [];
    ev := if append then Deliver(e.leader, i, 0) else Deliver(i, e.leader, 0);
    hide Active, Next, RoundsFor, Rounds, ClusterOk, LinkInv, Appends, Acks;
    if append {
      ReadDown(c, e, i);
    } else {
      ReadUp(c, e, i);
      if !c.net[(i, e.leader)][0].Acknowledge? {
        AfterLightUp(c, e, i);
      }
    }
  }

  /** When the leader reads something other than the acknowledgement, that is still on its way. */
  lemma AfterLightUp(c: Cluster, e: Epoch, i: nat)
    requires Quiet(c, e, i) && InFlight(c, i, e.leader, 0) && !c.net[(i, e.leader)][0].Acknowledge?
    requires Acks(c.net[(i, e.leader)]) != []
    ensures Turn(Next(c, Deliver(i, e.leader, 0)), e, i) == 0
  {
    var c' := Next(c, Deliver(i, e.leader, 0));
    ReadUp(c, e, i);
    RoundsMeaning(c', e, i);
    assert Acks(c'.net[(i, e.leader)]) == Acks(c.net[(i, e.leader)]);
    assert LinkInv(e, LeadOf(c', e), ViewOf(c', e, i), LinkOf(c', e, i));
  }

  lemma {:induction false} RepairRun(c: Cluster, e: Epoch, i: nat) returns (evs: seq<Event>)
    requires Quiet(c, e, i)
    ensures EpochRun(c, e, evs) && forall k :: 0 <= k < |evs| ==> Between(e, i, evs[k])
    ensures var c' := Exec(c, evs);
      && Active(c', e)
      && c'.nodes[e.leader].log == c.nodes[e.leader].log
      && RoundsFor(c', e, i) == 0
    decreases RoundsFor(c, e, i), Turn(c, e, i), Unread(c, e, i)
  {
    if RoundsFor(c, e, i) == 0 {
      evs := [];
    } else {
      var ev := OneRead(c, e, i);
      var rest := RepairRun(Next(c, ev), e, i);
      evs := [ev] + rest;
      ExecFirst(c, ev, rest);
      RunFirst(c, e, ev, rest);
    }
  }

  /** From every state of an epoch, however far the follower's log has diverged, reading the channels between it and
      the leader leads to equal logs, after exactly as many acknowledgements as rounds were left. */
  lemma RepairFinishes(c: Cluster, e: Epoch, i: nat) returns (evs: seq<Event>)
    requires Quiet(c, e, i)
    ensures EpochRun(c, e, evs) && forall k :: 0 <= k < |evs| ==> Between(e, i, evs[k])
    ensures var c' := Exec(c, evs);
      && Active(c', e)
      && c'.nodes[e.leader].log == c.nodes[e.leader].log == c'.nodes[i].log
      && AcksRead(c, e, evs, i) == RoundsFor(c, e, i) <= 2 * (|c.nodes[e.leader].log| - 1)
  {
    evs := RepairRun(c, e, i);
    RepairConverges(c, e, evs, i);
  }
}
