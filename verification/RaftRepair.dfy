/** Log repair in an epoch: how many acknowledgements it takes until a follower's
    log equals the leader's, counted exactly. */
module RaftRepair {
  import opened RaftProtocol
  import opened RaftSpec
  import opened RaftCluster
  import opened RaftEpoch

  /** The acknowledgements still to be read when the cursor is at k: the leader backs up to an entry whose
      predecessor the follower holds, then advances to the end of its log. */
  function Rounds(l: seq<Entry>, f: seq<Entry>, k: nat): nat
    requires 1 <= k < |l|
  {
    if k == 1 || VerifyEntry(f, k - 1, l[k - 1].term) then |l| - k else 1 + Rounds(l, f, k - 1)
  }

  /** With p the highest index below k at which the follower verifies, the leader backs up k - 1 - p times. */
  lemma {:induction false} RoundsExact(l: seq<Entry>, f: seq<Entry>, k: nat, p: nat)
    requires p < k < |l| && VerifyEntry(f, p, l[p].term)
    requires forall q :: p < q < k ==> !VerifyEntry(f, q, l[q].term)
    ensures Rounds(l, f, k) == (k - 1 - p) + (|l| - 1 - p)
  {
    if k - 1 != p {
      RoundsExact(l, f, k - 1, p);
    }
  }

  lemma {:induction false} RoundsBound(l: seq<Entry>, f: seq<Entry>, k: nat)
    requires 1 <= k < |l|
    ensures 1 <= Rounds(l, f, k) <= (k - 1) + (|l| - 1)
  {
    if k != 1 && !VerifyEntry(f, k - 1, l[k - 1].term) {
      RoundsBound(l, f, k - 1);
    }
  }

  function RoundsLeft(l: seq<Entry>, next: Option<nat>, f: seq<Entry>): nat
    requires next.Some? ==> 1 <= next.value < |l|
  {
    match next
    case None => 0
    case Some(k) => Rounds(l, f, k)
  }

  /** The rounds left for follower i. */
  function RoundsFor(c: Cluster, e: Epoch, i: nat): nat
    requires ClusterOk(c) && e.leader < |c.nodes| && i < |c.nodes| && c.nodes[e.leader].role == Leader
  {
    RoundsLeft(c.nodes[e.leader].log, c.nodes[e.leader].nextIndex[i], c.nodes[i].log)
  }

  /** The leader reads an acknowledgement from follower i. */
  predicate AckRead(c: Cluster, e: Epoch, ev: Event, i: nat)
    requires ClusterOk(c)
  {
    ev == Deliver(i, e.leader, 0) && InFlight(c, i, e.leader, 0) && c.net[(i, e.leader)][0].Acknowledge?
  }

  function AcksRead(c: Cluster, e: Epoch, evs: seq<Event>, i: nat): nat
    requires ClusterOk(c)
  {
    if evs == [] then 0
    else
      var before := evs[..|evs| - 1];
      AcksRead(c, e, before, i) + (if AckRead(Exec(c, before), e, evs[|evs| - 1], i) then 1 else 0)
  }

  // ---- one link ----

  lemma VerifiesPrefix(f: seq<Entry>, l: seq<Entry>, k: nat)
    requires 1 <= k < |l| && (f == l[..k] || f == l[..k + 1])
    ensures VerifyEntry(f, k - 1, l[k - 1].term)
  {
  }

  /** Reading an append does not change the rounds left. */
  lemma AppendKeepsRounds(e: Epoch, lead: Lead, v: View, f: Link, s: Node)
    requires LinkInv(e, lead, v, f) && f.down != [] && f.down[0].AppendEntries?
    requires s.log == f.log && s.term <= e.term
    ensures v.next.Some?
    ensures RoundsLeft(lead.log, v.next, FollowerOnAppend(s, f.down[0]).node.log)
         == RoundsLeft(lead.log, v.next, f.log)
  {
    assert Appends(f.down) == [f.down[0]] + Appends(f.down[1..]);
    var k := v.next.value;
    var l := lead.log;
    assert IsAppendFor(f.down[0], e, l, k);
    if VerifyEntry(f.log, k - 1, l[k - 1].term) {
      assert f.log[..k] == l[..k];
      var f' := FollowerOnAppend(s, f.down[0]).node.log;
      assert f' == l[..k + 1];
      VerifiesPrefix(f', l, k);
    }
  }

  /** Reading an acknowledgement leaves one round less. */
  lemma AckEndsRound(e: Epoch, s: Node, i: nat, f: Link, success: bool)
    requires LeaderLinkOk(e, s, i, f)
    requires f.up != [] && f.up[0].Acknowledge? && f.up[0].success == success
    ensures s.nextIndex[i].Some?
    ensures var s' := AdvanceOnAck(s, i, success).node;
      && s'.log == s.log
      && (s'.nextIndex[i].Some? ==> 1 <= s'.nextIndex[i].value < |s.log|)
      && RoundsLeft(s.log, s.nextIndex[i], f.log) == 1 + RoundsLeft(s.log, s'.nextIndex[i], f.log)
  {
    LinkAckHasCursor(e, LeadIn(s), ViewIn(s, i), f);
    var k := s.nextIndex[i].value;
    assert Acks(f.up) == [f.up[0]] + Acks(f.up[1..]);
    assert AwaitsAck(e, s.log, k, f);
    if success {
      VerifiesPrefix(f.log, s.log, k);
      if k + 1 < |s.log| {
        assert f.log[k] == s.log[k];
      }
    } else {
      var m := s.matchIndex[i];
      assert f.log[..m + 1] == s.log[..m + 1];
      forall q | 0 <= q <= m ensures f.log[q] == s.log[q] {
        assert f.log[q] == f.log[..m + 1][q];
      }
    }
  }

  // ---- one event ----

  lemma OthersUnaffected(s: Node, m: Message, i: nat)
    requires NodeOk(s) && s.role == Leader && m.sender < s.n && i < s.n
    requires m.Acknowledge? && m.sender != i
    ensures On(s, m).node.nextIndex[i] == s.nextIndex[i] && On(s, m).node.log == s.log
  {
  }

  lemma AckThenCommit(s: Node, j: nat, success: bool)
    requires NodeOk(s) && s.role == Leader && j < s.n && s.nextIndex[j].Some?
    ensures LeaderOnAck(s, j, success).node.nextIndex == AdvanceOnAck(s, j, success).node.nextIndex
    ensures LeaderOnAck(s, j, success).node.log == s.log
  {
  }

  /** What the leader's log and cursor for i become when it reads m. */
  lemma LeaderReadsRounds(e: Epoch, s: Node, i: nat, f: Link, src: nat, m: Message)
    requires LeaderLinkOk(e, s, i, f) && MessageOk(e, src, s.me, m) && m.sender == src < s.n
    requires src == i ==> f.up != [] && f.up[0] == m
    requires On(s, m).node.log == s.log && NodeOk(On(s, m).node) && On(s, m).node.role == Leader
    ensures RoundsLeft(s.log, s.nextIndex[i], f.log)
         == RoundsLeft(s.log, On(s, m).node.nextIndex[i], f.log) + (if src == i && m.Acknowledge? then 1 else 0)
  {
    if m.Acknowledge? {
      if src == i {
        AckEndsRound(e, s, i, f, m.success);
        AckThenCommit(s, i, m.success);
      } else {
        OthersUnaffected(s, m, i);
      }
    }
  }

  lemma FollowerReadsRounds(e: Epoch, lead: Lead, v: View, f: Link, s: Node, src: nat, m: Message)
    requires LinkInv(e, lead, v, f) && FollowerOk(e, s) && s.log == f.log && s.commitIndex == f.commit
    requires s.me != e.leader && MessageOk(e, src, s.me, m)
    requires src == e.leader ==> f.down != [] && f.down[0] == m
    requires v.next.Some? ==> 1 <= v.next.value < |lead.log|
    ensures RoundsLeft(lead.log, v.next, FollowerOn(s, m).node.log) == RoundsLeft(lead.log, v.next, f.log)
  {
    if m.AppendEntries? {
      AppendKeepsRounds(e, lead, v, f, s);
    }
  }

  /** One event of an epoch in which the leader appends nothing: the rounds of follower i go down by one when its
      acknowledgement is read and stay otherwise. */
  lemma RoundsStep(c: Cluster, e: Epoch, ev: Event, i: nat)
    requires Active(c, e) && Allowed(c, e, ev) && i < |c.nodes| && i != e.leader
    requires Active(Next(c, ev), e)
    requires Next(c, ev).nodes[e.leader].log == c.nodes[e.leader].log
    ensures RoundsFor(c, e, i) == RoundsFor(Next(c, ev), e, i) + (if AckRead(c, e, ev, i) then 1 else 0)
  {
    hide LinkInv, On, FollowerOn, Next, Rounds;
    if ev.Deliver? && InFlight(c, ev.src, ev.dst, 0) {
      MessageAt(c, e, ev.src, ev.dst);
      var m := c.net[(ev.src, ev.dst)][0];
      if ev.dst == e.leader {
        LeaderStepRounds(c, e, ev.src, i);
      } else {
        FollowerStepCommon(c, e, ev.src, ev.dst);
        FollowerStepLinks(c, Next(c, ev), e, ev.src, ev.dst, FollowerOn(c.nodes[ev.dst], m), i);
        if ev.dst == i {
          FollowerReadsRounds(e, LeadOf(c, e), ViewOf(c, e, i), LinkOf(c, e, i), c.nodes[i], ev.src, m);
        }
      }
    } else {
      LocalRounds(c, e, ev, i);
    }
  }

  lemma LeaderStepRounds(c: Cluster, e: Epoch, src: nat, i: nat)
    requires Active(c, e) && i < |c.nodes| && i != e.leader && InFlight(c, src, e.leader, 0)
    requires Active(Next(c, Deliver(src, e.leader, 0)), e)
    requires Next(c, Deliver(src, e.leader, 0)).nodes[e.leader].log == c.nodes[e.leader].log
    ensures var ev := Deliver(src, e.leader, 0);
      RoundsFor(c, e, i) == RoundsFor(Next(c, ev), e, i) + (if AckRead(c, e, ev, i) then 1 else 0)
  {
    hide LinkInv, On, Next, Rounds, MoveOf;
    MessageAt(c, e, src, e.leader);
    NextReads(c, src, e.leader, 0);
    LeaderReadsRounds(e, c.nodes[e.leader], i, LinkOf(c, e, i), src, c.net[(src, e.leader)][0]);
  }

  /** Without a new entry, a local event changes neither logs nor cursors. */
  lemma LocalRounds(c: Cluster, e: Epoch, ev: Event, i: nat)
    requires Active(c, e) && Allowed(c, e, ev) && i < |c.nodes| && i != e.leader
    requires ev.Deliver? ==> !InFlight(c, ev.src, ev.dst, 0)
    requires Next(c, ev).nodes[e.leader].log == c.nodes[e.leader].log
    ensures Next(c, ev).nodes[i].log == c.nodes[i].log
    ensures Next(c, ev).nodes[e.leader].nextIndex == c.nodes[e.leader].nextIndex
  {
    hide LinkInv;
    if ev.ResendTick? {
      ResendNothing(c, ev.node, ev.dst);
    }
  }

  // ---- a whole repair ----

  /** Repair converges: in an epoch during which the leader appends no new entry, the acknowledgements read from
      follower i and the rounds left for it always add up to the rounds at the start, at most twice the last log
      index minus one; when none are left the follower's log equals the leader's, and not before. */
  lemma {:induction false} RepairConverges(c: Cluster, e: Epoch, evs: seq<Event>, i: nat)
    requires Active(c, e) && EpochRun(c, e, evs) && i < |c.nodes| && i != e.leader
    requires Exec(c, evs).nodes[e.leader].log == c.nodes[e.leader].log
    ensures Active(Exec(c, evs), e)
    ensures var c' := Exec(c, evs);
      && AcksRead(c, e, evs, i) + RoundsFor(c', e, i) == RoundsFor(c, e, i)
      && RoundsFor(c, e, i) <= 2 * (|c.nodes[e.leader].log| - 1)
      && (c.nodes[e.leader].nextIndex[i] == Some(|c.nodes[e.leader].log| - 1) ==>
            RoundsFor(c, e, i) <= 2 * (|c.nodes[e.leader].log| - 1) - 1)
      && (RoundsFor(c', e, i) == 0 <==> c'.nodes[e.leader].nextIndex[i] == None)
      && (RoundsFor(c', e, i) == 0 ==> c'.nodes[i].log == c'.nodes[e.leader].log)
  {
    hide LinkInv, Next, On, EpochRun, Allowed, Forward;
    if evs != [] {
      var k := |evs| - 1;
      var mid := Exec(c, evs[..k]);
      assert evs[..k + 1] == evs;
      RunParts(c, e, evs, k);
      EpochKept(c, e, evs);
      EpochKept(c, e, evs[..k]);
      ExecStep(c, evs, k);
      hide Exec;
      EpochStep(mid, e, evs[k]);
      LogBetween(c, mid, Exec(c, evs), e);
      RepairConverges(c, e, evs[..k], i);
      RoundsStep(mid, e, evs[k], i);
    }
    RoundsMeaning(c, e, i);
    RoundsMeaning(Exec(c, evs), e, i);
  }

  lemma LogBetween(a: Cluster, b: Cluster, c: Cluster, e: Epoch)
    requires Forward(e, a, b) && |c.nodes| == |b.nodes|
    requires Forward(e, b, c) && c.nodes[e.leader].log == a.nodes[e.leader].log
    ensures b.nodes[e.leader].log == a.nodes[e.leader].log
  {
  }

  lemma RoundsMeaning(c: Cluster, e: Epoch, i: nat)
    requires Active(c, e) && i < |c.nodes| && i != e.leader
    ensures var l := c.nodes[e.leader];
      && RoundsFor(c, e, i) <= 2 * (|l.log| - 1)
      && (l.nextIndex[i] == Some(|l.log| - 1) ==> RoundsFor(c, e, i) <= 2 * (|l.log| - 1) - 1)
      && (RoundsFor(c, e, i) == 0 <==> l.nextIndex[i] == None)
      && (RoundsFor(c, e, i) == 0 ==> c.nodes[i].log == l.log)
  {
    var l := c.nodes[e.leader];
    assert LinkInv(e, LeadOf(c, e), ViewOf(c, e, i), LinkOf(c, e, i));
    if l.nextIndex[i].Some? {
      RoundsBound(l.log, c.nodes[i].log, l.nextIndex[i].value);
    }
  }
}
