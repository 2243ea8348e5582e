/** Resends in an epoch.  A resent append is acknowledged twice, and the leader
    takes each acknowledgement for one of the entry it waits for next. */
module RaftResend {
  import opened RaftProtocol
  import opened RaftSpec
  import opened RaftCluster
  import opened RaftEpoch
  import RaftBoot

  // ---- exactly when a resend does no harm ----

  lemma ResendMeans(c: Cluster, v: nat, dst: nat)
    requires ClusterOk(c) && SendsAgain(c, v, dst)
    ensures var c' := Next(c, ResendTick(v, dst));
      var again := CatchUp(c.nodes[v], dst);
      && c'.nodes == c.nodes
      && again.msg.AppendEntries? && again.receiver == Some(dst)
      && c'.net[(v, dst)] == c.net[(v, dst)] + [again.msg]
      && forall k :: k in c.net && k.0 != v ==> c'.net[k] == c.net[k]
  {
    var ev, again := ResendTick(v, dst), CatchUp(c.nodes[v], dst);
    NextActs(c, ev);
    RoutedOne(again, dst);
    hide Next, Routed;
    assert MoveOf(c, ev) == Act(c, v, Effect(c.nodes[v], [again]));
  }

  lemma OneMoreAppend(ch: seq<Message>, m: Message)
    requires m.AppendEntries?
    ensures |Appends(ch + [m])| == |Appends(ch)| + 1
  {
    AppendsConcat(ch, [m]);
    assert [m][1..] == [];
    assert Appends([m]) == [m];
  }

  lemma OnlyTheLeaderResends(c: Cluster, e: Epoch, v: nat, dst: nat)
    requires EpochInv(c, e) && SendsAgain(c, v, dst)
    ensures Active(c, e) && v == e.leader != dst
  {
  }

  lemma EpochHonest(c: Cluster, e: Epoch, i: nat)
    requires EpochInv(c, e) && c.nodes[e.leader].role == Leader && i < |c.nodes| && i != e.leader
    ensures Honest(c, e, i)
  {
    hide *;
    EpochBasics(c, e);
    LeaderIsActive(c, e);
    ActiveIsHonest(c, e, i);
  }

  /** A resend timer keeps the invariant of the epoch exactly when it finds nothing to resend.  Otherwise that
      follower has two messages in flight for one entry, and its cursor is not honest any more. */
  lemma ResendKeepsIff(c: Cluster, e: Epoch, v: nat, dst: nat)
    requires EpochInv(c, e)
    ensures ClusterOk(c) && e.leader < |c.nodes|
    ensures var c' := Next(c, ResendTick(v, dst));
      && (EpochInv(c', e) <==> !SendsAgain(c, v, dst))
      && (SendsAgain(c, v, dst) ==> c'.nodes == c.nodes && v == e.leader != dst && !Honest(c', e, dst))
  {
    EpochBasics(c, e);
    hide EpochInv, Next, Exec;
    if SendsAgain(c, v, dst) {
      var c' := Next(c, ResendTick(v, dst));
      OnlyTheLeaderResends(c, e, v, dst);
      ResendMeans(c, v, dst);
      assert c'.nodes[e.leader].role == Leader;
      EpochHonest(c, e, dst);
      OneMoreAppend(c.net[(v, dst)], CatchUp(c.nodes[v], dst).msg);
      assert !Honest(c', e, dst);
      if EpochInv(c', e) {
        EpochHonest(c', e, dst);
      }
    } else {
      ResendNothing(c, v, dst);
    }
  }

  /** The events of a run are those of an epoch, or any resend timers. */
  ghost predicate ResendRun(c: Cluster, e: Epoch, evs: seq<Event>)
    requires ClusterOk(c)
  {
    forall k :: 0 <= k < |evs| ==> Allowed(Exec(c, evs[..k]), e, evs[k]) || evs[k].ResendTick?
  }

  lemma NotAllowedResends(c: Cluster, e: Epoch, ev: Event)
    requires ClusterOk(c) && ev.ResendTick? && !Allowed(c, e, ev)
    ensures SendsAgain(c, ev.node, ev.dst)
  {
  }

  /** Over runs: all states keep the invariant exactly when no resend timer finds something to resend. */
  lemma EpochRunIff(c: Cluster, e: Epoch, evs: seq<Event>)
    requires EpochInv(c, e) && ResendRun(c, e, evs)
    ensures EpochRun(c, e, evs) <==> forall k :: 0 <= k <= |evs| ==> EpochInv(Exec(c, evs[..k]), e)
  {
    EpochBasics(c, e);
    hide EpochInv, Exec, Allowed, Next;
    if EpochRun(c, e, evs) {
      forall k | 0 <= k <= |evs| ensures EpochInv(Exec(c, evs[..k]), e) {
        if k < |evs| {
          RunParts(c, e, evs, k);
        } else {
          assert evs[..k] == evs;
        }
        EpochKept(c, e, evs[..k]);
      }
    } else {
      var k :| 0 <= k < |evs| && !Allowed(Exec(c, evs[..k]), e, evs[k]);
      var mid := Exec(c, evs[..k]);
      NotAllowedResends(mid, e, evs[k]);
      ExecStep(c, evs, k);
      if EpochInv(mid, e) {
        ResendKeepsIff(mid, e, evs[k].node, evs[k].dst);
        assert !EpochInv(Exec(c, evs[..k + 1]), e);
      }
    }
  }
}
