/** A stable epoch: one elected node leads a term over in-order channels that
    lose nothing, no timer makes anybody stand, and resend timers find nothing
    to resend.  Followers may start with logs that diverge above the common
    commit index. */
module RaftEpoch {
  import opened RaftProtocol
  import opened RaftSpec
  import opened RaftCluster

  /** `base` is the commit index that all nodes share at the start. */
  datatype Epoch = Epoch(leader: nat, term: nat, base: nat)

  // ---- logs ----

  ghost predicate FreeOfTerm(log: seq<Entry>, term: nat)
  {
    forall k :: 0 <= k < |log| ==> log[k].term != term
  }

  /** The same term at an index implies the same entries up to it. */
  ghost predicate Matching(f: seq<Entry>, l: seq<Entry>)
  {
    forall k :: 0 <= k < |f| && k < |l| && f[k].term == l[k].term ==> f[..k + 1] == l[..k + 1]
  }

  /** A follower log from before the epoch. */
  ghost predicate Untouched(e: Epoch, f: seq<Entry>, l: seq<Entry>)
  {
    FreeOfTerm(f, e.term) && Matching(f, l)
  }

  // ---- channels ----

  function Appends(ch: seq<Message>): seq<Message>
  {
    if ch == [] then []
    else (if ch[0].AppendEntries? then [ch[0]] else []) + Appends(ch[1..])
  }

  function Acks(ch: seq<Message>): seq<Message>
  {
    if ch == [] then []
    else (if ch[0].Acknowledge? then [ch[0]] else []) + Acks(ch[1..])
  }

  lemma {:induction false} AppendsConcat(a: seq<Message>, b: seq<Message>)
    ensures Appends(a + b) == Appends(a) + Appends(b)
  {
    if a == [] {
      assert a + b == b;
    } else {
      var rest := a[1..] + b;
      assert (a + b)[1..] == rest && (a + b)[0] == a[0];
      AppendsConcat(a[1..], b);
    }
  }

  lemma {:induction false} AcksConcat(a: seq<Message>, b: seq<Message>)
    ensures Acks(a + b) == Acks(a) + Acks(b)
  {
    if a == [] {
      assert a + b == b;
    } else {
      var rest := a[1..] + b;
      assert (a + b)[1..] == rest && (a + b)[0] == a[0];
      AcksConcat(a[1..], b);
    }
  }

  /** Reading channel `ch` in order takes a commit index from `low` to `high` without going back, and no append in
      it carries a leader commit that its reader has not reached by then. */
  predicate Trail(ch: seq<Message>, low: nat, high: nat)
  {
    if ch == [] then low == high
    else
      match ch[0]
      case Committal(_, _, _, index, _, _) => low <= index && Trail(ch[1..], index, high)
      case AppendEntries(_, _, _, _, _, _, leaderCommit) => leaderCommit <= low && Trail(ch[1..], low, high)
      case _ => Trail(ch[1..], low, high)
  }

  lemma {:induction false} TrailConcat(a: seq<Message>, b: seq<Message>, low: nat, mid: nat, high: nat)
    requires Trail(a, low, mid) && Trail(b, mid, high)
    ensures Trail(a + b, low, high)
  {
    if a == [] {
      assert a + b == b;
    } else {
      assert (a + b)[1..] == a[1..] + b;
      TrailConcat(a[1..], b, if a[0].Committal? then a[0].prevLogIndex else low, mid, high);
    }
  }

  lemma {:induction false} TrailRises(ch: seq<Message>, low: nat, high: nat)
    requires Trail(ch, low, high)
    ensures low <= high
  {
    if ch != [] {
      TrailRises(ch[1..], if ch[0].Committal? then ch[0].prevLogIndex else low, high);
    }
  }

  // ---- one leader and one follower ----

  ghost predicate IsAppendFor(a: Message, e: Epoch, l: seq<Entry>, k: nat)
    requires 1 <= k < |l|
  {
    && a.AppendEntries?
    && a.term == e.term
    && a.leaderId == e.leader
    && a.prevLogIndex == k - 1
    && a.prevLogTerm == l[k - 1].term
    && a.entry == l[k]
  }

  /** What the leader believes about a follower: its match index, its cursor. */
  datatype View = View(match_: nat, next: Option<nat>)

  /** The leader's log and commit index. */
  datatype Lead = Lead(log: seq<Entry>, commit: nat)

  /** A follower's log and commit index, and the two channels that join it to the leader. */
  datatype Link = Link(log: seq<Entry>, commit: nat, down: seq<Message>, up: seq<Message>)

  /** The append for the cursor's entry is on its way. */
  ghost predicate AwaitsAppend(e: Epoch, l: seq<Entry>, k: nat, f: Link)
    requires 1 <= k < |l|
  {
    && |Appends(f.down)| == 1
    && IsAppendFor(Appends(f.down)[0], e, l, k)
    && Acks(f.up) == []
    && (f.log == l[..k] || Untouched(e, f.log, l))
  }

  /** The acknowledgement of that append is on its way, and tells the truth about the follower's log. */
  ghost predicate AwaitsAck(e: Epoch, l: seq<Entry>, k: nat, f: Link)
    requires 1 <= k < |l|
  {
    && Appends(f.down) == []
    && |Acks(f.up)| == 1
    && Acks(f.up)[0].Acknowledge?
    && (if Acks(f.up)[0].success then f.log == l[..k + 1]
        else Untouched(e, f.log, l) && !VerifyEntry(f.log, k - 1, l[k - 1].term))
  }

  /** The cursor is honest: "up to date" means equal logs and an idle link; otherwise exactly one append, or
      exactly one acknowledgement, for the cursor's entry is on its way. */
  ghost predicate HonestCursor(e: Epoch, l: seq<Entry>, v: View, f: Link)
  {
    match v.next
    case None => f.log == l && Appends(f.down) == [] && Acks(f.up) == []
    case Some(k) => v.match_ < k < |l| && (AwaitsAppend(e, l, k, f) || AwaitsAck(e, l, k, f))
  }

  /** The follower's log agrees with the leader's through the match index, which no commit index exceeds. */
  ghost predicate Replicated(e: Epoch, lead: Lead, v: View, f: Link)
  {
    && e.base <= lead.commit <= v.match_ < |lead.log|
    && v.match_ < |f.log|
    && f.log[..v.match_ + 1] == lead.log[..v.match_ + 1]
  }

  ghost predicate LinkInv(e: Epoch, lead: Lead, v: View, f: Link)
  {
    && Replicated(e, lead, v, f)
    && Trail(f.down, f.commit, lead.commit)
    && HonestCursor(e, lead.log, v, f)
  }

  // ---- how a link changes ----

  /** Messages that carry neither log entries nor acknowledgements nor commits. */
  predicate Light(m: Message)
  {
    !m.AppendEntries? && !m.Acknowledge? && !m.Committal?
  }

  ghost predicate AllLight(ms: seq<Message>)
  {
    forall i :: 0 <= i < |ms| ==> Light(ms[i])
  }

  lemma {:induction false} LightChannel(ms: seq<Message>, low: nat)
    requires AllLight(ms)
    ensures Appends(ms) == [] && Acks(ms) == [] && Trail(ms, low, low)
  {
    if ms != [] {
      LightChannel(ms[1..], low);
    }
  }

  /** Light messages may be added to either channel. */
  lemma LinkAddsLight(e: Epoch, lead: Lead, v: View, f: Link, down: seq<Message>, up: seq<Message>)
    requires LinkInv(e, lead, v, f) && AllLight(down) && AllLight(up)
    ensures LinkInv(e, lead, v, f.(down := f.down + down, up := f.up + up))
  {
    LightChannel(down, lead.commit);
    LightChannel(up, 0);
    TrailConcat(f.down, down, f.commit, lead.commit, lead.commit);
    AppendsConcat(f.down, down);
    AcksConcat(f.up, up);
  }

  lemma LinkDropsLightDown(e: Epoch, lead: Lead, v: View, f: Link)
    requires LinkInv(e, lead, v, f) && f.down != [] && Light(f.down[0])
    ensures LinkInv(e, lead, v, f.(down := f.down[1..]))
  {
  }

  lemma LinkDropsLightUp(e: Epoch, lead: Lead, v: View, f: Link)
    requires LinkInv(e, lead, v, f) && f.up != [] && !f.up[0].Acknowledge?
    ensures LinkInv(e, lead, v, f.(up := f.up[1..]))
  {
  }

  /** The follower reads a committal: its commit index moves up to an index it holds. */
  lemma LinkCommittal(e: Epoch, lead: Lead, v: View, f: Link)
    requires LinkInv(e, lead, v, f) && f.down != [] && f.down[0].Committal?
    ensures LinkInv(e, lead, v, f.(down := f.down[1..], commit := f.down[0].prevLogIndex))
    ensures f.commit <= f.down[0].prevLogIndex
  {
  }

  /** An append at the head of the downward channel is the outstanding one. */
  lemma AppendAtHead(e: Epoch, lead: Lead, v: View, f: Link)
    requires LinkInv(e, lead, v, f) && f.down != [] && f.down[0].AppendEntries?
    ensures v.next.Some? && 1 <= v.next.value < |lead.log|
    ensures var a, l, k := f.down[0], lead.log, v.next.value;
      && v.match_ < k
      && IsAppendFor(a, e, l, k) && a.leaderCommit <= f.commit
      && Appends(f.down[1..]) == [] && Acks(f.up) == []
      && (f.log == l[..k] || Untouched(e, f.log, l))
      && Trail(f.down[1..], f.commit, lead.commit)
  {
    assert Appends(f.down) == [f.down[0]] + Appends(f.down[1..]);
    assert v.next.Some?;
    assert AwaitsAppend(e, lead.log, v.next.value, f);
    hide AwaitsAck, Untouched;
  }

  /** What the follower's log becomes; the append carries no commit that it has not reached. */
  lemma AppendMeans(s: Node, a: Message)
    requires a.AppendEntries? && s.term <= a.term && a.leaderCommit <= s.commitIndex
    ensures var s' := FollowerOnAppend(s, a).node;
      && s'.commitIndex == s.commitIndex
      && s'.log == if VerifyEntry(s.log, a.prevLogIndex, a.prevLogTerm)
                   then s.log[..a.prevLogIndex + 1] + [a.entry] else s.log
  {
  }

  /** The log after the outstanding append, and that the answer to it is true. */
  lemma AppendedLog(e: Epoch, l: seq<Entry>, k: nat, log: seq<Entry>, m: nat)
    requires m < k && 1 <= k < |l| && (log == l[..k] || Untouched(e, log, l))
    requires m < |log| && log[..m + 1] == l[..m + 1]
    ensures VerifyEntry(log, k - 1, l[k - 1].term) ==>
      log[..k] + [l[k]] == l[..k + 1] && l[..k + 1][..m + 1] == l[..m + 1]
    ensures !VerifyEntry(log, k - 1, l[k - 1].term) ==> Untouched(e, log, l)
  {
    if VerifyEntry(log, k - 1, l[k - 1].term) {
      assert log[..k] == l[..k];
      assert l[..k] + [l[k]] == l[..k + 1];
    } else {
      assert log != l[..k];
    }
  }

  lemma AckJoins(f: Link, ack: seq<Message>)
    requires Acks(f.up) == [] && |ack| == 1 && ack[0].Acknowledge?
    ensures Acks(f.up + ack) == ack
  {
    AcksConcat(f.up, ack);
    assert ack[1..] == [];
    assert Acks(ack) == ack;
  }

  lemma Replicates(e: Epoch, lead: Lead, v: View, f: Link)
    requires LinkInv(e, lead, v, f)
    ensures Replicated(e, lead, v, f)
  {
  }

  /** The follower reads the outstanding append and acknowledges it; its commit index stays. */
  lemma LinkAppend(e: Epoch, lead: Lead, v: View, f: Link, s: Node, ack: seq<Message>)
    requires LinkInv(e, lead, v, f) && f.down != [] && f.down[0].AppendEntries?
    requires s.log == f.log && s.commitIndex == f.commit && s.term <= e.term
    requires |ack| == 1 && ack[0].Acknowledge?
    requires ack[0].success
         <==> VerifyEntry(f.log, f.down[0].prevLogIndex, f.down[0].prevLogTerm)
    ensures var s' := FollowerOnAppend(s, f.down[0]).node;
      && s'.commitIndex == f.commit
      && LinkInv(e, lead, v, f.(log := s'.log, down := f.down[1..], up := f.up + ack))
  {
    AppendAtHead(e, lead, v, f);
    Replicates(e, lead, v, f);
    AckJoins(f, ack);
    var k := v.next.value;
    AppendMeans(s, f.down[0]);
    AppendedLog(e, lead.log, k, f.log, v.match_);
    var log' := FollowerOnAppend(s, f.down[0]).node.log;
    hide Appends, Acks, Trail, Untouched, FollowerOnAppend, VerifyEntry;
    var f' := f.(log := log', down := f.down[1..], up := f.up + ack);
    assert AwaitsAck(e, lead.log, k, f');
    assert Replicated(e, lead, v, f');
  }

  /** Nothing, or one append that carries the leader's commit index, joins the downward channel. */
  lemma DownGrows(f: Link, commit: nat, next: seq<Message>)
    requires Trail(f.down, f.commit, commit)
    requires |next| <= 1 && (next != [] ==> next[0].AppendEntries? && next[0].leaderCommit == commit)
    ensures Appends(f.down + next) == Appends(f.down) + next
    ensures Trail(f.down + next, f.commit, commit)
  {
    AppendsConcat(f.down, next);
    if next != [] {
      assert next[1..] == [];
      assert Appends(next) == next;
      assert Trail(next, commit, commit);
      TrailConcat(f.down, next, f.commit, commit, commit);
    } else {
      assert f.down + next == f.down;
    }
  }

  /** The leader reads an acknowledgement from this follower. */
  lemma LinkAck(e: Epoch, lead: Lead, v: View, f: Link, success: bool, k': nat, next: seq<Message>)
    requires LinkInv(e, lead, v, f) && f.up != [] && f.up[0].Acknowledge? && f.up[0].success == success
    requires v.next.Some? ==>
      && k' == (if success then v.next.value + 1 else if v.next.value != 1 then v.next.value - 1 else 1)
      && (k' >= |lead.log| ==> next == [])
      && (1 <= k' < |lead.log| ==>
            |next| == 1 && IsAppendFor(next[0], e, lead.log, k') && next[0].leaderCommit == lead.commit)
    ensures v.next.Some?
    ensures LinkInv(e, lead,
                    View(if success then v.next.value else v.match_, if k' < |lead.log| then Some(k') else None),
                    f.(up := f.up[1..], down := f.down + next))
  {
    var l := lead.log;
    assert Acks(f.up) == [f.up[0]] + Acks(f.up[1..]);
    var k := v.next.value;
    assert AwaitsAck(e, l, k, f);
    DownGrows(f, lead.commit, next);
    hide Trail, Appends, Acks;
    if !success {
      assert f.log[..v.match_ + 1] == l[..v.match_ + 1];
      assert k - 1 > v.match_;
    } else {
      assert f.log[..k + 1] == l[..k + 1];
      assert l[..|l|] == l;
    }
  }

  /** The leader appends an entry of its term; followers that were up to date are sent it. */
  lemma LinkBroadcast(e: Epoch, lead: Lead, v: View, f: Link, entry: Entry, sent: seq<Message>)
    requires LinkInv(e, lead, v, f) && entry.term == e.term
    requires v.next.None? ==>
      && |sent| == 1 && IsAppendFor(sent[0], e, lead.log + [entry], |lead.log|)
      && sent[0].leaderCommit == lead.commit
    requires v.next.Some? ==> sent == []
    ensures LinkInv(e, lead.(log := lead.log + [entry]),
                    v.(next := if v.next.None? then Some(|lead.log|) else v.next),
                    f.(down := f.down + sent))
  {
    var l := lead.log;
    var l' := l + [entry];
    AppendsConcat(f.down, sent);
    assert l'[..|l|] == l;
    assert l'[..v.match_ + 1] == l[..v.match_ + 1];
    if v.next.None? {
      assert sent[1..] == [];
      assert Trail(sent, lead.commit, lead.commit);
      TrailConcat(f.down, sent, f.commit, lead.commit, lead.commit);
    } else {
      assert f.down + sent == f.down;
      var k := v.next.value;
      assert l'[..k] == l[..k] && l'[..k + 1] == l[..k + 1];
      UntouchedGrows(e, f.log, l, entry);
    }
  }

  lemma UntouchedGrows(e: Epoch, f: seq<Entry>, l: seq<Entry>, entry: Entry)
    requires entry.term == e.term
    ensures Untouched(e, f, l) ==> Untouched(e, f, l + [entry])
  {
    if Untouched(e, f, l) {
      forall k | 0 <= k < |f| && k < |l + [entry]| && f[k].term == (l + [entry])[k].term
        ensures f[..k + 1] == (l + [entry])[..k + 1]
      {
        if k < |l| {
          assert f[..k + 1] == l[..k + 1];
        }
      }
    }
  }

  /** The leader commits an index that this follower matches, and tells it. */
  lemma LinkCommit(e: Epoch, lead: Lead, v: View, f: Link, index: nat, sent: seq<Message>)
    requires LinkInv(e, lead, v, f) && lead.commit < index <= v.match_
    requires |sent| == 1 && sent[0].Committal? && sent[0].prevLogIndex == index
    ensures LinkInv(e, lead.(commit := index), v, f.(down := f.down + sent))
  {
    AppendsConcat(f.down, sent);
    assert sent[1..] == [];
    assert Trail(sent, lead.commit, index);
    TrailConcat(f.down, sent, f.commit, lead.commit, index);
  }

  /** The link when the leader takes office and broadcasts its first entry. */
  lemma LinkStart(e: Epoch, l: seq<Entry>, f: Link, entry: Entry, sent: seq<Message>)
    requires e.base < |l| && e.base < |f.log| && f.log[..e.base + 1] == l[..e.base + 1] && f.commit == e.base
    requires Untouched(e, f.log, l) && entry.term == e.term
    requires AllLight(f.down) && AllLight(f.up)
    requires |sent| == 1 && IsAppendFor(sent[0], e, l + [entry], |l|) && sent[0].leaderCommit == e.base
    ensures LinkInv(e, Lead(l + [entry], e.base), View(e.base, Some(|l|)), f.(down := f.down + sent))
  {
    LightChannel(f.down, e.base);
    LightChannel(f.up, 0);
    AppendsConcat(f.down, sent);
    assert sent[1..] == [];
    assert Trail(sent, e.base, e.base);
    TrailConcat(f.down, sent, e.base, e.base, e.base);
    UntouchedGrows(e, f.log, l, entry);
    assert (l + [entry])[..e.base + 1] == l[..e.base + 1];
  }

  // ---- the cluster in an epoch ----

  /** What may be in the channel from src to dst. */
  predicate MessageOk(e: Epoch, src: nat, dst: nat, m: Message)
  {
    match m
    case RequestVote(term, _, _, _, _) => term <= e.term
    case Vote(_, _, _, _, _, _) => true
    case Heartbeat(term, _, leaderId, _) => term <= e.term && leaderId == e.leader
    case AppendEntries(term, _, leaderId, _, _, _, _) => src == e.leader && term == e.term && leaderId == e.leader
    case Committal(_, _, _, _, _, _) => src == e.leader
    case Acknowledge(_, _, _, _, _, _, _) => src != e.leader && dst == e.leader
    case ClientRequest(_, _, _, _, _, entry, _) => src != e.leader && dst == e.leader && entry.term == e.term
  }

  /** What node src may send: to one node, or a heartbeat or a vote request to everybody. */
  predicate EnvelopeOk(e: Epoch, src: nat, x: Envelope)
  {
    match x.receiver
    case Some(dst) => MessageOk(e, src, dst, x.msg)
    case None => (x.msg.Heartbeat? || x.msg.RequestVote?) && MessageOk(e, src, src, x.msg)
  }

  ghost predicate EnvelopesOk(e: Epoch, src: nat, sent: seq<Envelope>)
  {
    forall x :: x in sent ==> EnvelopeOk(e, src, x)
  }

  ghost predicate QueueOk(e: Epoch, queue: seq<Entry>)
  {
    forall k :: 0 <= k < |queue| ==> queue[k].term == e.term
  }

  ghost predicate FollowerOk(e: Epoch, s: Node)
  {
    s.role == Follower && s.term <= e.term && QueueOk(e, s.queue)
  }

  ghost predicate MessagesOk(e: Epoch, net: Net)
  {
    forall src, dst, p :: (src, dst) in net && 0 <= p < |net[(src, dst)]| ==> MessageOk(e, src, dst, net[(src, dst)][p])
  }

  ghost predicate Common(c: Cluster, e: Epoch)
  {
    && ClusterOk(c)
    && e.leader < |c.nodes|
    && c.nodes[e.leader].term == e.term
    && QueueOk(e, c.nodes[e.leader].queue)
    && (forall i :: 0 <= i < |c.nodes| && i != e.leader ==> FollowerOk(e, c.nodes[i]))
    && MessagesOk(e, c.net)
  }

  function LeadOf(c: Cluster, e: Epoch): Lead
    requires Common(c, e)
  {
    Lead(c.nodes[e.leader].log, c.nodes[e.leader].commitIndex)
  }

  function ViewOf(c: Cluster, e: Epoch, i: nat): View
    requires Common(c, e) && i < |c.nodes|
  {
    View(c.nodes[e.leader].matchIndex[i], c.nodes[e.leader].nextIndex[i])
  }

  function LinkOf(c: Cluster, e: Epoch, i: nat): Link
    requires Common(c, e) && i < |c.nodes|
  {
    Link(c.nodes[i].log, c.nodes[i].commitIndex, c.net[(e.leader, i)], c.net[(i, e.leader)])
  }

  /** The epoch before the elected node starts to lead. */
  ghost predicate Start(c: Cluster, e: Epoch)
  {
    && Common(c, e)
    && c.nodes[e.leader].role == Elected
    && c.nodes[e.leader].commitIndex == e.base < |c.nodes[e.leader].log|
    && (forall i :: 0 <= i < |c.nodes| && i != e.leader ==> StartLink(c.nodes[e.leader].log, e, LinkOf(c, e, i)))
  }

  ghost predicate StartLink(l: seq<Entry>, e: Epoch, f: Link)
  {
    && e.base < |l|
    && f.commit == e.base < |f.log|
    && f.log[..e.base + 1] == l[..e.base + 1]
    && Untouched(e, f.log, l)
    && AllLight(f.down)
    && AllLight(f.up)
  }

  ghost predicate Active(c: Cluster, e: Epoch)
  {
    && Common(c, e)
    && c.nodes[e.leader].role == Leader
    && e.base <= c.nodes[e.leader].commitIndex < |c.nodes[e.leader].log|
    && (forall i :: 0 <= i < |c.nodes| && i != e.leader ==> LinkInv(e, LeadOf(c, e), ViewOf(c, e, i), LinkOf(c, e, i)))
  }

  ghost predicate EpochInv(c: Cluster, e: Epoch)
  {
    Start(c, e) || Active(c, e)
  }

  /** The resend timer of leader v finds that node dst has not caught up. */
  predicate SendsAgain(c: Cluster, v: nat, dst: nat)
    requires NodesOk(c.nodes)
  {
    v < |c.nodes| && dst < |c.nodes| && c.nodes[v].role == Leader && c.nodes[v].nextIndex[dst].Some?
  }

  /** The events of a stable epoch: in-order delivery without loss, no timeout or pause, resend timers that find
      nothing to resend, and client requests submitted at nodes that know the term. */
  predicate Allowed(c: Cluster, e: Epoch, ev: Event)
    requires NodesOk(c.nodes)
  {
    match ev
    case Deliver(_, _, pos) => pos == 0
    case Enter(_) => true
    case HeartbeatTick(_) => true
    case ServeClient(_) => true
    case ResendTick(v, dst) => !SendsAgain(c, v, dst)
    case SubmitRequest(v, _, _) => v < |c.nodes| && c.nodes[v].term == e.term
    case _ => false
  }

  // ---- the handlers send only what the epoch allows ----

  lemma FollowerCommon(e: Epoch, s: Node, src: nat, m: Message)
    requires FollowerOk(e, s) && NodeOk(s) && s.me != e.leader && m.sender < s.n && MessageOk(e, src, s.me, m)
    ensures FollowerOk(e, On(s, m).node) && EnvelopesOk(e, s.me, On(s, m).sent)
  {
  }

  lemma MulticastOk(e: Epoch, to: seq<bool>, msg: Message)
    requires msg.AppendEntries? || msg.Committal?
    requires msg.AppendEntries? ==> msg.term == e.term && msg.leaderId == e.leader
    ensures EnvelopesOk(e, e.leader, Multicast(to, msg))
  {
    forall x | x in Multicast(to, msg) ensures EnvelopeOk(e, e.leader, x) {
      MulticastIn(to, msg, x);
    }
  }

  /** The leader of an epoch stays leader, keeps its term and its queue, and appends no foreign entry. */
  ghost predicate LeaderKept(e: Epoch, s: Node, eff: Effect)
  {
    eff.node.role == s.role && eff.node.term == s.term && EnvelopesOk(e, s.me, eff.sent)
  }

  lemma BroadcastKept(e: Epoch, s: Node, entry: Entry)
    requires Shape(s) && s.me == e.leader && s.term == e.term
    ensures LeaderKept(e, s, BroadcastAppend(s, entry)) && BroadcastAppend(s, entry).node.queue == s.queue
  {
    var prev := |s.log| - 1;
    MulticastOk(e, UpToDate(s.nextIndex), AppendMessage(s, prev, s.log[prev].term, entry));
  }

  lemma AdvanceKept(e: Epoch, s: Node, i: nat, success: bool)
    requires NodeOk(s) && s.role == Leader && i < s.n && s.me == e.leader && s.term == e.term
    requires s.nextIndex[i].Some?
    ensures EnvelopesOk(e, s.me, AdvanceOnAck(s, i, success).sent)
  {
  }

  lemma AckKept(e: Epoch, s: Node, i: nat, success: bool)
    requires NodeOk(s) && s.role == Leader && i < s.n && s.me == e.leader && s.term == e.term
    ensures LeaderKept(e, s, LeaderOnAck(s, i, success)) && LeaderOnAck(s, i, success).node.queue == s.queue
  {
    if s.nextIndex[i].Some? {
      var a := AdvanceOnAck(s, i, success);
      var committable := Minimum(a.node.matchIndex);
      assert committable <= a.node.matchIndex[s.me];
      var s1 := CommitEntry(a.node, committable, a.node.log[committable].term);
      MulticastOk(e, Everyone(s1.n), CommittalMessage(s1));
      AdvanceKept(e, s, i, success);
    }
  }

  lemma LeaderCommon(e: Epoch, s: Node, src: nat, m: Message)
    requires NodeOk(s) && s.role == Leader && s.me == e.leader && s.term == e.term
    requires m.sender < s.n && MessageOk(e, src, s.me, m)
    ensures LeaderKept(e, s, On(s, m)) && On(s, m).node.queue == s.queue
  {
    if m.Acknowledge? {
      AckKept(e, s, m.sender, m.success);
    } else if m.ClientRequest? {
      BroadcastKept(e, s, m.entry);
    }
  }

  lemma ApplyMessagesOk(c: Cluster, e: Epoch, v: nat, eff: Effect)
    requires v < |c.nodes| && MessagesOk(e, c.net) && EnvelopesOk(e, v, eff.sent)
    ensures MessagesOk(e, Apply(c, v, eff).net)
  {
    var net': Net := Apply(c, v, eff).net;
    forall src, dst, p | (src, dst) in net' && 0 <= p < |net'[(src, dst)]|
      ensures MessageOk(e, src, dst, net'[(src, dst)][p])
    {
      if p >= |c.net[(src, dst)]| {
        RoutedIn(eff.sent, dst, net'[(src, dst)][p]);
      }
    }
  }

  /** Node v, of the epoch, acts. */
  lemma ApplyCommon(c: Cluster, e: Epoch, v: nat, eff: Effect)
    requires Common(c, e) && v < |c.nodes| && EffectOk(c.nodes[v], eff) && EnvelopesOk(e, v, eff.sent)
    requires v == e.leader ==> eff.node.term == e.term && QueueOk(e, eff.node.queue)
    requires v != e.leader ==> FollowerOk(e, eff.node)
    ensures Common(Apply(c, v, eff), e)
  {
    ApplyOk(c, v, eff);
    ApplyMessagesOk(c, e, v, eff);
  }

  lemma TakeCommon(c: Cluster, e: Epoch, src: nat, dst: nat)
    requires Common(c, e) && InFlight(c, src, dst, 0)
    ensures Common(Take(c, src, dst, 0), e)
    ensures Take(c, src, dst, 0).net == c.net[(src, dst) := c.net[(src, dst)][1..]]
  {
    TakeOk(c, src, dst, 0);
    assert Without(c.net[(src, dst)], 0) == c.net[(src, dst)][1..];
  }

  // ---- one node acts: its link ----

  /** The follower of link f reads m, from the leader or from another node. */
  lemma FollowerLink(e: Epoch, lead: Lead, v: View, f: Link, s: Node, src: nat, m: Message)
    requires LinkInv(e, lead, v, f) && FollowerOk(e, s) && s.log == f.log && s.commitIndex == f.commit
    requires s.me != e.leader && MessageOk(e, src, s.me, m)
    requires src == e.leader ==> f.down != [] && f.down[0] == m
    ensures var eff := FollowerOn(s, m);
      && f.commit <= eff.node.commitIndex
      && LinkInv(e, lead, v, Link(eff.node.log, eff.node.commitIndex,
                                  if src == e.leader then f.down[1..] else f.down,
                                  f.up + Routed(eff.sent, e.leader)))
  {
    var eff := FollowerOn(s, m);
    var r := Routed(eff.sent, e.leader);
    if m.AppendEntries? {
      assert eff.sent == [eff.sent[0]];
      RoutedOne(eff.sent[0], e.leader);
      LinkAppend(e, lead, v, f, s, r);
    } else if m.Committal? {
      hide LinkInv;
      LinkCommittal(e, lead, v, f);
      assert f.up + [] == f.up;
    } else {
      LightRead(s, m, e.leader);
      hide LinkInv, FollowerOn, Routed;
      var f1 := if src == e.leader then f.(down := f.down[1..]) else f;
      if src == e.leader {
        LinkDropsLightDown(e, lead, v, f);
      }
      LinkAddsLight(e, lead, v, f1, [], r);
      assert f1.down + [] == f1.down;
    }
  }

  /** Other messages change neither log nor commit index, and are answered by light ones. */
  lemma LightRead(s: Node, m: Message, dst: nat)
    requires !m.AppendEntries? && !m.Committal?
    ensures var eff := FollowerOn(s, m);
      && eff.node.log == s.log && eff.node.commitIndex == s.commitIndex
      && AllLight(Routed(eff.sent, dst))
  {
    hide Routed;
    var eff := FollowerOn(s, m);
    if eff.sent == [] {
      RoutedNone(dst);
    } else {
      assert eff.sent == [eff.sent[0]];
      RoutedOne(eff.sent[0], dst);
    }
  }

  /** What leader s knows of follower i. */
  function LeadIn(s: Node): Lead
  {
    Lead(s.log, s.commitIndex)
  }

  function ViewIn(s: Node, i: nat): View
    requires Shape(s) && i < s.n
  {
    View(s.matchIndex[i], s.nextIndex[i])
  }

  ghost predicate LeaderLinkOk(e: Epoch, s: Node, i: nat, f: Link)
  {
    && NodeOk(s) && s.role == Leader && s.me == e.leader && s.term == e.term
    && i < s.n && i != e.leader
    && LinkInv(e, LeadIn(s), ViewIn(s, i), f)
  }

  /** What a broadcast changes for node i. */
  lemma BroadcastMeans(s: Node, i: nat, entry: Entry)
    requires NodeOk(s) && s.role == Leader && i < s.n && i != s.me
    ensures var b, prev := BroadcastAppend(s, entry), |s.log| - 1;
      && NodeOk(b.node) && b.node.role == Leader && b.node.n == s.n && b.node.me == s.me && b.node.term == s.term
      && b.node.log == s.log + [entry] && b.node.commitIndex == s.commitIndex
      && b.node.matchIndex[i] == s.matchIndex[i]
      && b.node.nextIndex[i] == (if s.nextIndex[i].None? then Some(|s.log|) else s.nextIndex[i])
      && Routed(b.sent, i)
         == if s.nextIndex[i].None? then [AppendMessage(s, prev, s.log[prev].term, entry)] else []
  {
    hide Routed, Multicast;
    var prev := |s.log| - 1;
    RoutedMulticast(UpToDate(s.nextIndex), AppendMessage(s, prev, s.log[prev].term, entry), i);
    BroadcastAppendOk(s, entry);
    hide CursorsInRange, SentBy;
  }

  lemma LeaderBroadcastLink(e: Epoch, s: Node, i: nat, f: Link, entry: Entry)
    requires LeaderLinkOk(e, s, i, f) && entry.term == e.term
    ensures var b := BroadcastAppend(s, entry);
      LeaderLinkOk(e, b.node, i, f.(down := f.down + Routed(b.sent, i)))
  {
    BroadcastMeans(s, i, entry);
    hide LinkInv, BroadcastAppend, Routed, CursorsInRange;
    LinkBroadcast(e, LeadIn(s), ViewIn(s, i), f, entry, Routed(BroadcastAppend(s, entry).sent, i));
  }

  /** What the commit part of an acknowledgement changes, and what it sends to node i. */
  lemma CommitMeans(s: Node, i: nat)
    requires NodeOk(s) && s.role == Leader && i < s.n
    ensures var b, index := CommitIfReplicated(s), Minimum(s.matchIndex);
      && NodeOk(b.node) && index < |s.log| && index <= s.matchIndex[i]
      && b.node == s.(lastAppliedIndex := b.node.lastAppliedIndex, lastAppliedTerm := b.node.lastAppliedTerm,
                      commitIndex := if index > s.commitIndex then index else s.commitIndex)
      && (index <= s.commitIndex ==> Routed(b.sent, i) == [])
      && (index > s.commitIndex ==>
            && |Routed(b.sent, i)| == 1 && Routed(b.sent, i)[0].Committal?
            && Routed(b.sent, i)[0].prevLogIndex == index)
  {
    hide Routed, Multicast;
    var index := Minimum(s.matchIndex);
    assert index <= s.matchIndex[s.me];
    if index > s.commitIndex {
      var s1 := CommitEntry(s, index, s.log[index].term);
      RoutedMulticast(Everyone(s1.n), CommittalMessage(s1), i);
    } else {
      RoutedNone(i);
    }
  }

  lemma LeaderCommitLink(e: Epoch, s: Node, i: nat, f: Link)
    requires LeaderLinkOk(e, s, i, f)
    ensures var b := CommitIfReplicated(s);
      LeaderLinkOk(e, b.node, i, f.(down := f.down + Routed(b.sent, i)))
  {
    CommitMeans(s, i);
    hide LinkInv, Routed, CommitIfReplicated, CursorsInRange;
    var b := CommitIfReplicated(s);
    var index := Minimum(s.matchIndex);
    if index > s.commitIndex {
      LinkCommit(e, LeadIn(s), ViewIn(s, i), f, index, Routed(b.sent, i));
    } else {
      assert f.down + [] == f.down;
    }
  }

  /** What the cursor part of an acknowledgement from j changes: the match index and the cursor of j, and at most one
      append to j. */
  lemma AdvanceMeans(s: Node, j: nat, success: bool)
    requires NodeOk(s) && s.role == Leader && j < s.n && j != s.me && s.nextIndex[j].Some?
    ensures var a := AdvanceOnAck(s, j, success);
      var k := s.nextIndex[j].value;
      var k' := if success then k + 1 else if k != 1 then k - 1 else 1;
      && NodeOk(a.node) && a.node == s.(matchIndex := a.node.matchIndex, nextIndex := a.node.nextIndex)
      && a.node.matchIndex == s.matchIndex[j := if success then k else s.matchIndex[j]]
      && a.node.nextIndex == s.nextIndex[j := if k' < |s.log| then Some(k') else None]
      && a.sent == (if k' < |s.log| then [CatchUp(a.node, j)] else [])
  {
  }

  /** The leader reads an acknowledgement that is the head of this link's upward channel. */
  lemma LeaderAckLink(e: Epoch, s: Node, i: nat, f: Link, success: bool)
    requires LeaderLinkOk(e, s, i, f)
    requires f.up != [] && f.up[0].Acknowledge? && f.up[0].success == success
    ensures s.nextIndex[i].Some?
    ensures var a := AdvanceOnAck(s, i, success);
      && LeaderLinkOk(e, a.node, i, f.(up := f.up[1..], down := f.down + Routed(a.sent, i)))
  {
    hide LinkInv, Routed, AdvanceOnAck;
    LinkAckHasCursor(e, LeadIn(s), ViewIn(s, i), f);
    AdvanceMeans(s, i, success);
    var a := AdvanceOnAck(s, i, success);
    var k := s.nextIndex[i].value;
    var k' := if success then k + 1 else if k != 1 then k - 1 else 1;
    if k' < |s.log| {
      RoutedOne(CatchUp(a.node, i), i);
    }
    LinkAck(e, LeadIn(s), ViewIn(s, i), f, success, k', if k' < |s.log| then [CatchUp(a.node, i).msg] else []);
    RoutedNone(i);
  }

  lemma RoutedNone(i: nat)
    ensures Routed([], i) == []
  {
  }

  lemma LinkAckHasCursor(e: Epoch, lead: Lead, v: View, f: Link)
    requires LinkInv(e, lead, v, f) && f.up != [] && f.up[0].Acknowledge?
    ensures v.next.Some?
  {
  }

  /** The leader reads an acknowledgement from another follower j. */
  lemma LeaderOtherAckLink(e: Epoch, s: Node, i: nat, f: Link, j: nat, success: bool)
    requires LeaderLinkOk(e, s, i, f) && j < s.n && j != i && s.nextIndex[j].Some?
    ensures var a := AdvanceOnAck(s, j, success);
      && Routed(a.sent, i) == []
      && LeaderLinkOk(e, a.node, i, f)
  {
    hide LinkInv, Routed, AdvanceOnAck;
    AdvanceMeans(s, j, success);
    var a := AdvanceOnAck(s, j, success);
    if a.sent != [] {
      RoutedOne(CatchUp(a.node, j), i);
    }
    RoutedNone(i);
  }

  /** The leader of link f reads an acknowledgement from src. */
  lemma LeaderAckedLink(e: Epoch, s: Node, i: nat, f: Link, src: nat, success: bool)
    requires LeaderLinkOk(e, s, i, f) && src < s.n
    requires src == i ==> f.up != [] && f.up[0].Acknowledge? && f.up[0].success == success
    ensures var eff := LeaderOnAck(s, src, success);
      LeaderLinkOk(e, eff.node, i, f.(up := if src == i then f.up[1..] else f.up,
                                         down := f.down + Routed(eff.sent, i)))
  {
    hide LinkInv, Routed, AdvanceOnAck, CommitIfReplicated, CursorsInRange;
    if src == i {
      LeaderAckLink(e, s, i, f, success);
      var a := AdvanceOnAck(s, i, success);
      hide LeaderOnAck;
      LeaderTwoSteps(e, s, i, f, f.(up := f.up[1..], down := f.down + Routed(a.sent, i)), i, success);
    } else if s.nextIndex[src].Some? {
      LeaderOtherAckLink(e, s, i, f, src, success);
      hide LeaderOnAck;
      assert f.down + [] == f.down;
      LeaderTwoSteps(e, s, i, f, f, src, success);
    } else {
      RoutedNone(i);
      assert f.down + [] == f.down;
    }
  }

  /** The leader of link f reads m from src. */
  lemma LeaderLink(e: Epoch, s: Node, i: nat, f: Link, src: nat, m: Message)
    requires LeaderLinkOk(e, s, i, f) && MessageOk(e, src, s.me, m) && m.sender == src < s.n
    requires src == i ==> f.up != [] && f.up[0] == m
    ensures var eff := On(s, m);
      LeaderLinkOk(e, eff.node, i, f.(up := if src == i then f.up[1..] else f.up,
                                         down := f.down + Routed(eff.sent, i)))
  {
    hide LinkInv, Routed, LeaderOnAck, BroadcastAppend, CursorsInRange;
    RoutedNone(i);
    if m.Acknowledge? {
      LeaderAckedLink(e, s, i, f, src, m.success);
    } else {
      var f1 := if src == i then f.(up := f.up[1..]) else f;
      if src == i {
        LinkDropsLightUp(e, LeadIn(s), ViewIn(s, i), f);
      }
      if m.ClientRequest? {
        LeaderBroadcastLink(e, s, i, f1, m.entry);
      } else {
        assert f1.down + [] == f1.down;
      }
    }
  }

  /** The cursor part of an acknowledgement followed by the commit part. */
  lemma LeaderTwoSteps(e: Epoch, s: Node, i: nat, f: Link, f1: Link, j: nat, success: bool)
    requires NodeOk(s) && s.role == Leader && j < s.n && i < s.n && s.nextIndex[j].Some?
    requires NodeOk(AdvanceOnAck(s, j, success).node) && LeaderLinkOk(e, AdvanceOnAck(s, j, success).node, i, f1)
    requires f1.down == f.down + Routed(AdvanceOnAck(s, j, success).sent, i)
    ensures var eff := LeaderOnAck(s, j, success);
      LeaderLinkOk(e, eff.node, i, f1.(down := f.down + Routed(eff.sent, i)))
  {
    hide *;
    AckIsTwoSteps(s, j, success);
    var a := AdvanceOnAck(s, j, success);
    var b := CommitIfReplicated(a.node);
    LeaderCommitLink(e, a.node, i, f1);
    RoutedConcat(a.sent, b.sent, i);
    Regroup(f.down, Routed(a.sent, i), Routed(b.sent, i));
  }

  lemma Regroup(a: seq<Message>, b: seq<Message>, c: seq<Message>)
    ensures (a + b) + c == a + (b + c)
  {
  }

  lemma AckIsTwoSteps(s: Node, j: nat, success: bool)
    requires NodeOk(s) && s.role == Leader && j < s.n && s.nextIndex[j].Some?
    ensures Shape(s) && CursorsInRange(s)
    ensures var a := AdvanceOnAck(s, j, success);
      && Shape(a.node) && CursorsInRange(a.node)
      && var b := CommitIfReplicated(a.node);
         LeaderOnAck(s, j, success) == Effect(b.node, a.sent + b.sent)
  {
    hide CommitIfReplicated;
  }

  /** A new leader sends each node a heartbeat and then its first entry, for which all cursors wait. */
  lemma EnterMeans(s: Node, i: nat)
    requires NodeOk(s) && s.role == Elected && i < s.n && i != s.me
    ensures var eff, entry, prev := EnterLeader(s), Entry(s.term, "{}", -1), |s.log| - 1;
      && NodeOk(eff.node) && eff.node.role == Leader && eff.node.n == s.n
      && eff.node.me == s.me && eff.node.term == s.term && eff.node.commitIndex == s.commitIndex
      && eff.node.log == s.log + [entry]
      && eff.node.matchIndex[i] == s.commitIndex && eff.node.nextIndex[i] == Some(|s.log|)
      && Routed(eff.sent, i) == [HeartbeatMessage(s), AppendMessage(s, prev, s.log[prev].term, entry)]
  {
    hide Routed, Multicast;
    var entry, prev := Entry(s.term, "{}", -1), |s.log| - 1;
    var s1 := s.(role := Leader, leaderId := Some(s.me),
                 matchIndex := seq(s.n, _ => s.commitIndex), nextIndex := seq(s.n, _ => None));
    var b := BroadcastAppend(s1, entry);
    var hb := Envelope(None, HeartbeatMessage(s));
    BroadcastAppendOk(s1, entry);
    RoutedConcat([hb], b.sent, i);
    RoutedOne(hb, i);
    RoutedMulticast(UpToDate(s1.nextIndex), AppendMessage(s1, prev, s1.log[prev].term, entry), i);
  }

  /** The elected node starts to lead. */
  lemma LeaderEntersLink(e: Epoch, s: Node, i: nat, f: Link)
    requires NodeOk(s) && s.role == Elected && s.me == e.leader && s.term == e.term && s.commitIndex == e.base
    requires i < s.n && i != e.leader && StartLink(s.log, e, f)
    ensures var eff := EnterLeader(s);
      LeaderLinkOk(e, eff.node, i, f.(down := f.down + Routed(eff.sent, i)))
  {
    EnterMeans(s, i);
    hide EnterLeader, Routed, LinkInv, NodeOk;
    var entry, prev := Entry(s.term, "{}", -1), |s.log| - 1;
    var hb, append := HeartbeatMessage(s), AppendMessage(s, prev, s.log[prev].term, entry);
    LinkStart(e, s.log, f.(down := f.down + [hb]), entry, [append]);
    assert f.down + [hb, append] == f.down + [hb] + [append];
  }

  // ---- one event of the cluster ----

  /** Commit indices move forward and the leader's log only grows. */
  ghost predicate Forward(e: Epoch, c: Cluster, c': Cluster)
  {
    && |c'.nodes| == |c.nodes|
    && e.leader < |c.nodes|
    && c.nodes[e.leader].log <= c'.nodes[e.leader].log
    && forall i :: 0 <= i < |c.nodes| ==> c.nodes[i].commitIndex <= c'.nodes[i].commitIndex
  }

  lemma FollowerStepCommon(c: Cluster, e: Epoch, src: nat, i: nat)
    requires Common(c, e) && InFlight(c, src, i, 0) && i != e.leader
    ensures var eff := FollowerOn(c.nodes[i], c.net[(src, i)][0]);
      && Next(c, Deliver(src, i, 0)) == Apply(Take(c, src, i, 0), i, eff)
      && Common(Apply(Take(c, src, i, 0), i, eff), e)
      && Take(c, src, i, 0).net == c.net[(src, i) := c.net[(src, i)][1..]]
  {
    hide MoveOf, Next, FollowerOn;
    var s := c.nodes[i];
    var m := c.net[(src, i)][0];
    assert On(s, m) == FollowerOn(s, m);
    NextReads(c, src, i, 0);
    TakeCommon(c, e, src, i);
    FollowerCommon(e, s, src, m);
    hide On;
    ApplyCommon(Take(c, src, i, 0), e, i, FollowerOn(s, m));
  }

  lemma FollowerStepLinks(c: Cluster, c': Cluster, e: Epoch, src: nat, i: nat, eff: Effect, j: nat)
    requires Common(c, e) && InFlight(c, src, i, 0) && i != e.leader && j < |c.nodes| && j != e.leader
    requires c' == Apply(Take(c, src, i, 0), i, eff) && Common(c', e)
    requires Take(c, src, i, 0).net == c.net[(src, i) := c.net[(src, i)][1..]]
    ensures LeadOf(c', e) == LeadOf(c, e) && ViewOf(c', e, j) == ViewOf(c, e, j)
    ensures var f := LinkOf(c, e, j);
      LinkOf(c', e, j) == if j != i then f else
        Link(eff.node.log, eff.node.commitIndex,
             if src == e.leader then f.down[1..] else f.down, f.up + Routed(eff.sent, e.leader))
  {
    LinkChannels(c, e, src, i, j);
    hide Common, ClusterOk, Apply, Take, Routed, InFlight;
    var base := Take(c, src, i, 0);
    assert base.net[(j, e.leader)] == c.net[(j, e.leader)];
    ApplyAt(base, i, eff, e.leader, j);
    ApplyAt(base, i, eff, j, e.leader);
  }

  lemma LinkChannels(c: Cluster, e: Epoch, src: nat, i: nat, j: nat)
    requires Common(c, e) && InFlight(c, src, i, 0) && j < |c.nodes|
    ensures ClusterOk(c) && e.leader < |c.nodes| && i < |c.nodes|
    ensures (src, i) in c.net && c.net[(src, i)] != [] && (e.leader, j) in c.net && (j, e.leader) in c.net
    ensures Take(c, src, i, 0).nodes == c.nodes
  {
    hide MessagesOk, FollowerOk;
  }

  lemma FollowerStepLink(c: Cluster, c': Cluster, e: Epoch, src: nat, i: nat, j: nat)
    requires Active(c, e) && InFlight(c, src, i, 0) && i != e.leader && j < |c.nodes| && j != e.leader
    requires c' == Apply(Take(c, src, i, 0), i, FollowerOn(c.nodes[i], c.net[(src, i)][0]))
    requires Common(c', e) && Take(c, src, i, 0).net == c.net[(src, i) := c.net[(src, i)][1..]]
    ensures LinkInv(e, LeadOf(c', e), ViewOf(c', e, j), LinkOf(c', e, j))
    ensures LinkOf(c, e, j).commit <= LinkOf(c', e, j).commit
  {
    hide LinkInv, FollowerOn, Trail, Routed, Take, Apply;
    var s := c.nodes[i];
    var m := c.net[(src, i)][0];
    FollowerStepLinks(c, c', e, src, i, FollowerOn(s, m), j);
    if j == i {
      assert MessageOk(e, src, i, m) && FollowerOk(e, s) && s.me == i;
      FollowerLink(e, LeadOf(c, e), ViewOf(c, e, i), LinkOf(c, e, i), s, src, m);
    }
  }

  /** Node u is not the one that acted. */
  lemma OtherNode(c: Cluster, e: Epoch, src: nat, i: nat, eff: Effect, u: nat)
    requires Common(c, e) && InFlight(c, src, i, 0) && u < |c.nodes| && u != i
    ensures i < |c.nodes|
    ensures var c' := Apply(Take(c, src, i, 0), i, eff); |c'.nodes| == |c.nodes| && c'.nodes[u] == c.nodes[u]
  {
    hide MessagesOk, FollowerOk;
  }

  /** The leader did nothing, and every link is in order. */
  lemma StillActive(c: Cluster, c': Cluster, e: Epoch)
    requires Active(c, e) && Common(c', e) && |c'.nodes| == |c.nodes| && c'.nodes[e.leader] == c.nodes[e.leader]
    requires forall j :: 0 <= j < |c.nodes| && j != e.leader ==>
      LinkInv(e, LeadOf(c', e), ViewOf(c', e, j), LinkOf(c', e, j)) && c.nodes[j].commitIndex <= c'.nodes[j].commitIndex
    ensures Active(c', e) && Forward(e, c, c')
  {
    hide LinkInv, MessagesOk, ClusterOk, FollowerOk;
  }

  lemma ActiveIsCommon(c: Cluster, e: Epoch)
    requires Active(c, e)
    ensures Common(c, e) && ClusterOk(c) && e.leader < |c.nodes|
  {
  }

  lemma LinkCommitOf(c: Cluster, e: Epoch, j: nat)
    requires Common(c, e) && j < |c.nodes|
    ensures LinkOf(c, e, j).commit == c.nodes[j].commitIndex
  {
  }

  /** A follower reads the head of a channel. */
  lemma FollowerStep(c: Cluster, e: Epoch, src: nat, i: nat)
    requires Active(c, e) && InFlight(c, src, i, 0) && i != e.leader
    ensures var c' := Next(c, Deliver(src, i, 0)); Active(c', e) && Forward(e, c, c')
  {
    assert (src, i) in c.net && c.net[(src, i)] != [];
    hide *;
    ActiveIsCommon(c, e);
    OtherNode(c, e, src, i, Effect(c.nodes[e.leader], []), e.leader);
    FollowerStepCommon(c, e, src, i);
    var c' := Next(c, Deliver(src, i, 0));
    OtherNode(c, e, src, i, FollowerOn(c.nodes[i], c.net[(src, i)][0]), e.leader);
    forall j | 0 <= j < |c.nodes| && j != e.leader
      ensures LinkInv(e, LeadOf(c', e), ViewOf(c', e, j), LinkOf(c', e, j))
      ensures c.nodes[j].commitIndex <= c'.nodes[j].commitIndex
    {
      FollowerStepLink(c, c', e, src, i, j);
      LinkCommitOf(c, e, j);
      LinkCommitOf(c', e, j);
    }
    StillActive(c, c', e);
  }

  /** Every link is in order after the leader acted on `base`, which lacks at most the head of one channel to it. */
  ghost predicate LinksKept(e: Epoch, base: Cluster, eff: Effect)
    requires Common(base, e)
  {
    forall i: nat :: i < |base.nodes| && i != e.leader ==> LinkKept(e, base, eff, i)
  }

  ghost predicate LinkKept(e: Epoch, base: Cluster, eff: Effect, i: nat)
    requires Common(base, e) && i < |base.nodes|
  {
    LeaderLinkOk(e, eff.node, i, LinkOf(base, e, i).(down := base.net[(e.leader, i)] + Routed(eff.sent, i)))
  }

  /** What the leader becomes keeps to the epoch. */
  ghost predicate LeaderAdvances(e: Epoch, s: Node, eff: Effect)
  {
    && EffectOk(s, eff) && LeaderKept(e, s, eff) && QueueOk(e, eff.node.queue)
    && s.commitIndex <= eff.node.commitIndex < |eff.node.log|
    && s.log <= eff.node.log
  }

  lemma LeaderActs(c: Cluster, e: Epoch, base: Cluster, eff: Effect)
    requires Active(c, e) && Common(base, e) && base.nodes == c.nodes
    requires LeaderAdvances(e, c.nodes[e.leader], eff) && LinksKept(e, base, eff)
    ensures Active(Apply(base, e.leader, eff), e) && Forward(e, c, Apply(base, e.leader, eff))
  {
    hide LinkInv;
    ApplyCommon(base, e, e.leader, eff);
    var c' := Apply(base, e.leader, eff);
    forall i | 0 <= i < |c.nodes| && i != e.leader
      ensures LinkInv(e, LeadOf(c', e), ViewOf(c', e, i), LinkOf(c', e, i))
    {
      assert LinkKept(e, base, eff, i);
      assert LinkOf(c', e, i) == LinkOf(base, e, i).(down := base.net[(e.leader, i)] + Routed(eff.sent, i));
      assert LeadOf(c', e) == LeadIn(eff.node) && ViewOf(c', e, i) == ViewIn(eff.node, i);
    }
  }

  lemma CommitsInRange(s: Node)
    requires Shape(s) && CursorsInRange(s) && s.commitIndex < |s.log|
    ensures CommitIfReplicated(s).node.commitIndex < |s.log| && CommitIfReplicated(s).node.log == s.log
  {
    assert Minimum(s.matchIndex) <= s.matchIndex[s.me];
  }

  lemma AckCommitRange(s: Node, j: nat, success: bool)
    requires NodeOk(s) && s.role == Leader && j < s.n && j != s.me && s.commitIndex < |s.log| && s.nextIndex[j].Some?
    ensures LeaderOnAck(s, j, success).node.commitIndex < |LeaderOnAck(s, j, success).node.log|
  {
    AckIsTwoSteps(s, j, success);
    AdvanceMeans(s, j, success);
    hide LeaderOnAck, AdvanceOnAck, CommitIfReplicated, NodeOk, CursorsInRange;
    CommitsInRange(AdvanceOnAck(s, j, success).node);
  }

  /** The commit index of a leader stays inside its log. */
  lemma LeaderCommitRange(s: Node, m: Message)
    requires NodeOk(s) && s.role == Leader && m.sender < s.n && On(s, m).node.role == Leader
    requires s.commitIndex < |s.log|
    ensures s.commitIndex <= On(s, m).node.commitIndex < |On(s, m).node.log|
    ensures s.log <= On(s, m).node.log
  {
    LeaderProgress(s, m);
    if m.Acknowledge? && s.nextIndex[m.sender].Some? {
      AckCommitRange(s, m.sender, m.success);
    }
    hide AdvanceOnAck, CommitIfReplicated;
  }

  lemma LeaderStepLink(c: Cluster, e: Epoch, src: nat, i: nat)
    requires Active(c, e) && InFlight(c, src, e.leader, 0) && i < |c.nodes| && i != e.leader
    requires Common(Take(c, src, e.leader, 0), e)
    requires Take(c, src, e.leader, 0).net == c.net[(src, e.leader) := c.net[(src, e.leader)][1..]]
    ensures LinkKept(e, Take(c, src, e.leader, 0), On(c.nodes[e.leader], c.net[(src, e.leader)][0]), i)
  {
    hide LinkInv, On;
    var base := Take(c, src, e.leader, 0);
    LeaderLink(e, c.nodes[e.leader], i, LinkOf(c, e, i), src, c.net[(src, e.leader)][0]);
    assert base.net[(e.leader, i)] == c.net[(e.leader, i)];
  }

  /** The leader and the message at the head of a channel to it. */
  lemma LeaderHead(c: Cluster, e: Epoch, src: nat)
    requires Active(c, e) && InFlight(c, src, e.leader, 0)
    ensures var s, m := c.nodes[e.leader], c.net[(src, e.leader)][0];
      && NodeOk(s) && s.role == Leader && s.me == e.leader && s.term == e.term && s.commitIndex < |s.log|
      && QueueOk(e, s.queue)
      && m.sender < s.n && MessageOk(e, src, s.me, m)
  {
    hide LinkInv;
  }

  lemma LeaderReadsHead(c: Cluster, e: Epoch, src: nat)
    requires Active(c, e) && InFlight(c, src, e.leader, 0)
    ensures LeaderAdvances(e, c.nodes[e.leader], On(c.nodes[e.leader], c.net[(src, e.leader)][0]))
  {
    hide MessageOk, On, EffectOk, LeaderKept;
    LeaderHead(c, e, src);
    assert e.leader < |c.nodes|;
    hide Active;
    var s, m := c.nodes[e.leader], c.net[(src, e.leader)][0];
    OnKeepsNodeOk(s, m);
    LeaderCommon(e, s, src, m);
    assert LeaderKept(e, s, On(s, m));
    RoleKept(e, s, On(s, m));
    LeaderCommitRange(s, m);
  }

  lemma RoleKept(e: Epoch, s: Node, eff: Effect)
    requires LeaderKept(e, s, eff)
    ensures eff.node.role == s.role
  {
  }

  lemma LeaderStepLinks(c: Cluster, e: Epoch, src: nat)
    requires Active(c, e) && InFlight(c, src, e.leader, 0)
    ensures var base := Take(c, src, e.leader, 0);
      && base.nodes == c.nodes
      && Common(base, e)
      && LinksKept(e, base, On(c.nodes[e.leader], c.net[(src, e.leader)][0]))
  {
    assert Common(c, e);
    TakeCommon(c, e, src, e.leader);
    var base, eff := Take(c, src, e.leader, 0), On(c.nodes[e.leader], c.net[(src, e.leader)][0]);
    assert base.nodes == c.nodes;
    hide On, Active, Common, LinkKept, Take;
    forall i: nat | i < |base.nodes| && i != e.leader ensures LinkKept(e, base, eff, i) {
      LeaderStepLink(c, e, src, i);
    }
  }

  /** The leader reads the head of a channel. */
  lemma LeaderStep(c: Cluster, e: Epoch, src: nat)
    requires Active(c, e) && InFlight(c, src, e.leader, 0)
    ensures var c' := Next(c, Deliver(src, e.leader, 0)); Active(c', e) && Forward(e, c, c')
  {
    assert ClusterOk(c) && Reads(c.nodes[e.leader].role);
    hide *;
    NextReads(c, src, e.leader, 0);
    LeaderReadsHead(c, e, src);
    LeaderStepLinks(c, e, src);
    LeaderActs(c, e, Take(c, src, e.leader, 0), On(c.nodes[e.leader], c.net[(src, e.leader)][0]));
  }

  lemma HeartbeatAdvances(e: Epoch, s: Node)
    requires NodeOk(s) && s.role == Leader && s.me == e.leader && s.term == e.term && QueueOk(e, s.queue)
    requires s.commitIndex < |s.log|
    ensures LeaderAdvances(e, s, SendHeartbeat(s))
  {
  }

  lemma HeartbeatLink(e: Epoch, s: Node, i: nat, f: Link)
    requires LeaderLinkOk(e, s, i, f)
    ensures LeaderLinkOk(e, SendHeartbeat(s).node, i, f.(down := f.down + Routed(SendHeartbeat(s).sent, i)))
  {
    hide LinkInv, Routed, CursorsInRange;
    RoutedOne(SendHeartbeat(s).sent[0], i);
    LinkAddsLight(e, LeadIn(s), ViewIn(s, i), f, [HeartbeatMessage(s)], []);
    assert f.up + [] == f.up;
  }

  /** The leader of an active epoch, and its link to node i. */
  lemma LeaderLinkOf(c: Cluster, e: Epoch, i: nat)
    requires Active(c, e) && i < |c.nodes| && i != e.leader
    ensures LeaderLinkOk(e, c.nodes[e.leader], i, LinkOf(c, e, i))
    ensures LinkOf(c, e, i).down == c.net[(e.leader, i)]
  {
    hide LinkInv;
    assert LinkInv(e, LeadOf(c, e), ViewOf(c, e, i), LinkOf(c, e, i));
    hide MessagesOk, FollowerOk;
  }

  lemma ActiveLeader(c: Cluster, e: Epoch)
    requires Active(c, e)
    ensures Common(c, e) && e.leader < |c.nodes|
    ensures var s := c.nodes[e.leader];
      && NodeOk(s) && s.role == Leader && s.me == e.leader && s.term == e.term && s.n == |c.nodes|
      && QueueOk(e, s.queue) && s.commitIndex < |s.log|
  {
    hide LinkInv, MessagesOk, FollowerOk;
  }

  lemma KeepsLink(e: Epoch, c: Cluster, eff: Effect, i: nat)
    requires Common(c, e) && i < |c.nodes|
    requires LinkOf(c, e, i).down == c.net[(e.leader, i)]
    requires var f := LinkOf(c, e, i);
      LeaderLinkOk(e, eff.node, i, f.(down := f.down + Routed(eff.sent, i)))
    ensures LinkKept(e, c, eff, i)
  {
    hide LeaderLinkOk, Common;
  }

  lemma HeartbeatLinks(c: Cluster, e: Epoch)
    requires Active(c, e)
    ensures var eff := SendHeartbeat(c.nodes[e.leader]);
      LeaderAdvances(e, c.nodes[e.leader], eff) && LinksKept(e, c, eff)
  {
    ActiveLeader(c, e);
    var s := c.nodes[e.leader];
    hide Active, Common, LeaderLinkOk, LeaderAdvances, SendHeartbeat, LinkKept, NodeOk, QueueOk;
    HeartbeatAdvances(e, s);
    forall i: nat | i < |c.nodes| && i != e.leader ensures LinkKept(e, c, SendHeartbeat(s), i) {
      LeaderLinkOf(c, e, i);
      HeartbeatLink(e, s, i, LinkOf(c, e, i));
      KeepsLink(e, c, SendHeartbeat(s), i);
    }
  }

  lemma ServeAdvances(e: Epoch, s: Node)
    requires NodeOk(s) && s.role == Leader && s.me == e.leader && s.term == e.term && QueueOk(e, s.queue)
    requires s.commitIndex < |s.log|
    ensures LeaderAdvances(e, s, PopClient(s))
  {
    LocalStepKeepsNodeOk(s, ServeClient(e.leader));
    hide NodeOk, EffectOk;
    if s.queue != [] {
      BroadcastKept(e, s.(queue := s.queue[1..]), s.queue[0]);
    }
  }

  lemma ServeLink(e: Epoch, s: Node, i: nat, f: Link)
    requires LeaderLinkOk(e, s, i, f) && QueueOk(e, s.queue)
    ensures LeaderLinkOk(e, PopClient(s).node, i, f.(down := f.down + Routed(PopClient(s).sent, i)))
  {
    hide LinkInv, Routed, BroadcastAppend;
    if s.queue == [] {
      RoutedNone(i);
      assert f.down + [] == f.down;
    } else {
      LeaderBroadcastLink(e, s.(queue := s.queue[1..]), i, f, s.queue[0]);
    }
  }

  lemma ServeLinks(c: Cluster, e: Epoch)
    requires Active(c, e)
    ensures ClusterOk(c) && e.leader < |c.nodes|
    ensures var eff := PopClient(c.nodes[e.leader]);
      LeaderAdvances(e, c.nodes[e.leader], eff) && LinksKept(e, c, eff)
  {
    ActiveLeader(c, e);
    var s := c.nodes[e.leader];
    hide Active, LeaderLinkOk, LeaderAdvances, PopClient, LinkKept, QueueOk, MessagesOk;
    ServeAdvances(e, s);
    forall i: nat | i < |c.nodes| && i != e.leader ensures LinkKept(e, c, PopClient(s), i) {
      LeaderLinkOf(c, e, i);
      ServeLink(e, s, i, LinkOf(c, e, i));
      KeepsLink(e, c, PopClient(s), i);
    }
  }

  /** The leader sends a heartbeat or takes a request from its own queue. */
  lemma LeaderLocalStep(c: Cluster, e: Epoch, ev: Event)
    requires Active(c, e) && (ev == HeartbeatTick(e.leader) || ev == ServeClient(e.leader))
    ensures Active(Next(c, ev), e) && Forward(e, c, Next(c, ev))
  {
    var s := c.nodes[e.leader];
    assert ClusterOk(c) && Common(c, e);
    assert MoveOf(c, ev) == Act(c, e.leader, if ev.HeartbeatTick? then SendHeartbeat(s) else PopClient(s));
    hide *;
    NextActs(c, ev);
    if ev.HeartbeatTick? {
      HeartbeatLinks(c, e);
      LeaderActs(c, e, c, SendHeartbeat(s));
    } else {
      ServeLinks(c, e);
      LeaderActs(c, e, c, PopClient(s));
    }
  }

  // ---- before the leader enters ----

  lemma StartFollowerLink(e: Epoch, l: seq<Entry>, f: Link, s: Node, src: nat, m: Message)
    requires StartLink(l, e, f) && FollowerOk(e, s) && s.log == f.log && s.commitIndex == f.commit
    requires s.me != e.leader && MessageOk(e, src, s.me, m)
    requires src == e.leader ==> f.down != [] && f.down[0] == m
    ensures var eff := FollowerOn(s, m);
      && eff.node.commitIndex == f.commit
      && StartLink(l, e, Link(eff.node.log, eff.node.commitIndex,
                              if src == e.leader then f.down[1..] else f.down,
                              f.up + Routed(eff.sent, e.leader)))
  {
    assert Light(m);
    LightRead(s, m, e.leader);
    hide FollowerOn;
  }

  /** The elected node did nothing, and every link is as at the start. */
  lemma StillStart(c: Cluster, c': Cluster, e: Epoch)
    requires Start(c, e) && Common(c', e) && |c'.nodes| == |c.nodes| && c'.nodes[e.leader] == c.nodes[e.leader]
    requires forall j :: 0 <= j < |c.nodes| && j != e.leader ==>
      StartLink(c.nodes[e.leader].log, e, LinkOf(c', e, j)) && c.nodes[j].commitIndex <= c'.nodes[j].commitIndex
    ensures Start(c', e) && Forward(e, c, c')
  {
    hide StartLink, MessagesOk, ClusterOk, FollowerOk;
  }

  lemma StartIsCommon(c: Cluster, e: Epoch)
    requires Start(c, e)
    ensures Common(c, e) && ClusterOk(c) && e.leader < |c.nodes|
  {
  }

  lemma StartFollowerStep(c: Cluster, e: Epoch, src: nat, i: nat)
    requires Start(c, e) && InFlight(c, src, i, 0) && i != e.leader
    ensures var c' := Next(c, Deliver(src, i, 0)); Start(c', e) && Forward(e, c, c')
  {
    assert (src, i) in c.net && c.net[(src, i)] != [];
    hide *;
    StartIsCommon(c, e);
    OtherNode(c, e, src, i, Effect(c.nodes[e.leader], []), e.leader);
    FollowerStepCommon(c, e, src, i);
    var c' := Next(c, Deliver(src, i, 0));
    OtherNode(c, e, src, i, FollowerOn(c.nodes[i], c.net[(src, i)][0]), e.leader);
    forall j | 0 <= j < |c.nodes| && j != e.leader
      ensures StartLink(c.nodes[e.leader].log, e, LinkOf(c', e, j))
      ensures c.nodes[j].commitIndex <= c'.nodes[j].commitIndex
    {
      StartFollowerStepLink(c, c', e, src, i, j);
    }
    StillStart(c, c', e);
  }

  lemma StartFollowerStepLink(c: Cluster, c': Cluster, e: Epoch, src: nat, i: nat, j: nat)
    requires Start(c, e) && InFlight(c, src, i, 0) && i != e.leader && j < |c.nodes| && j != e.leader
    requires c' == Apply(Take(c, src, i, 0), i, FollowerOn(c.nodes[i], c.net[(src, i)][0]))
    requires Common(c', e) && Take(c, src, i, 0).net == c.net[(src, i) := c.net[(src, i)][1..]]
    ensures StartLink(c.nodes[e.leader].log, e, LinkOf(c', e, j))
    ensures c.nodes[j].commitIndex <= c'.nodes[j].commitIndex
  {
    hide StartLink, FollowerOn, Routed;
    var s, m := c.nodes[i], c.net[(src, i)][0];
    FollowerStepLinks(c, c', e, src, i, FollowerOn(s, m), j);
    if j == i {
      MessageAt(c, e, src, i);
      StartFollowerLink(e, c.nodes[e.leader].log, LinkOf(c, e, i), s, src, m);
    }
    assert LinkOf(c, e, j).commit <= LinkOf(c', e, j).commit by { SameStartCommit(c, c', e, j); }
  }

  lemma SameStartCommit(c: Cluster, c': Cluster, e: Epoch, j: nat)
    requires Start(c, e) && Common(c', e) && j < |c.nodes| && j != e.leader && |c'.nodes| == |c.nodes|
    requires StartLink(c.nodes[e.leader].log, e, LinkOf(c', e, j))
    ensures LinkOf(c, e, j).commit <= LinkOf(c', e, j).commit
  {
  }

  lemma MessageAt(c: Cluster, e: Epoch, src: nat, dst: nat)
    requires Common(c, e) && InFlight(c, src, dst, 0)
    ensures MessageOk(e, src, dst, c.net[(src, dst)][0])
  {
  }

  /** The elected node and its link to node i before it enters. */
  lemma StartNode(c: Cluster, e: Epoch)
    requires Start(c, e)
    ensures ClusterOk(c) && Common(c, e) && e.leader < |c.nodes|
    ensures MoveOf(c, Enter(e.leader)) == Act(c, e.leader, EnterLeader(c.nodes[e.leader]))
    ensures var s := c.nodes[e.leader];
      && NodeOk(s) && s.role == Elected && s.me == e.leader && s.term == e.term && s.n == |c.nodes|
      && QueueOk(e, s.queue) && s.commitIndex == e.base < |s.log|
  {
    hide StartLink, MessagesOk, FollowerOk, EnterLeader;
  }

  lemma StartLinkOf(c: Cluster, e: Epoch, i: nat)
    requires Start(c, e) && i < |c.nodes| && i != e.leader
    ensures StartLink(c.nodes[e.leader].log, e, LinkOf(c, e, i)) && LinkOf(c, e, i).down == c.net[(e.leader, i)]
    ensures (e.leader, i) in c.net && (i, e.leader) in c.net
  {
    hide StartLink;
    assert StartLink(c.nodes[e.leader].log, e, LinkOf(c, e, i));
    hide MessagesOk, FollowerOk;
  }

  lemma EnteredLink(c: Cluster, c': Cluster, e: Epoch, i: nat)
    requires Start(c, e) && i < |c.nodes| && i != e.leader
    requires Shape(c.nodes[e.leader]) && c' == Apply(c, e.leader, EnterLeader(c.nodes[e.leader])) && Common(c', e)
    ensures LinkInv(e, LeadOf(c', e), ViewOf(c', e, i), LinkOf(c', e, i))
    ensures c'.nodes[i] == c.nodes[i]
  {
    StartNode(c, e);
    StartLinkOf(c, e, i);
    hide Start, Common, StartLink, LinkInv, EnterLeader, Apply, Routed, MoveOf, NodeOk, ClusterOk;
    var s := c.nodes[e.leader];
    var eff := EnterLeader(s);
    LeaderEntersLink(e, s, i, LinkOf(c, e, i));
    ApplyAt(c, e.leader, eff, e.leader, i);
    ApplyAt(c, e.leader, eff, i, e.leader);
    assert LinkOf(c', e, i) == LinkOf(c, e, i).(down := c.net[(e.leader, i)] + Routed(eff.sent, i));
  }

  lemma EnteredActive(c: Cluster, c': Cluster, e: Epoch)
    requires Start(c, e) && Common(c', e) && |c'.nodes| == |c.nodes|
    requires c'.nodes[e.leader].role == Leader && c'.nodes[e.leader].commitIndex == c.nodes[e.leader].commitIndex
    requires c.nodes[e.leader].log <= c'.nodes[e.leader].log
    requires forall i :: 0 <= i < |c.nodes| && i != e.leader ==>
      LinkInv(e, LeadOf(c', e), ViewOf(c', e, i), LinkOf(c', e, i)) && c'.nodes[i] == c.nodes[i]
    ensures Active(c', e) && Forward(e, c, c')
  {
    hide LinkInv, StartLink, MessagesOk, ClusterOk, FollowerOk;
  }

  /** The elected node enters office. */
  lemma EnterStep(c: Cluster, e: Epoch)
    requires Start(c, e)
    ensures var c' := Next(c, Enter(e.leader)); Active(c', e) && Forward(e, c, c')
  {
    StartNode(c, e);
    var s := c.nodes[e.leader];
    assert Shape(s);
    hide *;
    var eff := EnterLeader(s);
    var c' := Apply(c, e.leader, eff);
    NextActs(c, Enter(e.leader));
    EnterKept(e, s);
    ApplyCommon(c, e, e.leader, eff);
    ApplyNode(c, e.leader, eff, e.leader);
    forall i | 0 <= i < |c.nodes| && i != e.leader
      ensures LinkInv(e, LeadOf(c', e), ViewOf(c', e, i), LinkOf(c', e, i)) && c'.nodes[i] == c.nodes[i]
    {
      EnteredLink(c, c', e, i);
    }
    EnteredActive(c, c', e);
  }

  lemma EnterKept(e: Epoch, s: Node)
    requires NodeOk(s) && s.role == Elected && s.me == e.leader && s.term == e.term
    requires s.commitIndex < |s.log|
    ensures var eff := EnterLeader(s);
      && EffectOk(s, eff) && EnvelopesOk(e, s.me, eff.sent)
      && eff.node.role == Leader && eff.node.term == s.term && eff.node.queue == s.queue
      && eff.node.commitIndex == s.commitIndex && s.log <= eff.node.log
  {
    LocalStepKeepsNodeOk(s, Enter(s.me));
    var entry := Entry(s.term, "{}", -1);
    var s1 := s.(role := Leader, leaderId := Some(s.me),
                 matchIndex := seq(s.n, _ => s.commitIndex), nextIndex := seq(s.n, _ => None));
    BroadcastKept(e, s1, entry);
  }

  // ---- client requests ----

  /** Only queues differ. */
  ghost predicate OnlyQueues(e: Epoch, c: Cluster, c': Cluster)
  {
    && c'.net == c.net && |c'.nodes| == |c.nodes|
    && forall i :: 0 <= i < |c.nodes| ==>
      c'.nodes[i] == c.nodes[i].(queue := c'.nodes[i].queue)
      && (QueueOk(e, c.nodes[i].queue) ==> QueueOk(e, c'.nodes[i].queue))
  }

  lemma SubmitMeans(c: Cluster, e: Epoch, ev: Event)
    requires Common(c, e) && ev.SubmitRequest? && Allowed(c, e, ev)
    ensures OnlyQueues(e, c, Next(c, ev))
  {
    hide MessagesOk, FollowerOk;
    var eff := Effect(Submit(c.nodes[ev.node], ev.value, ev.id), []);
    NextActs(c, ev);
    assert Next(c, ev) == Apply(c, ev.node, eff);
    hide Next, MoveOf;
    SendsNothing(c.net, ev.node);
  }

  lemma SendsNothing(net: Net, v: nat)
    ensures Send(net, v, []) == net
  {
    var r := Send(net, v, []);
    forall k | k in net ensures r[k] == net[k] {
      assert net[k] + [] == net[k];
    }
  }

  lemma QueuesCommon(c: Cluster, c': Cluster, e: Epoch)
    requires Common(c, e) && ClusterOk(c') && OnlyQueues(e, c, c')
    ensures Common(c', e) && LeadOf(c', e) == LeadOf(c, e)
    ensures forall i :: 0 <= i < |c.nodes| ==>
      ViewOf(c', e, i) == ViewOf(c, e, i) && LinkOf(c', e, i) == LinkOf(c, e, i)
  {
    hide MessagesOk, QueueOk, ClusterOk;
  }

  lemma QueuesForward(c: Cluster, c': Cluster, e: Epoch)
    requires Common(c, e) && OnlyQueues(e, c, c')
    ensures Forward(e, c, c')
  {
    hide MessagesOk, QueueOk, ClusterOk, FollowerOk;
  }

  lemma QueuesStart(c: Cluster, c': Cluster, e: Epoch)
    requires Start(c, e) && ClusterOk(c') && OnlyQueues(e, c, c')
    ensures Start(c', e)
  {
    QueuesCommon(c, c', e);
    hide StartLink, Common, QueueOk, ClusterOk;
  }

  lemma QueuesActive(c: Cluster, c': Cluster, e: Epoch)
    requires Active(c, e) && ClusterOk(c') && OnlyQueues(e, c, c')
    ensures Active(c', e)
  {
    QueuesCommon(c, c', e);
    hide LinkInv, Common, QueueOk, ClusterOk;
  }

  lemma SubmitStep(c: Cluster, e: Epoch, ev: Event)
    requires EpochInv(c, e) && ev.SubmitRequest? && Allowed(c, e, ev)
    ensures EpochInv(Next(c, ev), e) && Forward(e, c, Next(c, ev))
    ensures Active(c, e) ==> Active(Next(c, ev), e)
  {
    hide Start, Active, Next, Common, ClusterOk, Allowed, Forward, QueueOk;
    if Active(c, e) {
      ActiveIsCommon(c, e);
    } else {
      StartIsCommon(c, e);
    }
    SubmitMeans(c, e, ev);
    hide OnlyQueues;
    QueuesForward(c, Next(c, ev), e);
    if Active(c, e) {
      QueuesActive(c, Next(c, ev), e);
    } else {
      QueuesStart(c, Next(c, ev), e);
    }
  }

  // ---- every event, every run ----

  lemma ForwardSame(c: Cluster, e: Epoch)
    requires EpochInv(c, e)
    ensures Forward(e, c, c)
  {
  }

  lemma IdleStep(c: Cluster, e: Epoch, ev: Event)
    requires ClusterOk(c) && MoveOf(c, ev).Idle?
    ensures Next(c, ev) == c
  {
  }

  /** A resend timer that finds nothing to resend changes nothing. */
  lemma ResendNothing(c: Cluster, v: nat, dst: nat)
    requires ClusterOk(c) && !SendsAgain(c, v, dst)
    ensures Next(c, ResendTick(v, dst)) == c
  {
    if MoveOf(c, ResendTick(v, dst)).Act? {
      ApplyNothing(c, v);
    }
  }

  /** Every event of an epoch keeps the invariant, and moves commit indices and the leader's log only forward. */
  lemma EpochStep(c: Cluster, e: Epoch, ev: Event)
    requires EpochInv(c, e) && Allowed(c, e, ev)
    ensures EpochInv(Next(c, ev), e) && Forward(e, c, Next(c, ev))
    ensures Active(c, e) ==> Active(Next(c, ev), e)
  {
    hide Next, StartLink, LinkInv, On, EnterCandidate, EnterLeader, PopClient, SendHeartbeat;
    ForwardSame(c, e);
    if ev.Deliver? && InFlight(c, ev.src, ev.dst, 0) {
      if ev.dst != e.leader {
        if Start(c, e) {
          StartFollowerStep(c, e, ev.src, ev.dst);
        } else {
          FollowerStep(c, e, ev.src, ev.dst);
        }
      } else if Active(c, e) {
        LeaderStep(c, e, ev.src);
      } else {
        IdleStep(c, e, ev);
      }
    } else if ev.SubmitRequest? {
      SubmitStep(c, e, ev);
    } else if ev == Enter(e.leader) && Start(c, e) {
      EnterStep(c, e);
    } else if (ev == HeartbeatTick(e.leader) || ev == ServeClient(e.leader)) && Active(c, e) {
      LeaderLocalStep(c, e, ev);
    } else if ev.ResendTick? {
      ResendNothing(c, ev.node, ev.dst);
    } else {
      assert MoveOf(c, ev).Idle?;
      IdleStep(c, e, ev);
    }
  }

  /** Every event of the run is one that the epoch allows. */
  ghost predicate EpochRun(c: Cluster, e: Epoch, evs: seq<Event>)
    requires ClusterOk(c)
  {
    forall k :: 0 <= k < |evs| ==> Allowed(Exec(c, evs[..k]), e, evs[k])
  }

  lemma RunParts(c: Cluster, e: Epoch, evs: seq<Event>, k: nat)
    requires ClusterOk(c) && EpochRun(c, e, evs) && k < |evs|
    ensures EpochRun(c, e, evs[..k]) && Allowed(Exec(c, evs[..k]), e, evs[k])
  {
    hide Exec, Allowed, NodesOk, NetOk;
    var part := evs[..k];
    forall j | 0 <= j < |part| ensures Allowed(Exec(c, part[..j]), e, part[j]) {
      assert part[..j] == evs[..j];
    }
  }

  lemma ForwardForward(e: Epoch, a: Cluster, b: Cluster, c: Cluster)
    requires Forward(e, a, b) && Forward(e, b, c)
    ensures Forward(e, a, c)
  {
  }

  lemma {:induction false} EpochKept(c: Cluster, e: Epoch, evs: seq<Event>)
    requires EpochInv(c, e) && EpochRun(c, e, evs)
    ensures EpochInv(Exec(c, evs), e) && Forward(e, c, Exec(c, evs))
    ensures Active(c, e) ==> Active(Exec(c, evs), e)
  {
    if evs == [] {
      ForwardSame(c, e);
    } else {
      var k := |evs| - 1;
      RunParts(c, e, evs, k);
      EpochKept(c, e, evs[..k]);
      hide Start, Active, Forward, Next, Allowed;
      assert evs[..k + 1] == evs;
      ExecStep(c, evs, k);
      hide Exec;
      EpochStep(Exec(c, evs[..k]), e, evs[k]);
      ForwardForward(e, c, Exec(c, evs[..k]), Exec(c, evs));
    }
  }

  /** The committed entries of node i are also the leader's, and the leader has committed them. */
  ghost predicate CommittedAtLeader(c: Cluster, e: Epoch, i: nat)
    requires e.leader < |c.nodes| && i < |c.nodes|
  {
    var s, l := c.nodes[i], c.nodes[e.leader];
    && s.commitIndex < |s.log|
    && s.commitIndex <= l.commitIndex < |l.log|
    && s.log[..s.commitIndex + 1] == l.log[..s.commitIndex + 1]
  }

  lemma LinkSafe(e: Epoch, lead: Lead, v: View, f: Link)
    requires LinkInv(e, lead, v, f)
    ensures f.commit <= lead.commit < |lead.log| && f.commit < |f.log|
    ensures f.log[..f.commit + 1] == lead.log[..f.commit + 1]
  {
    TrailRises(f.down, f.commit, lead.commit);
    assert f.log[..f.commit + 1] == f.log[..v.match_ + 1][..f.commit + 1];
    assert lead.log[..f.commit + 1] == lead.log[..v.match_ + 1][..f.commit + 1];
  }

  lemma InvSafe(c: Cluster, e: Epoch, i: nat)
    requires EpochInv(c, e) && i < |c.nodes|
    ensures CommittedAtLeader(c, e, i)
  {
    if i != e.leader {
      if Active(c, e) {
        hide LinkInv;
        LinkSafe(e, LeadOf(c, e), ViewOf(c, e, i), LinkOf(c, e, i));
      } else {
        assert StartLink(c.nodes[e.leader].log, e, LinkOf(c, e, i));
      }
    }
  }

  /** Two logs that agree with a third one, each through its own index, agree through the smaller index. */
  lemma PrefixesAgree(a: seq<Entry>, b: seq<Entry>, l: seq<Entry>, i: nat, j: nat)
    requires i < |a| && i <= j < |b| && j < |l| && a[..i + 1] == l[..i + 1] && b[..j + 1] == l[..j + 1]
    ensures a[..i + 1] == b[..i + 1]
  {
    assert b[..i + 1] == b[..j + 1][..i + 1];
    assert l[..i + 1] == l[..j + 1][..i + 1];
  }

  lemma GrownPrefix(l: seq<Entry>, l': seq<Entry>, i: nat)
    requires l <= l' && i < |l|
    ensures l'[..i + 1] == l[..i + 1]
  {
  }

  lemma EpochBasics(c: Cluster, e: Epoch)
    requires EpochInv(c, e)
    ensures ClusterOk(c) && e.leader < |c.nodes|
  {
  }

  lemma SafePair(c: Cluster, e: Epoch, i: nat, j: nat)
    requires EpochInv(c, e) && i < |c.nodes| && j < |c.nodes|
    ensures CommittedAtLeader(c, e, i) && CommittedAtLeader(c, e, j)
    ensures var a, b := c.nodes[i], c.nodes[j];
      a.commitIndex <= b.commitIndex ==> a.log[..a.commitIndex + 1] == b.log[..a.commitIndex + 1]
  {
    hide EpochInv;
    EpochBasics(c, e);
    InvSafe(c, e, i);
    InvSafe(c, e, j);
    var a, b, l := c.nodes[i], c.nodes[j], c.nodes[e.leader];
    if a.commitIndex <= b.commitIndex {
      PrefixesAgree(a.log, b.log, l.log, a.commitIndex, b.commitIndex);
    }
  }

  /** State machine safety: at every moment of every epoch, each node's commit index is inside its log and at most
      the leader's, and any two nodes hold the same entries through the smaller of their commit indices. */
  lemma StateMachineSafety(c: Cluster, e: Epoch, evs: seq<Event>, i: nat, j: nat)
    requires EpochInv(c, e) && EpochRun(c, e, evs) && i < |c.nodes| && j < |c.nodes|
    ensures var c' := Exec(c, evs);
      var a, b := c'.nodes[i], c'.nodes[j];
      && CommittedAtLeader(c', e, i)
      && CommittedAtLeader(c', e, j)
      && (a.commitIndex <= b.commitIndex ==> a.log[..a.commitIndex + 1] == b.log[..a.commitIndex + 1])
  {
    hide *;
    EpochBasics(c, e);
    EpochKept(c, e, evs);
    SafePair(Exec(c, evs), e, i, j);
  }

  /** One state of an epoch and a later one: node i then, node j now. */
  lemma SafeLater(c: Cluster, c': Cluster, e: Epoch, i: nat, j: nat)
    requires EpochInv(c, e) && EpochInv(c', e) && Forward(e, c, c') && i < |c.nodes| && j < |c.nodes|
    ensures j < |c'.nodes|
    ensures var a, b := c.nodes[i], c'.nodes[j];
      && a.commitIndex < |a.log| && b.commitIndex < |b.log|
      && (a.commitIndex <= b.commitIndex ==> a.log[..a.commitIndex + 1] == b.log[..a.commitIndex + 1])
      && (b.commitIndex <= a.commitIndex ==> b.log[..b.commitIndex + 1] == a.log[..b.commitIndex + 1])
  {
    hide EpochInv;
    EpochBasics(c, e);
    EpochBasics(c', e);
    InvSafe(c, e, i);
    InvSafe(c', e, j);
    var a, b := c.nodes[i], c'.nodes[j];
    var l, l' := c.nodes[e.leader].log, c'.nodes[e.leader].log;
    GrownPrefix(l, l', a.commitIndex);
    if a.commitIndex <= b.commitIndex {
      PrefixesAgree(a.log, b.log, l', a.commitIndex, b.commitIndex);
    }
    if b.commitIndex <= a.commitIndex {
      PrefixesAgree(b.log, a.log, l', b.commitIndex, a.commitIndex);
    }
  }

  lemma ForwardCommit(e: Epoch, c: Cluster, c': Cluster, i: nat)
    requires Forward(e, c, c') && i < |c.nodes|
    ensures i < |c'.nodes| && c.nodes[i].commitIndex <= c'.nodes[i].commitIndex
  {
  }

  /** Committed entries are final: what node i has committed at one moment, node j still agrees with at any later
      moment, as far as it has committed. */
  lemma CommittedEntriesStay(c: Cluster, e: Epoch, evs: seq<Event>, i: nat, j: nat)
    requires EpochInv(c, e) && EpochRun(c, e, evs) && i < |c.nodes| && j < |c.nodes|
    ensures var c' := Exec(c, evs);
      var a, b := c.nodes[i], c'.nodes[j];
      && a.commitIndex <= c'.nodes[i].commitIndex
      && a.commitIndex < |a.log| && b.commitIndex < |b.log|
      && (a.commitIndex <= b.commitIndex ==> a.log[..a.commitIndex + 1] == b.log[..a.commitIndex + 1])
      && (b.commitIndex <= a.commitIndex ==> b.log[..b.commitIndex + 1] == a.log[..b.commitIndex + 1])
  {
    hide *;
    EpochBasics(c, e);
    EpochKept(c, e, evs);
    SafeLater(c, Exec(c, evs), e, i, j);
    ForwardCommit(e, c, Exec(c, evs), i);
  }

  lemma LeaderIsActive(c: Cluster, e: Epoch)
    requires EpochInv(c, e) && c.nodes[e.leader].role == Leader
    ensures Active(c, e)
  {
  }

  /** What an honest cursor of follower i means. */
  ghost predicate Honest(c: Cluster, e: Epoch, i: nat)
    requires ClusterOk(c) && e.leader < |c.nodes| && i < |c.nodes| && c.nodes[e.leader].role == Leader
  {
    var l, f := c.nodes[e.leader], c.nodes[i];
    var m, next := l.matchIndex[i], l.nextIndex[i];
    var appends, acks := Appends(c.net[(e.leader, i)]), Acks(c.net[(i, e.leader)]);
    && m < |f.log| && m < |l.log| && f.log[..m + 1] == l.log[..m + 1]
    && (next == None ==> f.log == l.log && appends == [] && acks == [])
    && (next.Some? ==> |appends| + |acks| == 1 && m < next.value < |l.log|)
    && (next.Some? && appends != [] ==> IsAppendFor(appends[0], e, l.log, next.value))
    && (next.Some? && acks != [] && acks[0].Acknowledge? && acks[0].success ==> f.log == l.log[..next.value + 1])
  }

  lemma ActiveIsHonest(c: Cluster, e: Epoch, i: nat)
    requires Active(c, e) && i < |c.nodes| && i != e.leader
    ensures Honest(c, e, i)
  {
    assert LinkInv(e, LeadOf(c, e), ViewOf(c, e, i), LinkOf(c, e, i));
  }

  /** The replication cursor is honest once the leader has entered: for each follower the log agrees with the
      leader's through the match index, and exactly one of "up to date", "append in flight", "acknowledgement in
      flight" holds. */
  lemma CursorsAreHonest(c: Cluster, e: Epoch, evs: seq<Event>, i: nat)
    requires EpochInv(c, e) && EpochRun(c, e, evs) && i < |c.nodes| && i != e.leader
    requires Exec(c, evs).nodes[e.leader].role == Leader
    ensures Honest(Exec(c, evs), e, i)
  {
    hide *;
    EpochBasics(c, e);
    EpochKept(c, e, evs);
    LeaderIsActive(Exec(c, evs), e);
    ActiveIsHonest(Exec(c, evs), e, i);
  }
}
