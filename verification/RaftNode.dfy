/** The Raft node as the program has it: an object whose methods update its
    fields, proved to do what RaftSpec says. */
module RaftNodes {
  import opened RaftProtocol
  import opened RaftSpec
  import opened RaftCluster
  import opened RaftCommit

  class RaftNode {
    const n: nat
    const me: nat
    var role: Role
    var currentTerm: nat
    var votedFor: Option<nat>
    var log: seq<Entry>
    var commitIndex: nat
    var lastAppliedIndex: nat
    var lastAppliedTerm: nat
    var nextIndex: seq<Option<nat>>
    var matchIndex: seq<nat>
    var leaderId: Option<nat>
    var clientQueue: seq<Entry>
    var votesForMe: nat
    var totalVotes: nat
    /** Messages handed to the talker. */
    var outbox: seq<Envelope>

    ghost function State(): Node
      reads this
    {
      Node(n, me, role, currentTerm, votedFor, log, commitIndex, lastAppliedIndex, lastAppliedTerm,
           nextIndex, matchIndex, leaderId, clientQueue, votesForMe, totalVotes)
    }

    /** The node has done exactly `eff` since it was in state `s` with outbox `sent`. */
    ghost predicate Did(sent: seq<Envelope>, eff: Effect)
      reads this
    {
      State() == eff.node && outbox == sent + eff.sent
    }

    constructor (n: nat, me: nat)
      ensures State() == InitNode(n, me) && outbox == []
    {
      this.n := n;
      this.me := me;
      role, currentTerm, votedFor := Follower, 1, None;
      log := [SENTINEL];
      commitIndex, lastAppliedIndex, lastAppliedTerm := 0, 0, 1;
      nextIndex := seq(n, _ => None);
      matchIndex := seq(n, _ => 0);
      leaderId, clientQueue, votesForMe, totalVotes := None, [], 0, 0;
      outbox := [];
    }

    method ClientRequest(value: string, id: int)
      modifies this
      ensures State() == Submit(old(State()), value, id) && outbox == old(outbox)
    {
      clientQueue := clientQueue + [Entry(currentTerm, value, id)];
    }

    method PauseNode()
      modifies this
      ensures State() == old(State()).(role := Paused) && outbox == old(outbox)
    {
      role := Paused;
    }

    method UnpauseNode()
      modifies this
      ensures State() == (if old(role) == Paused then old(State()).(role := Follower) else old(State()))
      ensures outbox == old(outbox)
    {
      if role == Paused {
        role := Follower;
      }
    }

    // ---- helpers ----

    method SetTerm(term: Option<nat>)
      modifies this
      ensures State() == IncrementTerm(old(State()), term) && outbox == old(outbox)
    {
      votedFor := None;
      currentTerm := if term.None? then currentTerm + 1 else term.value;
    }

    method Talk(receiver: Option<nat>, msg: Message)
      modifies this`outbox
      ensures outbox == old(outbox) + [Envelope(receiver, msg)]
    {
      outbox := outbox + [Envelope(receiver, msg)];
    }

    method CastVote(candidate: nat, granted: bool)
      modifies this
      ensures Did(old(outbox), SendVote(old(State()), candidate, granted))
    {
      Talk(Some(candidate), Vote(currentTerm, me, candidate, lastAppliedIndex, lastAppliedTerm, granted));
      votedFor := Some(candidate);
    }

    method SendAcknowledge(receiver: nat, success: bool)
      modifies this`outbox
      ensures outbox == old(outbox) + [Envelope(Some(receiver), AckMessage(State(), success))]
    {
      Talk(Some(receiver),
           Acknowledge(currentTerm, me, leaderId, lastAppliedIndex, lastAppliedTerm, commitIndex, success));
    }

    method SendAppendEntries(index: nat, term: nat, entry: Entry, receiver: nat)
      modifies this`outbox
      ensures outbox == old(outbox) + [Envelope(Some(receiver), AppendMessage(State(), index, term, entry))]
    {
      Talk(Some(receiver), AppendEntries(currentTerm, me, me, index, term, entry, commitIndex));
    }

    method Commit(index: nat, term: nat)
      modifies this
      ensures State() == CommitEntry(old(State()), index, term) && outbox == old(outbox)
      ensures lastAppliedIndex == index && lastAppliedTerm == term && commitIndex == index
    {
      lastAppliedIndex := index;
      lastAppliedTerm := term;
      commitIndex := index;
    }

    /** Appends at the end, or after the entry at prevIndex with everything behind that cut off. */
    method AppendEntry(entry: Entry, commit: bool, prevIndex: Option<nat>) returns (index: nat, term: nat)
      requires |log| >= 1
      requires prevIndex.Some? ==> prevIndex.value < |log|
      modifies this
      ensures index == (if prevIndex.Some? then prevIndex.value else old(|log|) - 1)
      ensures term == old(log)[index].term
      ensures var s1 := old(State()).(log := old(log)[..index + 1] + [entry]);
        State() == if commit then CommitEntry(s1, index, entry.term) else s1
      ensures outbox == old(outbox)
    {
      if prevIndex.None? {
        index := |log| - 1;
      } else {
        index := prevIndex.value;
        log := log[..index + 1];
      }
      term := log[|log| - 1].term;
      log := log + [entry];
      if commit {
        Commit(index, entry.term);
      }
    }

    // ---- follower ----

    /** One turn of the follower loop: at most one message, then the election timer. */
    method FollowerTurn(incoming: Option<Message>, timedOut: bool)
      requires role == Follower && NodeOk(State())
      modifies this
      ensures var eff := if incoming.Some? then FollowerOn(old(State()), incoming.value) else Effect(old(State()), []);
        Did(old(outbox), Effect(if timedOut then eff.node.(role := Standing) else eff.node, eff.sent))
    {
      match incoming {
        case None =>
        case Some(m) => FollowerReads(m);
      }
      if timedOut {
        role := Standing;
      }
    }

    method FollowerReads(m: Message)
      requires role == Follower && NodeOk(State())
      modifies this
      ensures Did(old(outbox), FollowerOn(old(State()), m))
    {
      if m.RequestVote? {
        if m.term > currentTerm {
          SetTerm(Some(m.term));
        }
        if votedFor == None && m.lastLogIndex >= lastAppliedIndex && m.lastLogTerm >= lastAppliedTerm {
          CastVote(m.sender, true);
        } else {
          CastVote(m.sender, false);
        }
      } else if m.Heartbeat? {
        if m.term > currentTerm {
          SetTerm(Some(m.term));
        }
        leaderId := Some(m.leaderId);
        if clientQueue != [] {
          var request := clientQueue[0];
          clientQueue := clientQueue[1..];
          Talk(Some(m.leaderId), Message.ClientRequest(currentTerm, me, leaderId, lastAppliedIndex, lastAppliedTerm,
                                                       request, commitIndex));
        }
      } else if m.AppendEntries? {
        if m.term < currentTerm {
          SendAcknowledge(m.leaderId, false);
        } else if !VerifyEntry(log, m.prevLogIndex, m.prevLogTerm) {
          SendAcknowledge(m.leaderId, false);
        } else {
          var _, _ := AppendEntry(m.entry, m.leaderCommit > commitIndex, Some(m.prevLogIndex));
          SendAcknowledge(m.leaderId, true);
        }
      } else if m.Committal? {
        Commit(m.prevLogIndex, m.prevLogTerm);
      }
    }

    // ---- candidate ----

    method CandidateEnters()
      requires role == Standing
      modifies this
      ensures Did(old(outbox), EnterCandidate(old(State())))
    {
      SetTerm(None);
      Talk(None, RequestVote(currentTerm, me, me, lastAppliedIndex, lastAppliedTerm));
      CastVote(me, true);
      role, votesForMe, totalVotes := Candidate, 0, 0;
    }

    /** One turn of the candidate loop; a promotion or demotion ends it before the timer is looked at. */
    method CandidateTurn(incoming: Option<Message>, timedOut: bool)
      requires role == Candidate
      modifies this
      ensures var eff := if incoming.Some? then CandidateOn(old(State()), incoming.value) else Effect(old(State()), []);
        Did(old(outbox), Effect(if timedOut && eff.node.role == Candidate then eff.node.(role := Standing)
                                else eff.node,
                                eff.sent))
    {
      if incoming.Some? {
        var m := incoming.value;
        if m.Vote? {
          if m.granted {
            votesForMe := votesForMe + 1;
          }
          totalVotes := totalVotes + 1;
          if votesForMe > n / 2 || n == 1 {
            role := Elected;
            return;
          }
        } else if m.RequestVote? {
          if m.term > currentTerm {
            SetTerm(Some(m.term));
            CastVote(m.sender, true);
            role := Follower;
            return;
          }
        } else if m.Heartbeat? {
          if m.term >= currentTerm {
            SetTerm(Some(m.term));
            leaderId := Some(m.leaderId);
            role := Follower;
            return;
          }
        }
      }
      if timedOut {
        role := Standing;
      }
    }

    // ---- leader ----

    /** A node that is up to date is sent the new entry, and its cursor waits for it. */
    method SendIfUpToDate(prevIndex: nat, prevTerm: nat, entry: Entry, i: nat)
      requires i < |nextIndex| && |log| >= 1
      modifies this
      ensures State() == old(State()).(nextIndex :=
        if old(nextIndex)[i].None? then old(nextIndex)[i := Some(|old(log)| - 1)] else old(nextIndex))
      ensures outbox == old(outbox) + if old(nextIndex)[i].None?
        then [Envelope(Some(i), AppendMessage(old(State()), prevIndex, prevTerm, entry))] else []
    {
      if nextIndex[i].None? {
        SendAppendEntries(prevIndex, prevTerm, entry, i);
        nextIndex := nextIndex[i := Some(|log| - 1)];
      }
    }

    /** The loop over all nodes of a broadcast. */
    method SendToUpToDate(prevIndex: nat, prevTerm: nat, entry: Entry)
      requires |nextIndex| == n && |log| >= 1
      modifies this
      ensures |nextIndex| == n && State() == old(State()).(nextIndex := nextIndex)
      ensures forall j :: 0 <= j < n ==>
        nextIndex[j] == if old(nextIndex)[j].None? then Some(|old(log)| - 1) else old(nextIndex)[j]
      ensures outbox == old(outbox) + Multicast(UpToDate(old(nextIndex)),
                                                AppendMessage(old(State()), prevIndex, prevTerm, entry))
    {
      ghost var s := State();
      ghost var msg := AppendMessage(s, prevIndex, prevTerm, entry);
      ghost var to := UpToDate(s.nextIndex);
      assert to[..0] == [] && Multicast([], msg) == [];
      hide Multicast, UpToDate;
      var i := 0;
      while i < n
        invariant 0 <= i <= n && |nextIndex| == n
        invariant State() == s.(nextIndex := nextIndex)
        invariant forall j :: 0 <= j < n ==>
          nextIndex[j] == if j < i && s.nextIndex[j].None? then Some(|s.log| - 1) else s.nextIndex[j]
        invariant outbox == old(outbox) + Multicast(to[..i], msg)
      {
        MulticastNext(to, i, msg);
        SendIfUpToDate(prevIndex, prevTerm, entry, i);
        i := i + 1;
      }
      assert to[..n] == to;
    }

    method BroadcastAppendEntries(entry: Entry)
      requires Shape(State())
      modifies this
      ensures Did(old(outbox), BroadcastAppend(old(State()), entry))
    {
      ghost var s := State();
      hide Multicast, BroadcastAppend, UpToDate;
      var prevIndex, prevTerm := AppendEntry(entry, false, None);
      assert s.log[..prevIndex + 1] == s.log;
      SendToUpToDate(prevIndex, prevTerm, entry);
      BroadcastAppendParts(s, entry, nextIndex);
      nextIndex := nextIndex[me := None];
      matchIndex := matchIndex[me := |log| - 1];
    }

    method BroadcastCommitEntries(index: nat)
      requires index < |log|
      modifies this
      ensures Did(old(outbox), BroadcastCommit(old(State()), index))
    {
      ghost var s := State();
      ghost var sent := outbox;
      Commit(index, log[index].term);
      ghost var s1 := State();
      var i := 0;
      while i < n
        invariant 0 <= i <= n
        invariant State() == s1
        invariant outbox == sent + Multicast(Everyone(n)[..i], CommittalMessage(s1))
      {
        MulticastNext(Everyone(n), i, CommittalMessage(s1));
        Talk(Some(i), Committal(currentTerm, me, me, lastAppliedIndex, lastAppliedTerm, commitIndex));
        i := i + 1;
      }
      assert Everyone(n)[..n] == Everyone(n);
    }

    method LeaderEnters()
      requires role == Elected && Shape(State())
      modifies this
      ensures Did(old(outbox), EnterLeader(old(State())))
    {
      hide BroadcastAppend, EnterLeader;
      Talk(None, Heartbeat(currentTerm, me, me, commitIndex));
      leaderId := Some(me);
      role := Leader;
      var committed := commitIndex;
      matchIndex := seq(n, _ => committed);
      nextIndex := seq(n, _ => None);
      EnterLeaderParts(old(State()), State());
      BroadcastAppendEntries(Entry(currentTerm, "{}", -1));
    }

    /** Move the sender's cursor, and send it the next entry if there is one. */
    method AdvanceCursor(sender: nat, success: bool)
      requires Shape(State()) && CursorsInRange(State()) && sender < n && nextIndex[sender].Some?
      modifies this
      ensures Did(old(outbox), AdvanceOnAck(old(State()), sender, success))
    {
      var k := nextIndex[sender].value;
      if success {
        matchIndex := matchIndex[sender := k];
        k := k + 1;
      } else if k != 1 {
        k := k - 1;
      }
      if k > |log| - 1 {
        nextIndex := nextIndex[sender := None];
      } else {
        nextIndex := nextIndex[sender := Some(k)];
        SendAppendEntries(k - 1, log[k - 1].term, log[k], sender);
      }
    }

    /** Commit what all nodes hold. */
    method CommitReplicated()
      requires Shape(State()) && CursorsInRange(State())
      modifies this
      ensures Did(old(outbox), CommitIfReplicated(old(State())))
    {
      var committable := SelectCommittable(matchIndex);
      assert committable <= matchIndex[me];
      if committable > commitIndex {
        BroadcastCommitEntries(committable);
      }
    }

    method LeaderReadsAck(sender: nat, success: bool)
      requires Shape(State()) && CursorsInRange(State()) && sender < n
      modifies this
      ensures Did(old(outbox), LeaderOnAck(old(State()), sender, success))
    {
      hide AdvanceOnAck, CommitIfReplicated, CursorsInRange;
      if nextIndex[sender].Some? {
        ghost var s := State();
        AckParts(s, sender, success);
        AdvanceCursor(sender, success);
        CommitReplicated();
      }
    }

    method LeaderReads(m: Message)
      requires role == Leader && NodeOk(State()) && m.sender < n
      modifies this
      ensures Did(old(outbox), LeaderOn(old(State()), m))
    {
      if m.Acknowledge? {
        LeaderReadsAck(m.sender, m.success);
      } else if m.ClientRequest? {
        BroadcastAppendEntries(m.entry);
      } else if m.RequestVote? {
        if m.term > currentTerm {
          SetTerm(Some(m.term));
          CastVote(m.sender, true);
          role := Follower;
        }
      }
    }

    method ResendOverdue(overdue: seq<bool>)
      requires Shape(State()) && CursorsInRange(State()) && |overdue| == n
      modifies this
      ensures Did(old(outbox), Effect(old(State()), Resends(old(State()), overdue)))
    {
      ghost var s := State();
      var i := 0;
      while i < n
        invariant 0 <= i <= n
        invariant State() == s
        invariant outbox == old(outbox) + Resends(s, overdue[..i])
      {
        assert overdue[..i + 1][..i] == overdue[..i];
        if overdue[i] && nextIndex[i].Some? {
          var k := nextIndex[i].value;
          SendAppendEntries(k - 1, log[k - 1].term, log[k], i);
        }
        i := i + 1;
      }
      assert overdue[..n] == overdue;
    }

    method ServeOwnClient()
      requires Shape(State())
      modifies this
      ensures Did(old(outbox), PopClient(old(State())))
    {
      if clientQueue != [] {
        var request := clientQueue[0];
        clientQueue := clientQueue[1..];
        BroadcastAppendEntries(request);
      }
    }

    /** One turn of the leader loop: heartbeat if due, resends to overdue nodes, at most one message, and, unless
        that message deposed the leader, one request of its own clients. */
    method LeaderTurn(heartbeatDue: bool, overdue: seq<bool>, incoming: Option<Message>)
      requires role == Leader && NodeOk(State()) && |overdue| == n
      requires incoming.Some? ==> incoming.value.sender < n
      modifies this
      ensures Did(old(outbox), LeaderLoop(old(State()), heartbeatDue, overdue, incoming))
    {
      hide LeaderOn, PopClient, Resends, CursorsInRange;
      ghost var s := State();
      if heartbeatDue {
        Talk(None, Heartbeat(currentTerm, me, me, commitIndex));
      }
      ResendOverdue(overdue);
      assert Did(old(outbox), Beat(s, heartbeatDue, overdue));
      if incoming.Some? {
        LeaderReadsOk(State(), incoming.value);
        LeaderReads(incoming.value);
        if role != Leader {
          return;
        }
      }
      ServeOwnClient();
    }
  }

  /** The broadcast of an entry, by the cursors that the loop over the nodes leaves. */
  lemma BroadcastAppendParts(s: Node, entry: Entry, next: seq<Option<nat>>)
    requires Shape(s) && |next| == s.n
    requires forall j :: 0 <= j < s.n ==> next[j] == if s.nextIndex[j].None? then Some(|s.log|) else s.nextIndex[j]
    ensures var prev := |s.log| - 1;
      BroadcastAppend(s, entry)
      == Effect(s.(log := s.log + [entry], nextIndex := next[s.me := None],
                   matchIndex := s.matchIndex[s.me := |s.log|]),
                Multicast(UpToDate(s.nextIndex), AppendMessage(s, prev, s.log[prev].term, entry)))
  {
    assert next[s.me := None] == AdvanceCursors(s.nextIndex, s.me, |s.log|);
  }

  /** The cursor part of an acknowledgement, then the commit part. */
  lemma AckParts(s: Node, i: nat, success: bool)
    requires Shape(s) && CursorsInRange(s) && i < s.n && s.nextIndex[i].Some?
    ensures var a := AdvanceOnAck(s, i, success);
      && Shape(a.node) && CursorsInRange(a.node)
      && var b := CommitIfReplicated(a.node);
         LeaderOnAck(s, i, success) == Effect(b.node, a.sent + b.sent)
  {
    hide CommitIfReplicated;
  }

  /** What a new leader does after its heartbeat, with the fields it has set by then. */
  lemma EnterLeaderParts(s: Node, s1: Node)
    requires Shape(s) && |s1.nextIndex| == |s1.matchIndex| == s.n
    requires s1 == s.(role := Leader, leaderId := Some(s.me), matchIndex := s1.matchIndex, nextIndex := s1.nextIndex)
    requires forall i :: 0 <= i < s.n ==> s1.matchIndex[i] == s.commitIndex && s1.nextIndex[i] == None
    ensures var b := BroadcastAppend(s1, Entry(s.term, "{}", -1));
      EnterLeader(s) == Effect(b.node, [Envelope(None, HeartbeatMessage(s))] + b.sent)
  {
    var cursors: seq<Option<nat>> := seq(s.n, _ => None);
    assert s1.matchIndex == seq(s.n, _ => s.commitIndex);
    assert s1.nextIndex == cursors;
    assert s1 == s.(role := Leader, leaderId := Some(s.me),
                    matchIndex := seq(s.n, _ => s.commitIndex), nextIndex := cursors);
  }

  /** The catch-up appends for the overdue nodes, in node order. */
  function Resends(s: Node, overdue: seq<bool>): seq<Envelope>
    requires Shape(s) && CursorsInRange(s) && |overdue| <= s.n
  {
    if overdue == [] then []
    else
      var i := |overdue| - 1;
      Resends(s, overdue[..i]) + (if overdue[i] then Resend(s, i).sent else [])
  }

  /** The timed part of a turn. */
  function Beat(s: Node, heartbeatDue: bool, overdue: seq<bool>): Effect
    requires Shape(s) && CursorsInRange(s) && |overdue| <= s.n
  {
    Effect(s, (if heartbeatDue then SendHeartbeat(s).sent else []) + Resends(s, overdue))
  }

  function Then(a: Effect, b: Effect): Effect
  {
    Effect(b.node, a.sent + b.sent)
  }

  /** The leader loop's turn, put together from the events that the cluster model has. */
  function LeaderLoop(s: Node, heartbeatDue: bool, overdue: seq<bool>, incoming: Option<Message>): Effect
    requires NodeOk(s) && s.role == Leader && |overdue| == s.n
    requires incoming.Some? ==> incoming.value.sender < s.n
  {
    var beat := Beat(s, heartbeatDue, overdue);
    match incoming
    case None => Then(beat, PopClient(s))
    case Some(m) =>
      LeaderReadsOk(s, m);
      var read := Then(beat, LeaderOn(s, m));
      if read.node.role == Leader then Then(read, PopClient(read.node)) else read
  }

  lemma LeaderReadsOk(s: Node, m: Message)
    requires NodeOk(s) && s.role == Leader && m.sender < s.n
    ensures Shape(s) && CursorsInRange(s)
    ensures NodeOk(LeaderOn(s, m).node) && LeaderOn(s, m).node.n == s.n
  {
    assert Shape(s) && CursorsInRange(s);
    hide *;
    OnIsLeaderOn(s, m);
    OnKeepsNodeOk(s, m);
    EffectOkMeans(s, On(s, m));
  }

  lemma EffectOkMeans(s: Node, eff: Effect)
    requires EffectOk(s, eff)
    ensures NodeOk(eff.node) && eff.node.n == s.n
  {
  }

  lemma OnIsLeaderOn(s: Node, m: Message)
    requires NodeOk(s) && s.role == Leader && m.sender < s.n
    ensures On(s, m) == LeaderOn(s, m)
  {
    hide LeaderOn;
  }
}
