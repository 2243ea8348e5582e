/** What one Raft node does in reaction to one input, as functions from node
    state to node state and outgoing messages. */
module RaftSpec {
  import opened RaftProtocol

  /** Standing and Elected are the moments after the role was set to candidate or leader and before the
      candidate or leader procedure starts. */
  datatype Role = Follower | Standing | Candidate | Elected | Leader | Paused

  datatype Node = Node(
    n: nat,                        // number of nodes in the cluster
    me: nat,                       // own position in the node list
    role: Role,
    term: nat,
    votedFor: Option<nat>,
    log: seq<Entry>,
    commitIndex: nat,
    lastAppliedIndex: nat,
    lastAppliedTerm: nat,
    nextIndex: seq<Option<nat>>,   // None: that node is up to date
    matchIndex: seq<nat>,
    leaderId: Option<nat>,
    queue: seq<Entry>,             // client requests not yet forwarded or appended
    votesForMe: nat,
    totalVotes: nat)

  datatype Effect = Effect(node: Node, sent: seq<Envelope>)

  const SENTINEL := Entry(1, "{}", -1)

  function InitNode(n: nat, me: nat): Node
  {
    Node(n, me, Follower, 1, None, [SENTINEL], 0, 0, 1, seq(n, _ => None), seq(n, _ => 0), None, [], 0, 0)
  }

  predicate Shape(s: Node)
  {
    && s.me < s.n
    && |s.log| >= 1
    && |s.nextIndex| == s.n
    && |s.matchIndex| == s.n
  }

  /** Every follower cursor points at an entry that has a predecessor, and the leader itself is up to date. */
  predicate CursorsInRange(s: Node)
    requires Shape(s)
  {
    && s.nextIndex[s.me] == None
    && s.matchIndex[s.me] == |s.log| - 1
    && forall i :: 0 <= i < s.n && s.nextIndex[i].Some? ==> 1 <= s.nextIndex[i].value < |s.log|
  }

  predicate NodeOk(s: Node)
  {
    Shape(s) && (s.role == Leader ==> CursorsInRange(s))
  }

  // ---- shared helpers ----

  function IncrementTerm(s: Node, term: Option<nat>): Node
  {
    s.(votedFor := None, term := if term.None? then s.term + 1 else term.value)
  }

  function VoteMessage(s: Node, candidate: nat, granted: bool): Message
  {
    Vote(s.term, s.me, candidate, s.lastAppliedIndex, s.lastAppliedTerm, granted)
  }

  /** A vote is recorded in votedFor even when it is a refusal. */
  function SendVote(s: Node, candidate: nat, granted: bool): Effect
  {
    Effect(s.(votedFor := Some(candidate)), [Envelope(Some(candidate), VoteMessage(s, candidate, granted))])
  }

  predicate VerifyEntry(log: seq<Entry>, prevIndex: nat, prevTerm: nat)
  {
    prevIndex < |log| && log[prevIndex].term == prevTerm
  }

  function CommitEntry(s: Node, index: nat, term: nat): Node
  {
    s.(lastAppliedIndex := index, lastAppliedTerm := term, commitIndex := index)
  }

  function AckMessage(s: Node, success: bool): Message
  {
    Acknowledge(s.term, s.me, s.leaderId, s.lastAppliedIndex, s.lastAppliedTerm, s.commitIndex, success)
  }

  function AppendMessage(s: Node, prevIndex: nat, prevTerm: nat, e: Entry): Message
  {
    AppendEntries(s.term, s.me, s.me, prevIndex, prevTerm, e, s.commitIndex)
  }

  function HeartbeatMessage(s: Node): Message
  {
    Heartbeat(s.term, s.me, s.me, s.commitIndex)
  }

  function CommittalMessage(s: Node): Message
  {
    Committal(s.term, s.me, s.me, s.lastAppliedIndex, s.lastAppliedTerm, s.commitIndex)
  }

  function ClientMessage(s: Node, e: Entry): Message
  {
    ClientRequest(s.term, s.me, s.leaderId, s.lastAppliedIndex, s.lastAppliedTerm, e, s.commitIndex)
  }

  // ---- follower ----

  function FollowerOn(s: Node, m: Message): Effect
  {
    match m
    case RequestVote(_, _, _, _, _) => FollowerOnRequestVote(s, m)
    case Heartbeat(_, _, _, _) => FollowerOnHeartbeat(s, m)
    case AppendEntries(_, _, _, _, _, _, _) => FollowerOnAppend(s, m)
    case Committal(_, _, _, _, _, _) => Effect(CommitEntry(s, m.prevLogIndex, m.prevLogTerm), [])
    case _ => Effect(s, [])
  }

  function FollowerOnRequestVote(s: Node, m: Message): Effect
    requires m.RequestVote?
  {
    var s1 := if m.term > s.term then IncrementTerm(s, Some(m.term)) else s;
    SendVote(s1, m.sender,
             s1.votedFor == None && m.lastLogIndex >= s1.lastAppliedIndex && m.lastLogTerm >= s1.lastAppliedTerm)
  }

  /** A heartbeat also makes the follower forward one client request to the leader it names. */
  function FollowerOnHeartbeat(s: Node, m: Message): Effect
    requires m.Heartbeat?
  {
    var s1 := if m.term > s.term then IncrementTerm(s, Some(m.term)) else s;
    var s2 := s1.(leaderId := Some(m.leaderId));
    if s2.queue == [] then Effect(s2, [])
    else Effect(s2.(queue := s2.queue[1..]), [Envelope(Some(m.leaderId), ClientMessage(s2, s2.queue[0]))])
  }

  function FollowerOnAppend(s: Node, m: Message): Effect
    requires m.AppendEntries?
  {
    if m.term < s.term || !VerifyEntry(s.log, m.prevLogIndex, m.prevLogTerm) then
      Effect(s, [Envelope(Some(m.leaderId), AckMessage(s, false))])
    else
      var s1 := s.(log := s.log[..m.prevLogIndex + 1] + [m.entry]);
      var s2 := if m.leaderCommit > s.commitIndex then CommitEntry(s1, m.prevLogIndex, m.entry.term) else s1;
      Effect(s2, [Envelope(Some(m.leaderId), AckMessage(s2, true))])
  }

  // ---- candidate ----

  function EnterCandidate(s: Node): Effect
  {
    var s1 := IncrementTerm(s, None);
    var vote := SendVote(s1, s1.me, true);
    Effect(vote.node.(role := Candidate, votesForMe := 0, totalVotes := 0),
           [Envelope(None, RequestVote(s1.term, s1.me, s1.me, s1.lastAppliedIndex, s1.lastAppliedTerm))] + vote.sent)
  }

  /** Votes are counted without looking at their term or their sender. */
  function CandidateOn(s: Node, m: Message): Effect
  {
    match m
    case Vote(_, _, _, _, _, granted) =>
      var s1 := s.(votesForMe := s.votesForMe + (if granted then 1 else 0), totalVotes := s.totalVotes + 1);
      Effect(if s1.votesForMe > s1.n / 2 || s1.n == 1 then s1.(role := Elected) else s1, [])
    case RequestVote(_, _, _, _, _) =>
      if m.term > s.term then
        var vote := SendVote(IncrementTerm(s, Some(m.term)), m.sender, true);
        Effect(vote.node.(role := Follower), vote.sent)
      else Effect(s, [])
    case Heartbeat(_, _, _, _) =>
      if m.term >= s.term then
        Effect(IncrementTerm(s, Some(m.term)).(leaderId := Some(m.leaderId), role := Follower), [])
      else Effect(s, [])
    case _ => Effect(s, [])
  }

  // ---- leader ----

  function UpToDate(next: seq<Option<nat>>): (r: seq<bool>)
    ensures |r| == |next|
    ensures forall i :: 0 <= i < |next| ==> r[i] == next[i].None?
  {
    seq(|next|, i requires 0 <= i < |next| => next[i].None?)
  }

  function Everyone(n: nat): (r: seq<bool>)
    ensures |r| == n
    ensures forall i :: 0 <= i < n ==> r[i]
  {
    seq(n, _ => true)
  }

  /** Cursors after a broadcast: nodes that were up to date now wait for the entry at `last`. */
  function AdvanceCursors(next: seq<Option<nat>>, me: nat, last: nat): (r: seq<Option<nat>>)
    ensures |r| == |next|
    ensures forall i :: 0 <= i < |next| ==>
      r[i] == if i == me then None else if next[i].None? then Some(last) else next[i]
  {
    seq(|next|, i requires 0 <= i < |next| =>
      if i == me then None else if next[i].None? then Some(last) else next[i])
  }

  function BroadcastAppend(s: Node, e: Entry): Effect
    requires Shape(s)
  {
    var prev := |s.log| - 1;
    var msg := AppendMessage(s, prev, s.log[prev].term, e);
    Effect(s.(log := s.log + [e],
              nextIndex := AdvanceCursors(s.nextIndex, s.me, |s.log|),
              matchIndex := s.matchIndex[s.me := |s.log|]),
           Multicast(UpToDate(s.nextIndex), msg))
  }

  function BroadcastCommit(s: Node, index: nat): Effect
    requires index < |s.log|
  {
    var s1 := CommitEntry(s, index, s.log[index].term);
    Effect(s1, Multicast(Everyone(s1.n), CommittalMessage(s1)))
  }

  function EnterLeader(s: Node): Effect
    requires Shape(s)
  {
    var s1 := s.(role := Leader, leaderId := Some(s.me),
                 matchIndex := seq(s.n, _ => s.commitIndex), nextIndex := seq(s.n, _ => None));
    var b := BroadcastAppend(s1, Entry(s.term, "{}", -1));
    Effect(b.node, [Envelope(None, HeartbeatMessage(s))] + b.sent)
  }

  function Minimum(xs: seq<nat>): (m: nat)
    requires xs != []
    ensures m in xs
    ensures forall i :: 0 <= i < |xs| ==> m <= xs[i]
  {
    var x := xs[|xs| - 1];
    if |xs| == 1 then x
    else
      var m := Minimum(xs[..|xs| - 1]);
      if x < m then x else m
  }

  /** The append that node i is waiting for. */
  function CatchUp(s: Node, i: nat): Envelope
    requires Shape(s) && i < s.n && s.nextIndex[i].Some? && 1 <= s.nextIndex[i].value < |s.log|
  {
    var k := s.nextIndex[i].value;
    Envelope(Some(i), AppendMessage(s, k - 1, s.log[k - 1].term, s.log[k]))
  }

  /** The cursor part of an acknowledgement from node i, and the next append for it. */
  function AdvanceOnAck(s: Node, i: nat, success: bool): Effect
    requires Shape(s) && CursorsInRange(s)
    requires i < s.n && s.nextIndex[i].Some?
  {
    var k := s.nextIndex[i].value;
    var s1 := if success then s.(matchIndex := s.matchIndex[i := k]) else s;
    var k1 := if success then k + 1 else if k != 1 then k - 1 else k;
    if k1 > |s.log| - 1 then
      Effect(s1.(nextIndex := s.nextIndex[i := None]), [])
    else
      var s2 := s1.(nextIndex := s.nextIndex[i := Some(k1)]);
      Effect(s2, [CatchUp(s2, i)])
  }

  /** Commit the smallest match index once it is above the commit index. */
  function CommitIfReplicated(s: Node): Effect
    requires Shape(s) && CursorsInRange(s)
  {
    var committable := Minimum(s.matchIndex);
    assert committable <= s.matchIndex[s.me];
    if committable > s.commitIndex then BroadcastCommit(s, committable) else Effect(s, [])
  }

  function LeaderOnAck(s: Node, i: nat, success: bool): Effect
    requires Shape(s) && CursorsInRange(s)
    requires i < s.n
  {
    if s.nextIndex[i].None? then Effect(s, [])
    else
      var a := AdvanceOnAck(s, i, success);
      var b := CommitIfReplicated(a.node);
      Effect(b.node, a.sent + b.sent)
  }

  function LeaderOn(s: Node, m: Message): Effect
    requires Shape(s) && CursorsInRange(s)
    requires m.sender < s.n
  {
    match m
    case Acknowledge(_, _, _, _, _, _, success) => LeaderOnAck(s, m.sender, success)
    case ClientRequest(_, _, _, _, _, e, _) => BroadcastAppend(s, e)
    case RequestVote(_, _, _, _, _) =>
      if m.term > s.term then
        var vote := SendVote(IncrementTerm(s, Some(m.term)), m.sender, true);
        Effect(vote.node.(role := Follower), vote.sent)
      else Effect(s, [])
    case _ => Effect(s, [])
  }

  function SendHeartbeat(s: Node): Effect
  {
    Effect(s, [Envelope(None, HeartbeatMessage(s))])
  }

  function Resend(s: Node, i: nat): Effect
    requires Shape(s) && CursorsInRange(s)
    requires i < s.n
  {
    Effect(s, if s.nextIndex[i].Some? then [CatchUp(s, i)] else [])
  }

  function PopClient(s: Node): Effect
    requires Shape(s)
  {
    if s.queue == [] then Effect(s, [])
    else BroadcastAppend(s.(queue := s.queue[1..]), s.queue[0])
  }

  // ---- any role ----

  function Submit(s: Node, value: string, id: int): Node
  {
    s.(queue := s.queue + [Entry(s.term, value, id)])
  }

  /** The reaction of a node that reads one message in its present role. */
  function On(s: Node, m: Message): Effect
    requires NodeOk(s) && m.sender < s.n
  {
    match s.role
    case Follower => FollowerOn(s, m)
    case Candidate => CandidateOn(s, m)
    case Leader => LeaderOn(s, m)
    case _ => Effect(s, [])
  }
}
