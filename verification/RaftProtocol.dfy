/** The vocabulary of the Raft nodes: log entries, the seven messages that
    nodes construct, and the envelopes handed to the talker process. */
module RaftProtocol {

  datatype Option<+T> = None | Some(value: T)

  /** A log entry.  The term is the submitter's term when the entry was enqueued. */
  datatype Entry = Entry(term: nat, value: string, id: int)

  /** One constructor per (type, direction) pair that a node ever sends.
      RequestVote, Heartbeat, AppendEntries and Committal are requests; the others are responses. */
  datatype Message =
    | RequestVote(term: nat, sender: nat, candidateId: nat, lastLogIndex: nat, lastLogTerm: nat)
    | Vote(term: nat, sender: nat, candidateId: nat, lastLogIndex: nat, lastLogTerm: nat, granted: bool)
    | Heartbeat(term: nat, sender: nat, leaderId: nat, leaderCommit: nat)
    | AppendEntries(term: nat, sender: nat, leaderId: nat, prevLogIndex: nat, prevLogTerm: nat,
                    entry: Entry, leaderCommit: nat)
    | Committal(term: nat, sender: nat, leaderId: nat, prevLogIndex: nat, prevLogTerm: nat, leaderCommit: nat)
    | Acknowledge(term: nat, sender: nat, knownLeader: Option<nat>, prevLogIndex: nat, prevLogTerm: nat,
                  leaderCommit: nat, success: bool)
    | ClientRequest(term: nat, sender: nat, knownLeader: Option<nat>, prevLogIndex: nat, prevLogTerm: nat,
                    entry: Entry, leaderCommit: nat)
  {
    predicate IsGrant() {
      Vote? && granted
    }
  }

  /** A message on its way out; receiver None means every subscriber, the sender included. */
  datatype Envelope = Envelope(receiver: Option<nat>, msg: Message)

  /** The messages of an outgoing batch that reach node `dst`, in order. */
  function Routed(sent: seq<Envelope>, dst: nat): (r: seq<Message>)
  {
    if sent == [] then []
    else
      var last := sent[|sent| - 1];
      Routed(sent[..|sent| - 1], dst)
      + (if last.receiver == None || last.receiver == Some(dst) then [last.msg] else [])
  }

  /** The same message addressed to each node i with to[i]. */
  function Multicast(to: seq<bool>, msg: Message): (sent: seq<Envelope>)
  {
    if to == [] then []
    else
      var i := |to| - 1;
      Multicast(to[..i], msg) + (if to[i] then [Envelope(Some(i), msg)] else [])
  }

  lemma MulticastNext(to: seq<bool>, i: nat, msg: Message)
    requires i < |to|
    ensures Multicast(to[..i + 1], msg) == Multicast(to[..i], msg) + (if to[i] then [Envelope(Some(i), msg)] else [])
  {
    assert to[..i + 1][..i] == to[..i];
  }

  lemma {:induction false} RoutedConcat(a: seq<Envelope>, b: seq<Envelope>, dst: nat)
    ensures Routed(a + b, dst) == Routed(a, dst) + Routed(b, dst)
  {
    if b == [] {
      assert a + b == a;
    } else {
      RoutedConcat(a, b[..|b| - 1], dst);
      assert (a + b)[..|a + b| - 1] == a + b[..|b| - 1];
    }
  }

  lemma {:induction false} RoutedOne(e: Envelope, dst: nat)
    ensures Routed([e], dst) == if e.receiver == None || e.receiver == Some(dst) then [e.msg] else []
  {
    assert [e][..0] == [];
    assert Routed([e][..0], dst) == [];
  }

  lemma {:induction false} RoutedMulticast(to: seq<bool>, msg: Message, dst: nat)
    ensures Routed(Multicast(to, msg), dst) == if dst < |to| && to[dst] then [msg] else []
  {
    if to != [] {
      var i := |to| - 1;
      var head := Multicast(to[..i], msg);
      var tail := if to[i] then [Envelope(Some(i), msg)] else [];
      assert Multicast(to, msg) == head + tail;
      RoutedMulticast(to[..i], msg, dst);
      assert dst < i ==> to[..i][dst] == to[dst];
      assert Routed([], dst) == [];
      hide Multicast, Routed;
      RoutedConcat(head, tail, dst);
      if to[i] {
        RoutedOne(Envelope(Some(i), msg), dst);
      }
    }
  }

  lemma {:induction false} RoutedIn(sent: seq<Envelope>, dst: nat, m: Message)
    requires m in Routed(sent, dst)
    ensures exists e :: e in sent && e.msg == m && (e.receiver == None || e.receiver == Some(dst))
  {
    var last := sent[|sent| - 1];
    if m in Routed(sent[..|sent| - 1], dst) {
      RoutedIn(sent[..|sent| - 1], dst, m);
      var e :| e in sent[..|sent| - 1] && e.msg == m && (e.receiver == None || e.receiver == Some(dst));
      assert e in sent;
    } else {
      assert last in sent;
    }
  }

  lemma {:induction false} MulticastIn(to: seq<bool>, msg: Message, e: Envelope)
    requires e in Multicast(to, msg)
    ensures e.msg == msg
  {
    var i := |to| - 1;
    if e in Multicast(to[..i], msg) {
      MulticastIn(to[..i], msg, e);
    }
  }
}
