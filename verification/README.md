# Verified model of an RPC framework and its Raft name service

The repository has two halves. A C++ RPC framework lets a client call a service by name: the client draws a request
id, registers a callback under it and queues the request; the server reads requests with one-shot descriptors and a
pool of worker threads, queues the results per connection and sends them back; the client runs the callback and gives
the id back. A Python name service keeps its tables consistent with a Raft node. The model follows the code of both,
including where it departs from the Raft paper ("In Search of an Understandable Consensus Algorithm", extended
version) and from what a reader would expect; where such a departure breaks a property, the model proves a concrete
run that shows it and the condition under which the property holds.

## The Raft node

- `RaftProtocol`, `RaftSpec`: messages, and each handler of a node as a function from a node's state to its new state
  and what it sends. `RaftNodes.RaftNode` is the object with the program's fields; each of its methods is proved to do
  what the handler function says, and `RaftLoops` that a whole turn of the leader loop is a run of the cluster.
- `RaftCluster`: nodes joined by one channel per ordered pair. Messages may be lost and reordered; timers fire at any
  moment; a node may be paused. A run is a list of events.
- `RaftReactions`, `RaftActions`: each event as it is seen from outside, as the node before and after it and as what
  joins which channel, without the handlers. `RaftRuns`: what the reactions add up to over every run. `RaftApplied`:
  what nodes take for applied in an epoch, and how they come into its term.
- `RaftElection`: votes and terms over every run. A candidate counts granted votes without looking at their term, so
  two leaders of one term are possible in every cluster of two nodes or more (`RaftForeignVotes`), even with reliable
  delivery in order. When each candidate also has the votes of that term of more than half of the nodes, at most one
  promotion per term happens.
- `RaftEpoch`: a stable epoch has one leader, no timeout, reliable channels in order, client requests of the leader's
  term, resend timers that find nothing to resend, and at its start logs that agree through a common commit index and
  satisfy log matching. `RaftBoot` proves exactly when a cluster that boots is at such a start. `RaftRepair` counts
  exactly how many acknowledgements log repair takes, `RaftRepairRun` runs it to its end, `RaftClients` balances
  client requests, `RaftCommit` is the rule by which the leader picks what it commits: it commits the minimum of the
  match indices, although the code's own comment speaks of the largest index held by a majority.
- `RaftResend`: a resend timer keeps the invariant of an epoch exactly when it finds nothing to resend.
  `RaftTwoNodes`: an ordinary election event by event, and after it one resend that makes the leader take a follower
  for up to date and commit an entry that only the leader holds.

## The RPC path

- `Guids`: the id allocator, an array heap with in-place sifting and a high-water mark. When both swaps of a level
  fire, the sift goes on only on the left, so the heap can lose its order; over a run it keeps it exactly when no
  pop does that harmfully, and then ids are drawn smallest first.
- `RpcReactor`: the server as a step system over descriptors, reactor, task queue, workers and result queues. A new
  connection may be given the number of a closed one, and then finds the closed one's result queue as it was left.
  `RpcExclusion` is what every interleaving keeps; `RpcOrder` shows that each connection is as a server that answers
  one request at a time. `RpcTurns` puts the steps of one task together. `RpcServers`, `SafeQueues`: the objects,
  whose methods are proved to be those steps.
- `RpcStale`: closing a connection does not empty its result queue, so a connection can receive the result of another
  connection's request; `RpcOrder` proves that this happens exactly when the queue was not empty at the accept.
- `RpcPath`: clients, other programs, allocator and server together. `RpcCorrelation` accounts for every id,
  `RpcCallOrder` for the order of callbacks, both for clients that are given empty result queues; `RpcWrongReply` is a
  run in which a client is not, and a callback runs on another program's result. `RpcClients`: the client's object.
- `HandlerTable`: the flat table of event handlers. `Wire`, `Frames`: parameters and messages as bytes.

## Model

| member | source | states |
|---|---|---|
| RaftReactions.YieldsToHigherTerm | namesvr/raft/raft.py:456-464 | a leader or candidate that reads a vote request of a higher term becomes a follower of that term and sends the candidate exactly one granted vote of it; a request of its own term or an older one changes nothing and is not answered |
| RaftReactions.FollowerVotes | namesvr/raft/raft.py:197-207 | a follower takes over a higher term, then grants exactly when it has not voted and the request's index and term are each not below its own last applied ones, else refuses; either answer carries its term and what it has applied |
| RaftReactions.FollowerHears | namesvr/raft/raft.py:213-223 | all that a heartbeat does to a follower, and the one client request it forwards |
| RaftReactions.HeartbeatBrings | namesvr/raft/raft.py:213-216 | after a heartbeat a follower's term is the larger one, its vote is cleared exactly when the term rose, its leader is the one named |
| RaftReactions.CandidateHears | namesvr/raft/raft.py:324-329 | a candidate gives up exactly on a heartbeat of its own term or a higher one |
| RaftReactions.CandidateCounts | namesvr/raft/raft.py:299-310 | a candidate counts every granted vote and is elected by more than half of all nodes |
| RaftReactions.FollowerAppends | namesvr/raft/raft.py:226-242 | a follower's log changes exactly when the append is not of an older term and its previous entry verifies, and the acknowledgement says so; when the leader has committed more, the place before the new entry becomes the commit index, with the new entry's term as last applied term |
| RaftReactions.FollowerCommits | namesvr/raft/raft.py:245-246 | a follower takes over the index and term of a committal, whatever its log |
| RaftReactions.Ignores | namesvr/raft/raft.py:291-329 | messages that are not for the reader's role change nothing and are not answered |
| RaftReactions.Waits | namesvr/raft/raft.py:153-172 | a node that is about to stand or to lead, or is paused, reads nothing |
| RaftActions.Boots | namesvr/raft/raft.py:28-80 | the state of a new cluster, field by field |
| RaftActions.Stands | namesvr/raft/raft.py:276-286 | a candidacy: the next term, own vote, empty tally, to every node a request with the index and term of what is applied |
| RaftActions.Enters | namesvr/raft/raft.py:364-381 | the start of a leadership: every node gets a heartbeat and the opening entry, for which every other cursor waits |
| RaftActions.LeaderReadsRequest | namesvr/raft/raft.py:448-450 | the request is appended and sent to exactly the nodes that were up to date |
| RaftActions.LeaderReadsAck | namesvr/raft/raft.py:406-445 | an acknowledgement moves the sender's cursor and brings it the next entry; the smallest match index is committed once it is above the commit index, with the term of the entry there, and told to every node; without a cursor nothing happens |
| RaftActions.Beats | namesvr/raft/raft.py:692-705 | a heartbeat goes to every node, with the leader's term and commit index |
| RaftActions.SendsAgain | namesvr/raft/raft.py:395-398 | a resend sends the entry at the cursor to that node only |
| RaftActions.ServesItself | namesvr/raft/raft.py:466-469 | the oldest own client request is treated like one that is read |
| RaftActions.Queues | namesvr/raft/raft.py:92-109 | a request is queued last, with the term of that moment |
| RaftActions.TimesOut | namesvr/raft/raft.py:331-336 | a timer makes a follower or candidate stand, and does nothing in other roles |
| RaftActions.PausesAndResumes | namesvr/raft/raft.py:132-153 | a pause stops a node in any role; only a paused node is resumed, as a follower that remembers everything |
| RaftRuns.OldTermIsOver | namesvr/raft/raft.py:316-321 | over every run, a node that has read a vote request of a higher term follows at once and is never again in its old term |
| RaftRuns.StaleAppendsAreRefused | namesvr/raft/raft.py:229-230 | over every run, once a node is in a term, an append of an older term that it reads as a follower changes nothing and is refused |
| RaftRuns.CommitGoesBackIff | namesvr/raft/raft.py:236-239 | exactly when reading an append takes the commit index back, and exactly when it takes it beyond the leader's |
| RaftTwoNodes.AppendTakesCommitBack | namesvr/raft/raft.py:236-239 | a state in which reading an append takes a commit index from 2 back to 0 |
| RaftRuns.AppliedIsCommitted | namesvr/raft/raft.py:604-620 | over every run the last applied index of every node is its commit index |
| RaftRuns.RequestsTellWhatIsApplied | namesvr/raft/raft.py:661-672 | over every run, a vote request carries the index and term of what its candidate had applied when it began to stand |
| RaftRuns.VotesGoToTheAppliedIff | namesvr/raft/raft.py:204-207 | over every run, a follower grants exactly when it has not voted in that term and the candidate, when it began to stand, had applied at least as far by index and by term |
| RaftElection.ElectionSafety | namesvr/raft/raft.py:276-329 | over every run, two promotions to leader in one term are the same event at the same node, when each candidacy counted votes of that term from more than half of the nodes, whatever other votes it counted as well (a same-term heartbeat may clear `voted_for` meanwhile) |
| RaftElection.CleanTallyHasSupport | namesvr/raft/raft.py:299-310 | a promotion whose candidate counted no vote of another term meets that condition |
| RaftTwoNodes.OrdinaryElection | namesvr/raft/raft.py:276-310 | an election without loss or reordering in which both nodes vote meets it too, and starts an epoch |
| RaftElection.NoSecondPromotion | namesvr/raft/raft.py:307-310 | a node is promoted at most once per term, with no condition on the votes |
| RaftElection.BallotDiscipline | namesvr/raft/raft.py:197-207 | a node sends at most two granted votes per term; two only if the first was for itself and it then stepped down on a heartbeat of that term |
| RaftElection.TermsNeverDecrease | namesvr/raft/raft.py:532-547 | from any state and over any events no node's term goes back |
| RaftElection.ElectionStep | namesvr/raft/raft.py:674-690 | every event keeps the election invariant: ballots, votes in flight and tallies agree with the history of granted votes |
| RaftElection.OneWinner | namesvr/raft/raft.py:296-310 | two won candidacies of one term that each have the votes of that term of more than half of the nodes are one node's, by a voter common to both majorities |
| RaftForeignVotes.ElectsItself | namesvr/raft/raft.py:299-310 | any follower of a cluster of two or more can be promoted with its own votes only, the others untouched |
| RaftForeignVotes.TwoLeadersOfOneTerm | namesvr/raft/raft.py:299-302 | in every cluster of two or more a run with reliable in-order delivery promotes two nodes in one term |
| RaftCluster.OnKeepsNodeOk | namesvr/raft/raft.py:383-469 | no message whatever makes a node's indices leave their ranges |
| RaftCluster.LeadershipStep | namesvr/raft/raft.py:395-445 | one event of a leadership: the log only grows, the commit index does not go back |
| RaftCluster.Leadership | namesvr/raft/raft.py:395-428 | throughout a leadership, under stale, repeated or resent acknowledgements, the log only grows, the commit index never goes back and every cursor is None or from 1 to the last index |
| RaftCluster.LeaderOnAckOk | namesvr/raft/raft.py:408-445 | an acknowledgement at any moment leaves all cursors in range, so every log access of catch-up and commit is |
| RaftEpoch.EpochStep | namesvr/raft/raft.py:175-471 | every event of a stable epoch, resend timers that find nothing to resend included, keeps the invariant of all links and moves commit indices and the leader's log only forward |
| RaftEpoch.EpochKept | namesvr/raft/raft.py:175-471 | the same over every run of a stable epoch |
| RaftEpoch.StateMachineSafety | namesvr/raft/raft.py:434-445 | at every moment of an epoch each commit index is within its log and at most the leader's, and any two nodes hold the same entries through the smaller of theirs |
| RaftEpoch.CommittedEntriesStay | namesvr/raft/raft.py:587-620 | what one node has committed at one moment, every node agrees with at every later moment |
| RaftEpoch.CursorsAreHonest | namesvr/raft/raft.py:408-428 | for each follower exactly one of up to date, append in flight, acknowledgement in flight; its log agrees through the match index; None means equal logs |
| RaftResend.ResendKeepsIff | namesvr/raft/raft.py:395-398 | from every state of an epoch, a resend timer keeps the epoch's invariant exactly when that node has no cursor; otherwise the follower's cursor is no longer honest |
| RaftResend.EpochRunIff | namesvr/raft/raft.py:395-398 | over every run of epoch events and any resend timers, all states keep the invariant exactly when no timer finds something to resend |
| RaftTwoNodes.ResendMakesCursorLie | namesvr/raft/raft.py:408-445 | after an ordinary election, with in-order delivery, no loss and one early resend, the follower answers the same append twice; the leader takes it for up to date and commits an entry that the follower does not hold |
| RaftEpoch.LinkAppend | namesvr/raft/raft.py:226-242 | reading the append in flight turns the link to one acknowledgement in flight that tells the truth about the follower's log |
| RaftEpoch.LinkAck | namesvr/raft/raft.py:413-428 | reading that acknowledgement leaves the follower up to date or with the next append in flight |
| RaftEpoch.LinkCommit | namesvr/raft/raft.py:654-659 | a committal is sent only for an index that the follower holds |
| RaftApplied.AppliedTermIsLogged | namesvr/raft/raft.py:604-620 | at every moment of an epoch that starts so, every node's last applied term is that of its log entry at its commit index |
| RaftApplied.CommittalsNameEntries | namesvr/raft/raft.py:645-659 | every committal on its way in such an epoch carries index and term of an entry of the leader's log |
| RaftApplied.HeartbeatBringsTheTerm | namesvr/raft/raft.py:213-216 | from the first heartbeat that a follower has read in an epoch on, it is in the epoch's term, and requests submitted there carry it |
| RaftApplied.FirstEpochStartsSo | namesvr/raft/raft.py:28-80 | the epoch of the first leader after a boot starts so |
| RaftRepair.RoundsExact | namesvr/raft/raft.py:413-421 | with p the highest index below the cursor k at which the follower's entry verifies, repair takes (k - 1 - p) refusals and then one success for each entry after p |
| RaftRepair.RoundsBound | namesvr/raft/raft.py:418-421 | at most k - 1 plus the last index: the sentinel at index 0 always verifies |
| RaftRepair.RoundsStep | namesvr/raft/raft.py:408-428 | each acknowledgement read from the follower takes exactly one round, no other event takes or adds one |
| RaftRepair.RepairConverges | namesvr/raft/raft.py:413-428 | while the leader appends nothing new, acknowledgements read plus rounds left stay the rounds at the start, at most 2M - 1 with M the last index when the cursor starts at M; none are left exactly when the cursor is None, and then the logs are equal |
| RaftRepairRun.RepairFinishes | namesvr/raft/raft.py:226-242 | from every state of an epoch in which the follower has no requests waiting, reading the two channels between it and the leader ends with equal logs after exactly the rounds that were left |
| RaftClients.BalanceStep | namesvr/raft/raft.py:219-223 | one event moves a request from queue to channel to log, and appends to the leader's log exactly what lands |
| RaftClients.RequestsAreConserved | namesvr/raft/raft.py:448-450 | over an epoch, what waited at a node followed by what was submitted there is what landed in the leader's log from it followed by what still waits, in order; the log grows by exactly what landed |
| RaftBoot.FirstLeaderStartsEpoch | namesvr/raft/raft.py:28-80 | after any boot, with any timers firing, loss and reordering, a node starts an epoch exactly when it is elected and the other nodes are followers of terms not above its own |
| RaftBoot.FirstLeaderExists | namesvr/raft/raft.py:248-251 | in every cluster of two or more any node can be that first leader, so epochs do start |
| RaftCommit.Insert | namesvr/raft/raft.py:435 | inserting keeps a descending list descending and adds exactly the element |
| RaftCommit.SortDescending | namesvr/raft/raft.py:434-435 | the match indices sorted descending, the same elements |
| RaftCommit.SelectCommittable | namesvr/raft/raft.py:434-441 | the scan, which keeps overwriting, returns the minimum of the match indices |
| RaftCommit.CommittedByAll | namesvr/raft/raft.py:439-441 | the index committed is held by every node, hence by a majority |
| RaftCommit.CommitsMajorityIndexIff | namesvr/raft/raft.py:436-441 | it is the largest index held by a majority exactly when the nodes that hold more than the slowest are no majority |
| RaftCommit.SlowestNodeHoldsBack | namesvr/raft/raft.py:437-441 | with match indices 5, 5, 0 nothing new is committed, although a majority holds 5 |
| RaftNodes.RaftNode.constructor | namesvr/raft/raft.py:28-80 | a new node is a follower of term 1 with the sentinel as its log |
| RaftNodes.RaftNode.ClientRequest | namesvr/raft/raft.py:92-109 | the request is enqueued with the term of that moment |
| RaftNodes.RaftNode.CastVote | namesvr/raft/raft.py:674-690 | a vote, granted or refused, is recorded and sent |
| RaftNodes.RaftNode.AppendEntry | namesvr/raft/raft.py:569-602 | the log is cut after the previous index and extended; the commit part only on request |
| RaftNodes.RaftNode.Commit | namesvr/raft/raft.py:604-620 | index and term become the last applied, the index the commit index |
| RaftNodes.RaftNode.FollowerReads | namesvr/raft/raft.py:189-246 | a follower's reaction to any message is that of the handler function |
| RaftNodes.RaftNode.CandidateEnters | namesvr/raft/raft.py:276-286 | a candidacy: new term, vote request, own vote |
| RaftNodes.RaftNode.CandidateTurn | namesvr/raft/raft.py:291-336 | a candidate's reaction to any message and to its timer is that of the handler functions |
| RaftNodes.RaftNode.BroadcastAppendEntries | namesvr/raft/raft.py:622-643 | the entry goes to exactly the nodes that are up to date, whose cursors then wait for it; the loop over all nodes does what the one multicast says |
| RaftNodes.RaftNode.BroadcastCommitEntries | namesvr/raft/raft.py:645-659 | the committal goes to every node, after the leader's own commit |
| RaftNodes.RaftNode.LeaderEnters | namesvr/raft/raft.py:364-381 | the start of a leadership |
| RaftNodes.RaftNode.AdvanceCursor | namesvr/raft/raft.py:413-428 | the cursor part of an acknowledgement |
| RaftNodes.RaftNode.CommitReplicated | namesvr/raft/raft.py:433-445 | the commit part, through the sort-and-count loop, is a commit of the minimum when that is new |
| RaftNodes.RaftNode.LeaderReads | namesvr/raft/raft.py:401-464 | a leader's reaction to any message is that of the handler function |
| RaftNodes.RaftNode.ResendOverdue | namesvr/raft/raft.py:395-398 | every overdue node that is not up to date gets its next entry again |
| RaftNodes.RaftNode.LeaderTurn | namesvr/raft/raft.py:383-469 | a turn of the loop: heartbeat, resends, one message, and one own request unless deposed |
| RaftLoops.LeaderTurnIsRun | namesvr/raft/raft.py:383-469 | that turn changes the cluster as its events do one after another |
| Guids.SiftDownPermutes | source/common/Guid.cc:23-48 | sifting down ends and only permutes |
| Guids.PushAdds | source/common/Guid.cc:73-92 | recycling adds the id and permutes |
| Guids.PushOrders | source/common/Guid.cc:73-92 | recycling keeps heap order |
| Guids.RestRemovesRoot | source/common/Guid.cc:15-50 | a pop takes exactly the first element |
| Guids.RootIsLeast | source/common/Guid.cc:17 | the first element of a heap in order is its least |
| Guids.PopOrdersIff | source/common/Guid.cc:22-48 | a pop leaves an ordered heap in order exactly when at each visited level that takes both swaps the left value is not above the right child's children |
| Guids.ObtainKeeps | source/common/Guid.cc:52-66 | an id drawn is new and in 1..1024; -1 exactly when 1024 are outstanding; free and outstanding ids still split 1..bound |
| Guids.ReleaseKeeps | source/common/Guid.cc:69-95 | giving back an outstanding id keeps that split |
| Guids.ObtainSmallest | source/common/Guid.cc:52-66 | from a heap in order the id drawn is the smallest that is free |
| Guids.RunKeeps | source/common/Guid.cc:52-95 | over every valid run the free and the outstanding ids split 1..bound, and the bound is the most that were ever outstanding at once |
| Guids.OrderedRunIff | source/common/Guid.cc:22-48 | over every valid run the heap is in order at every moment exactly when every pop meets the condition of `PopOrdersIff` |
| Guids.CleanRunDrawsSmallest | source/common/Guid.cc:52-66 | in such a run every id drawn is the smallest that is free at that moment |
| Guids.NotTheSmallest | source/common/Guid.cc:29-42 | popping the ordered heap 1 5 2 6 7 3 4 10 leaves one out of order, and two pops later the head is 4 while 3 is free |
| Guids.SmallestIsSkipped | source/common/Guid.cc:29-42 | a valid run from the start reaches that state: 3 is free and 4 is drawn |
| Guids.Guid.PopItem | source/common/Guid.cc:15-50 | the in-place loop is the sift-down of the model |
| Guids.Guid.GetGuid | source/common/Guid.cc:52-66 | drawing an id changes heap and bound as the model does |
| Guids.Guid.PushItem | source/common/Guid.cc:73-92 | the in-place loop is the sift-up of the model |
| Guids.Guid.RecycleGuid | source/common/Guid.cc:69-95 | giving back an id changes the heap as the model does |
| RpcExclusion.StepKeeps | source/runtime/iomodel/Poller.cc:61-112 | every event keeps: each descriptor in at most one place, every task finds what it was raised for, a line armed for output has results |
| RpcExclusion.ServerExclusion | source/server/RpcServer.cc:17-27 | over every interleaving, numbers being used again or not, each descriptor is at most one of armed, batched, queued, with a worker; the assertion on an empty result queue never fails and no read or accept finds nothing; a line armed for output has results queued, one armed for input only has none but what was left in its queue before its accept |
| RpcExclusion.AcceptArmsRightIff | source/transport/ServerTransport.cc:76-88 | an accept arms its connection for output exactly when results are queued, if and only if the number's result queue is empty |
| RpcExclusion.QueueHasRoom | include/runtime/threadmodel/SafeQueue.hh:32-45 | when a task is to be added, fewer tasks are queued than descriptors are open, so with at most 10000 open ones it is queued |
| RpcExclusion.NothingDropped | source/runtime/iomodel/Reactor.cc:5-25 | while at most 10000 descriptors are open no task is refused and every open descriptor is in exactly one place |
| RpcOrder.EventIsAct | source/server/RpcEventHandler.cc:36-125 | every event of the server is, for each connection, one act or none of a server that answers one request at a time; an accept starts it anew with what is left in the number's queue |
| RpcOrder.ConnectionOrder | source/server/RpcEventHandler.cc:78-97 | for every connection, results received followed by those on their way are what was left in the queue at its accept followed by those of the handled requests that asked for one, in order; handled requests followed by those on their way are all that came, in order |
| RpcOrder.OwnResultsIff | source/transport/ServerTransport.cc:90-99 | over every run, what a connection is sent is its own exactly when its number's result queue was empty at its accept |
| RpcStale.StaleResult | source/transport/ServerTransport.cc:90-99 | for any two requests there is a run in which the second connection on a number sent one and received the first connection's result of the other |
| SafeQueues.SafeQueue.Enqueue | include/runtime/threadmodel/SafeQueue.hh:32-45 | refused exactly when full, else appended |
| SafeQueues.SafeQueue.Dequeue | include/runtime/threadmodel/SafeQueue.hh:54-82 | gives the first element exactly when there is one, after a wait if asked to: then of what the queue holds at the wake-up, possibly nothing |
| RpcServers.ReturnValuePipe.Read | source/server/RpcEventHandler.cc:20-27 | takes the first result of the descriptor's queue, which must not be empty; the others are untouched |
| RpcServers.ReturnValuePipe.Write | source/server/RpcEventHandler.cc:29-32 | appends to the descriptor's queue, the others are untouched |
| RpcServers.Poller.AddEvent | source/runtime/iomodel/Poller.cc:114-118 | arms a new descriptor, or one whose number is used again |
| RpcServers.Poller.ModEvent | source/runtime/iomodel/Poller.cc:125-128 | re-arms one descriptor |
| RpcServers.Poller.DelEvent | source/runtime/iomodel/Poller.cc:120-123 | disarms one descriptor |
| RpcServers.RpcServer.FileDescriptorEventDone | source/server/RpcServer.cc:17-27 | re-arms for output exactly when results are queued |
| RpcServers.RpcServer.HandleReadEvent | source/server/RpcEventHandler.cc:36-98 | serving a request is four steps of a worker in the model |
| RpcServers.RpcServer.HandleWriteEvent | source/server/RpcEventHandler.cc:111-125 | sending a result is four steps of a worker; the result queue's assertion is discharged |
| RpcServers.RpcServer.HandleAccept | source/transport/ServerTransport.cc:76-88 | accepting, on any free number, is two steps: the connection is armed for input before the listener, its result queue is as it was |
| RpcServers.RpcServer.HandleCloseEvent | source/transport/ServerTransport.cc:90-99 | closing is one step, which frees the number and leaves its result queue |
| RpcServers.RpcServer.Dispatch | source/runtime/iomodel/Poller.cc:61-112 | a round over the reported descriptors is one dispatch each, close before read before write |
| RpcServers.RpcServer.AddTasks | source/runtime/iomodel/Reactor.cc:16-26 | the batch goes to the queue in order |
| RpcServers.RpcServer.WorkerTurn | source/runtime/threadmodel/ThreadPool.cc:53-68 | a worker's turn is to take the first task and do all of it |
| RpcCorrelation.StepKeeps | include/common/RpcServiceBase.hh:41-51 | every step of any thread keeps the accounting of ids, slots and callbacks |
| RpcCorrelation.OnePlace | include/common/RpcServiceBase.hh:73-82 | while fewer than 1024 ids are in use and clients are given numbers with empty result queues, every id up to the bound is in exactly one of: free, being registered, pending, in the request channel, being handled, in the result queue, in the response channel, with the reader, lost with a client that hung up; and no table is used out of range or with a callback missing |
| RpcCorrelation.AcceptAccountIff | source/transport/ServerTransport.cc:76-88 | accepting a client keeps the accounting of ids exactly when the number's result queue is empty |
| RpcCorrelation.AccountedIff | source/transport/ServerTransport.cc:76-88 | over every run with few ids in use, ids are accounted for at every moment exactly when no client was given a number with results left in its queue |
| RpcCorrelation.SlotsAreFilled | include/client/CallbacksHandler.hh:50-53 | the slot of every id on its way, and of every registered call, holds the callback of the call that drew it, at its own client |
| RpcCorrelation.CallbackRunsOnce | source/client/CallbacksHandler.cc:31-50 | under the same conditions a callback runs at most once, only after its request was queued, on what the service made of its own parameter; exactly once when its id has been given back |
| RpcWrongReply.WrongReply | source/client/CallbacksHandler.cc:31-50 | without the second condition there is, for any two parameters, a run with few ids in use in which a callback runs on what the service made of another program's parameter |
| RpcCorrelation.DrawnFitsIff | source/client/CallbacksHandler.cc:20-24 | the next id has a slot exactly when fewer than 1023 ids are in use before it is drawn |
| RpcCorrelation.TableOverflows | include/client/CallbacksHandler.hh:50-53 | with all 1024 ids in use one of them is 1024, and registering it is outside the table of 1024 slots |
| RpcCallOrder.CallbacksInOrder | source/transport/ClientTransport.cc:73-113 | under the conditions of `OnePlace` a client's callbacks run in the order in which its requests were queued, none skipped, up to where it hangs up |
| RpcClients.RpcClient.Register | include/client/CallbacksHandler.hh:50-53 | writes one slot |
| RpcClients.RpcClient.Push | source/transport/ClientTransport.cc:103-113 | queues the request and waits for output |
| RpcClients.RpcClient.CallRPCAsync | include/common/RpcServiceBase.hh:41-51 | a call is the three steps draw, register, queue; without an id nothing happens; it registers outside the table exactly when the id drawn is 1024 |
| RpcClients.RpcClient.HandleWriteEvent | source/transport/ClientTransport.cc:73-89 | sends the oldest request and stops waiting for output when none is left |
| RpcClients.RpcClient.HandleReadEvent | source/client/CallbacksHandler.cc:31-50 | reading a result is the four steps read, run the callback, clear the slot, give the id back; a failed receive does nothing |
| HandlerTable.IdOfMask | include/runtime/handlemodel/EventHandler.hh:18-23 | the id of any mask is that of close, else write, else read, else -1 |
| HandlerTable.IndexInTableIff | source/runtime/handlemodel/EventHandlerManager.cc:11-14 | an event is looked up inside the table, at its kind's entry, exactly when its mask has a known bit; a mask of 8 is looked up at -1 |
| HandlerTable.OthersDoNotMatter | source/runtime/handlemodel/EventHandlerManager.cc:61-75 | attaching and detaching for other descriptors or kinds changes nothing for this one |
| HandlerTable.EventHandlerManager.SetEventHandler | source/runtime/handlemodel/EventHandlerManager.cc:61-75 | the flat array keeps agreeing with what was last attached for each descriptor and kind |
| HandlerTable.EventHandlerManager.AttachEventHandler | source/runtime/handlemodel/EventHandlerManager.cc:48-54 | the same, and a null handler changes nothing |
| HandlerTable.EventHandlerManager.DetachEventHandler | source/runtime/handlemodel/EventHandlerManager.cc:56-59 | the same, with nothing attached afterwards |
| HandlerTable.EventHandlerManager.HandleEvent | source/runtime/handlemodel/EventHandlerManager.cc:32-46 | an event of one kind reaches the handler last attached for it; one of several kinds or none runs nothing; any other mask without a known bit reads outside the table |
| Wire.PackRoundTrip | include/common/RpcUtils.hh:14-42 | for every list of values, parsing what was packed, whatever follows it, gives what a receiver can see of each value and takes as many bytes as were packed |
| Wire.SeenIsSentIff | source/serialization/Serializer.cc:16-20 | the values that come back are those sent exactly when no string holds a NUL |
| Wire.OneRoundTrip | source/serialization/Serializer.cc:4-42 | the same for one value |
| Wire.StrCpy | source/serialization/Serializer.cc:16-20 | the copy ends with the first NUL and writes nothing beyond it |
| Wire.Serialize | source/serialization/Serializer.cc:4-22 | writes the value's bytes at the offset and nothing else, and returns their number |
| Wire.PackParam | include/common/RpcUtils.hh:37-42 | writes all values one behind the other and nothing else, and returns their length |
| Wire.Deserialize | source/serialization/Serializer.cc:24-42 | reads one value and returns how many bytes it takes |
| Wire.ParseParam | include/common/RpcUtils.hh:14-19 | reads the values of a list of types one behind the other |
| Frames.HeaderRoundTrip | include/common/RpcTypes.hh:17-25 | the 48 bytes of a header give back every field |
| Frames.HeaderLayout | include/common/RpcTypes.hh:17-25 | the offset of every field in the 48 bytes, numbers with the lowest byte first |
| Frames.FrameRoundTrip | source/server/RpcEventHandler.cc:42-65 | a header-then-body read takes exactly one frame off a stream |
| Frames.StreamRoundTrip | source/server/RpcEventHandler.cc:42-65 | frames sent one after another come apart into the messages sent |
| Frames.SentIsWholeIff | source/serialization/Serializer.cc:44-49 | a message arrives as it was exactly when its body is zero behind what is sent of it |
| Frames.ParameterArrives | include/common/RpcUtils.hh:21-48 | the service is given the call's parameter, for every parameter without NUL that fits the body, under a header with the magic number, the version, the service's name and the wish for a reply |
| Frames.SerializeMessage | source/serialization/Serializer.cc:44-49 | writes header and body as one frame and returns its length |
| Frames.ReceiveMessage | source/server/RpcEventHandler.cc:42-65 | reads header and body into the message, or reports a bad packet |

## Left out

- ElectionSafety: the condition on counted votes is sufficient, not necessary: a candidate may win on votes of other
  terms and still be the only leader of its term; that it cannot be dropped is `TwoLeadersOfOneTerm`.
- StateMachineSafety: holds within a stable epoch only. Across epochs the code does not have Leader Completeness or
  Log Matching: candidates and leaders grant votes of a higher term without a look at the log
  (`namesvr/raft/raft.py:316-321`, `namesvr/raft/raft.py:456-464`), and entries carry the term of their submission.
- CursorsAreHonest: ends with the first timer that does resend (`ResendKeepsIff`); after it only `Leadership` says
  something of the cursors.
- RepairFinishes: needs that the follower has no client requests waiting, as the leader would append them.
- Clocks: timeouts, heartbeats and resends happen at any moment; nothing is said about when an election ends.
- The fields `log_hash` and `heard_from`, the JSON form of messages, ZeroMQ and the processes around the node: messages
  are values in channels, and a node's own messages reach it through its own channel, as with the subscribing socket.
- The HTTP server in front of the node changes committed entries in place; entries are values here.
- GetGuid: popping the last element makes the code read the first element of an empty heap; the model returns before
  it sifts.
- Sockets: reads and writes are of whole frames; a send never fails; `accept` succeeds while a connection waits; error
  events, half-read packets, a wrong magic number or version and unknown services, after which the code leaves the
  descriptor unarmed, are not modelled, nor is a result lost when the socket buffer is full.
- HandleReadEvent: stands for the handler of `RpcServer` and of `RpcClient`; each is the steps of one thread with no
  other step between; the interleavings are those of the step systems.
- HandleCloseEvent: the detaching of the handlers is not part of the step; the handler table is a module of its own.
- Dispatch: error events, after which the code drops the descriptor, are not modelled.
- HandleWriteEvent: of the server: a failed send, which loses the result taken from the queue, is not modelled.
- Services: a service's output is an uninterpreted function of the parameter, computed in one step.
- CallRPCAsync: the registered callback stands for the call; the blocking call that waits for it is not modelled.
- ReceiveMessage: a body length below zero or above 480 is a bad packet; the code would read past its buffer.
- Deserialize: a string without its NUL is outside the precondition, and a type name other than the three is not
  modelled; integers are little-endian, as on the machines that the code copies bytes on; a float is its four bytes.
- Serialize: a type name other than the three, for which the code returns -1, is not modelled.
- Structured messages inside strings are strings of bytes; the fixed-size result struct is a value.
- Service reporting and discovery, the client factory, timers, logging, argument parsing and the key-value buckets.
