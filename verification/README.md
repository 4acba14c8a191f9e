# rUniversalDB, modelled and verified

rUniversalDB is a distributed SQL database. This project models its hardest logic in Dafny and proves
properties of it that span whole runs, whole trees and all inputs.

- **Consensus.** `Paxos*.dfy`: the multi-Paxos driver as an object whose handlers are proved against
  functions on its state, a group of such drivers joined by FIFO channels, and theorems about every run.
  Rounds wrap as 32-bit numbers and may collide. What must not happen is in `PaxosTheorems.dfy`, what
  happens as soon as more than half of the members are heard in `PaxosMajorities.dfy`, and what can be
  brought about by more than half of them in `PaxosLiveness.dfy` and `PaxosStalls.dfy`, by a leader for one
  that has fallen behind in `PaxosCatchUp.dfy`; `PaxosHeartbeats.dfy` has when a leader is given up.
- **Atomic commitment.** `TwoPC*.dfy`: the containers of Paxos2PC as objects, and one query running
  between the groups of its transaction manager and resource managers. Any number of leaderships of a
  group may be acting at once, each as far along the group's log as it happens to be; only the newest can
  extend the log, which is what `PaxosTheorems.LogLeadership` says. A message is delivered only to the
  leadership it is addressed to and only while that leadership's leader map names the sender's, in order
  and perhaps never; that is what `NetworkTheorems` proves of the network filter. Each resource manager
  has a log and leaderships of its own: managers of one group are the runs in which those change together.
  Safety is in `TwoPCTheorems.dfy`; `TwoPCCompletion.dfy` says that nobody is left waiting once nothing is
  under way, `TwoPCCommits.dfy` that a query can commit, and `TwoPCRecovery.dfy` that no state is a dead end.
- **Network filter and endpoint buffer.** `NetworkDriver.dfy`, `NetworkTheorems.dfy`, `NodeBuffer.dfy`.
- **Joins.** `JoinTables.dfy` evaluates a join node as the code does, against the join of two bags
  (`JoinBags.dfy`); `JoinPlans.dfy` has the dependencies between the sides of a join and
  the case of the evaluator they lead to; `JoinTrees.dfy`, `JoinLaws.dfy`, `PushDown.dfy`, `MoveDown.dfy`,
  `JoinScopes.dfy`, `JoinOptimizer.dfy` and `RuleTwo.dfy` cover trees under such dependencies and the
  push-down of conjunctions; `JoinVerdicts.dfy` ties the evaluator's verdicts to those of the trees.
- **Expressions and regions.** `Expressions.dfy`, `ExpressionLaws.dfy`, `Bounds.dfy`, `KeyRegions.dfy`, `Regions.dfy`,
  `Sharding.dfy`.
- **Batched subqueries.** `Batching.dfy`.
- **Versioned metadata.** `Timestamps.dfy`, `MultiVersion.dfy`, `SchemaViews.dfy`,
  `SchemaViewObjects.dfy`, `Metadata.dfy`, `MetadataViews.dfy`, `Scheduler.dfy`, and `MasterRuns.dfy`,
  where the scheduler and the metadata run together. There an operation that a change of leadership drops before its entry is in
  the log is one that leaves; those in the log stay.

Clocks, random numbers and the contents of tables are parameters. A map that the code goes through in the
order of its keys is given as a list or gone through in any order.

Where the code and its comments differ, the model follows the code: the comment at `src/paxos.rs:160-161`
speaks of the maximum of the remote indices, the code takes the minimum; the evaluator says that an OUTER
join never has a dependency between its children (`src/join_read_es.rs:744-745`), but `validate_lateral`
lets a LATERAL leaf stand under one. `JoinOptimizer.Plan` proves that this is the only exception.

In `NodeBuffer.dfy` the accepted endpoints are a function of the messages delivered. Timer and back messages
go to the server past `handle_msg` (`src/node.rs:663-670`, `src/node.rs:707-710`); they never change
`get_eids`, without which the order of held messages could be lost.

## Model

| member | source | states |
|---|---|---|
| `PaxosTheorems.Agreement` | src/paxos.rs:454-673 | In every run of a fixed group over FIFO channels, any two nodes that hold a learned value for the same index, at any two moments, and any two logs at that index, have the same entry, whichever message the value came from. |
| `PaxosTheorems.OneAcceptPerRound` | src/paxos.rs:475-517 | Although rounds are random and may collide, all Accept messages ever sent for one index and round carry one value and come from one proposer. |
| `PaxosMajorities.AcceptsAreBacked` | src/paxos.rs:475-517 | In every run an Accept for an index and a round has been sent to every member exactly if promises for it from more than half of the members were counted, with 2 times the count above the number of members; and where one member was sent one, all were. |
| `PaxosMajorities.HalfTeaches` | src/paxos.rs:518-582 | In every run a learner that has taken in Learns of one round from more than half of the members, and that voted in that round or a later one, holds a learned value, and its log holds it too. |
| `PaxosLiveness.Progress` | src/paxos.rs:392-996 | If proposal_increment is more than 1, which `PaxosStalls.ProgressExactly` shows to be necessary: for every set of more than half of the members and every sequence of bundles there is a run, all of whose events happen at members of the set, after which each of their logs is exactly that sequence if the first leader is in the set; if it is not, they have first made one of themselves the leader. |
| `PaxosStalls.ProgressExactly` | src/paxos.rs:946-955 | With the first leader in the set, such a run exists exactly if proposal_increment is more than 1. |
| `PaxosStalls.NothingIsAppended` | src/paxos.rs:946-955 | With an increment of 1 every round is 0, nobody promises round 0, and no log of any run ever holds an entry. |
| `PaxosLiveness.Replaces` | src/paxos.rs:854-888 | More than half of the members, if they hold the same log and miss the heartbeats of a leader outside their set, reach a state in which one of them leads, its LeaderChanged being the only new entry. |
| `PaxosProgress.RoundCompletes` | src/paxos.rs:454-582 | A round that nobody disturbs takes more than half of the members from the Prepare to the delivered value, message by message. |
| `PaxosCatchUp.CatchUp` | src/paxos.rs:591-673 | Whatever a run has done: if a node is leader in its last state, the run can go on with events at that node and one given member alone until the log of the member begins with everything that was in the log of the leader. |
| `PaxosCatchUp.InformCatchesUp` | src/paxos.rs:591-628 | Who is told of learned rounds up to an index reaches the index, or asks for the log from an index that it has reached. |
| `PaxosCatchUp.SyncCatchesUp` | src/paxos.rs:646-673 | Who adopts the log from an index that it has reached gets to the end of what it adopts. |
| `PaxosHeartbeats.HeartbeatsAreMissed` | src/paxos.rs:583-590 | In every run the count of heartbeats of a member is how often its timer ran out while it followed somebody else, since it last heard from its leader or got another one. |
| `PaxosHeartbeats.ChallengersHaveWaited` | src/paxos.rs:854-888 | In every run each LeaderChanged entry was put forward by its leader, whose log ended there, when its timer ran out after it had missed as many heartbeats in a row as the threshold. |
| `PaxosHeartbeats.PromisesToLeaders` | src/paxos.rs:414-429 | In every run a member that never missed more heartbeats than the threshold has promised something to those alone that its log knows to have been leaders. |
| `PaxosHeartbeats.RemoteIsLargest` | src/paxos.rs:684-695 | In every run the index recorded for a member is the largest that it has confirmed so far, and 0 if none. |
| `PaxosHeartbeats.KeptExactly` | src/paxos.rs:684-714 | Of the indices that are in its log, a node keeps exactly those that some member has not confirmed. |
| `PaxosQuorums.PromiseAsks` | src/paxos.rs:475-517 | A promise that takes the count above half of the members makes the proposer ask all of them, and no other promise makes it ask anybody. |
| `PaxosQuorums.CountSound` | src/paxos.rs:551-582 | Counting a Learn keeps known the lowest round that more than half accepted, and keeps learned whatever the own vote then decides. |
| `PaxosQuorums.EventAnswers` | src/paxos.rs:392-996 | Every event keeps this, and asks for acceptance exactly where the count of promises comes to be above half. |
| `PaxosTheorems.LearnsCountAcceptors` | src/paxos.rs:551-582 | In every run a learner's count for a round is exactly the number of members whose Learn for it has been received and does not wait in the buffer: none is counted twice and none is lost. |
| `PaxosTheorems.PromisesCountAcceptors` | src/paxos.rs:475-500 | The promises collected for a proposal are promises received from that many distinct acceptors. |
| `PaxosCounting.HeardExactly` | src/paxos.rs:432-453 | In one state: who is counted is who was received, without those in the buffer. |
| `PaxosCounting.HandleRetains` | src/paxos.rs:392-742 | Whatever a node handles, no Learn it counted or buffered is lost before every member is past the index, and a Learn it handles is taken in. |
| `PaxosCounting.EventTallies` | src/paxos.rs:392-996 | Every event of the group keeps the count of each node at the number of received Learns. |
| `PaxosTheorems.NeverPanics` | src/paxos.rs:392-996 | No handler, run from any reachable state, meets a missing instance, a purged index or an absent value that it unwraps. |
| `PaxosTheorems.Retention` | src/paxos.rs:258-266 | Every index from min_complete_index up to next_index keeps its learned value, so LogSyncRequest and InformLearned never meet a purged index. |
| `PaxosTheorems.LogLeadership` | src/paxos.rs:743-812 | The k-th LeaderChanged entry of a log carries generation k, and every Bundle was proposed by the leader of the prefix before it. |
| `PaxosTheorems.InsertionHasOneIndex` | src/paxos.rs:794-852 | Any two events that propose for one call of insert_bundle, the call itself and its retries, propose one value at one index. |
| `PaxosTheorems.BundleHasOneIndex` | src/paxos.rs:794-852 | If inserted bundles differ pairwise, a bundle stands at one index at most, in the logs of all nodes at all moments. |
| `PaxosTheorems.GenerationIsChanges` | src/paxos.rs:766-790 | A node's leadership generation is the number of LeaderChanged entries in its log. |
| `PaxosTheorems.EntryWasLegit` | src/paxos.rs:925-955 | Every entry of a log was put forward by an event whose node stood at that index and, for a bundle, was leader there. |
| `PaxosTheorems.RunHistories` | src/paxos.rs:392-996 | Every run has a history of promises, choices and acceptances that explains all node states and all messages. |
| `PaxosSafety.EventKeeps` | src/paxos.rs:392-996 | Every event keeps the invariant that ties node states and channels to the history. |
| `PaxosBallots.ChosenIsStable` | src/paxos.rs:475-501 | Once a majority accepted a round, every higher round can only choose the same value. |
| `PaxosBallots.DecisionsAgree` | src/paxos.rs:551-582 | Values decided at two rounds are equal. |
| `PaxosBallots.AcceptedAboveIsDecision` | src/paxos.rs:566-582 | A value accepted at or above a decided round is the decided value, so a learner may adopt its own vote. |
| `PaxosSlots.RoundIsUnused` | src/paxos.rs:946-955 | A promise that can still be counted means the round has not been used for a choice. |
| `PaxosSlots.ChoiceIsSound` | src/paxos.rs:481-501 | The value picked from a majority of promises is that of the highest vote among them. |
| `PaxosSlots.BestVoteIsHighest` | src/paxos.rs:481-491 | The search over promises finds a vote of highest round, if there is any. |
| `PaxosNode.MinOverIsMinimum` | src/paxos.rs:258-266 | The smallest of the remote indices and the own one is a lower bound that is attained. |
| `PaxosDriver.Driver.HandlePaxosMessage` | src/paxos.rs:392-404 | Handles a message and then the buffered ones; the new state, the messages and the delivered entries are those of the specification. |
| `PaxosDriver.Driver.HandlePaxosMessageInternal` | src/paxos.rs:406-714 | Dispatches a message to its handler as specified. |
| `PaxosDriver.Driver.HandlePrepare` | src/paxos.rs:455-474 | Updates the promised round in place and answers as specified. |
| `PaxosDriver.Driver.HandlePromise` | src/paxos.rs:475-517 | Counts a promise and, with the one that is more than half, sends an Accept to every node. |
| `PaxosDriver.Driver.HandleAccept` | src/paxos.rs:518-550 | Accepts, possibly learns, and broadcasts Learn as specified. |
| `PaxosDriver.Driver.HandleLearn` | src/paxos.rs:551-582 | Counts a Learn and, with the one that is more than half, adopts the own vote if it is high enough. |
| `PaxosDriver.Driver.HandleInformLearned` | src/paxos.rs:591-628 | Learns informed indices one after the other and asks for the log if it falls behind. |
| `PaxosDriver.Driver.HandleLogSyncResponse` | src/paxos.rs:646-673 | Adopts the entries of the response and delivers them. |
| `PaxosDriver.Driver.HandleNextIndexResponse` | src/paxos.rs:684-695 | Records a remote index and purges what everyone has. |
| `PaxosDriver.Driver.HandleBufferedMessages` | src/paxos.rs:716-742 | Drains the buffered messages; the loop ends. |
| `PaxosDriver.Driver.DeliverLearnedEntries` | src/paxos.rs:743-792 | Appends every learned entry that is next, updating index and leader. |
| `PaxosDriver.Driver.MinCompleteIndex` | src/paxos.rs:258-266 | Computes the specified minimum by a loop. |
| `PaxosDriver.Driver.ChooseValue` | src/paxos.rs:481-491 | Finds the highest vote by a loop. |
| `PaxosDriver.Driver.ProposeNextIndex` | src/paxos.rs:925-971 | Starts a round at or above the latest one, wrapping as a 32-bit number, at the next index. |
| `PaxosDriver.Driver.Insert` | src/paxos.rs:794-816 | Remembers the bundle and proposes it. |
| `PaxosDriver.Driver.Retry` | src/paxos.rs:836-852 | Proposes the remembered bundle again if it is still the one. |
| `PaxosDriver.Driver.Heartbeat` | src/paxos.rs:854-888 | Broadcasts as a leader, or runs for leadership when the heartbeat ran out. |
| `PaxosDriver.Driver.NextIndexTick` | src/paxos.rs:890-912 | Asks every node for its next index. |
| `PaxosDriver.Driver.InformAll` | src/paxos.rs:973-996 | Tells every node the rounds of the indices it lacks. |
| `TwoPCTheorems.Atomicity` | src/paxos2pc_tm.rs:299-345 | In every run, with any leader changes on either side, if one resource manager's log commits then every one has prepared and none aborts. |
| `TwoPCTheorems.AcceptedRefusalIsFinal` | src/paxos2pc_rm.rs:547-618 | A resource manager whose Aborted reply was accepted never inserts Prepared afterwards. |
| `TwoPCTheorems.DecisionsAgree` | src/paxos2pc_tm.rs:299-370 | No two leaderships of the transaction manager decide differently. |
| `TwoPCTheorems.DecisionsMatchLogs` | src/paxos2pc_tm.rs:299-370 | What the transaction manager decided agrees with every resource manager's log. |
| `TwoPCCompletion.DecisionsAreTold` | src/paxos2pc_tm.rs:299-370 | In every run a step that adds a decision adds one message, Commit or Abort as decided, on the link to the leadership known of each resource manager, none on any other link, and leaves no execution behind. |
| `TwoPCCompletion.Completion` | src/paxos2pc_tm.rs:239-487 | In every run, in a state where the current leaderships know each other and have nothing left to deliver, to begin or to insert: if it was decided to commit then every log is Prepared, Committed; if it was decided to abort no log stays at Prepared; without a decision no log has prepared; and the transaction manager waits for nobody. |
| `TwoPCCompletion.AllOrNone` | src/paxos2pc_tm.rs:239-487 | In such a state all logs have committed, or none has and none is left prepared. |
| `TwoPCRecovery.NoDeadEnd` | src/paxos2pc_rm.rs:164-618 | Every run of a query can go on, by one more change of leadership on every side, to a state in which all logs have committed, or none has and none is left prepared, whatever the leaderships before left behind. |
| `TwoPCCommits.CanCommit` | src/paxos2pc_rm.rs:164-371 | For every query with a resource manager there is a run without leader changes that ends with the decision to commit and with Prepared, Committed in every log. |
| `TwoPCProgress.StepLive` | src/paxos2pc_tm.rs:239-487 | Every event keeps, for every pair of leaderships: whoever has not answered is being asked or its answer is under way, whoever has prepared is known of or was told, and whoever was told to commit has prepared. |
| `TwoPCCells.ReceivedCell` | src/paxos2pc_rm.rs:547-618 | A message that reaches a resource manager keeps this for the link that it came over. |
| `TwoPCCells.VerdictCell` | src/paxos2pc_tm.rs:319-370 | So does a decision, since it is told to the leadership that is known. |
| `TwoPCCells.ResentCell` | src/paxos2pc_tm.rs:390-415 | So does asking a new leadership what the old one has not answered. |
| `TwoPCTheorems.LogsAreLegal` | src/paxos2pc_rm.rs:277-345 | A log holds nothing, Prepared, or Prepared and then one of Committed and Aborted. |
| `TwoPCTheorems.InsertionsFindTheirExecution` | src/paxos2pc_rm.rs:507-543 | The insertion of an entry always finds the execution it unwraps, and is never ignored. |
| `TwoPCTheorems.SnapshotIsFollower` | src/paxos2pc_rm.rs:424-448 | reconfig_snapshot gives what a follower knows, and what losing the leadership leaves. |
| `TwoPCTheorems.StepKeeps` | src/paxos2pc_rm.rs:507-618 | Every event of the groups and the network keeps the invariant, and no manager that cannot prepare any more comes back. |
| `TwoPCManagerSteps.RefusalKills` | src/paxos2pc_tm.rs:347-370 | When a refusal is accepted, nothing in flight and no later leadership can make that manager prepare. |
| `TwoPCManagerSteps.CommitIsUnanimous` | src/paxos2pc_tm.rs:319-345 | A commit is decided only when every manager's log holds Prepared. |
| `TwoPCManagerSteps.NothingInFlight` | src/paxos2pc_tm.rs:390-415 | Prepare is the first message on a link, so after one delivery no Prepare is left on it. |
| `TwoPCInvariant.Initially` | src/paxos2pc_tm.rs:248-273 | The initial state satisfies the invariant. |
| `TwoPCResourceSteps.ExpectedEntry` | src/paxos2pc_rm.rs:277-345 | Inserting the entry a leader waits for moves leader and follower to corresponding states. |
| `TwoPCResourceSteps.MessageQuiet` | src/paxos2pc_rm.rs:547-618 | A message changes what a leader expects exactly by what it pushes, and nothing a follower knows. |
| `TwoPCGroups.Promotion` | src/paxos2pc_rm.rs:394-422 | The state in which a new leader starts agrees with the log and claims nothing more. |
| `TwoPCServers.RMServer.Receive` | src/paxos2pc_rm.rs:547-618 | A message to the container changes the execution of its query as specified and no other. |
| `TwoPCServers.RMServer.HandleRMMsg` | src/paxos2pc_rm.rs:547-618 | Dispatches to the handlers, which update the execution, push entries and send. |
| `TwoPCServers.RMServer.HandleRMPlm` | src/paxos2pc_rm.rs:507-543 | Inserts an entry at a leader or a follower as specified. |
| `TwoPCServers.RMServer.HandlePrepare` | src/paxos2pc_rm.rs:164-179 | Answers Prepared again only in the prepared state. |
| `TwoPCServers.RMServer.HandleCommit` | src/paxos2pc_rm.rs:181-201 | Pushes Committed only in the prepared state. |
| `TwoPCServers.RMServer.HandleAbort` | src/paxos2pc_rm.rs:203-231 | Exits, defers or pushes Aborted depending on the state. |
| `TwoPCServers.RMServer.HandleCheckPrepared` | src/paxos2pc_rm.rs:233-273 | Answers Wait, Prepared or Aborted depending on the state. |
| `TwoPCServers.RMServer.HandlePreparedPlm` | src/paxos2pc_rm.rs:277-309 | Tells the transaction manager, informing a new one. |
| `TwoPCServers.RMServer.StartInsertingPrepared` | src/paxos2pc_rm.rs:349-371 | Pushes Prepared once. |
| `TwoPCServers.RMServer.RemoteLeaderChanged` | src/paxos2pc_rm.rs:373-392 | Informs the new leadership of the transaction manager. |
| `TwoPCServers.RMServer.LeaderChanged` | src/paxos2pc_rm.rs:394-422 | Gains or loses leadership as specified. |
| `TwoPCServers.TMServer.Begin` | src/paxos2pc_tm.rs:248-273 | Sends Prepare to every manager and remembers each message. |
| `TwoPCServers.TMServer.Recover` | src/paxos2pc_tm.rs:275-294 | Sends CheckPrepared to every manager and remembers each message. |
| `TwoPCServers.TMServer.HandlePrepared` | src/paxos2pc_tm.rs:319-345 | Takes the manager off the list and, when it is empty, commits and tells every manager. |
| `TwoPCServers.TMServer.HandleAborted` | src/paxos2pc_tm.rs:347-370 | Tells every manager to abort and exits. |
| `TwoPCServers.TMServer.HandleTMMsg` | src/paxos2pc_tm.rs:439-487 | Dispatches a reply; an unknown query that is announced as prepared is recovered. |
| `TwoPCServers.TMServer.RemoteLeaderChanged` | src/paxos2pc_tm.rs:390-415 | Asks again exactly the managers of the group that have not answered. |
| `NetworkDriver.NetworkDriver.Receive` | src/network_driver.rs:41-124 | Delivers, buffers or drops a message by generation, and asks for a leader change as specified. |
| `NetworkDriver.NetworkDriver.DeliverBlockedMessages` | src/network_driver.rs:127-155 | Releases, drops or keeps the buffered messages. |
| `NetworkDriver.NetworkDriver.LeaderChanged` | src/network_driver.rs:158-162 | Empties every buffer. |
| `NetworkDriver.NetworkDriver.AdoptGroups` | src/network_driver.rs:46-67 | Brings the groups of the buffer in line with the leader map, keeping what is buffered. |
| `NetworkTheorems.DeliveredIsPrefix` | src/network_driver.rs:79-123 | Within one local leadership, what is delivered from a remote generation is a prefix of what was received from it. |
| `NetworkTheorems.GenerationsInOrder` | src/network_driver.rs:79-123 | Generations are delivered in increasing order and never ahead of the leader map. |
| `NetworkTheorems.DeliveredWhenCurrent` | src/master.rs:583-621 | A message is delivered only when the leader map names its leadership. |
| `NetworkTheorems.BufferIsAhead` | src/network_driver.rs:20-27 | A buffer that is not empty holds one generation, newer than the leader map's, and a leader change for it is queued. |
| `NetworkTheorems.CurrentIsComplete` | src/network_driver.rs:104-123 | With nothing buffered, everything received from the current leadership has been delivered. |
| `NetworkTheorems.InsertedKeeps` | src/master.rs:583-621 | A bundle with several leader changes, for one group even, keeps the filter's invariant. |
| `KeyRegions.KeyRegionSound` | src/expression.rs:641-695 | Outside the key region the WHERE clause is never true, whatever the other columns and the subqueries are. |
| `KeyRegions.KeyRegionTight` | src/expression.rs:641-695 | For a clause whose conjuncts each compare a key column with a constant of its type, a key is in the region exactly if the clause is true of it. |
| `KeyRegions.ComputeKeyRegion` | src/expression.rs:654-695 | The region holds exactly the keys whose every column is within its bounds. |
| `KeyRegions.ColBoundsSound` | src/expression.rs:507-587 | Outside a column's bounds the expression does not evaluate to true. |
| `KeyRegions.LeafSound` | src/expression.rs:445-490 | The same for one comparison, with the column on either side. |
| `KeyRegions.ComparisonBound` | src/expression.rs:519-560 | A comparison of values of one type, with the column on either side, is true exactly within its interval, for integers under all operators that give an interval and for equality on all types. |
| `KeyRegions.KnownValue` | src/expression.rs:383-406 | What evaluates without unknowns evaluates to the same in the full expression. |
| `KeyRegions.BothConstructions` | src/expression.rs:346-376 | The partial and the full substitution of columns into a clause agree. |
| `ExpressionLaws.FailsExactly` | src/expression.rs:170-317 | A binary operator fails exactly on operands of the wrong types and on a division by zero. |
| `ExpressionLaws.NullExactly` | src/expression.rs:170-317 | It is NULL exactly if an operand is, except that `<=>` never is and OR is not beside a true. |
| `ExpressionLaws.PlusUndoesMinus` | src/expression.rs:177-189 | Adding what was subtracted gives the same back. |
| `ExpressionLaws.TimesIsRepeatedPlus` | src/expression.rs:191-196 | Multiplication is repeated addition. |
| `ExpressionLaws.DivisionRests` | src/expression.rs:198-218 | Quotient and rest make up the dividend; the rest is smaller than the divisor and never has the sign opposite to the dividend's. |
| `ExpressionLaws.MinusTwice` | src/expression.rs:146-150 | The negation of a negation is the value, and both add up to zero. |
| `ExpressionLaws.ComparesByOrder` | src/expression.rs:233-260 | The four comparisons of integers are those of the order of values. |
| `ExpressionLaws.NegatesExactly` | src/expression.rs:233-291 | `>=` is the negation of `<`, `<=` of `>`, and `!=` of `=`, on all operands of the right types, NULL included. |
| `ExpressionLaws.EqualityExactly` | src/expression.rs:262-278 | `=` is true exactly on equal values that are not NULL, and `<=>` exactly on equal operands. |
| `ExpressionLaws.TrueExactly` | src/expression.rs:293-313 | When AND and OR are true and when they are false, with NULL on either side. |
| `ExpressionLaws.DeMorganExactly` | src/expression.rs:152-153 | NOT turns AND into OR of the negations exactly if not one side is false and the other NULL. |
| `ExpressionLaws.IsNullExactly` | src/expression.rs:155-159 | IS NULL and IS NOT NULL never fail, never are NULL, and are opposite. |
| `ExpressionLaws.ConcatParts` | src/expression.rs:220-231 | A concatenation starts with the one string and ends with the other. |
| `Expressions.ConstructC` | src/expression.rs:93-119 | Uses up exactly as many subquery values as there are subqueries. |
| `Bounds.IntersectExact` | src/expression.rs:699-757 | The intersection of two intervals holds exactly what both hold. |
| `Bounds.SurelyEmptyIsEmpty` | src/expression.rs:769-778 | An interval found surely empty holds nothing. |
| `Bounds.ColBoundsIntersect` | src/expression.rs:781-795 | The intersection of two sets of intervals holds exactly what both hold. |
| `Bounds.InvertExact` | src/expression.rs:798-855 | The complement of an interval holds exactly what the interval does not. |
| `Bounds.InvertColBounds` | src/expression.rs:858-865 | The complement of a set of intervals holds exactly what none of them holds. |
| `Values.LessTotal` | src/common.rs:319-325 | The order of values is total. |
| `Values.LessTransitive` | src/common.rs:319-325 | The order of values is transitive. |
| `Regions.MightKeyBoundIntersect` | src/expression.rs:910-924 | False only if no key is in both bounds; true exactly if no column keeps them apart. |
| `Regions.MightRowRegionIntersect` | src/expression.rs:929-938 | False only if no key is in both regions. |
| `Regions.IsSurelyIsolated` | src/expression.rs:942-952 | True implies that no row presence and no cell is both read and written. |
| `Regions.IsSurelyIsolatedMultiread` | src/expression.rs:956-966 | The same for several read regions; true exactly if none of them may clash. |
| `Regions.IsSurelyIsolatedMultiwrite` | src/expression.rs:970-980 | The same for several write regions; true exactly if none of them may clash. |
| `Regions.DoesColRegionsIntersect` | src/expression.rs:894-901 | True exactly if there is a common column. |
| `Regions.RangeMightIntersectRowRegion` | src/expression.rs:1006-1032 | False only if no key of the region is in the range. |
| `Regions.RangeRowRegionIntersection` | src/expression.rs:1050-1072 | Exactly the keys of the region that are in the range. |
| `Sharding.SimplePartition` | src/master.rs:1164-1266 | Every key is in exactly one range, the shards are on different groups, and there are as many as the type of the first key column and the number of groups allow. |
| `Sharding.SplitChars` | src/master.rs:1227-1235 | Different letters in ascending order. |
| `Sharding.RangesPartition` | src/master.rs:1237-1259 | Ranges between increasing keys put every key in exactly one. |
| `Sharding.SplitPartitions` | src/master.rs:1464-1478 | A split that passes the check, with the two parts in place of the old range, keeps every key in exactly one range. |
| `Sharding.NoRowMissed` | src/expression.rs:1006-1032 | Pruning by range never rules out the shard of a key of the region. |
| `JoinTables.FinishJoinIndependent` | src/join_read_es.rs:1694-1839 | For each row of the context, with the subquery values of that row, the output has every row as often as the join of the two bags; it fails exactly if an evaluation that the join needs fails. |
| `JoinTables.FinishJoin` | src/join_read_es.rs:1741-1833 | The same for one row of the context: pairs, rows extended with NULLs on either side, and the strong filter. |
| `JoinTables.FinishJoinDependent` | src/join_read_es.rs:1984-2103 | With a second side computed for every row of the first, found by counting the rows before it: for each row of the context the output is the dependent join, and it fails exactly if an evaluation that the join needs fails. |
| `JoinTables.FinishDependentAt` | src/join_read_es.rs:2041-2103 | One row of the context, with its own part of the second tables. |
| `JoinTables.FinishDependent` | src/join_read_es.rs:2046-2100 | The same for given second tables. |
| `JoinTables.JoinFirstRow` | src/join_read_es.rs:1762-1806 | One row of the first side contributes its accepted pairs, or its extension if it has none. |
| `JoinTables.JoinSecondRows` | src/join_read_es.rs:1808-1832 | The rows of the second side without a partner are added again. |
| `JoinTables.EvaluateConjunctions` | src/join_read_es.rs:1518-1536 | True if all are true, stopping at the first that is not; subquery values are used in order. |
| `JoinVerdicts.AllHoldMeans` | src/join_read_es.rs:1518-1536 | With the answers of the subqueries in their order, the evaluator accepts exactly if every conjunction is true in the tree's sense. |
| `JoinVerdicts.ConstructedMeans` | src/expression.rs:93-119 | With those answers, evaluating what construct_cexpr makes is evaluating the expression. |
| `JoinTables.MakeParentRow` | src/join_util.rs:19-47 | Every column of the parent holds what the first side has at the first position of that column, or else what the second side has. |
| `JoinTables.ParentRowTakes` | src/join_util.rs:19-47 | The same for the row that the join's meaning outputs. |
| `JoinTables.WithRowTakes` | src/join_util.rs:170-180 | And for the map that conjunctions are evaluated under. |
| `JoinTables.AddValsGeneral` | src/join_util.rs:170-180 | A named column gets the value of the row at its last position in the schema; all others keep theirs. |
| `JoinTables.Rewritten` | src/join_read_es.rs:1763-1768 | The map that is written over row after row holds exactly the values of the pair being judged. |
| `JoinTables.TableView.AddRowMulti` | src/common.rs:704-710 | Raises one multiplicity and no other. |
| `MoveDown.MoveKeepsRows` | src/query_converter.rs:2003-2062 | For every tree, graph, join type and list: moving a conjunction to a side keeps the bag of joined rows, if it uses no name of the other side or the side is evaluated for every row of the other. |
| `MoveDown.MoveFirst` | src/query_converter.rs:2003-2062 | The case of the side that is evaluated first. |
| `MoveDown.MoveSecond` | src/query_converter.rs:2006-2024 | The case of the other side, evaluated once or for every row of the first. |
| `JoinScopes.MoveScopedExactly` | src/query_converter.rs:2003-2062 | A tree stays one in which every side finds its columns exactly if the moved conjunction finds its own. |
| `JoinScopes.MoveKeepsExactly` | src/query_converter.rs:2027-2032 | For a strong conjunction that names a column of the other side outside subqueries: the rows are kept exactly if it finds its columns, or if there were none. |
| `JoinScopes.BlindMoveIsEmpty` | src/query_converter.rs:2027-2032 | A strong conjunction moved to where it does not find such a column empties the join, whatever the tables hold. |
| `RuleTwo.RuleTwoLosesRows` | src/query_converter.rs:2103-2148 | The input: an inner join of two tables with an equality of their first keys in the WHERE clause, which Rule 2 moves and loses a row by. |
| `JoinScopes.MoreWaits` | src/join_read_es.rs:708-790 | Evaluating a side for every row of the other, in either order of an inner join, returns the same if that side uses no name of the other. |
| `JoinTrees.RowsFrame` | src/join_read_es.rs:1694-1839 | The rows of a node depend on the columns it uses alone. |
| `JoinLaws.InnerSwap` | src/join_read_es.rs:739-741 | An inner join has the same rows with either side first. |
| `PushDown.PushMeans` | src/query_converter.rs:2173-2228 | A node into which a conjunction was pushed has exactly the rows that satisfy it. |
| `PushDown.RenamedMeans` | src/query_converter.rs:2198-2211 | The renamed conjunction means inside the leaf what it meant outside. |
| `PushDown.SelectionMeans` | src/query_converter.rs:2213-2228 | The leaf's clause with the conjunction added is true exactly if both are. |
| `JoinOptimizer.OptimizeAllLevels` | src/query_converter.rs:1918-1927 | The loop ends for every tree, at one to whose conjunctions neither rule applies any more; siblings never wait for each other; a node comes to wait only where the type of its join allows it; the rows stay the same under every graph in which the new tree finds its columns, and in any case if no conjunction is an equality with a first key column. |
| `JoinOptimizer.OptimizeAllLevelsOnce` | src/query_converter.rs:1933-1964 | Reports a change exactly when something was pushed, and then a measure has decreased. |
| `JoinOptimizer.OptimizeTopLevelOnce` | src/query_converter.rs:1971-2152 | The same for one join, with both rules on strong and weak conjunctions. |
| `JoinOptimizer.ApplyRuleOne` | src/query_converter.rs:2073-2098 | Rule 1 keeps the rows and pays for every copy. |
| `JoinOptimizer.ApplyRuleTwo` | src/query_converter.rs:2103-2148 | Rule 2 pays for up to two copies, keeps the graph free of cycles, and keeps the rows if the new tree finds its columns. |
| `JoinOptimizer.RuleTwoProgress` | src/query_converter.rs:2108-2143 | Two copies one level down count less than the conjunction. |
| `JoinOptimizer.RulesExactly` | src/query_converter.rs:2073-2148 | Rule 1 and Rule 2 act on a conjunction exactly if their conditions on its tables, the join type and the first keys hold. |
| `JoinPlans.AddDependency` | src/query_converter.rs:2008-2018 | A dependency recorded after the check makes no cycle. |
| `JoinOptimizer.AddDependenciesForLateralJoins` | src/query_converter.rs:1892-1911 | Exactly the LATERAL leaves on right sides, at every depth, are added; each waits for its sibling, and no cycle arises. |
| `JoinOptimizer.Plan` | src/query_converter.rs:1656-1672 | A tree that validate_lateral accepts has a case of the evaluator for each of its joins, with the waiting side second, exactly if no LATERAL leaf is the right side of a FULL OUTER join. The plan then returns the rows of the tree as given, if every conjunction of it finds its columns, or if Rule 2 had nothing to act on. |
| `JoinPlans.ServedExactly` | src/join_read_es.rs:708-770 | The same for any graph that the optimizer could have made from the LATERAL leaves. |
| `JoinPlans.ServesExactly` | src/join_read_es.rs:739-746 | A join has a case in which the waiting side comes second exactly if its sides wait only where its type allows it. |
| `JoinPlans.OuterLateralIsUnserved` | src/query_converter.rs:168-209 | The accepted tree that shows the exception: a FULL OUTER join with a LATERAL right side has no case. |
| `JoinOptimizer.SplitIntoConjunctions` | src/query_converter.rs:1678-1696 | Appends the conjunctions of the clause, leaving out trivial ones. |
| `JoinOptimizer.SplitMeans` | src/query_converter.rs:1677-1696 | The conjunctions are all true exactly if the clause is. |
| `JoinOptimizer.SidesReplaced` | src/query_converter.rs:1949-1963 | Optimizing the sides of a join keeps its rows. |
| `Batching.GRQueryES.Finish` | src/gr_query_es.rs:356-375 | Row i of the result is what evaluating the query for context row i alone returns. |
| `Batching.Evaluate` | src/gr_query_es.rs:343-500 | All stages in succession: with a server that answers each child row, batched evaluation from the start is evaluation row by row. |
| `Batching.GRQueryES.StageDone` | src/gr_query_es.rs:228-314 | The tables of a finished stage are recorded so that every context row finds its own. |
| `Batching.GRQueryES.ComputeChildContext` | src/gr_query_es.rs:516-626 | The child context has no row twice and no row too many, and each parent row is mapped to its projection. |
| `Batching.ChildRowTakes` | src/gr_query_es.rs:583-600 | Entry m of a child row is what the context row has at the first position of the m-th column that the stage uses, and likewise for tables of the context and of earlier stages. |
| `Batching.GRQueryES.ProcessStage` | src/gr_query_es.rs:380-500 | Moves to a stage with its child context. |
| `Batching.StageRefines` | src/gr_query_es.rs:228-268 | A stage's table for the child row is what the parent row alone would give. |
| `Batching.ContextConstructor.AddRow` | src/join_read_es.rs:1398-1415 | Numbers rows in the order of their first visit. |
| `Batching.SubqueryExtractor.GetResult` | src/join_read_es.rs:1483-1514 | Visiting rows in the constructor's order, it returns for each row the result computed for it. |
| `Batching.NumberedAlike` | src/join_read_es.rs:1483-1514 | Equal visits give equal numbers, however many visits follow. |
| `MultiVersion.MVM.Write` | src/multiversion_map.rs:36-46 | Appends a version and leaves the past of every key unchanged. |
| `MultiVersion.MVM.Read` | src/multiversion_map.rs:48-59 | Returns the value at the time and raises the LAT to it. |
| `MultiVersion.MVM.UpdateLat` | src/multiversion_map.rs:61-67 | Raises one LAT. |
| `MultiVersion.MVM.UpdateAllLats` | src/multiversion_map.rs:69-76 | Raises the LATs of all of the infinitely many keys. |
| `MultiVersion.MVM.GetLastPresentVersion` | src/multiversion_map.rs:105-114 | The newest version that is a value. |
| `MultiVersion.MVM.GetLatestLat` | src/multiversion_map.rs:165-171 | The highest LAT. |
| `MultiVersion.FindPriorValue` | src/multiversion_map.rs:174-193 | The value of the version found by searching backwards. |
| `MultiVersion.PriorIsNewest` | src/multiversion_map.rs:182-193 | The version found is the newest one not after the time. |
| `MultiVersion.PriorSays` | src/multiversion_map.rs:174-193 | What a key is at a time is what its newest version not after the time says. |
| `MultiVersion.WriteMeans` | src/multiversion_map.rs:34-46 | After a write every key has at every time what it had, but the written one from the time of the write on. |
| `MultiVersion.RaiseExactly` | src/multiversion_map.rs:48-67 | A LAT that is raised becomes the later of both times, and no other changes. |
| `MultiVersion.WriteGrows` | src/multiversion_map.rs:34-46 | A write after the LAT changes no value up to any LAT and lowers none. |
| `MultiVersion.SnapshotFixed` | src/multiversion_map.rs:139-163 | A snapshot up to the smallest LAT never changes. |
| `SchemaViews.LockingIsIdempotent` | src/master_query_planning_es.rs:289-373 | What a locking view answers at a time, every later view at that time answers, after any legal operations. |
| `SchemaViews.CheckingIsIdempotent` | src/master_query_planning_es.rs:164-275 | The same for a checking view that did not fail on a LAT. |
| `SchemaViews.LockingFixes` | src/master_query_planning_es.rs:298-373 | After a locking call the checking view gives the same answer, and nothing earlier has changed. |
| `SchemaViews.CheckingIsStable` | src/master_query_planning_es.rs:166-275 | An answer survives any growth of the database. |
| `SchemaViews.ViewsAreTrue` | src/master_query_planning_es.rs:164-373 | Both views tell the truth about the versions: whether a table exists, its generation, its key columns, whether a column is present and which are, or that there is no table. |
| `SchemaViews.TruthIsOne` | src/master_query_planning_es.rs:164-373 | All true answers fit together: there is no table for one call exactly if there is none for the others, and a column is present exactly if it is among all columns. |
| `SchemaViewObjects.CheckingDBSchemaView.HasCol` | src/master_query_planning_es.rs:231-249 | Answers as specified and records the presence or absence. |
| `SchemaViewObjects.CheckingDBSchemaView.AllColsOf` | src/master_query_planning_es.rs:251-271 | Answers as specified and records exactly the columns present. |
| `SchemaViewObjects.LockingDBSchemaView.HasCol` | src/master_query_planning_es.rs:336-350 | Answers, raises the column's LAT and records. |
| `SchemaViewObjects.LockingDBSchemaView.AllColsOf` | src/master_query_planning_es.rs:352-370 | Answers, raises every column's LAT and records. |
| `SchemaViewObjects.LockingDBSchemaView.GetGenOf` | src/master_query_planning_es.rs:322-330 | Answers and raises the table's LAT. |
| `SchemaViewObjects.AlignedGrows` | src/master_query_planning_es.rs:44-133 | What a view recorded about columns stays true at its timestamp after any legal operations. |
| `SchemaViewObjects.MarkValColPresence` | src/master_query_planning_es.rs:67-91 | Its assertions never fail. |
| `SchemaViewObjects.MarkAllValCols` | src/master_query_planning_es.rs:96-133 | Its assertions never fail. |
| `Metadata.MetadataInvariant` | src/common.rs:815-825 | Every run of create, alter, drop and split commits, with LATs raised in between, keeps properties 1, 2 and 4. |
| `Metadata.GenerationsAreNotReused` | src/create_table_tm_es.rs:161-205 | A creation takes a generation the table never had, at a time after the table's LAT. |
| `Metadata.CreateKeeps` | src/create_table_tm_es.rs:161-205 | The same for one creation, with the properties kept. |
| `Metadata.AlterKeeps` | src/alter_table_tm_es.rs:196-221 | An alteration keeps the properties, and its time is after both LATs it writes past. |
| `Metadata.DropKeeps` | src/drop_table_tm_es.rs:172-195 | So does a drop. |
| `Metadata.SplitKeeps` | src/shard_split_tm_es.rs:203-247 | A split keeps the properties and makes a sharding that the table never had, at a time after its LAT. |
| `Metadata.LastIsNewest` | src/shard_split_tm_es.rs:212-215 | No generation and sharding of a table is newer than the last present one. |
| `Metadata.AlterTimeIsLate` | src/alter_table_tm_es.rs:206-210 | The commit time is after both LATs it overwrites and not before the hint. |
| `Metadata.NextGenIsNew` | src/create_table_tm_es.rs:398-404 | The next generation exceeds every earlier one of the table. |
| `Metadata.GossipData.ApplyCreate` | src/create_table_tm_es.rs:161-205 | Updates all four maps; `MetadataViews.CreateMeans` says what they then tell. |
| `Metadata.GossipData.CommitAlter` | src/alter_table_tm_es.rs:196-221 | Updates generation LAT and column at the commit time, after both LATs; `MetadataViews.AlterMeans` says what they then tell. |
| `Metadata.GossipData.CommitDrop` | src/drop_table_tm_es.rs:172-195 | Ends the table at the commit time, after its LAT, and returns its tablets. |
| `MetadataViews.AlterMeans` | src/alter_table_tm_es.rs:196-221 | After an alteration the column has the given type, or none, from the commit time on, and every other column and table is at every time what it was. |
| `MetadataViews.AlterIsSeen` | src/alter_table_tm_es.rs:196-221 | A checking view at the commit time answers that the column is present exactly if a type was given. |
| `MetadataViews.CreateMeans` | src/create_table_tm_es.rs:161-205 | From the commit time on the table exists with exactly the given key and value columns and their types, and every other table is what it was. |
| `MetadataViews.CreateIsSeen` | src/create_table_tm_es.rs:161-205 | A locking view at the commit time answers with the table, its keys and exactly the given columns. |
| `MetadataViews.DropMeans` | src/drop_table_tm_es.rs:172-195 | From the commit time on the table is gone, and every other is what it was. |
| `MetadataViews.DropIsSeen` | src/drop_table_tm_es.rs:172-195 | Every view at or after the commit time answers that there is no such table. |
| `MetadataViews.SplitMeans` | src/shard_split_tm_es.rs:203-247 | From the commit time on the table has its next sharding, with the new tablet at its group, and nothing else has changed. |
| `MetadataViews.AddressedMeans` | src/create_table_tm_es.rs:196-203 | The shards of a new table are at the groups they were placed on, and all other tablets where they were. |
| `Metadata.GossipData.ApplySharding` | src/shard_split_tm_es.rs:203-247 | Replaces the split shard by its parts in a loop, as a new sharding of the same generation. |
| `Metadata.GossipData.GetRms` | src/alter_table_tm_es.rs:327-335 | Every lookup succeeds; the tablets of the current sharding with their addresses. |
| `Metadata.MkCommittedHint` | src/alter_table_tm_es.rs:181-192 | Not before the clock nor any prepared timestamp, and one of them. |
| `Timestamps.AddExact` | src/common.rs:1138-1144 | Addition with carry is exact. |
| `Timestamps.OrderExact` | src/common.rs:1122-1131 | The order is that of the numbers. |
| `Timestamps.AddMonotone` | src/common.rs:1138-1144 | Addition respects the order, and a tick later is later. |
| `Scheduler.Master.AdvanceDDLShardingEss` | src/master.rs:1313-1501 | Keeps at most one started operation per table, starts or rejects every unblocked one, leaves those on tables being modified alone, and changes nothing when run again. |
| `Scheduler.Pass` | src/master.rs:1353-1380 | One kind: starts a valid unblocked operation, rejects an invalid one, leaves those on tables being modified. |
| `Scheduler.FourPasses` | src/master.rs:1313-1501 | The four loops in succession keep the kinds apart. |
| `MasterRuns.ValidExactly` | src/master.rs:1350-1440 | A creation, an alteration and a drop pass their checks exactly if a locking view at a late enough time says that there is no table, that there is one in which the column is absent or present as needed and no key column, and that there is one. |
| `MasterRuns.SplitValidExactly` | src/master.rs:1441-1500 | A split passes its check exactly if the group is known, the tablet new, and the two ranges cut the range of a shard of the table at a key of its type. |
| `MasterRuns.StartedCommitsSucceed` | src/master.rs:1350-1500 | In every run of submissions, scheduling, commits, aborts and lost leaderships, an operation that was started still finds its table, column and shard as they were checked, so that every lookup of its commit succeeds. |
| `MasterRuns.PendingFindsManagers` | src/alter_table_tm_es.rs:327-335 | As long as an operation is pending, get_rms finds all tablets of its table, and a split its tablet. |
| `MasterRuns.KeysHaveOneShard` | src/common.rs:815-825 | In every run each key of each table is in exactly one range, ranges have the type of the key, tablets do not repeat and are at known groups, however often shards were split. |
| `MasterRuns.RunsAreGood` | src/master.rs:1313-1501 | The invariant of scheduler and metadata together, in every run. |
| `MasterRuns.CommitKeeps` | src/stmpaxos2pc_tm.rs:405-515 | A commit, at the entry of the log at which its kind is applied, keeps the invariant. |
| `MasterRuns.AdvanceKeeps` | src/master.rs:1313-1501 | So does a pass of the scheduler. |
| `MasterRuns.OtherTables` | src/shard_split_tm_es.rs:203-247 | A commit leaves all other tables as they were checked. |
| `MasterRuns.SplitFits` | src/shard_split_tm_es.rs:224-240 | The shards after a split fit the table if those before did and the check was passed. |
| `MasterRuns.PartitionFits` | src/master.rs:1164-1266 | The shards of a new table fit it. |
| `NodeBuffer.NominalState.HandleMsg` | src/node.rs:192-208 | Each endpoint's ordinary messages are delivered once and in order or still held; the others are delivered; on return only unknown endpoints are held. |
| `NodeBuffer.NominalState.DeliverAll` | src/node.rs:245-256 | Ends, since the endpoints change again only if a held message was delivered. |
| `NodeBuffer.NominalState.DeliverAllOnce` | src/node.rs:231-243 | Every held message is delivered or held again, in order. |
| `NodeBuffer.NominalState.DeliverSingleOnce` | src/node.rs:211-229 | Delivers or holds one message. |
| `PaxosDriver.Driver.HandleMulti` | src/paxos.rs:412-453 | Ignores, buffers or forwards a Paxos message by its index. |
| `PaxosDriver.Driver.EnsureInstance` | src/paxos.rs:436-453 | Creates the instance of an index if there is none, keeping a learned value. |
| `PaxosDriver.Driver.AppendNext` | src/paxos.rs:743-775 | Appends one learned entry, following a leader change. |
| `PaxosDriver.Driver.HandleFirstBuffered` | src/paxos.rs:716-742 | Takes the first buffered message of the smallest index, or drops what is out of date. |
| `PaxosDriver.Driver.LearnAtNext` | src/paxos.rs:591-612 | Learns at the next index if the own vote is high enough. |
| `PaxosDriver.Driver.CollectLearned` | src/paxos.rs:629-645 | Collects the learned entries from an index on. |
| `PaxosDriver.Driver.LearnedRounds` | src/paxos.rs:973-987 | The learned rounds that a node lacks. |
| `TwoPCServers.RMServer.HandleCommittedPlm` | src/paxos2pc_rm.rs:311-327 | Commits a follower or a leader that waits for it. |
| `TwoPCServers.RMServer.HandleAbortedPlm` | src/paxos2pc_rm.rs:329-345 | Aborts a follower or a leader that waits for it. |
| `TwoPCServers.TMServer.HandleWait` | src/paxos2pc_tm.rs:372-388 | Asks a waiting manager again while recovering. |
| `TwoPCServers.TMServer.Receive` | src/paxos2pc_tm.rs:439-487 | A reply changes the execution of its query as specified and no other. |
| `TwoPCServers.TMServer.SendToAll` | src/paxos2pc_tm.rs:305-313 | The same message to every manager, in order. |
| `JoinTables.JoinPairs` | src/join_read_es.rs:1766-1790 | All pairs of one row, with what each weak verdict leaves behind. |
| `JoinTables.JoinPair` | src/join_read_es.rs:1766-1790 | One pair: weak verdict, then strong verdict, then output. |
| `JoinTables.JoinFirstRows` | src/join_read_es.rs:1758-1806 | The rows of the first side, one after the other. |
| `JoinTables.JoinExtended` | src/join_read_es.rs:1792-1805 | A pair, or a row extended with NULLs, is output if the strong conjunctions accept it. |
| `SchemaViewObjects.CheckingDBSchemaView.GetGenOf` | src/master_query_planning_es.rs:208-221 | The generation, or that the LAT is too low, or that there is no table. |
| `SchemaViewObjects.CheckingDBSchemaView.HasTable` | src/master_query_planning_es.rs:223-229 | That the LAT is too low, or else whether the newest version of the table not after the timestamp is a value. |
| `SchemaViewObjects.CheckingDBSchemaView.KeyColsOf` | src/master_query_planning_es.rs:204-206 | The key columns of the schema at the time. |
| `SchemaViewObjects.LockingDBSchemaView.HasTable` | src/master_query_planning_es.rs:332-334 | Whether the newest version of the table not after the timestamp is a value; raises its LAT. |
| `SchemaViewObjects.LockingDBSchemaView.KeyColsOf` | src/master_query_planning_es.rs:318-320 | The key columns, raising the table's LAT. |
| `SchemaViews.StepGrows` | src/multiversion_map.rs:34-89 | Every legal operation keeps the database valid and its past unchanged. |
| `MultiVersion.RaiseGrows` | src/multiversion_map.rs:48-67 | Raising a LAT changes no value. |
| `MultiVersion.RaiseAllGrows` | src/multiversion_map.rs:69-76 | Raising all LATs changes no value. |
| `Metadata.WriteCols` | src/create_table_tm_es.rs:186-189 | Every write of a new column passes the assertion of the map. |
| `Sharding.MkShard` | src/master.rs:1176-1185 | Takes one of the remaining groups out. |
| `Sharding.ShardsBetween` | src/master.rs:1237-1259 | One shard for each range between the keys, on different groups. |
| `Batching.GRQueryES.NextStage` | src/gr_query_es.rs:343-355 | Starts the next stage. |
| `NodeBuffer.NominalState.DeliverFrom` | src/node.rs:236-242 | One endpoint's messages are delivered for as long as it is accepted, and the rest held in order. |

## Left out

- Paxos reconfiguration: the membership of a group is fixed, so ReconfigBundle, StartNewNode and create_reconfig do not occur, and messages do not carry the list of nodes.
- PaxosTheorems.InsertionHasOneIndex: assumes that the identifiers given to insertions do not repeat, as the random ones of the code do not.
- MasterRuns.PartitionFits: assumes that the random names of the tablets of one table do not repeat.
- A connection that is lost is a channel that delivers nothing more; a node that restarts is not modelled.
- Fairness of timers, random rounds and networks: `PaxosLiveness.Progress`, `PaxosCatchUp.CatchUp` and `TwoPCRecovery.NoDeadEnd` state that runs with the good end exist, not that every run comes to one.
- Paxos2PC: the callbacks of the inner states and their payloads; leaderships are named by generation alone; the original start of a query happens once, for query identifiers are new.
- NetworkTheorems: groups are added and not removed, which the code itself leaves open (`src/network_driver.rs:13-17`).
- JoinOptimizer.OptimizeAllLevels: states that the rows are kept under a condition, since Rule 2 moves strong conjunctions that use both sides without recording a dependency (`RuleTwo.RuleTwoLosesRows`); for one move `JoinScopes.MoveKeepsExactly` has both directions, for the whole loop the condition is on the tree it returns, and one way.
- Equivalence of evaluation errors under push-down, and overflow of 32-bit integers in expressions: there a conjunction is true or not, and integers are mathematical.
- JoinTables.FinishJoinIndependent: row counts are unbounded numbers, and the value of a subquery for a row of the context and a pair of rows is given, because the passes of a RIGHT join with weak subqueries visit rows in different orders.
- Projection of columns inside a join tree: in `JoinTrees` rows keep all their columns.
- Regions.IsSurelyIsolated: not complete, as in the code; two intervals that share no value may still be found to intersect.
- Batching: what a stage returns for a context row is given; aggregation and the sending of queries are not modelled.
- MasterRuns: the groups of slaves are fixed, and the messages of STMPaxos2PC between master and slaves are not modelled: commits and closings are events.
- NominalState::init, whose first buffer may mix kinds of messages.
- The query-lifecycle code of tablets, slaves and coordinators, SQL parsing, storage, timers, serialization and client responses: bulk without hard properties.
