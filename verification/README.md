# Raft with snapshots, its replicated store, and what every run of them keeps

The project models the Raft node of `kvraft/internal/raft` (elections, replication, fast conflict backup,
persistence, compaction, snapshot installation), the layer above it that answers clients
(`kvraft/internal/rsm`), the versioned key-value store (`kvraft/internal/kvserver`) and the per-key
specification the repository's tests check histories against (`kvraft/internal/testutils/kvmodel.go`).

Layers, from the code up:

- `Raft.dfy`, `Rsm.dfy`, `Store.dfy`: the objects with fields updated in place, method by method. Each method
  is proved equal to a function on values (`Node.dfy`, and the functions beside the classes).
- `System.dfy`: a cluster as a step relation. Messages may be lost, delayed, duplicated and reordered; a server
  may stop between any two steps and also between the two saves of a campaign or of a snapshot
  installation; the applier, the reader and the clients interleave freely.
- `Protocol.dfy`, `Actions.dfy`, `Behaviour.dfy`: the same protocol on logs that are never compacted, as a transition
  system of small actions, each shown to keep one invariant. Leader completeness is derived from it by induction
  on the term.
- `Relation.dfy`, `Elections.dfy`, `Replication.dfy`, `Service.dfy`, `Runs.dfy`: every step of the cluster is
  matched by actions of that protocol, and no enabled step indexes out of range.
- `Theorems.dfy`: safety over whole runs, stated on servers, disks, messages and answers, and on the logical logs
  that held entries and saved snapshots stand for.
- `Linearizability.dfy`: the clients' history as one legal sequence.
- `Backup.dfy`, `Progress.dfy`: fast backup, and what any majority can always still achieve.
- `Handlers.dfy`: what single handlers decide and answer, and what follows for those who sent the request or wait.

Places where the code departs from Figure 2 of the extended Raft paper, and what makes them safe here:

- The follower clamps its commit index to its own last index, not to the last new entry. Requests always carry
  the rest of the leader's log, so the clamp never bites: `AcceptedRequest`, `RequestsReachTheirCommit`.
- Match indices start at the leader's snapshot boundary, not at 0, and may overstate a lagging peer. Only counts
  above the commit index matter: `CountedMatchesAreReal`, `CountedPeersHold`.
- A new term is saved with the old vote before the self-vote is saved: `CrashStep`, `AdvanceKeeps`.
- `Restore` decodes into the live map, which is a merge. In general that is not a replacement; along one log it
  is: `MergeIsNotReplaceInGeneral`, `MergeIsReplace`.
- A conflict index of "my snapshot boundary plus one" is bounded only by leader completeness: `ConflictInLeader`.

A finding: a cluster of one server never elects a leader, because `becomeLeader` is reached only from a vote
reply. `LoneServerNeverLeads` shows it, and `AlwaysAvailable` that two servers are enough.

## Model

| member | source | states |
|---|---|---|
| `Progress.AlwaysAvailable` | kvraft/internal/raft/ticker.go:61-108 | From every reachable state of the model, in which sending a result never blocks, any majority of a cluster of at least two can take any new request to an OK answer, compact the log up to it, and bring the store of every one of them at least to its index; every added step is one of theirs, reads the leadership its node really has, and is no crash. |
| `Progress.LoneServerNeverLeads` | kvraft/internal/raft/ticker.go:67-106 | The bound of two is exact: with one server no run ever has a leader, a message or an answer, since only a vote reply makes a leader. |
| `Progress.ElectsLeader` | kvraft/internal/raft/ticker.go:34-108 | From every reachable state any majority of at least two can reach a state in which one of them leads and none of them is ahead of its term. |
| `Progress.CollectsVotes` | kvraft/internal/raft/ticker.go:80-108 | A candidate whose log is at least as good as its voters', and whose voters are in older terms, or in its own without a vote for somebody else, becomes leader once enough of them answer. |
| `Progress.LeaderAnswers` | kvraft/internal/rsm/rsm.go:75-120 | From every reachable state a leader with a majority not ahead of its term can take a new request from Submit to its OK answer, by steps of theirs that read the true leadership. |
| `Progress.MajorityCommits` | kvraft/internal/raft/log_replication.go:284-294 | A leader whose last entry is of its own term can commit its whole log with any majority not ahead of it. |
| `Progress.CatchesUp` | kvraft/internal/raft/log_replication.go:29-57 | From every reachable state a leader and any server not ahead of its term can exchange requests, conflicts and snapshots until the server holds the leader's whole log, knows committed what the leader did, and is counted there. It takes at most four exchanges more than there are different terms in what the server holds of its log, and one if the first probe meets no conflict. |
| `Progress.FollowerReaches` | kvraft/internal/raft/log_replication.go:137-173 | A follower that accepts a leader's request has the leader's last term at its last index and for its commit index the larger of the two. |
| `Progress.LeaderCounts` | kvraft/internal/raft/log_replication.go:275-294 | A success that tells a leader something new sets the peer's match index to the last entry sent and its next index right behind it, so that the next request carries exactly what follows; an old one changes neither; other peers' indices stay, and nothing committable is left uncommitted. |
| `Progress.Reads` | kvraft/internal/raft/raft.go:158-206 | From every reachable state a server's own steps bring its store to any index its node knows committed. |
| `Progress.EveryoneApplies` | kvraft/internal/rsm/rsm.go:130-180 | A leader can have what it has committed applied by the stores of any set of servers not ahead of its term. |
| `Progress.GetsAnswered` | kvraft/internal/rsm/rsm.go:130-196 | On a server that leads in the term of the request, a client that waits at a committed index holding its operation can be sent its OK answer by honest steps of that server, whatever its reader and queue are doing. |
| `Progress.OnlyLeadersAnswer` | kvraft/internal/rsm/rsm.go:182-196 | A step that reads the true leadership sends an OK exactly when the reader notifies, its node leads, and the waiter at the applied index has the applied operation's id; a server that has stepped down sends none. |
| `Theorems.StateMachineSafety` | kvraft/internal/raft/raft.go:158-206 | In every run no two servers ever apply different commands at one index. |
| `Theorems.OneSequentialHistory` | kvraft/internal/rsm/rsm.go:155-196 | Behind every run there is one log that only grows, ends exactly at the highest index any node has known committed, and explains every state: it is what every node knows committed and what every store was handed, stores and saved snapshots are replays of its prefixes, each OK answer is DoOp's answer to the client's own request at its index, and no operation occurs in it twice. |
| `Theorems.KnownIsCommitted` | kvraft/internal/raft/log_replication.go:93-104 | A node's logical log agrees with the committed log up to the node's commit index. |
| `Linearizability.Linearizable` | kvraft/internal/rsm/rsm.go:75-120 | At every state of every run one sequence of effects explains the clients' history: only submitted requests, none twice; every OK answer is its effect's reply; an operation answered before another was submitted comes first; key by key the specification accepts it. The sequences only grow. |
| `Theorems.KeysAreSequential` | kvraft/internal/testutils/kvmodel.go:48-88 | The committed log, projected to any key, is accepted step by step by the per-key specification and ends in the value the store holds. |
| `Theorems.AnswersRespectRealTime` | kvraft/internal/rsm/rsm.go:75-120 | If A was answered OK before B was submitted and B is answered OK, A's index is smaller than B's. |
| `Theorems.StoresAgree` | kvraft/internal/rsm/rsm.go:143-180 | Two readers at the same position, at any two times, have equal stores. |
| `Theorems.ElectionSafety` | kvraft/internal/raft/ticker.go:101-106 | At most one node ever leads in a term, over the whole run and across crashes between the two saves of a campaign. |
| `Theorems.LeaderCompleteness` | kvraft/internal/raft/log_replication.go:284-294 | What any node ever knows committed is in the whole logical log of every node that ever leads in a later term, whether it led before or after that was known, compacted or not, and in that of the same term's leader as far as it had come; held entries, boundary term and saved snapshot are those of the committed log. |
| `Theorems.LogMatchingHolds` | kvraft/internal/raft/log_replication.go:229-273 | Two logical logs, compacted parts included and at any two times, with the same term at one index are equal up to it. |
| `Theorems.CommittedEntriesAgree` | kvraft/internal/raft/log_replication.go:93-104 | What two nodes know committed, at any two times, is the same prefix of the committed log, compacted or not. |
| `Theorems.CommittedNeverDropped` | kvraft/internal/raft/log_replication.go:256-273 | No request, snapshot or crash removes or changes what a node once knew committed: its later logical log, boundary and snapshot still have it. |
| `Theorems.CountedPeersHold` | kvraft/internal/raft/log_replication.go:320-328 | A peer counted by a leader above its commit index has the leader's logical log through that index, then and at every later time at which it is still in that term, although match indices start at the snapshot boundary. |
| `Theorems.CommitHasQuorum` | kvraft/internal/raft/log_replication.go:284-294 | A leader whose commit index holds an entry of its own term has a majority, each of which has the leader's logical log through the commit index then and for as long as it stays in that term. |
| `Theorems.RequestsReachTheirCommit` | kvraft/internal/raft/log_replication.go:59-73 | Every append request ever in flight carries consecutive entries that reach the commit index it announces. |
| `Theorems.AcceptedRequest` | kvraft/internal/raft/log_replication.go:137-173 | An accepted request leaves exactly its entries at their indices and raises the commit index exactly to the announced one, although the code clamps to the follower's own last index. |
| `Theorems.AcceptedAgreesWithSender` | kvraft/internal/raft/log_replication.go:93-104 | After an accepted request everything the follower knows committed, below the entries sent too, agrees with the sender's logical log at any time it led in that term, as far as that log had come. |
| `Theorems.NextIndicesInRange` | kvraft/internal/raft/log_replication.go:29-45 | In every reachable state a leader's next indices lie in 1..getLen(). |
| `Theorems.NoReachablePanic` | kvraft/internal/raft/log_replication.go:59-73 | In every reachable state every step that can be taken indexes and slices within bounds. |
| `Theorems.WriteAhead` | kvraft/internal/raft/storage.go:13-85 | Between any two steps disk and memory agree on term, vote, log and boundary; reading the disk gives a well-formed follower with the same values that knows no leader and has committed and applied just what its snapshot covers. |
| `Theorems.ApplyStreamIsGapless` | kvraft/internal/raft/raft.go:158-206 | The queued commands follow the reader's position one by one, and a queued snapshot lies strictly beyond it. |
| `Theorems.WaitersAreFresh` | kvraft/internal/rsm/rsm.go:182-206 | Nobody waits at or below a handled index, nobody waits who was sent a result, and no two table entries are the same client. |
| `Theorems.ResultsAreNew` | kvraft/internal/rsm/rsm.go:182-206 | In every reachable state the next step sends at most one result per client, and only to clients never sent one before. |
| `Theorems.OneResultEach` | kvraft/internal/rsm/rsm.go:99-110 | In no run is a client sent two different results, such as an OK and a retry. |
| `Runs.Simulates` | kvraft/internal/raft/raft.go:226-247 | Every step of a server on its compacted log is matched by a sequence of allowed actions of its own node on the uncompacted logs, and the relation is kept; sending, applying, answering, compacting and giving up match no action at all; the chosen log grows only to what some node then knows committed. |
| `Runs.NoPanic` | kvraft/internal/raft/log_replication.go:106-126 | In a related state every enabled step is safe. |
| `Runs.Behind` | kvraft/internal/raft/raft.go:71-111 | Behind every run there is a run of the uncompacted protocol: it starts in the protocol's first state, every step is a sequence of actions of the node whose server moved, and the two stay related. |
| `Behaviour.DoKeeps` | kvraft/internal/raft/log_replication.go:137-208 | Every allowed action of the protocol keeps the invariant and only adds to the history. |
| `Behaviour.PerformsKeeps` | kvraft/internal/raft/log_replication.go:137-208 | So does every sequence of actions of one node. |
| `Runs.CrashStep` | kvraft/internal/raft/storage.go:44-85 | Whatever was saved last, also between the two saves of a campaign or of a snapshot installation, is enough to restart from. |
| `ElectionSteps.TimeoutStep` | kvraft/internal/raft/ticker.go:34-43 | Becoming a candidate, with its two saves and its requests, keeps the relation. |
| `ElectionSteps.VoteRequestStep` | kvraft/internal/raft/log_replication.go:175-208 | Handling a vote request keeps the relation; a granted vote is a vote of the protocol. |
| `ElectionSteps.VoteAnswerStep` | kvraft/internal/raft/ticker.go:80-108 | Handling a vote reply keeps the relation: the integer counter counts distinct voters. |
| `ElectionSteps.BootStep` | kvraft/internal/raft/storage.go:44-85 | A restart keeps the relation even if the saved term is newer than the saved vote. |
| `ReplicationSteps.MergeAdopts` | kvraft/internal/raft/log_replication.go:256-273 | On any stale, duplicate or overlapping request the scan leaves the follower with its own log if it has all that was sent and with the leader's prefix otherwise. |
| `ReplicationSteps.AppendRequestStep` | kvraft/internal/raft/log_replication.go:137-173 | Handling an append request keeps the relation; a success acknowledges exactly the prefix sent. |
| `ReplicationSteps.ConflictInLeader` | kvraft/internal/raft/log_replication.go:229-254 | A reported conflict index lies inside the leader's log, also when it points past the follower's snapshot. |
| `ReplicationSteps.InstalledLog` | kvraft/internal/raft/storage.go:161-170 | After InstallSnapshot the node holds its own log if that has the snapshot's last entry and the leader's prefix otherwise. |
| `ReplicationSteps.SnapshotRequestStep` | kvraft/internal/raft/storage.go:103-144 | Handling a snapshot, also an old one that is ignored, keeps the relation. |
| `ReplicationSteps.ReplicateStep` | kvraft/internal/raft/log_replication.go:29-57 | Whatever a leader sends quotes its own log, or a snapshot of a committed prefix of it. |
| `ReplicationSteps.CountedMatchesAreReal` | kvraft/internal/raft/log_replication.go:320-328 | The nodes counted at an index above the commit index are a quorum each of which acknowledged that index in this term. |
| `ReplicationSteps.AppendAnswerStep` | kvraft/internal/raft/log_replication.go:75-91 | Handling an append reply keeps the relation: indices stay in range and a new commit index is a commit of the protocol. |
| `ReplicationSteps.SnapshotAnswerStep` | kvraft/internal/raft/log_replication.go:210-227 | Handling a snapshot reply keeps the relation. |
| `ReplicationSteps.HeldSuffix` | kvraft/internal/raft/storage.go:87-101 | Dropping a compacted prefix still holds the same logical log. |
| `ServiceSteps.SubmitStep` | kvraft/internal/rsm/rsm.go:75-98 | Submitting keeps the relation: the operation stands at the index its waiter is registered at. |
| `ServiceSteps.ApplyStep` | kvraft/internal/raft/raft.go:158-206 | A round of the applier keeps the relation between queue, position and log. |
| `ServiceSteps.TakeSnapshotStep` | kvraft/internal/rsm/rsm.go:143-153 | Restoring a delivered snapshot by merging leaves the store at the replay up to its index. |
| `ServiceSteps.TakeCommandStep` | kvraft/internal/rsm/rsm.go:155-173 | Applying a command leaves the store at the replay up to its index. |
| `ServiceSteps.NotifyStep` | kvraft/internal/rsm/rsm.go:175-217 | Notifying and compacting keep the relation: every value sent is the log's answer to that waiter. |
| `ServiceSteps.CompactedNode` | kvraft/internal/raft/storage.go:87-101 | Snapshot is a stutter: the node still holds the same logical log, now with the replay up to the index saved. |
| `Protocol.CommittedIsInherited` | kvraft/internal/raft/log_replication.go:330-336 | What the leader of a term committed is in the log of every later leader, by induction on the term. |
| `Protocol.LogMatching` | kvraft/internal/raft/log_replication.go:229-254 | Log matching for any two logs made of leaders' entries. |
| `Actions.AdvanceKeeps` | kvraft/internal/raft/ticker.go:38-41 | Moving to a higher term with any saved vote keeps the invariant. |
| `Actions.VoterCheck` | kvraft/internal/raft/log_replication.go:330-336 | A candidate that passes the up-to-date test has everything the voter acknowledged for a leader, unless a later leader already lost it. |
| `Actions.NoSecondElection` | kvraft/internal/raft/ticker.go:101-106 | Two candidates cannot both collect a majority in one term. |
| `Actions.VoteKeeps` | kvraft/internal/raft/log_replication.go:196-207 | Granting a vote keeps the invariant. |
| `Actions.ElectKeeps` | kvraft/internal/raft/ticker.go:45-59 | Becoming leader with a quorum keeps the invariant. |
| `Actions.AppendKeeps` | kvraft/internal/raft/raft.go:131-150 | Appending to a leader's log keeps the invariant. |
| `Actions.AcceptKeeps` | kvraft/internal/raft/log_replication.go:256-273 | Adopting a prefix of the leader's log keeps the invariant, drops nothing known committed and has the acknowledged prefix. |
| `Actions.CommitKeeps` | kvraft/internal/raft/log_replication.go:284-294 | Committing an entry of the leader's own term on a quorum's acknowledgements keeps the invariant and only extends the chosen log. |
| `Backup.RejectionBacksUp` | kvraft/internal/raft/log_replication.go:106-126 | A rejection at or above the follower's snapshot strictly lowers the next index, into the follower's log at once and past its whole run of the conflicting term unless it stops at the follower's snapshot or where the leader has that term too; never below the end of the common prefix unless that lies in what the leader has compacted. |
| `Backup.RejectedProbe` | kvraft/internal/raft/log_replication.go:106-135 | After a rejection the next probe is at the end of a short log; otherwise it is accepted, or asks for what the leader has compacted, or meets a strictly smaller term of the follower. |
| `Backup.TermAtSplit` | kvraft/internal/raft/log_replication.go:128-135 | The conflict term's run starts after the common prefix, or its last entry is found by the leader, or it lies in what the leader has compacted. |
| `Backup.AcceptedInCommonPrefix` | kvraft/internal/raft/log_replication.go:229-254 | A probe inside the common prefix is accepted. |
| `Backup.OneJumpAboveSnapshot` | kvraft/internal/raft/log_replication.go:229-235 | A probe below the follower's snapshot is answered with one jump to just above it, and the next probe is accepted. |
| `Backup.AlignedInRun` | kvraft/internal/raft/log_replication.go:229-254 | In every reachable state the logs of a leader and of a server not ahead of its term have sorted terms, obey log matching and share what the follower compacted. |
| `HandlerLaws.VoteDecision` | kvraft/internal/raft/log_replication.go:175-208 | A vote is given if and only if the candidate's term is not over, the voter has no vote for somebody else in it, and the candidate's last entry is at least the voter's by term and then index; the reply has the term before the request; the voter's whole new state and what it saved. |
| `HandlerLaws.VoteComparesLogs` | kvraft/internal/raft/log_replication.go:330-336 | In every reachable state that comparison is one with the voter's logical log, compacted or not. |
| `HandlerLaws.OldVoteRequest` | kvraft/internal/raft/ticker.go:93-98 | A vote request of an old term changes nothing at the voter, and its reply makes the candidate a follower in exactly the voter's term, without a vote, saved. |
| `HandlerLaws.OldAppendRequest` | kvraft/internal/raft/log_replication.go:137-155 | So for an append request of an old term and its sender. |
| `HandlerLaws.OldSnapshotRequest` | kvraft/internal/raft/storage.go:103-120 | So for a snapshot of an old term and its sender. |
| `HandlerLaws.StoppedBetweenSaves` | kvraft/internal/raft/ticker.go:34-66 | A node that stops between the two saves of a campaign comes back in the new term with its old vote, and in that term votes for nobody else; one that stops inside a snapshot installation comes back in the new term with the log and snapshot it had. |
| `HandlerLaws.HintNamesLeader` | kvraft/internal/raft/log_replication.go:159-163 | In every run, after an append request or snapshot of its own or a newer term a node follows in that term and its leader hint names the one node that ever leads in it. |
| `HandlerLaws.OwnHint` | kvraft/internal/raft/ticker.go:45-66 | In every reachable state a leader's hint is itself and a candidate has none. |
| `HandlerLaws.NewLeaderStarts` | kvraft/internal/raft/ticker.go:45-59 | A new leader's first request to a peer is empty and asks for its last entry; at its snapshot boundary it counts every node, above it only itself. |
| `HandlerLaws.SnapshotReplyCounts` | kvraft/internal/raft/log_replication.go:210-227 | A current snapshot reply raises the peer's match and next index to the snapshot's, never lowers them, and changes nothing else. |
| `HandlerLaws.LateReplies` | kvraft/internal/raft/log_replication.go:75-91 | Replies of another term, to a node that no longer leads, and rejections whose previous entry is compacted by now, change nothing. |
| `HandlerLaws.RoundReachesCommit` | kvraft/internal/raft/raft.go:158-206 | In every run a round of the applier hands over exactly the logical log's commands from lastApplied + 1 to the commit index, or the one snapshot with the boundary's index and term. |
| `HandlerLaws.AppliedOnce` | kvraft/internal/rsm/rsm.go:155-173 | A command handed over again after it was handled is neither applied nor answered a second time. |
| `HandlerLaws.DeposedTellsEveryone` | kvraft/internal/rsm/rsm.go:143-206 | After the reader handled a command or a snapshot on a server that does not lead, nobody waits there, and everybody who did was sent a retry. |
| `NodeModel.BelowRun` | kvraft/internal/raft/log_replication.go:245-253 | The walk down ends at the snapshot boundary or at the first entry of another term, and everything above it is of the given term. |
| `NodeModel.FindLast` | kvraft/internal/raft/log_replication.go:128-135 | The result is the last held index of the term at or below the start, and -1 exactly when there is none. |
| `NodeModel.CommitPoint` | kvraft/internal/raft/log_replication.go:284-294 | The result is the highest index above the commit index that is of the current term and counted by a majority, or the commit index if there is none. |
| `NodeModel.MergeSpec` | kvraft/internal/raft/log_replication.go:256-273 | Nothing before the first index sent changes, every index sent gets the term sent, and the log is left alone exactly when it has all that was sent and otherwise ends with the last entry sent. |
| `RaftObject.Raft.constructor` | kvraft/internal/raft/raft.go:71-111 | Make with readPersist gives the node NodeModel.Restart describes, with disk and memory in agreement. |
| `RaftObject.Raft.ReadPersist` | kvraft/internal/raft/storage.go:44-85 | The five saved fields are restored, and commitIndex and lastApplied start at the snapshot boundary. |
| `RaftObject.Raft.Persist` | kvraft/internal/raft/storage.go:13-42 | The disk gets the five fields and keeps its snapshot. |
| `RaftObject.Raft.HandleHigherTerm` | kvraft/internal/raft/raft.go:208-220 | Whole new state: on a higher term, follower without a vote, saved; otherwise nothing. |
| `RaftObject.Raft.RequestVote` | kvraft/internal/raft/log_replication.go:175-208 | New state and reply are those of NodeModel.RequestVote; disk and memory still agree. |
| `RaftObject.Raft.BecomeCandidate` | kvraft/internal/raft/ticker.go:34-43 | New state and request are those of NodeModel.BecomeCandidate and CampaignArgs; disk and memory agree. |
| `RaftObject.Raft.BecomeLeader` | kvraft/internal/raft/ticker.go:45-59 | Both index arrays are set as NodeModel.BecomeLeader says. |
| `RaftObject.Raft.HandleVoteReply` | kvraft/internal/raft/ticker.go:80-108 | New state is that of NodeModel.HandleVoteReply. |
| `RaftObject.Raft.HandleConsistencyConflict` | kvraft/internal/raft/log_replication.go:229-254 | The conflict returned is NodeModel.Conflict, and nothing changes. |
| `RaftObject.Raft.AppendNewEntries` | kvraft/internal/raft/log_replication.go:256-273 | The loop leaves the log NodeModel.Merge describes and changes nothing else. |
| `RaftObject.Raft.AdvanceCommitIndex` | kvraft/internal/raft/log_replication.go:93-104 | New state is that of NodeModel.LearnCommit. |
| `RaftObject.Raft.AppendEntries` | kvraft/internal/raft/log_replication.go:137-173 | For every request whose scan does not index below the boundary, new state and reply are those of NodeModel.AppendEntries; disk and memory still agree. |
| `RaftObject.Raft.TruncateLogWithSnapshot` | kvraft/internal/raft/storage.go:161-170 | The log becomes what NodeModel.TruncateWithSnapshot says and nothing else changes. |
| `RaftObject.Raft.InstallSnapshot` | kvraft/internal/raft/storage.go:103-144 | New state and reply are those of NodeModel.InstallSnapshot; disk and memory still agree. |
| `RaftObject.Raft.Start` | kvraft/internal/raft/raft.go:131-150 | New state and result are those of NodeModel.Start; disk and memory still agree. |
| `RaftObject.Raft.GenAppendEntriesArgs` | kvraft/internal/raft/log_replication.go:59-73 | The request quotes the whole log after the previous index, with the commit index. |
| `RaftObject.Raft.ReplicateToPeer` | kvraft/internal/raft/log_replication.go:29-57 | A leader sends its snapshot when the next index is in what it compacted, else the rest of its log; others send nothing. |
| `RaftObject.Raft.FindLastIndexOfTerm` | kvraft/internal/raft/log_replication.go:128-135 | The loop returns NodeModel.FindLast. |
| `RaftObject.Raft.ResolveConflict` | kvraft/internal/raft/log_replication.go:106-126 | Only the peer's next index changes, as NodeModel.Resolve says. |
| `RaftObject.Raft.AdvancePeerIndices` | kvraft/internal/raft/log_replication.go:275-282 | Only the peer's indices change, as NodeModel.AdvancePeer says. |
| `RaftObject.Raft.CountNodesWithLogAt` | kvraft/internal/raft/log_replication.go:320-328 | The loop returns the number of nodes counted at the index, the node itself included. |
| `RaftObject.Raft.UpdateCommitIndex` | kvraft/internal/raft/log_replication.go:284-294 | The loop sets the commit index to NodeModel.CommitPoint and changes nothing else. |
| `RaftObject.Raft.HandleAppendEntriesReply` | kvraft/internal/raft/log_replication.go:75-91 | For every reply whose search does not start past the log, new state is that of NodeModel.HandleAppendReply; disk and memory still agree. |
| `RaftObject.Raft.HandleInstallSnapshotReply` | kvraft/internal/raft/log_replication.go:210-227 | New state is that of NodeModel.HandleSnapshotReply; disk and memory still agree. |
| `RaftObject.Raft.Snapshot` | kvraft/internal/raft/storage.go:87-101 | New state is that of NodeModel.TakeSnapshot; disk and memory still agree. |
| `RaftObject.Raft.ApplierRound` | kvraft/internal/raft/raft.go:158-206 | Messages and new lastApplied are those of NodeModel.Deliver. |
| `RsmModel.TableAfterNotify` | kvraft/internal/rsm/rsm.go:182-206 | After index i nobody waits at or below i; exactly those who left the table were sent a result, one each; a value goes only to the waiter of the applied operation. |
| `RsmModel.WhoRemains` | kvraft/internal/rsm/rsm.go:198-206 | After an index was handled or a snapshot restored, a waiter remains exactly if it waits above that index on a leader in the term it submitted in. |
| `RsmModel.NobodyWaits` | kvraft/internal/rsm/rsm.go:182-206 | If the node does not lead, the table is empty afterwards and everybody in it was sent a retry. |
| `RsmModel.RSM.Register` | kvraft/internal/rsm/rsm.go:83-93 | A waiter is registered at the index Start gave exactly when Start accepted. |
| `RsmModel.RSM.Forget` | kvraft/internal/rsm/rsm.go:95-98 | The deferred delete removes whatever stands at the waiter's index and nothing else. |
| `RsmModel.RSM.NotifyOutdated` | kvraft/internal/rsm/rsm.go:198-206 | Whatever the iteration order, the outdated waiters and no others leave the table, each with exactly one retry result. |
| `RsmModel.RSM.NotifyPending` | kvraft/internal/rsm/rsm.go:182-196 | Table and results sent are those of Notified. |
| `RsmModel.RSM.HandleSnapshot` | kvraft/internal/rsm/rsm.go:143-153 | The store is merged with the snapshot, lastApplied moves to its index, outdated waiters are sent a retry. |
| `RsmModel.RSM.ApplyCommand` | kvraft/internal/rsm/rsm.go:155-173 | A command that is no operation or not above lastApplied changes nothing; any other is applied once. |
| `StoreModel.Store.Apply` | kvraft/internal/kvserver/store.go:28-64 | Map and reply are those of DoOp. |
| `StoreModel.Store.Restore` | kvraft/internal/kvserver/store.go:77-92 | No bytes reset the map; otherwise decoding assigns the decoded keys into it and leaves the others. |
| `StoreModel.MergeIsReplace` | kvraft/internal/kvserver/store.go:77-92 | Merging the snapshot of a longer prefix of a log into the map of a shorter one gives the longer prefix's map. |
| `StoreModel.MergeIsNotReplaceInGeneral` | kvraft/internal/kvserver/store.go:88-90 | For arbitrary maps the merge is a replacement exactly when no live key is missing from the data. |
| `StoreModel.RestoredKey` | kvraft/internal/kvserver/store.go:77-92 | Key by key: no bytes leave nothing, a decoded key has the decoded value, any other stays as it was. |
| `StoreModel.VersionCountsPuts` | kvraft/internal/kvserver/store.go:28-64 | Along any log a key's version is the number of successful puts on it, and it is present exactly when there was one. |
| `StoreModel.StoredByLastPut` | kvraft/internal/kvserver/store.go:28-64 | Along any log a key holds the value of the last successful put on it, with their number for a version. |
| `StoreModel.AnswerIs` | kvraft/internal/kvserver/store.go:28-64 | Along any log a get answers the last successful put before it, or no key; a put succeeds exactly if it names the number of successful puts before it; anything else is refused. |
| `StoreModel.PutsNameDistinctVersions` | kvraft/internal/kvserver/store.go:43-60 | Two successful puts on a key along a log name strictly increasing versions. |
| `KvModel.StoreRefinesModel` | kvraft/internal/testutils/kvmodel.go:48-88 | For every log and key the store's answers are accepted by Step one by one, and the specification ends in the stored value. |
| `KvModel.StoreStep` | kvraft/internal/testutils/kvmodel.go:51-88 | Step accepts the store's answer and moves with it, and other keys do not move. |
| `KvModel.AcceptedAnswers` | kvraft/internal/testutils/kvmodel.go:51-88 | Among definite answers Step accepts only the store's, except the empty value at version 0 for an absent key. |
| `KvModel.MaybeExplains` | kvraft/internal/testutils/kvmodel.go:67-85 | Putting ErrMaybe for any put's definite answer leaves an accepted history accepted and ending in the same state. |
| `KvModel.OtherAnswers` | kvraft/internal/testutils/kvmodel.go:49-88 | Any other error is accepted and moves nothing, what is neither get nor put is refused, and a refused history stays refused. |
| `KvModel.PartitionIsProjection` | kvraft/internal/testutils/kvmodel.go:31-47 | Partitioning all the answers along a log gives each key the history that StoreRefinesModel accepts. |
| `KvModel.Partition` | kvraft/internal/testutils/kvmodel.go:31-47 | There is one non-empty group per key that occurs, it is the operations on that key in order, and the groups come in strictly increasing order of their keys. |

## Left out

- A crash inside `FilePersister.Save`, which renames two files one after the other (`kvraft/internal/raft/disk_persister.go`): saving is one atomic step, as the Persister interface presents it. Persister and decoding errors, which end the process, are not modelled.
- Liveness under timers: election and heartbeat timeouts, goroutine scheduling and condition variables are free choices. The progress results say what can always still happen, not that it does.
- Blocking: results are sent on unbuffered channels while the lock is held. A send is modelled as always possible, so the state in which a timed-out waiter wants the lock and the reader, holding it, wants to send to that waiter is not in the model; there a server answers nobody until it restarts. Nothing is claimed about a call to `Submit` that never returns.
- `Submit`'s leader hint and its timeout: giving up is a step that deletes whatever stands at the waiter's index, as the deferred delete does.
- `MakeRSM` is one step, although the node's goroutines start before the snapshot is restored.
- Behaviour after `Kill` (saving stops, channels are closed, `cleanup` wakes the waiters): a killed node is one that takes no further steps.
- The size test of `checkSnapshot`: whether to compact after a command is a free choice.
- Which leadership the reader sees: it is a free choice in the runs the safety results cover, since the two reads may straddle a change; the progress results only use reads that are true.
- Random operation ids are taken to be unique and different from -1.
- uint64 wrap-around of versions and the int32 narrowing of the transport: numbers are unbounded.
- gRPC, protobuf and gob byte formats, the clerks, metrics, logging, configuration and command line.
- Progress.AlwaysAvailable: holds of the model, in which sending a result never blocks; in the code the unbuffered channels allow the blocked state described above, and nothing is claimed from it.
- RaftObject.Raft.AppendEntries: requires that the scan of an accepted request does not look below the snapshot boundary, where the code would index out of range; `NoReachablePanic` proves that of every request in every run.
- RaftObject.Raft.HandleAppendEntriesReply: requires that the search a current rejection starts begins inside the log, where the code would otherwise index out of range; `NoReachablePanic` proves that of every reply in every run.
