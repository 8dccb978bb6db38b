# A verified model of raft-lite

raft-lite is a Raft peer with leader election, log replication, log compaction by snapshots and
recovery from disk, and a replicated bank ledger on top of it. This project models the protocol
core (`raft/`), the ledger (`sm/transaction.go`) and the simulation's log checker
(`simulation/local.go`) in Dafny and proves what they promise. `dafny verify dfyconfig.toml` checks
everything.

The algorithm is the one of Ongaro and Ousterhout, "In Search of an Understandable Consensus
Algorithm"; "Figure 3" and the section numbers below refer to that paper. The code differs from it
in ways the proofs carry along: it commits through one channel per pending index, caps a follower's
commit index by the length of its log, counts votes with a bare counter, and never grants a vote
twice in a term, not even to the same candidate.

## How it is built

Three layers, each proved against the next.

1. **The cluster** (`Cluster.dfy`). Every critical section under a peer's mutex is one atomic step
   of a transition system; the network loses, delays, duplicates and reorders messages, and peers
   crash at any time. A peer is here a value with its whole log (`PeerModel.dfy`); how far it has
   compacted is only an index. An AppendEntries request that runs out of range kills the peer, which
   then restarts from its disk: nothing is repaired silently.
   * `History.dfy`, `HistorySteps.dfy`: a history that remembers every leader's log, every ballot
     and every acknowledgement, and the safety argument of section 5.4 about it.
   * `ClusterInv.dfy` ties a cluster to its history; `ClusterFrames.dfy`, `ElectionSteps.dfy`,
     `FollowerSteps.dfy`, `LeaderSteps.dfy` prove that each kind of step keeps that invariant.
   * `RunLaws.dfy`, `Leaderships.dfy`, `PendingLaws.dfy`, `CommitLaws.dfy`, `KeepingUp.dfy`: the theorems, each about
     every run and any states of it. `Scenario.dfy`: runs of three peers that show the findings below.
2. **One peer as an object** (`PeerNode.dfy`). `Node` has the program's fields: a compacted log, a
   snapshot, a ledger, a disk. A ghost field holds the whole log. Every method's effect on the
   object's `View()` is a function of `PeerModel`, so the objects refine the values the cluster is
   made of, step by step; and `Valid()` says that log and snapshot represent the whole log, that the
   ledger is the fold of the log up to `commitIndex`, and that the snapshot is its fold up to
   `LastIncludedIndex`. `HandlerLaws.dfy` says for every critical section what it answers, what the peer
   becomes and what stays, for every peer and message; `PeerLaws.dfy` says what scanning, appending,
   compacting and installing achieve when the logs match. `Replication.dfy` is about single exchanges between a leader and
   a follower; `ReplicationLoop.dfy` runs the leader's loop against the follower, both as objects, while
   messages get lost and the leader goes on taking and committing commands, during calls too.
3. **The ledger** (`Ledger.dfy`, `LedgerLaws.dfy`) as a deterministic function over 64-bit wrapping
   integers, and as the class that executes it in place.

`Checker.dfy` models the simulation's log checker: what it accepts, and that it accepts every
reachable cluster.

## Findings

* The scan of `handleAppendEntries` can run out of range in a reachable state
  (`Scenario.OvertakenRequestKills`). `RunLaws.AppendDiesExactly` says for exactly which requests,
  and the safety theorems hold with that outcome present.
* The comment at raft/request_vote.go:29 says that a candidate voted for before gets its vote again;
  the code compares pointers and refuses (`PeerLaws.VotesOnce`). The model follows the code.
* `handleInstallSnapshot` passes its own term to `updateTerm` (raft/snapshot.go:52), so it never
  raises the term nor ends a leadership (`PeerLaws.InstallFollowsLeader`), and it can lower the commit
  index: a second copy of a snapshot that arrives late does (`Scenario.LateSnapshotLowersCommit`), and
  `PeerLaws.InstallMayLowerCommit` says exactly when.
* When the reply to AppendEntries is lost, the leader repeats the request from the same `nextIndex`. If
  the follower has meanwhile compacted past it, the repetition kills it (`Scenario.LostReplyKills`).
  `Replication.RetryDiesExactly` tells from the two peers before the first request when it will;
  with equal thresholds it will not (`Replication.Unanswered`).
* The loop of `callAppendEntryRPC` can end without having brought the follower up to date: when the
  heartbeat it begins with is lost, since nothing repeats a request without entries
  (raft/append_entry.go:160-164), and when the leader compacts its whole log while its snapshot is under
  way, since the answer then sets `nextIndex` beyond what was sent (raft/append_entry.go:139-141,
  `Scenario.OvertakenSnapshotSkips`). `ReplicationLoop.CallAppendEntryRPC` says that it ends in no other
  way, and exactly when in the first.
* The ledger recognises repeated requests exactly if every client finishes one request before the
  next (`LedgerLaws.CopiesDetectedExactly`); `LedgerLaws.LateCopyRunsTwice` is a log where it does not.

## Model

| member | source | states |
|---|---|---|
| RunLaws.ElectionSafety | raft/request_vote.go:18-133 | Election Safety: in every run, with lost replies, retries and crashes, two leaders of one term, at whatever times, are the same peer |
| RunLaws.LogMatching | raft/append_entry.go:29-45 | Log Matching: two logs of any peers at any times that hold the same term at an index are identical up to it |
| RunLaws.LeaderCompleteness | raft/append_entry.go:230-246 | Leader Completeness: once a pending index has its majority, every leader of that or a later term holds the entry and all before it |
| RunLaws.LeadersHaveCommitted | raft/request_vote.go:44-53 | a leader has everything any peer of no later term had committed |
| RunLaws.CommittedPrefixesAgree | raft/peer.go:327-348 | of two committed prefixes, of any peers at any times, one is a prefix of the other |
| RunLaws.StateMachineSafety | raft/peer.go:330-334 | State Machine Safety: no two peers ever apply different entries at the same true index |
| RunLaws.LedgersAgree | raft/peer.go:330-343 | peers with equal commit index have equal ledgers |
| RunLaws.SnapshotsAgree | raft/snapshot.go:19-41 | locally taken snapshots are equal exactly when taken at the same index, whatever the thresholds, restarts and times |
| RunLaws.CommittedNeverOverridden | raft/append_entry.go:37-40 | for requests however old, neither the "overriding" error nor the "Overriding" exit (raft/append_entry.go:74-78) is reachable |
| RunLaws.AppendDiesExactly | raft/append_entry.go:33-36 | a request in flight kills a peer that listens to it exactly if it starts below the peer's snapshot, or brings entries the peer holds and has gone beyond |
| RunLaws.CommitWithinRequest | raft/append_entry.go:145-172 | every request's LeaderCommit is within what it covers; a follower that takes it then holds exactly the entries sent where they belong, and that commit index or its own higher one |
| RunLaws.VoteCountIsHonest | raft/request_vote.go:116-122 | a candidate's counter is the number of distinct peers whose disks have carried a vote for it in the term |
| RunLaws.GrantedVotesKept | raft/request_vote.go:33-39 | a granted vote survives everything after it: no disk falls back below its term or forgets the candidate within it |
| RunLaws.ChannelsAreHonest | raft/append_entry.go:223-251 | a pending index's channel holds one message per distinct peer, never more than its capacity, each from a peer whose disk has carried the leader's log up to the index in this term |
| RunLaws.NoStrandedWaiter | raft/append_entry.go:195-201 | ack sets of pending indices are nested; an index the commit index has passed has its majority in its own channel |
| RunLaws.BallotOnDisk | raft/request_vote.go:33-39 | every ballot a run's history remembers was once on the voter's disk |
| RunLaws.AckOnDisk | raft/append_entry.go:49-52 | every acknowledgement a run's history remembers was once the content of the follower's disk |
| RunLaws.LeaderTargets | raft/append_entry.go:119-154 | for every other peer a leader's nextIndex is at least 1, so the "out of range" exit is unreachable, and at most the length of its log, and its matchIndex lies within the log |
| RunLaws.SnapshotBounds | raft/peer.go:335-343 | only committed entries are ever compacted |
| RunLaws.CrashLosesOnlyTheTerm | raft/pstorage.go:35-83 | a crash at any point of a run loses no log entry, commit or compaction; only an unsaved term, and that only of a follower |
| Leaderships.NewLeader | raft/request_vote.go:116-126 | a peer becomes leader only of a term that never had one |
| Leaderships.LeadershipUnbroken | raft/peer.go:211-253 | a leadership once ended never resumes in its term |
| Leaderships.MatchIndexMonotone | raft/append_entry.go:191-202 | within a leadership no matchIndex decreases |
| Leaderships.MatchMoves | raft/append_entry.go:179-202 | only a successful reply moves a leader's matchIndex for a target, and to the end of the request |
| CommitLaws.StepMovesIndices | raft/peer.go:327-348 | every step of a cluster leaves a peer's commit and snapshot indices alone or moves them together by a commit |
| CommitLaws.RetentionBound | raft/peer.go:335-340 | with a threshold of at least 2, a peer of a reachable state keeps fewer than the threshold of committed entries uncompacted |
| CommitLaws.CommittedForEver | raft/peer.go:326-348 | what a peer has committed it keeps, across crashes and any requests |
| ClusterFrames.MayHappen | raft/peer.go:173-186 | in the model a peer may crash at any time, time out exactly if it does not lead, and take a command exactly if it leads |
| ClusterFrames.MayArrive | raft/rpc.go:150-219 | every message in flight may arrive, a request at any peer but its sender |
| ClusterFrames.OnlyActorSteps | raft/rpc.go:150-219 | a cluster step runs one critical section of one peer and touches no other |
| Scenario.OvertakenRequestKills | raft/append_entry.go:33-36 | a run that ends with a request on its way that kills a follower |
| Scenario.LostReplyKills | raft/append_entry.go:173-176 | a run in which a follower takes and compacts a committed entry, and the request the leader makes again, its reply lost, kills it |
| Scenario.OvertakenSnapshotSkips | raft/append_entry.go:139-141 | a run in which a leader compacts its whole log while its snapshot is under way: the answer sets nextIndex to the end of its log, the follower having half of it |
| Scenario.LateSnapshotLowersCommit | raft/snapshot.go:58-64 | a run whose leader has compacted while a follower heard nothing: the follower gets the snapshot, the next entries, and with a second copy of the snapshot goes back to the first commit |
| RunLaws.TermsAscend | raft/append_entry.go:218-219 | terms never go down along a log and never exceed the peer's own |
| RunLaws.LeaderHasItsEntries | raft/append_entry.go:218-219 | whoever has an entry of a leader's term has a prefix of that leader's log up to it |
| CommitLaws.CompactionInSteps | raft/peer.go:335-340 | in every reachable state a peer with a threshold of at least 2 has compacted up to the last whole number of thresholds it has committed |
| CommitLaws.CompactionOnPlan | raft/peer.go:330-343 | in every reachable state how far a peer has compacted depends on its commit index and its threshold alone |
| KeepingUp.NotAheadOfLeader | raft/append_entry.go:178-202 | in every reachable state a follower of no later term than a leader's has committed nothing both from its nextIndex on and beyond the leader's commit index |
| KeepingUp.AlwaysUp | raft/append_entry.go:145-202 | every request and reply in flight, however old, keeps that so: what it says of commits still holds |
| RunLaws.AcknowledgedKept | raft/append_entry.go:49-52 | an acknowledged request's entries stay on the follower's disk as long as the request's term is there, and the disk never falls back to an earlier term |
| FollowerSteps.RefusalIsLater | raft/append_entry.go:70-81 | a refusal in the request's own term is of a request that starts at index 1 or later |
| FollowerSteps.ReceiveAppendKeeps | raft/append_entry.go:21-53 | handling any AppendEntries request ever sent keeps the cluster's invariant, for every outcome |
| FollowerSteps.CrashInAppendKeeps | raft/append_entry.go:62-66 | so does dying after the first of the handler's two saves |
| FollowerSteps.CrashKeeps | raft/pstorage.go:35-68 | so do a crash and a restart from disk at any time |
| ElectionSteps.TimeoutKeeps | raft/request_vote.go:60-76 | so does standing for election |
| ElectionSteps.ReceiveVoteRequestKeeps | raft/request_vote.go:18-40 | so does answering a vote request |
| ElectionSteps.ReceiveVoteReplyKeeps | raft/request_vote.go:104-133 | so does counting a vote and becoming leader |
| LeaderSteps.ClientRequestKeeps | raft/append_entry.go:212-231 | so does taking a client's command |
| LeaderSteps.SendAppendKeeps | raft/append_entry.go:145-172 | so does sending entries |
| LeaderSteps.ReceiveAppendReplyKeeps | raft/append_entry.go:178-204 | so does handling the reply to a call, within its term |
| LeaderSteps.CommitKeeps | raft/append_entry.go:233-246 | so does committing on a majority of messages |
| ClusterInv.CertifiedInLeader | raft/append_entry.go:237-246 | every leader of a later term has each prefix some leader committed |
| HistorySteps.ElectInv | raft/request_vote.go:44-53 | electing a candidate that is up to date for a majority keeps the safety invariant of section 5.4 |
| HistorySteps.AcceptInv | raft/append_entry.go:41-52 | so does a follower adopting and acknowledging a stretch of its leader's log |
| PeerLaws.MergeFollowsLeader | raft/append_entry.go:29-45 | unless the scan overruns, scan and append leave the leader's log up to the last entry sent, and cut off nothing the logs agreed on |
| PeerLaws.MergeTruncatesOnConflict | raft/append_entry.go:33-41 | an entry is only cut off at or after a real term conflict |
| PeerLaws.OverrunsExactly | raft/append_entry.go:33-36 | the scan runs out of range exactly if the log holds everything sent and more |
| PeerLaws.AppendDiesExactly | raft/append_entry.go:70-73 | the same for the whole handler and a log that matches the leader's |
| PeerLaws.ScanPassesCommon | raft/append_entry.go:33-40 | the scan passes over whatever the logs have in common |
| PeerLaws.SuccessTakesEntries | raft/append_entry.go:21-53 | all that a successful request changes, saved: log, term, vote, role, commit index, compaction |
| PeerLaws.FailureListens | raft/append_entry.go:57-82 | any other answer to a listening peer only records the leader's term |
| PeerLaws.CompactRetention | raft/peer.go:335-340 | after a commit that advances, fewer than the threshold of committed entries remain uncompacted |
| PeerLaws.CompactAll | raft/peer.go:335-340 | with a threshold of at most 1 a commit compacts all that is committed |
| PeerLaws.VotesOnce | raft/request_vote.go:28-32 | after a granted vote every request of the term is refused, a repeated one included |
| PeerLaws.InstallFollowsLeader | raft/snapshot.go:45-76 | a snapshot of a matching log: when the suffix stays and when it goes, when it is out of range, that the log goes on matching, and that role, term and vote stay |
| PeerLaws.InstallMayLowerCommit | raft/snapshot.go:45-64 | the commit index drops exactly for a snapshot of a term not over that ends below it and not below the peer's own; the committed entries stay in the log |
| HandlerLaws.VoteGrantedExactly | raft/request_vote.go:18-53 | a vote is granted exactly in a term not over, not given yet, to a log that ends in a later term or in the same and is no shorter |
| HandlerLaws.VoteGrantedTo | raft/request_vote.go:44-76 | that is, to a candidate whose log is at least as up to date (section 5.4.1) |
| HandlerLaws.VoteAnswered | raft/request_vote.go:18-40 | granted or refused: the answer's term is the peer's, the later of the two; role, vote, bookkeeping, what is saved and what stays |
| HandlerLaws.VoteCounted | raft/request_vote.go:104-133 | a reply of a later term makes the candidate a follower in it, one of an earlier term or to a non-candidate does nothing, a vote counts, and more than half of the peers make a leader |
| HandlerLaws.StandsForElection | raft/request_vote.go:60-76 | the next term, the own vote and a count of one, saved, nothing else; and what the request says |
| HandlerLaws.AppendOutcome | raft/append_entry.go:21-82 | exactly when a request succeeds, kills the peer or makes it give up; every reply carries the later of the two terms |
| HandlerLaws.AppendHandled | raft/append_entry.go:21-53 | what a request leaves behind: log entry by entry, commit index, compaction, role, term, vote, bookkeeping, disk |
| HandlerLaws.MergeSplices | raft/append_entry.go:29-41 | after prev come as many entries as sent, the peer's own while all terms agree, the leader's from the first that differs |
| HandlerLaws.CommandTaken | raft/append_entry.go:218-227 | the command at the log's end, saved, with a channel that holds the leader's message; all other channels stay |
| HandlerLaws.CommandCommitted | raft/append_entry.go:241-244 | the commit index as far as the log goes, saved, the committed index's channel gone and no other |
| HandlerLaws.Sends | raft/append_entry.go:119-172 | when entries can be sent, and all that requests and snapshots say; a snapshot's ledger is that of the commands it covers |
| HandlerLaws.ReplyHandled | raft/append_entry.go:178-204 | a refusal of a later term deposes, another backs off by one, a success moves the target and signals each newly covered waiter once; nothing else moves |
| HandlerLaws.SnapshotAnswerHandled | raft/snapshot.go:79-86 | a later term deposes, otherwise the target goes on after the snapshot (raft/append_entry.go:139-141) |
| HandlerLaws.StaleSnapshotIgnored | raft/snapshot.go:46-50 | a snapshot of an earlier term changes nothing and is answered with the peer's term |
| HandlerLaws.SnapshotTaken | raft/snapshot.go:52-76 | any other: when it is out of range, what is kept of the log, and that term, vote, role and bookkeeping stay |
| HandlerLaws.CommitAdvances | raft/peer.go:327-348 | a commit moves the two indices and nothing else, is saved if it advances, and compacts at whole thresholds |
| HandlerLaws.CompactsInSteps | raft/peer.go:335-340 | compaction goes by whole thresholds from where it stands |
| HandlerLaws.RestartRestores | raft/pstorage.go:48-53 | restart brings back all that was saved and nothing else |
| HandlerLaws.DyingRestarts | raft/pstorage.go:35-68 | whoever dies, of a request or otherwise, is back as a follower with what was on disk |
| HandlerLaws.LaterTermRules | raft/peer.go:315-324 | whoever handles a message of a later term is then a follower in it, without vote (but one just given) and without a leader's bookkeeping |
| HandlerLaws.TermsMoveFor | raft/peer.go:315-324 | only a message's later term, an election (by one) or a restart changes a term |
| PendingLaws.PendingHaveChannels | raft/append_entry.go:223-227 | in every reachable state every command of a leader's term beyond its commit index has its channel |
| PendingLaws.ChannelStays | raft/append_entry.go:238-246 | within a leadership a channel stays open and loses no message until its own waiter commits |
| PeerNode.Node.constructor | raft/peer.go:92-125 | a new peer: one sentinel entry, an empty ledger, nothing loaded |
| PeerNode.Node.LoadFromPersistentStorage | raft/pstorage.go:35-68 | refuses another peer's data and changes nothing then; otherwise the peer is exactly the saved one and its ledger the fold of its log up to the saved commit index |
| PeerNode.Node.ReplayFromSnapshot | raft/pstorage.go:54-65 | the replay loop rebuilds that ledger from the snapshot and the entries after it |
| PeerNode.Node.SaveToPersistentStorage | raft/pstorage.go:71-83 | the disk then holds the peer as it is, with its identity |
| PeerNode.Node.ToLogIndex | raft/peer.go:417-423 | translation of true indices: what the compacted log has at the result the whole log has at the true index |
| PeerNode.Node.LogLen | raft/peer.go:426-431 | the length of the whole log behind the compacted one |
| PeerNode.Node.HasTerm | raft/peer.go:434-439 | the entries a term can be read for: those of the whole log from the snapshot's last on |
| PeerNode.Node.GetLogTermByIndex | raft/peer.go:434-439 | the term the whole log has there |
| PeerNode.Node.UpdateTerm | raft/peer.go:315-324 | a later term, and only that, replaces the current one and clears the vote |
| PeerNode.Node.ChangeState | raft/peer.go:211-253 | role changes with the leader's bookkeeping dropped or set up; no effect when the role stays |
| PeerNode.Node.StartElection | raft/request_vote.go:60-76 | the candidate's new term and own vote, on disk |
| PeerNode.Node.MakeVoteRequest | raft/request_vote.go:71-76 | the request carries the end of the whole log |
| PeerNode.Node.HandleRequestVote | raft/request_vote.go:18-40 | the compacted peer answers, and becomes, what the uncompacted one does |
| PeerNode.Node.HandleRequestVoteRespond | raft/request_vote.go:104-133 | the same for a counted vote |
| PeerNode.Node.UpdateCommitIndex | raft/peer.go:327-348 | the loop applies and compacts; log and indices as uncompacted, and the ledger stays the fold of the log |
| PeerNode.Node.ApplyEntryAt | raft/peer.go:331-340 | one entry applied, and a snapshot taken exactly when the threshold is reached |
| PeerNode.Node.SaveToSnapshot | raft/snapshot.go:33-41 | compaction keeps log and snapshot a representation of the same whole log |
| PeerNode.Node.MakeSnapshot | raft/snapshot.go:19-30 | the snapshot holds the ledger and the term at its last index |
| PeerNode.Node.ConsistencyCheck | raft/append_entry.go:57-82 | the check's three answers and the peer's new state, as uncompacted |
| PeerNode.Node.Scan | raft/append_entry.go:30-36 | the scanning loop finds the first entry that is new, or runs out of range exactly when the entries end first |
| PeerNode.Node.ReplaceSuffix | raft/append_entry.go:41 | cutting and appending on the compacted log does the same to the whole one |
| PeerNode.Node.HandleAppendEntries | raft/append_entry.go:21-53 | the whole handler on the compacted peer refines the uncompacted one, outcome included |
| PeerNode.Node.AppendClientEntry | raft/append_entry.go:212-231 | the leader appends and saves the command and opens its channel with its own message; others refuse |
| PeerNode.Node.AwaitMajority | raft/append_entry.go:233-251 | the counting loop commits exactly if a majority of messages came while the peer still leads in the same term |
| PeerNode.Node.NextCall | raft/append_entry.go:113-172 | what a leader sends next: the suffix from nextIndex, or its snapshot; and exactly when that is out of range |
| PeerNode.Node.HandleAppendReply | raft/append_entry.go:178-204 | step down, back off by one, or advance nextIndex and matchIndex and signal the newly covered waiters |
| PeerNode.Node.SendSignals | raft/append_entry.go:195-200 | the signalling loop sends one message to each pending index in its range |
| PeerNode.Node.HandleInstallSnapshot | raft/snapshot.go:45-76 | for a snapshot of any prefix the peer stays a representation of a whole log with that prefix, its ledger the prefix's |
| PeerNode.Node.KeepSuffix | raft/snapshot.go:56-62 | keeping or discarding the suffix, on the compacted log, does the same to the whole one |
| PeerNode.Node.HandleInstallSnapshotRes | raft/snapshot.go:79-86 | a leader steps down for a later term, else goes on after its snapshot; any other peer only records a later term |
| ReplicationLoop.CallAppendEntryRPC | raft/append_entry.go:94-208 | back-off convergence, through any finite number of lost requests, lost replies (at equal thresholds), and client commands and commits between and during calls: the loop ends, neither side goes out of range, nothing committed is overridden; then the leader's log is a prefix of the follower's, the follower has committed all the leader had at the start, and the leader's bookkeeping covers every entry not yet committed, unless the heartbeat it began with was lost, for which an exact condition on what happened is given, or a commit during a call overtook a snapshot |
| ReplicationLoop.MeetFate | raft/append_entry.go:130-206 | what an answered or lost call does to both peers and to the loop, the leader having gone on since the call; an answered call it has not gone on from gets nearer to the end |
| ReplicationLoop.LeaderActs | raft/append_entry.go:212-253 | taking a command or committing while a call is under way leaves nextIndex and matchIndex alone and only extends log, commit and compaction |
| Replication.Answer | raft/append_entry.go:21-53 | a follower the leader is ready for neither dies nor overrides: it takes the leader's log exactly if the logs agree before nextIndex, or refuses and keeps everything |
| Replication.Exchange | raft/append_entry.go:145-203 | one answered AppendEntries exchange ends the search or lowers nextIndex by one |
| Replication.ReplyLater | raft/append_entry.go:178-203 | the same for a reply that reaches a leader that has taken and committed commands since the call |
| Replication.Unanswered | raft/append_entry.go:173-176 | with the reply lost, the leader is ready to repeat the call unless the follower has compacted past it; at equal thresholds it has not |
| Replication.RetryDiesExactly | raft/append_entry.go:70-73 | the repeated request kills the follower exactly if the logs agree before nextIndex and the leader's commit index makes the follower compact as far as nextIndex |
| Replication.OutrunDies | raft/append_entry.go:33-36 | the follower that loop is not promised for is exactly the one that dies of the request |
| Replication.Install | raft/append_entry.go:120-143 | a snapshot exchange leaves the follower in agreement with the leader as far as the snapshot, whether or not the leader hears of it |
| Replication.InstallLater | raft/append_entry.go:136-142 | the same for an answer that reaches a leader that has compacted further since |
| Replication.LaterReady | raft/append_entry.go:218-246 | a leader that takes and commits commands stays ready for the follower |
| Replication.ReachableReady | raft/request_vote.go:116-126 | in every reachable state a leader with an entry of its term at its end, or that has sent nothing yet, meets the loop's requirements towards every peer of no later term and the same threshold, and of another threshold if the peer has not compacted past both nextIndex and the leader's snapshot |
| Messages.ReplayRunsActions | raft/peer.go:330-334 | applying a log is running its commands, nil ones left out |
| Ledger.TSM.ApplyAction | sm/transaction.go:56-129 | the in-place state machine computes the pure one, and reports the error it records |
| Ledger.TSM.ResetWithSnapshot | sm/transaction.go:167-174 | the state is the snapshot's |
| Ledger.ActionBuilder.NewRequestID | sm/transaction.go:219-222 | the next number of a 32-bit counter that wraps |
| Ledger.ActionBuilder.SetValue | sm/transaction.go:225-233 | a Set of the key and value under the client's next number |
| Ledger.ActionBuilder.IncrValue | sm/transaction.go:236-244 | an Incr of the key and value under the client's next number |
| Ledger.ActionBuilder.MoveValue | sm/transaction.go:247-256 | a Move from source to target under the client's next number |
| LedgerLaws.SignTestIsExact | sm/transaction.go:82-87 | the sign test after a wrapping addition accepts exactly the sums in range |
| LedgerLaws.ExecuteIsExact | sm/transaction.go:69-117 | an action is accepted exactly if it is acceptable over unbounded integers, and then does what it means there |
| LedgerLaws.ApplyIsExact | sm/transaction.go:56-129 | a repeated action does nothing; a fresh one does to the balances what it means over unbounded integers, and records its number and result for its client and no other |
| LedgerLaws.RunIsExact | sm/transaction.go:56-129 | the same after any log |
| LedgerLaws.ErrorIsExact | sm/transaction.go:67-117 | which error a rejected action gets: the first of its faults, over unbounded integers |
| LedgerLaws.BalancesStayInRange | sm/transaction.go:69-117 | no log ever makes a balance negative or lets it overflow |
| LedgerLaws.TotalIsAccountedFor | sm/transaction.go:69-117 | after any log the total is the sum of what accepted Set and Incr actions put in |
| LedgerLaws.MovesConserveTotal | sm/transaction.go:88-114 | moves, rejected and repeated requests conserve the total |
| LedgerLaws.ExactlyOnce | sm/transaction.go:56-66 | for clients with one request at a time a log has the effect of its first copies, recorded results included |
| LedgerLaws.CopiesDetectedExactly | sm/transaction.go:58-65 | the duplicate test is right at every request of a log exactly if its clients make one request at a time |
| LedgerLaws.LateCopyRunsTwice | sm/transaction.go:58-65 | a late copy of an older request is executed again |
| LedgerLaws.IdsCountUp | sm/transaction.go:219-222 | request numbers count up by one and start again after the last of 32 bits |
| LedgerLaws.IdsAreDistinct | sm/transaction.go:215-222 | request numbers repeat after 2^32 requests and not before |
| LedgerLaws.BuildersAreOneAtATime | sm/transaction.go:214-256 | a log of numbered actions, each client repeating at most its latest, has exactly-once application |
| Checker.AgreeOnTwoLogEntries | simulation/local.go:446-459 | accepts exactly if equal terms at an index mean equal commands up to it |
| Checker.EqualMeansEqual | raft/snapshot.go:89-104 | snapshot equality is equality: both missing, or the same index, term and ledger |
| Checker.AgreeOnLogEntriesIfSnapshotEqual | simulation/local.go:398-418 | accepts exactly if all pairs of peers with equal snapshots agree |
| Checker.CheckPasses | simulation/local.go:398-418 | accepts every cluster, each peer's log and snapshot being read at times of their own, unless a peer compacts between its two reads |
| Checker.CheckAlwaysPasses | simulation/local.go:398-418 | accepts every reachable state |
| Checker.NodeShows | raft/peer.go:364-402 | a peer object's log, snapshot and ledger are those of its view as a value |

## Left out

- FollowerSteps.ReceiveAppendKeeps: InstallSnapshot requests are not among the messages of the cluster. The handler never raises the term, steps the receiver down or keeps its commit index from falling, so a leader can take a snapshot and go on leading. It is modelled for single peers and in the leader's loop.
- LeaderSteps.ReceiveAppendReplyKeeps: assumes that a reply is handled in the term its request was sent; raft/append_entry.go:179 looks at the role only. The timing makes this so in simulation (simulation/local.go:35, raft/peer.go:149).
- PeerNode.Node.HandleAppendEntries: that the ledger stays the fold of the log is conditional on not overriding committed entries, which RunLaws.CommittedNeverOverridden excludes for reachable states.
- ReplicationLoop.CallAppendEntryRPC: lost replies are covered for peers with equal thresholds only, since with different ones the repetition can kill the follower (Scenario.LostReplyKills); requests delayed beyond the reply to a later one, and changes of term, are steps of the cluster model, not of the loop. That commits overtake a snapshot is given as necessary for that ending, not as sufficient.
- Checker.CheckPasses: the program reads logs and snapshots under separate locks; a peer that compacts between its two reads shows a log and a snapshot that do not belong together, and the check may then reject a correct cluster.
- LedgerLaws.BuildersAreOneAtATime: that a client repeats only its latest request is the client program's doing and assumed here.
- Checker.AgreeOnLogEntriesIfSnapshotEqual: answers a boolean in place of the error text.
- Wall-clock time: timers, heartbeats, `isValidLeader`, `heardFromLeader` and `leaderID`; a timeout is a step that may happen at any time, so nothing is said about liveness beyond the replication loop.
- Transport: gob encoding, TCP and channel RPC. A vote request in flight can reach every peer but its sender, which allows more than the program does; pstorage's files and flushing: a save is atomic and durable.
- Crashes in the middle of a critical section other than between the two saves of `handleAppendEntries`: they leave the disk as before or after the whole section, which `Crash` covers.
- Terms, indices and counts are unbounded integers; only the ledger's 64-bit and 32-bit arithmetic wraps.
- `ShutDown` of a leader with pending requests, and the result of `onReceiveClientRequest` when its channel is closed before a commit.
- A snapshot or a disk record is its content: errors of encoding and decoding are not modelled. Ledger errors are a datatype, not their text.
- `Query` and its constructors, `IdenticalLogEntries`, `AgreeOnTerm`, the other simulation helpers, the command line client, `sm/empty.go`: nothing hard to prove.
