/** One peer as a value that keeps its whole log: what each critical section of raft/peer.go,
    raft/request_vote.go, raft/append_entry.go and raft/snapshot.go does to it.

    Log compaction shows only as snapIndex, the index up to which the peer has discarded its
    log (-1 when it has no snapshot); PeerNode relates this to the compacted representation. */
module PeerModel {
  import opened Wrappers
  import opened Messages

  datatype Role = Follower | Candidate | Leader

  /** What is on disk: PersistentData. */
  datatype Saved = Saved(
    currentTerm: nat, votedFor: Option<NodeID>, voteCount: nat,
    log: seq<LogEntry>, commitIndex: int, snapIndex: int)

  datatype Peer = Peer(
    id: NodeID, others: set<NodeID>, threshold: int,
    role: Role, currentTerm: nat, votedFor: Option<NodeID>, voteCount: nat,
    log: seq<LogEntry>, commitIndex: int, snapIndex: int,
    nextIndex: map<NodeID, int>, matchIndex: map<NodeID, int>,
    channels: map<int, seq<NodeID>>,  // pending index -> messages its channel has received
    disk: Saved)
  {
    function TotalPeers(): nat {
      |others| + 1
    }

    function LastTerm(): nat
      requires log != []
    {
      log[|log| - 1].term
    }
  }

  const EMPTY_DISK := Saved(0, None, 0, [SENTINEL], 0, -1)

  function NewPeer(id: NodeID, others: set<NodeID>, threshold: int): Peer {
    Peer(id, others, threshold, Follower, 0, None, 0, [SENTINEL], 0, -1, map[], map[], map[], EMPTY_DISK)
  }

  function Save(p: Peer): Peer {
    p.(disk := Saved(p.currentTerm, p.votedFor, p.voteCount, p.log, p.commitIndex, p.snapIndex))
  }

  /** A peer rebuilt from disk after its process died. */
  function Restart(p: Peer): Peer {
    var d := p.disk;
    NewPeer(p.id, p.others, p.threshold).(
      currentTerm := d.currentTerm, votedFor := d.votedFor, voteCount := d.voteCount,
      log := d.log, commitIndex := d.commitIndex, snapIndex := d.snapIndex, disk := d)
  }

  function UpdateTerm(p: Peer, term: nat): Peer {
    if term > p.currentTerm then p.(currentTerm := term, votedFor := None) else p
  }

  /** changeState(Follower): a leader also drops its bookkeeping. */
  function BecomeFollower(p: Peer): Peer {
    if p.role == Leader then p.(role := Follower, nextIndex := map[], matchIndex := map[], channels := map[])
    else p.(role := Follower)
  }

  function BecomeLeader(p: Peer): Peer {
    p.(role := Leader, nextIndex := map t | t in p.others :: |p.log|, matchIndex := map t | t in p.others :: 0,
       channels := map[])
  }

  // ----- elections

  /** An election timeout of a follower or a candidate. */
  function StartElection(p: Peer): Peer {
    Save(UpdateTerm(p.(role := Candidate, voteCount := 1), p.currentTerm + 1).(votedFor := Some(p.id)))
  }

  function VoteRequest(p: Peer): RequestVoteReq
    requires p.log != []
  {
    RequestVoteReq(p.currentTerm, p.id, |p.log| - 1, p.LastTerm())
  }

  /** Whether a log is more up to date than one ending with the given index and term. */
  predicate MoreUpToDate(log: seq<LogEntry>, lastLogIndex: int, lastLogTerm: nat)
    requires log != []
  {
    var myTerm := log[|log| - 1].term;
    myTerm > lastLogTerm || (myTerm == lastLogTerm && |log| - 1 > lastLogIndex)
  }

  function HandleRequestVote(p: Peer, req: RequestVoteReq): (Peer, RequestVoteRes)
    requires p.log != []
  {
    var q := if req.term > p.currentTerm then BecomeFollower(UpdateTerm(p, req.term)) else p;
    if req.term < q.currentTerm || MoreUpToDate(q.log, req.lastLogIndex, req.lastLogTerm) then
      (q, RequestVoteRes(q.currentTerm, false))
    else if q.votedFor != None then
      // a request repeated by the candidate voted for is refused as well
      (q, RequestVoteRes(q.currentTerm, false))
    else
      (Save(q.(votedFor := Some(req.candidateID))), RequestVoteRes(q.currentTerm, true))
  }

  function HandleRequestVoteRespond(p: Peer, res: RequestVoteRes): Peer {
    if res.term > p.currentTerm then BecomeFollower(UpdateTerm(p, res.term))
    else if res.term < p.currentTerm || p.role != Candidate then p
    else if !res.voteGranted then Save(p)
    else
      var q := p.(voteCount := p.voteCount + 1);
      Save(if q.voteCount > q.TotalPeers() / 2 then BecomeLeader(q) else q)
  }

  // ----- commit and compaction

  /** Where compaction stands after applying the entries in (from, last]. */
  function CompactAfter(snapIndex: int, from: int, last: int, threshold: int): int
    decreases last - from
  {
    if from >= last then snapIndex
    else CompactAfter(if from + 1 - snapIndex >= threshold then from + 1 else snapIndex, from + 1, last, threshold)
  }

  function UpdateCommitIndex(p: Peer, idx: int): Peer {
    var last := Min(idx, |p.log| - 1);
    if last > p.commitIndex then
      Save(p.(snapIndex := CompactAfter(p.snapIndex, p.commitIndex, last, p.threshold), commitIndex := last))
    else p
  }

  // ----- log replication, leader side

  /** onReceiveClientRequest up to the point where it starts waiting. */
  function ClientAppend(p: Peer, entry: LogEntry): Peer
    requires p.role == Leader
  {
    Save(p.(log := p.log + [entry])).(channels := p.channels[|p.log| := [p.id]])
  }

  /** onReceiveClientRequest once a majority of its channel's messages is in. */
  function CommitPending(p: Peer, idx: int): Peer
    requires p.role == Leader
  {
    Save(UpdateCommitIndex(p, idx)).(channels := p.channels - {idx})
  }

  /** Whether the next request to a target is AppendEntries (otherwise the target needs a
      snapshot, or nextIndex has run out of range). */
  predicate CanSend(p: Peer, target: NodeID) {
    target in p.nextIndex && Max(p.snapIndex, 0) < p.nextIndex[target] <= |p.log|
  }

  function AppendRequest(p: Peer, target: NodeID): AppendEntriesReq
    requires CanSend(p, target)
  {
    var next := p.nextIndex[target];
    AppendEntriesReq(p.currentTerm, p.id, next - 1, p.log[next - 1].term, p.commitIndex, p.log[next..])
  }

  /** The leader's snapshot, for a target that lags behind it. */
  function SnapshotRequest(p: Peer): InstallSnapshotReq
    requires 0 <= p.snapIndex < |p.log|
  {
    InstallSnapshotReq(p.currentTerm, p.id,
      Snapshot(p.snapIndex, p.log[p.snapIndex].term, Replay(p.log[..p.snapIndex + 1])))
  }

  /** The reply to a request sent in the current term. */
  function HandleAppendReply(p: Peer, target: NodeID, req: AppendEntriesReq, res: AppendEntriesRes): Peer
    requires p.role == Leader && target in p.nextIndex && target in p.matchIndex
  {
    if !res.success then
      if res.term > p.currentTerm then Save(BecomeFollower(UpdateTerm(p, res.term)))
      else p.(nextIndex := p.nextIndex[target := p.nextIndex[target] - 1])
    else
      p.(nextIndex := p.nextIndex[target := req.End() + 1],
         matchIndex := p.matchIndex[target := req.End()],
         channels := Signal(p.channels, target, Max(p.commitIndex, p.matchIndex[target]), req.End()))
  }

  /** Tell the waiter of every pending index in (from, to] that the target has acknowledged it. */
  function Signal(channels: map<int, seq<NodeID>>, target: NodeID, from: int, to: int): map<int, seq<NodeID>> {
    map i | i in channels :: if from < i <= to then channels[i] + [target] else channels[i]
  }

  // ----- log replication, follower side

  /** How handling AppendEntries ends: with a reply, with an index out of range (which kills the
      process) or with the Fatalf that reports an overridden committed log. */
  datatype Outcome<T> = Replied(res: T) | OutOfRange | Fatal

  /** How many of the entries the log already holds after prev, as the scan counts them. */
  function MatchCount(log: seq<LogEntry>, prev: int, entries: seq<LogEntry>): (n: nat)
    requires 0 <= prev
    ensures n <= |entries| && (n > 0 ==> prev + n < |log|)
    ensures forall k | 0 <= k < n :: log[prev + 1 + k].term == entries[k].term
    ensures n < |entries| && prev + n + 1 < |log| ==> log[prev + n + 1].term != entries[n].term
    decreases |entries|
  {
    if entries != [] && prev + 1 < |log| && log[prev + 1].term == entries[0].term then
      1 + MatchCount(log, prev + 1, entries[1..])
    else 0
  }

  /** The scan has no bound of its own: it runs past the entries when the log holds them all and more. */
  predicate ScanOverruns(log: seq<LogEntry>, prev: int, entries: seq<LogEntry>)
    requires 0 <= prev
  {
    MatchCount(log, prev, entries) == |entries| && prev + |entries| + 1 < |log|
  }

  function Merge(log: seq<LogEntry>, prev: int, entries: seq<LogEntry>): seq<LogEntry>
    requires 0 <= prev < |log|
  {
    var n := MatchCount(log, prev, entries);
    log[..prev + n + 1] + entries[n..]
  }

  /** The part of handleAppendEntries that precedes the log check, already saved. */
  function AcceptLeader(p: Peer, req: AppendEntriesReq): Peer
    requires req.term >= p.currentTerm
  {
    Save(BecomeFollower(UpdateTerm(p, req.term)))
  }

  /** Whether the log agrees with the leader's at prev. */
  function ConsistencyCheck(q: Peer, req: AppendEntriesReq): (r: Outcome<bool>)
    ensures r == Replied(true) ==> 0 <= req.prevLogIndex < |q.log| && q.log[req.prevLogIndex].term == req.prevLogTerm
  {
    var prev := req.prevLogIndex;
    if |q.log| <= prev then Replied(false)
    else if prev < Max(q.snapIndex, 0) then OutOfRange
    else if q.log[prev].term == req.prevLogTerm then Replied(true)
    else if prev <= q.commitIndex then Fatal
    else Replied(false)
  }

  function NewLog(log: seq<LogEntry>, req: AppendEntriesReq): seq<LogEntry>
    requires 0 <= req.prevLogIndex < |log|
  {
    if req.entries == [] then log else Merge(log, req.prevLogIndex, req.entries)
  }

  function TakeEntries(q: Peer, req: AppendEntriesReq): Peer
    requires 0 <= req.prevLogIndex < |q.log|
  {
    Save(UpdateCommitIndex(q.(log := NewLog(q.log, req)), req.leaderCommit))
  }

  function HandleAppendEntries(p: Peer, req: AppendEntriesReq): (Peer, Outcome<AppendEntriesRes>) {
    if req.term < p.currentTerm then (p, Replied(AppendEntriesRes(p.currentTerm, false)))
    else
      var q := AcceptLeader(p, req);
      match ConsistencyCheck(q, req)
      case OutOfRange => (q, OutOfRange)
      case Fatal => (q, Fatal)
      case Replied(consistent) =>
        if !consistent then (q, Replied(AppendEntriesRes(q.currentTerm, false)))
        else if req.entries != [] && ScanOverruns(q.log, req.prevLogIndex, req.entries) then (q, OutOfRange)
        else (TakeEntries(q, req), Replied(AppendEntriesRes(q.currentTerm, true)))
  }

  /** The condition of the "overriding committed log" error report. */
  predicate ReportsOverride(p: Peer, req: AppendEntriesReq) {
    && HandleAppendEntries(p, req).1 == Replied(AppendEntriesRes(req.term, true))
    && 0 <= req.prevLogIndex && req.entries != []
    && req.prevLogIndex + MatchCount(p.log, req.prevLogIndex, req.entries) < p.commitIndex
  }

  // ----- snapshots sent by the leader

  /** Entries after the prefix are kept if the log agrees at its last index. */
  function LogAfterSnapshot(log: seq<LogEntry>, last: int, lastTerm: nat, prefix: seq<LogEntry>): seq<LogEntry>
    requires |prefix| == last + 1
  {
    if last < |log| - 1 && 0 <= last && log[last].term == lastTerm then prefix + log[last + 1..] else prefix
  }

  /** Installing a snapshot of the log prefix. The role, the term and the vote stay as they are. */
  function HandleInstallSnapshot(p: Peer, req: InstallSnapshotReq, prefix: seq<LogEntry>)
    : (Peer, Outcome<InstallSnapshotRes>)
    requires |prefix| == req.snapshot.lastIncludedIndex + 1
  {
    var last := req.snapshot.lastIncludedIndex;
    if req.term < p.currentTerm then (p, Replied(InstallSnapshotRes(p.currentTerm)))
    else if last < |p.log| - 1 && last < Max(p.snapIndex, 0) then (p, OutOfRange)
    else
      var log := LogAfterSnapshot(p.log, last, req.snapshot.lastIncludedTerm, prefix);
      (Save(p.(log := log, commitIndex := last, snapIndex := last)), Replied(InstallSnapshotRes(p.currentTerm)))
  }

  /** The leader's side: either it learns of a later term or it goes on after its snapshot. */
  function HandleInstallSnapshotRes(p: Peer, target: NodeID, res: InstallSnapshotRes): Peer
    requires p.role == Leader
  {
    if res.term > p.currentTerm then Save(BecomeFollower(UpdateTerm(p, res.term)))
    else p.(nextIndex := p.nextIndex[target := p.snapIndex + 1])
  }
}
