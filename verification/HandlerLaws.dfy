/** What each critical section does to a peer, told by its answer, its role and term, what it keeps and
    what is on disk, for every peer and every message. */
module HandlerLaws {
  import opened Wrappers
  import opened Messages
  import opened PeerModel
  import opened PeerLaws
  import opened Cluster
  import opened History
  import Ledger

  // ----- what a handler may leave alone

  /** Name, peers, log, commit and compaction. */
  predicate SamePlace(p: Peer, q: Peer) {
    && q.id == p.id && q.others == p.others && q.threshold == p.threshold
    && q.log == p.log && q.commitIndex == p.commitIndex && q.snapIndex == p.snapIndex
  }

  predicate SameBooks(p: Peer, q: Peer) {
    q.nextIndex == p.nextIndex && q.matchIndex == p.matchIndex && q.channels == p.channels
  }

  predicate NoBooks(p: Peer) {
    p.nextIndex == map[] && p.matchIndex == map[] && p.channels == map[]
  }

  /** A follower now; a former leader has dropped its bookkeeping. */
  predicate Follows(p: Peer, q: Peer) {
    q.role == Follower && (if p.role == Leader then NoBooks(q) else SameBooks(p, q))
  }

  // ----- disk and restart

  /** Restarting brings back all that was saved and nothing else. */
  lemma RestartRestores(p: Peer)
    ensures var q := Restart(p);
      && q.disk == p.disk && OnDisk(q) && q.role == Follower && NoBooks(q)
      && q.id == p.id && q.others == p.others && q.threshold == p.threshold
    ensures var q := Restart(Save(p)); SamePlace(p, q) && q.currentTerm == p.currentTerm && q.votedFor == p.votedFor
    ensures Restart(Save(p)).voteCount == p.voteCount
    ensures Save(p) == p.(disk := Save(p).disk) && OnDisk(Save(p))
  {
  }

  // ----- votes

  lemma StandsForElection(p: Peer)
    ensures var q := StartElection(p);
      && q.role == Candidate && q.currentTerm == p.currentTerm + 1 && q.votedFor == Some(p.id) && q.voteCount == 1
      && SamePlace(p, q) && SameBooks(p, q) && OnDisk(q)
    ensures p.log != [] ==> var req := VoteRequest(p);
      && req.term == p.currentTerm && req.candidateID == p.id
      && req.lastLogIndex == |p.log| - 1 && req.lastLogTerm == p.log[req.lastLogIndex].term
  {
  }

  /** A vote is granted in a term not over, if it is not given yet, to a candidate whose log ends in a
      later term, or in the same and is no shorter. */
  lemma VoteGrantedExactly(p: Peer, req: RequestVoteReq)
    requires p.log != []
    ensures HandleRequestVote(p, req).1.voteGranted <==>
      && req.term >= p.currentTerm && (req.term > p.currentTerm || p.votedFor == None)
      && (p.LastTerm() < req.lastLogTerm || (p.LastTerm() == req.lastLogTerm && |p.log| - 1 <= req.lastLogIndex))
  {
  }

  /** For the request of a candidate: exactly to those its log is up to date for (section 5.4.1). */
  lemma VoteGrantedTo(p: Peer, candidate: Peer)
    requires p.log != [] && candidate.log != []
    ensures HandleRequestVote(p, VoteRequest(candidate)).1.voteGranted <==>
      && p.currentTerm <= candidate.currentTerm && (p.currentTerm < candidate.currentTerm || p.votedFor == None)
      && AtLeastAsUpToDate(candidate.log, p.log)
  {
    VoteGrantedExactly(p, VoteRequest(candidate));
    StandsForElection(candidate);
  }

  /** Granted or not, the answer carries the peer's term, which is no earlier than the request's. */
  lemma VoteAnswered(p: Peer, req: RequestVoteReq)
    requires p.log != []
    ensures var (q, res) := HandleRequestVote(p, req);
      && res.term == q.currentTerm == Max(p.currentTerm, req.term)
      && SamePlace(p, q) && q.voteCount == p.voteCount
      && (if req.term > p.currentTerm then Follows(p, q) else q.role == p.role && SameBooks(p, q))
      && q.votedFor == (if res.voteGranted then Some(req.candidateID)
                        else if req.term > p.currentTerm then None else p.votedFor)
      && (if res.voteGranted then OnDisk(q) else q.disk == p.disk)
  {
  }

  /** A later term ends the candidacy, an earlier one or another role makes the reply void, and a vote
      counts: the candidate leads once it has more than half. */
  lemma VoteCounted(p: Peer, res: RequestVoteRes)
    ensures var q := HandleRequestVoteRespond(p, res);
      && SamePlace(p, q)
      && (res.term > p.currentTerm ==>
            && q.currentTerm == res.term && q.votedFor == None && Follows(p, q)
            && q.disk == p.disk && q.voteCount == p.voteCount)
      && (res.term < p.currentTerm || (res.term == p.currentTerm && p.role != Candidate) ==> q == p)
      && (res.term == p.currentTerm && p.role == Candidate ==>
            && q.currentTerm == p.currentTerm && q.votedFor == p.votedFor && OnDisk(q)
            && q.voteCount == (if res.voteGranted then p.voteCount + 1 else p.voteCount)
            && (if res.voteGranted && 2 * q.voteCount > |p.others| + 1 then BeginsToLead(q)
                else q.role == Candidate && SameBooks(p, q)))
  {
  }

  /** A leadership begins: every target at the end of the log, nothing acknowledged, nobody waiting. */
  predicate BeginsToLead(q: Peer) {
    && q.role == Leader && q.channels == map[] && q.nextIndex.Keys == q.matchIndex.Keys == q.others
    && forall t | t in q.others :: q.nextIndex[t] == |q.log| && q.matchIndex[t] == 0
  }

  // ----- commit and compaction

  /** s is the last point up to the index that is a whole number of steps from the start. */
  ghost predicate LastStep(start: int, step: int, index: int, s: int) {
    exists k: nat :: StepsFrom(start, step, k) == s && s <= index < s + step
  }

  function StepsFrom(start: int, step: int, k: nat): int {
    start + k * step
  }

  /** Compaction goes by whole thresholds from where it stands. */
  lemma {:induction false} CompactsInSteps(snapIndex: int, from: int, last: int, threshold: int)
    requires threshold >= 1 && snapIndex <= from <= last && from < snapIndex + threshold
    ensures LastStep(snapIndex, threshold, last, CompactAfter(snapIndex, from, last, threshold))
    decreases last - from
  {
    if from == last {
      assert StepsFrom(snapIndex, threshold, 0) == snapIndex;
    } else if from + 1 - snapIndex >= threshold {
      CompactsInSteps(from + 1, from + 1, last, threshold);
      var s := CompactAfter(from + 1, from + 1, last, threshold);
      var k: nat :| StepsFrom(from + 1, threshold, k) == s && s <= last < s + threshold;
      assert StepsFrom(snapIndex, threshold, k + 1) == s;
    } else {
      CompactsInSteps(snapIndex, from + 1, last, threshold);
    }
  }

  /** A peer that has put compaction off catches up with the first entry it commits. */
  lemma CompactCatchesUp(snapIndex: int, from: int, last: int, threshold: int)
    requires threshold >= 1 && from < last && from + 1 - snapIndex >= threshold
    ensures LastStep(from + 1, threshold, last, CompactAfter(snapIndex, from, last, threshold))
  {
    CompactsInSteps(from + 1, from + 1, last, threshold);
  }

  /** A commit advances as far as asked and the log goes, is saved if it advances, and touches nothing
      but the two indices. */
  lemma CommitAdvances(p: Peer, idx: int)
    ensures var q := UpdateCommitIndex(p, idx);
      && q == p.(commitIndex := q.commitIndex, snapIndex := q.snapIndex, disk := q.disk)
      && q.commitIndex == Max(p.commitIndex, Min(idx, |p.log| - 1))
      && (if q.commitIndex > p.commitIndex then OnDisk(q) else q == p)
      && (Timely(p) ==> LastStep(p.snapIndex, p.threshold, q.commitIndex, q.snapIndex))
  {
    if Timely(p) {
      CompactsInSteps(p.snapIndex, p.commitIndex, Max(p.commitIndex, Min(idx, |p.log| - 1)), p.threshold);
    }
  }

  /** Compaction is not behind. */
  predicate Timely(p: Peer) {
    p.threshold >= 1 && p.snapIndex <= p.commitIndex < p.snapIndex + p.threshold
  }

  // ----- a leader's commands

  lemma CommandTaken(p: Peer, e: LogEntry)
    requires p.role == Leader
    ensures var q := ClientAppend(p, e);
      && q == p.(log := q.log, channels := q.channels, disk := q.disk) && OnDisk(q)
      && |q.log| == |p.log| + 1 && p.log <= q.log && q.log[|p.log|] == e
      && q.channels.Keys == p.channels.Keys + {|p.log|} && q.channels[|p.log|] == [p.id]
      && (forall i | i in p.channels && i != |p.log| :: q.channels[i] == p.channels[i])
  {
  }

  lemma CommandCommitted(p: Peer, idx: int)
    requires p.role == Leader
    ensures var q := CommitPending(p, idx);
      && q == p.(commitIndex := q.commitIndex, snapIndex := q.snapIndex, channels := q.channels, disk := q.disk)
      && OnDisk(q)
      && q.commitIndex == Max(p.commitIndex, Min(idx, |p.log| - 1))
      && q.channels.Keys == p.channels.Keys - {idx}
      && (forall i | i in q.channels :: q.channels[i] == p.channels[i])
  {
    CommitAdvances(p, idx);
  }

  // ----- what a leader sends, and the answers

  /** Everything after nextIndex - 1 with the commit index, whenever that can be read. */
  lemma Sends(p: Peer, target: NodeID)
    requires target in p.nextIndex && -1 <= p.snapIndex < |p.log|
    ensures var next := p.nextIndex[target];
      && (CanSend(p, target) <==> 1 <= next <= |p.log| && p.snapIndex < next)
      && (CanSend(p, target) ==>
            var req := AppendRequest(p, target);
            && req.term == p.currentTerm && req.leaderID == p.id && req.leaderCommit == p.commitIndex
            && req.prevLogIndex == next - 1 && req.prevLogTerm == p.log[next - 1].term
            && p.log[..next] + req.entries == p.log)
    ensures 0 <= p.snapIndex ==>
      var req := SnapshotRequest(p);
      && req.term == p.currentTerm && req.leaderID == p.id && req.snapshot.lastIncludedIndex == p.snapIndex
      && req.snapshot.lastIncludedTerm == p.log[p.snapIndex].term
      && req.snapshot.machine == Ledger.Run(Actions(p.log[..p.snapIndex + 1]))
  {
    if 0 <= p.snapIndex {
      ReplayRunsActions(p.log[..p.snapIndex + 1]);
    }
  }

  /** A refusal from a later term deposes; another one backs off by one. A success moves the target to
      the end of the request and tells each waiter it newly covers once. */
  lemma ReplyHandled(p: Peer, target: NodeID, req: AppendEntriesReq, res: AppendEntriesRes)
    requires p.role == Leader && target in p.nextIndex && target in p.matchIndex
    ensures var q := HandleAppendReply(p, target, req, res);
      && SamePlace(p, q) && q.voteCount == p.voteCount
      && (!res.success && res.term > p.currentTerm ==>
            q.currentTerm == res.term && q.votedFor == None && Follows(p, q) && OnDisk(q))
      && (res.success || res.term <= p.currentTerm ==>
            && q == p.(nextIndex := q.nextIndex, matchIndex := q.matchIndex, channels := q.channels)
            && q.nextIndex.Keys == p.nextIndex.Keys && q.matchIndex.Keys == p.matchIndex.Keys
            && q.channels.Keys == p.channels.Keys
            && (forall t | t in p.nextIndex && t != target :: q.nextIndex[t] == p.nextIndex[t])
            && (forall t | t in p.matchIndex && t != target :: q.matchIndex[t] == p.matchIndex[t])
            && q.nextIndex[target] == (if res.success then req.End() + 1 else p.nextIndex[target] - 1)
            && q.matchIndex[target] == (if res.success then req.End() else p.matchIndex[target])
            && (forall i | i in p.channels :: q.channels[i] ==
                  if res.success && p.commitIndex < i && p.matchIndex[target] < i <= req.End()
                  then p.channels[i] + [target] else p.channels[i]))
  {
  }

  /** The answer to a snapshot: a later term deposes; otherwise the target goes on after the snapshot. */
  lemma SnapshotAnswerHandled(p: Peer, target: NodeID, res: InstallSnapshotRes)
    requires p.role == Leader
    ensures var q := HandleInstallSnapshotRes(p, target, res);
      if res.term > p.currentTerm then
        SamePlace(p, q) && q.voteCount == p.voteCount && q.currentTerm == res.term && q.votedFor == None &&
        Follows(p, q) && OnDisk(q)
      else
        && q == p.(nextIndex := q.nextIndex) && q.nextIndex.Keys == p.nextIndex.Keys + {target}
        && q.nextIndex[target] == p.snapIndex + 1
        && (forall t | t in p.nextIndex && t != target :: q.nextIndex[t] == p.nextIndex[t])
  {
  }

  // ----- a follower's answer to entries

  /** The log and the entries have the same terms up to the k-th entry. */
  predicate AgreesThrough(log: seq<LogEntry>, prev: int, entries: seq<LogEntry>, k: int)
    requires 0 <= prev && k < |entries|
  {
    forall j | 0 <= j <= k :: SameTerm(log, prev, entries, j)
  }

  predicate SameTerm(log: seq<LogEntry>, prev: int, entries: seq<LogEntry>, j: int)
    requires 0 <= prev && 0 <= j < |entries|
  {
    prev + 1 + j < |log| && log[prev + 1 + j].term == entries[j].term
  }

  /** The log agrees with the request just before its entries, and can be read there. */
  predicate Agrees(p: Peer, req: AppendEntriesReq) {
    Max(p.snapIndex, 0) <= req.prevLogIndex < |p.log| && p.log[req.prevLogIndex].term == req.prevLogTerm
  }

  /** It has the terms of all the entries, and goes on after them. */
  predicate GoesBeyond(p: Peer, req: AppendEntriesReq)
    requires Agrees(p, req)
  {
    && req.entries != [] && req.End() + 1 < |p.log|
    && AgreesThrough(p.log, req.prevLogIndex, req.entries, |req.entries| - 1)
  }

  lemma {:induction false} CountsAll(log: seq<LogEntry>, prev: int, entries: seq<LogEntry>, k: int)
    requires 0 <= prev && -1 <= k < |entries|
    ensures k < MatchCount(log, prev, entries) <==> AgreesThrough(log, prev, entries, k)
  {
    var n := MatchCount(log, prev, entries);
    if n <= k {
      assert !SameTerm(log, prev, entries, n);
    } else {
      forall j | 0 <= j <= k ensures SameTerm(log, prev, entries, j) {
        assert log[prev + 1 + j].term == entries[j].term;
      }
    }
  }

  /** Exactly when a request succeeds, kills the peer, or makes it give up; and the reply's term. */
  lemma AppendOutcome(p: Peer, req: AppendEntriesReq)
    requires -1 <= p.snapIndex <= p.commitIndex && 0 <= p.commitIndex < |p.log|
    ensures var out := HandleAppendEntries(p, req).1;
      && (out.Replied? ==> out.res.term == Max(p.currentTerm, req.term))
      && (out.Replied? && out.res.success <==> req.term >= p.currentTerm && Agrees(p, req) && !GoesBeyond(p, req))
      && (out == OutOfRange <==>
            && req.term >= p.currentTerm && req.prevLogIndex < |p.log|
            && (req.prevLogIndex < Max(p.snapIndex, 0) || (Agrees(p, req) && GoesBeyond(p, req))))
      && (out == Fatal <==>
            && req.term >= p.currentTerm && Max(p.snapIndex, 0) <= req.prevLogIndex <= p.commitIndex
            && p.log[req.prevLogIndex].term != req.prevLogTerm)
  {
    hide MatchCount, TakeEntries;
    if Agrees(p, req) && req.entries != [] {
      CountsAll(p.log, req.prevLogIndex, req.entries, |req.entries| - 1);
      CountIsBounded(p.log, req.prevLogIndex, req.entries);
    }
  }

  lemma CountIsBounded(log: seq<LogEntry>, prev: int, entries: seq<LogEntry>)
    requires 0 <= prev
    ensures MatchCount(log, prev, entries) <= |entries|
  {
  }

  /** What the log becomes: up to prev it stays; after that come as many entries as were sent, the peer's
      own as long as all terms agree, the leader's from the first that does not. */
  predicate Spliced(log: seq<LogEntry>, log': seq<LogEntry>, prev: int, entries: seq<LogEntry>)
    requires 0 <= prev < |log|
  {
    && |log'| == prev + |entries| + 1 && log'[..prev + 1] == log[..prev + 1]
    && forall k | 0 <= k < |entries| :: TakenAt(log, log', prev, entries, k)
  }

  predicate TakenAt(log: seq<LogEntry>, log': seq<LogEntry>, prev: int, entries: seq<LogEntry>, k: int)
    requires 0 <= prev && 0 <= k < |entries| && prev + 1 + k < |log'|
  {
    if prev + 1 + k < |log| && AgreesThrough(log, prev, entries, k) then log'[prev + 1 + k] == log[prev + 1 + k]
    else log'[prev + 1 + k] == entries[k]
  }

  lemma MergeSplices(log: seq<LogEntry>, prev: int, entries: seq<LogEntry>)
    requires 0 <= prev < |log|
    ensures Spliced(log, Merge(log, prev, entries), prev, entries)
  {
    var n := MatchCount(log, prev, entries);
    var log' := Merge(log, prev, entries);
    assert |log'| == prev + |entries| + 1;
    forall k | 0 <= k < |entries|
      ensures TakenAt(log, log', prev, entries, k)
    {
      CountsAll(log, prev, entries, k);
    }
  }

  /** What a request leaves behind: nothing if it is of an earlier term; otherwise a follower of its term,
      saved, which has taken the entries and the commit index exactly if it succeeded. */
  lemma AppendHandled(p: Peer, req: AppendEntriesReq)
    requires -1 <= p.snapIndex <= p.commitIndex && 0 <= p.commitIndex < |p.log|
    ensures var (q, out) := HandleAppendEntries(p, req);
      && (req.term < p.currentTerm ==> q == p && out == Replied(AppendEntriesRes(p.currentTerm, false)))
      && (req.term >= p.currentTerm ==>
            && q.currentTerm == req.term && q.votedFor == (if req.term > p.currentTerm then None else p.votedFor)
            && q.voteCount == p.voteCount && Follows(p, q) && OnDisk(q)
            && q.id == p.id && q.others == p.others && q.threshold == p.threshold)
      && (!(out.Replied? && out.res.success) ==> SamePlace(p, q))
      && (out.Replied? && out.res.success ==>
            && 0 <= req.prevLogIndex < |p.log|
            && (if req.entries == [] then q.log == p.log else Spliced(p.log, q.log, req.prevLogIndex, req.entries))
            && q.commitIndex == Max(p.commitIndex, Min(req.leaderCommit, |q.log| - 1))
            && (Timely(p) ==> LastStep(p.snapIndex, p.threshold, q.commitIndex, q.snapIndex)))
  {
    hide TakeEntries, ScanOverruns, Merge, MatchCount, Spliced, GoesBeyond, LastStep, Agrees, TookEntries, NewLog;
    if req.term >= p.currentTerm {
      if Succeeds(p, req) {
        SuccessTakesEntries(p, req);
        TakesIt(p, req);
        TakingSplices(p, req);
        TakingListens(p, req);
      } else {
        FailureListens(p, req);
      }
      hide HandleAppendEntries;
    }
  }

  lemma TakesIt(p: Peer, req: AppendEntriesReq)
    requires Succeeds(p, req) && req.term >= p.currentTerm
    ensures 0 <= req.prevLogIndex < |p.log|
    ensures HandleAppendEntries(p, req).0 == TakeEntries(AcceptLeader(p, req), req)
  {
    hide TakeEntries, ScanOverruns;
  }

  lemma NewLogSplices(log: seq<LogEntry>, req: AppendEntriesReq)
    requires 0 <= req.prevLogIndex < |log|
    ensures var log' := NewLog(log, req);
      if req.entries == [] then log' == log else Spliced(log, log', req.prevLogIndex, req.entries)
  {
    if req.entries != [] {
      MergeSplices(log, req.prevLogIndex, req.entries);
    }
    hide Spliced, Merge;
  }

  lemma TakingSplices(p: Peer, req: AppendEntriesReq)
    requires req.term >= p.currentTerm && 0 <= req.prevLogIndex < |p.log|
    ensures var q := TakeEntries(AcceptLeader(p, req), req);
      && (if req.entries == [] then q.log == p.log else Spliced(p.log, q.log, req.prevLogIndex, req.entries))
      && q.commitIndex == Max(p.commitIndex, Min(req.leaderCommit, |q.log| - 1))
      && (Timely(p) ==> LastStep(p.snapIndex, p.threshold, q.commitIndex, q.snapIndex))
  {
    hide LastStep, Spliced, UpdateCommitIndex, NewLog;
    CommitAdvances(AcceptLeader(p, req).(log := NewLog(p.log, req)), req.leaderCommit);
    NewLogSplices(p.log, req);
  }

  lemma TakingListens(p: Peer, req: AppendEntriesReq)
    requires req.term >= p.currentTerm && 0 <= req.prevLogIndex < |p.log|
    ensures var q := TakeEntries(AcceptLeader(p, req), req);
      && q.currentTerm == req.term && q.votedFor == (if req.term > p.currentTerm then None else p.votedFor)
      && q.id == p.id && q.others == p.others && q.threshold == p.threshold
      && q.voteCount == p.voteCount && Follows(p, q) && OnDisk(q)
  {
    hide UpdateCommitIndex, NewLog, LastStep;
    CommitAdvances(AcceptLeader(p, req).(log := NewLog(p.log, req)), req.leaderCommit);
  }

  // ----- snapshots

  /** A snapshot of an earlier term changes nothing and is answered with the peer's own term. */
  lemma StaleSnapshotIgnored(p: Peer, req: InstallSnapshotReq, prefix: seq<LogEntry>)
    requires |prefix| == req.snapshot.lastIncludedIndex + 1 && req.term < p.currentTerm
    ensures HandleInstallSnapshot(p, req, prefix) == (p, Replied(InstallSnapshotRes(p.currentTerm)))
  {
  }

  /** Any other is out of range exactly if it ends below the peer's own and within its log; else the log
      is the prefix, with the entries after it if the peer has more and agrees at its end. Term, vote,
      role and bookkeeping stay. */
  lemma SnapshotTaken(p: Peer, req: InstallSnapshotReq, prefix: seq<LogEntry>)
    requires |prefix| == req.snapshot.lastIncludedIndex + 1 && prefix != [] && req.term >= p.currentTerm
    ensures var (q, out) := HandleInstallSnapshot(p, req, prefix);
      var last := req.snapshot.lastIncludedIndex;
      && (out == OutOfRange <==> last < |p.log| - 1 && last < Max(p.snapIndex, 0))
      && (out != OutOfRange ==> out == Replied(InstallSnapshotRes(p.currentTerm)))
      && q == p.(log := q.log, commitIndex := q.commitIndex, snapIndex := q.snapIndex, disk := q.disk)
      && (out == OutOfRange ==> q == p)
      && (out != OutOfRange ==>
            && q.commitIndex == q.snapIndex == last && OnDisk(q) && prefix <= q.log
            && q.log[|prefix|..] == if last < |p.log| - 1 && p.log[last].term == req.snapshot.lastIncludedTerm
                                    then p.log[|prefix|..] else [])
  {
  }

  // ----- dying

  /** Whoever dies, of a request or otherwise, is back as a follower with what was on disk: all it had but,
      if it died of itself, a term it had not saved. */
  lemma DyingRestarts(p: Peer, e: Event)
    requires CanStep(p, e) && -1 <= p.snapIndex <= p.commitIndex && 0 <= p.commitIndex < |p.log|
    requires e.Crash? || e.CrashInAppend? || (e.ReceiveAppend? && !HandleAppendEntries(p, e.appendReq).1.Replied?)
    ensures var q := StepPeer(p, e); q.role == Follower && NoBooks(q) && OnDisk(q)
    ensures e.Crash? ==> StepPeer(p, e).disk == p.disk
    ensures !e.Crash? ==> SamePlace(p, StepPeer(p, e)) && StepPeer(p, e).currentTerm == e.appendReq.term
  {
    if e.ReceiveAppend? {
      AppendHandled(p, e.appendReq);
      hide HandleAppendEntries;
    }
  }

  // ----- messages of a later term

  /** The term a message brings, if handling it looks at the term. */
  function TermOf(e: Event): Option<nat> {
    match e
    case ReceiveVoteRequest(_, req) => Some(req.term)
    case ReceiveVoteReply(r) => Some(r.res.term)
    case ReceiveAppend(_, req) => Some(req.term)
    case CrashInAppend(_, req) => Some(req.term)
    case ReceiveAppendReply(_, r) => if r.res.success then None else Some(r.res.term)
    case _ => None
  }

  /** Whoever meets a later term follows in it, without its vote unless it has just given it, and a
      former leader without its bookkeeping. */
  lemma LaterTermRules(p: Peer, e: Event)
    requires CanStep(p, e) && TermOf(e).Some? && TermOf(e).value > p.currentTerm
    requires -1 <= p.snapIndex <= p.commitIndex && 0 <= p.commitIndex < |p.log|
    ensures var q := StepPeer(p, e);
      && q.currentTerm == TermOf(e).value && q.role == Follower && (p.role == Leader ==> NoBooks(q))
      && (q.votedFor == None || (e.ReceiveVoteRequest? && q.votedFor == Some(e.voteReq.candidateID)))
  {
    match e
    case ReceiveVoteRequest(_, req) => VoteAnswered(p, req);
    case ReceiveVoteReply(r) => VoteCounted(p, r.res);
    case ReceiveAppend(_, req) =>
      AppendHandled(p, req);
      hide HandleAppendEntries, Follows;
    case ReceiveAppendReply(_, r) => ReplyHandled(p, r.from, r.req, r.res);
    case CrashInAppend(_, req) =>
  }

  /** And only a later term, an election or a restart changes a peer's term. */
  lemma TermsMoveFor(p: Peer, e: Event)
    requires CanStep(p, e) && -1 <= p.snapIndex <= p.commitIndex && 0 <= p.commitIndex < |p.log|
    requires StepPeer(p, e).currentTerm != p.currentTerm
    ensures e.Timeout? || e.Crash? || e.ReceiveAppend? || e.CrashInAppend? || TermOf(e).Some?
    ensures e.Timeout? ==> StepPeer(p, e).currentTerm == p.currentTerm + 1
    ensures TermOf(e).Some? && StepPeer(p, e).currentTerm > p.currentTerm ==>
      StepPeer(p, e).currentTerm == TermOf(e).value
  {
    match e
    case Timeout(_) => StandsForElection(p);
    case ReceiveVoteRequest(_, req) =>
      VoteAnswered(p, req);
      hide HandleRequestVote, Follows;
    case ReceiveVoteReply(r) =>
      VoteCounted(p, r.res);
      hide HandleRequestVoteRespond, Follows, BeginsToLead;
    case ReceiveAppend(_, req) =>
      AppendHandled(p, req);
      hide HandleAppendEntries, Follows;
    case ReceiveAppendReply(_, r) =>
      ReplyHandled(p, r.from, r.req, r.res);
      hide HandleAppendReply, Follows;
    case Commit(_, idx) =>
      CommandCommitted(p, idx);
      hide CommitPending;
    case _ =>
  }
}
