/** What the scan-then-append of handleAppendEntries and the compaction of updateCommitIndex
    achieve, independently of the cluster. */
module PeerLaws {
  import opened Wrappers
  import opened Messages
  import opened PeerModel

  // ----- the scan and the append

  /** Wherever two logs have the same term they agree up to there: Log Matching for this pair. */
  ghost predicate Matching(a: seq<LogEntry>, b: seq<LogEntry>) {
    forall i | 0 <= i < |a| && i < |b| && a[i].term == b[i].term :: a[..i + 1] == b[..i + 1]
  }

  /** entries is the stretch of the leader's log that follows prev, and the log agrees at prev. */
  ghost predicate Fits(log: seq<LogEntry>, leader: seq<LogEntry>, prev: int, entries: seq<LogEntry>) {
    && 0 <= prev < |log| && prev + |entries| < |leader|
    && entries == leader[prev + 1..prev + |entries| + 1]
    && log[prev].term == leader[prev].term
    && Matching(log, leader)
  }

  lemma ScanAgrees(log: seq<LogEntry>, leader: seq<LogEntry>, prev: int, entries: seq<LogEntry>)
    requires Fits(log, leader, prev, entries)
    ensures prev + MatchCount(log, prev, entries) < |log|
    ensures forall k | 0 <= k <= prev + MatchCount(log, prev, entries) + 1 :: log[..k] == leader[..k]
  {
    var n := MatchCount(log, prev, entries);
    if n > 0 {
      assert entries[n - 1] == leader[prev + n];
      assert log[prev + 1 + (n - 1)].term == entries[n - 1].term;
    }
    var common := log[..prev + n + 1];
    assert common == leader[..prev + n + 1];
    assert forall k | 0 <= k <= prev + n + 1 :: log[..k] == common[..k] && leader[..k] == common[..k];
  }

  /** Unless the scan overruns, the follower ends with exactly the leader's log up to the last entry
      sent, and has cut off nothing the two logs agreed on. */
  lemma MergeFollowsLeader(log: seq<LogEntry>, leader: seq<LogEntry>, prev: int, entries: seq<LogEntry>)
    requires Fits(log, leader, prev, entries) && !ScanOverruns(log, prev, entries)
    ensures Merge(log, prev, entries) == leader[..prev + |entries| + 1]
    ensures forall k | 0 <= k <= |log| && k <= |leader| && log[..k] == leader[..k] ::
      log[..k] <= Merge(log, prev, entries)
  {
    hide MatchCount, Matching;
    ScanAgrees(log, leader, prev, entries);
    MergeIsStretch(log, leader, prev, entries);
    forall k | 0 <= k <= |log| && k <= |leader| && log[..k] == leader[..k]
      ensures log[..k] <= Merge(log, prev, entries)
    {
      ScanReachesCommon(log, leader, prev, entries, k);
    }
  }

  lemma MergeIsStretch(log: seq<LogEntry>, leader: seq<LogEntry>, prev: int, entries: seq<LogEntry>)
    requires 0 <= prev < |log| && prev + |entries| < |leader|
    requires entries == leader[prev + 1..prev + |entries| + 1]
    requires var n := MatchCount(log, prev, entries); prev + n < |log| && log[..prev + n + 1] == leader[..prev + n + 1]
    ensures Merge(log, prev, entries) == leader[..prev + |entries| + 1]
  {
    hide MatchCount;
    var n := MatchCount(log, prev, entries);
    var end := prev + |entries| + 1;
    assert entries[n..] == leader[prev + n + 1..end];
    assert leader[..end] == leader[..prev + n + 1] + leader[prev + n + 1..end];
  }

  lemma ScanReachesCommon(log: seq<LogEntry>, leader: seq<LogEntry>, prev: int, entries: seq<LogEntry>, k: nat)
    requires Fits(log, leader, prev, entries) && !ScanOverruns(log, prev, entries)
    requires k <= |log| && k <= |leader| && log[..k] == leader[..k]
    ensures k <= prev + |entries| + 1
  {
    var n := MatchCount(log, prev, entries);
    assert forall j | 0 <= j < k :: log[j] == log[..k][j] == leader[j];
    assert n < |entries| ==> entries[n] == leader[prev + n + 1];
  }

  lemma ScanStopsAtConflict(log: seq<LogEntry>, leader: seq<LogEntry>, prev: int, entries: seq<LogEntry>)
    requires Fits(log, leader, prev, entries)
    ensures var n := MatchCount(log, prev, entries);
      n < |entries| && prev + n + 1 < |log| ==> log[prev + n + 1].term != leader[prev + n + 1].term
  {
    var n := MatchCount(log, prev, entries);
    assert n < |entries| ==> entries[n] == leader[prev + n + 1];
  }

  /** The append truncates only where an entry of the follower really conflicts in term. */
  lemma MergeTruncatesOnConflict(log: seq<LogEntry>, leader: seq<LogEntry>, prev: int, entries: seq<LogEntry>, i: nat)
    requires Fits(log, leader, prev, entries) && !ScanOverruns(log, prev, entries)
    requires i < |log| && !(log[..i + 1] <= Merge(log, prev, entries))
    ensures exists j :: prev < j <= i && j <= prev + |entries| && log[j].term != leader[j].term
  {
    MergeFollowsLeader(log, leader, prev, entries);
    ScanAgrees(log, leader, prev, entries);
    var n := MatchCount(log, prev, entries);
    hide MatchCount, Matching;
    ScanStopsAtConflict(log, leader, prev, entries);
    assert i > prev + n;
    assert n < |entries|;
  }

  /** Exactly when the unbounded scan runs out of range: the log holds everything sent, and more. */
  lemma OverrunsExactly(log: seq<LogEntry>, leader: seq<LogEntry>, prev: int, entries: seq<LogEntry>)
    requires Fits(log, leader, prev, entries)
    ensures ScanOverruns(log, prev, entries) <==>
      leader[..prev + |entries| + 1] <= log && prev + |entries| + 1 < |log|
  {
    var n, end := MatchCount(log, prev, entries), prev + |entries| + 1;
    ScanAgrees(log, leader, prev, entries);
    if leader[..end] <= log {
      assert forall k | 0 <= k < |entries| :: entries[k] == leader[..end][prev + 1 + k] == log[prev + 1 + k];
    }
    if n == |entries| {
      assert leader[..end] == log[..end];
    }
  }

  /** The log holds the entries where they belong, and goes on after them. */
  predicate HoldsBeyond(log: seq<LogEntry>, prev: int, entries: seq<LogEntry>)
    requires 0 <= prev
  {
    prev + |entries| + 1 < |log| && log[prev + 1..prev + |entries| + 1] == entries
  }

  /** When a request of a matching leader kills the follower: it starts below the follower's snapshot,
      or brings entries the follower has and goes beyond. */
  lemma AppendDiesExactly(p: Peer, leader: seq<LogEntry>, req: AppendEntriesReq)
    requires 0 <= req.prevLogIndex && req.End() < |leader| && Matching(p.log, leader)
    requires req.entries == leader[req.prevLogIndex + 1..req.End() + 1]
    requires req.prevLogTerm == leader[req.prevLogIndex].term
    ensures HandleAppendEntries(p, req).1 == OutOfRange <==>
      && req.term >= p.currentTerm && req.prevLogIndex < |p.log|
      && (req.prevLogIndex < p.snapIndex ||
          (p.log[req.prevLogIndex].term == req.prevLogTerm && req.entries != [] &&
           HoldsBeyond(p.log, req.prevLogIndex, req.entries)))
  {
    hide MatchCount, ScanOverruns, HoldsBeyond, Matching, TakeEntries;
    var prev := req.prevLogIndex;
    if prev < |p.log| && p.log[prev].term == req.prevLogTerm {
      OverrunsExactly(p.log, leader, prev, req.entries);
      OverrunMeansHolds(p.log, leader, prev, req.entries);
    }
  }

  lemma OverrunMeansHolds(log: seq<LogEntry>, leader: seq<LogEntry>, prev: int, entries: seq<LogEntry>)
    requires Fits(log, leader, prev, entries)
    ensures HoldsBeyond(log, prev, entries) <==> leader[..prev + |entries| + 1] <= log && prev + |entries| + 1 < |log|
  {
    var end := prev + |entries| + 1;
    assert log[..prev + 1] == leader[..prev + 1];
    assert leader[..end] == leader[..prev + 1] + entries;
    if end < |log| {
      assert log[..end] == log[..prev + 1] + log[prev + 1..end];
    }
  }

  /** What the logs have in common, the scan passes over. */
  lemma ScanPassesCommon(log: seq<LogEntry>, leader: seq<LogEntry>, prev: int, entries: seq<LogEntry>, commitIndex: nat)
    requires 0 <= prev < |log| && prev + |entries| < |leader|
    requires entries == leader[prev + 1..prev + |entries| + 1] && !ScanOverruns(log, prev, entries)
    requires commitIndex < |log| && log[..commitIndex + 1] <= leader
    ensures commitIndex <= prev + MatchCount(log, prev, entries)
  {
    var n := MatchCount(log, prev, entries);
    if n < |entries| && prev + n + 1 < |log| {
      assert entries[n] == leader[prev + n + 1];
      assert forall i | 0 <= i <= commitIndex :: log[i] == log[..commitIndex + 1][i] == leader[i];
    }
  }

  // ----- compaction

  lemma {:induction false} CompactBounds(snapIndex: int, from: int, last: int, threshold: int)
    ensures CompactAfter(snapIndex, from, last, threshold) == snapIndex ||
            from < CompactAfter(snapIndex, from, last, threshold) <= last
    decreases last - from
  {
    if from < last {
      CompactBounds(if from + 1 - snapIndex >= threshold then from + 1 else snapIndex, from + 1, last, threshold);
    }
  }

  /** Committing in two goes compacts like committing in one. */
  lemma {:induction false} CompactCompose(snapIndex: int, from: int, mid: int, last: int, threshold: int)
    requires from <= mid <= last
    ensures CompactAfter(CompactAfter(snapIndex, from, mid, threshold), mid, last, threshold) ==
            CompactAfter(snapIndex, from, last, threshold)
    decreases mid - from
  {
    if from < mid {
      CompactCompose(if from + 1 - snapIndex >= threshold then from + 1 else snapIndex, from + 1, mid, last, threshold);
    }
  }

  /** Committing just to where the compaction ends compacts all of it. */
  lemma {:induction false} CompactAtSnapshot(snapIndex: int, from: int, last: int, threshold: int)
    requires snapIndex <= from && CompactAfter(snapIndex, from, last, threshold) != snapIndex
    ensures var s := CompactAfter(snapIndex, from, last, threshold);
      from < s && CompactAfter(snapIndex, from, s, threshold) == s
    decreases last - from
  {
    var next := if from + 1 - snapIndex >= threshold then from + 1 else snapIndex;
    var s := CompactAfter(next, from + 1, last, threshold);
    CompactBounds(next, from + 1, last, threshold);
    if s != next {
      CompactAtSnapshot(next, from + 1, last, threshold);
    }
  }

  /** Compaction as the commit index and the threshold alone determine it. */
  predicate OnPlan(p: Peer) {
    p.snapIndex == CompactAfter(-1, 0, p.commitIndex, p.threshold)
  }

  /** After a commit that advances, fewer than threshold committed entries remain uncompacted. */
  lemma {:induction false} CompactRetention(snapIndex: int, from: int, last: int, threshold: int)
    requires threshold >= 1 && from < last
    ensures last - CompactAfter(snapIndex, from, last, threshold) < threshold
    decreases last - from
  {
    if from + 1 < last {
      CompactRetention(if from + 1 - snapIndex >= threshold then from + 1 else snapIndex, from + 1, last, threshold);
    }
  }

  /** Below a threshold of 1 every commit compacts everything committed. */
  lemma {:induction false} CompactAll(snapIndex: int, from: int, last: int, threshold: int)
    requires threshold <= 1 && snapIndex <= from < last
    ensures CompactAfter(snapIndex, from, last, threshold) == last
    decreases last - from
  {
    if from + 1 < last {
      CompactAll(from + 1, from + 1, last, threshold);
    }
  }

  // ----- votes

  /** A peer votes once a term: after a granted vote every request of the term is refused, one
      repeated by the candidate voted for included. */
  lemma VotesOnce(p: Peer, req: RequestVoteReq, again: RequestVoteReq)
    requires p.log != [] && HandleRequestVote(p, req).1.voteGranted && again.term == req.term
    ensures var q := HandleRequestVote(p, req).0;
      q.log != [] && HandleRequestVote(q, again) == (q, RequestVoteRes(req.term, false))
  {
  }

  // ----- handleAppendEntries as a whole

  predicate Succeeds(p: Peer, req: AppendEntriesReq) {
    HandleAppendEntries(p, req).1 == Replied(AppendEntriesRes(req.term, true))
  }

  ghost predicate OnDisk(p: Peer) {
    p.disk == Saved(p.currentTerm, p.votedFor, p.voteCount, p.log, p.commitIndex, p.snapIndex)
  }

  /** Follower q is p after listening to a leader of the given term, with everything saved. */
  ghost predicate Listened(p: Peer, q: Peer, term: nat) {
    && q.role == Follower && q.id == p.id && q.others == p.others && q.threshold == p.threshold
    && term >= p.currentTerm && q.currentTerm == term
    && q.votedFor == (if term > p.currentTerm then None else p.votedFor)
    && OnDisk(q)
  }

  /** All that a success changes. */
  ghost predicate TookEntries(p: Peer, q: Peer, req: AppendEntriesReq)
    requires 0 <= req.prevLogIndex < |p.log|
  {
    && Listened(p, q, req.term)
    && q.log == NewLog(p.log, req)
    && q.commitIndex == Max(p.commitIndex, Min(req.leaderCommit, |q.log| - 1))
    && (q.snapIndex == p.snapIndex || p.commitIndex < q.snapIndex <= q.commitIndex)
  }

  lemma SuccessTakesEntries(p: Peer, req: AppendEntriesReq)
    requires Succeeds(p, req) && req.term >= p.currentTerm
    ensures 0 <= req.prevLogIndex < |p.log| && p.log[req.prevLogIndex].term == req.prevLogTerm
    ensures req.entries != [] ==> !ScanOverruns(p.log, req.prevLogIndex, req.entries)
    ensures TookEntries(p, HandleAppendEntries(p, req).0, req)
  {
    var q := AcceptLeader(p, req);
    assert ConsistencyCheck(q, req) == Replied(true);
    TakeEntriesTakes(p, req);
  }

  lemma TakeEntriesTakes(p: Peer, req: AppendEntriesReq)
    requires req.term >= p.currentTerm && 0 <= req.prevLogIndex < |p.log|
    ensures TookEntries(p, TakeEntries(AcceptLeader(p, req), req), req)
  {
    hide NewLog, UpdateCommitIndex, CompactAfter;
    CommitMoves(AcceptLeader(p, req).(log := NewLog(p.log, req)), req.leaderCommit);
  }

  /** updateCommitIndex followed by a save moves the two indices and nothing else. */
  lemma CommitMoves(p: Peer, idx: int)
    ensures var q := Save(UpdateCommitIndex(p, idx));
      && OnDisk(q) && q == p.(commitIndex := q.commitIndex, snapIndex := q.snapIndex, disk := q.disk)
      && q.commitIndex == Max(p.commitIndex, Min(idx, |p.log| - 1))
      && (q.snapIndex == p.snapIndex || p.commitIndex < q.snapIndex <= q.commitIndex)
  {
    CompactBounds(p.snapIndex, p.commitIndex, Min(idx, |p.log| - 1), p.threshold);
  }

  /** Any other answer to a leader only records its term. */
  lemma FailureListens(p: Peer, req: AppendEntriesReq)
    requires !Succeeds(p, req) && req.term >= p.currentTerm
    ensures HandleAppendEntries(p, req).0 == AcceptLeader(p, req)
    ensures HandleAppendEntries(p, req).1.Replied? ==> !HandleAppendEntries(p, req).1.res.success
  {
  }

  // ----- handleInstallSnapshot

  /** A snapshot of a log that matches the peer's: the entries after it stay exactly if the logs agree
      there, the peer goes on matching the leader, and only a snapshot older than the peer's own takes
      it out of range. It neither ends a leadership nor moves the term. */
  lemma InstallFollowsLeader(p: Peer, leader: seq<LogEntry>, last: nat, req: InstallSnapshotReq)
    requires -1 <= p.snapIndex < |p.log| && last < |leader| && Matching(p.log, leader)
    requires p.currentTerm <= req.term
    requires req.snapshot.lastIncludedIndex == last && req.snapshot.lastIncludedTerm == leader[last].term
    ensures var (q, out) := HandleInstallSnapshot(p, req, leader[..last + 1]);
      && q.role == p.role && q.currentTerm == p.currentTerm && q.votedFor == p.votedFor
      && out == (if last < p.snapIndex then OutOfRange else Replied(InstallSnapshotRes(p.currentTerm)))
      && (out.Replied? ==>
            && q.log == (if last < |p.log| - 1 && leader[..last + 1] <= p.log then p.log else leader[..last + 1])
            && leader[..last + 1] <= q.log && Matching(q.log, leader)
            && q.commitIndex == q.snapIndex == last && OnDisk(q))
  {
    var prefix := leader[..last + 1];
    assert prefix[last] == leader[last];
    if last < |p.log| - 1 && p.log[last].term == leader[last].term {
      assert p.log == p.log[..last + 1] + p.log[last + 1..];
    }
    forall i | 0 <= i <= last && prefix[i].term == leader[i].term ensures prefix[..i + 1] == leader[..i + 1] {
    }
  }

  /** It can undo commits: the commit index drops exactly when the snapshot is of a term not over and ends
      below the commit index but not below the peer's own snapshot; and the
      uncommitted entries are then still there, since what was committed agreed with the leader. */
  lemma InstallMayLowerCommit(p: Peer, leader: seq<LogEntry>, last: nat, req: InstallSnapshotReq)
    requires -1 <= p.snapIndex <= p.commitIndex && 0 <= p.commitIndex < |p.log|
    requires last < |leader| && Matching(p.log, leader)
    requires req.snapshot.lastIncludedIndex == last && req.snapshot.lastIncludedTerm == leader[last].term
    requires p.log[..p.commitIndex + 1] <= leader
    ensures var q := HandleInstallSnapshot(p, req, leader[..last + 1]).0;
      && (q.commitIndex < p.commitIndex <==> p.currentTerm <= req.term && p.snapIndex <= last < p.commitIndex)
      && p.log[..p.commitIndex + 1] <= q.log
  {
    if p.currentTerm <= req.term {
      InstallFollowsLeader(p, leader, last, req);
    }
    var own := p.log[..p.commitIndex + 1];
    if last < p.commitIndex {
      assert leader[..last + 1] == own[..last + 1] == p.log[..last + 1];
    }
  }
}
