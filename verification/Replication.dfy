/** A leader replicating to one follower: what single exchanges of AppendEntries and InstallSnapshot do
    to the two, answered or not, and while the leader goes on taking and committing commands. */
module Replication {
  import opened Messages
  import opened Model = PeerModel
  import opened PeerLaws
  import Cluster
  import RunLaws
  import CommitLaws
  import KeepingUp

  // ----- leader l and follower f between two exchanges

  /** The log holds the leader's and more. */
  predicate Outruns(log: seq<LogEntry>, leader: seq<LogEntry>) {
    leader <= log && |leader| < |log|
  }

  /** Of the leader's term the follower has nothing the leader lacks. */
  ghost predicate Behind(log: seq<LogEntry>, leader: seq<LogEntry>, term: nat) {
    forall k | |leader| <= k < |log| :: log[k].term != term
  }

  /** A follower the leader has not lost: its committed entries are the leader's. */
  ghost predicate Compatible(f: Peer, leader: seq<LogEntry>, term: nat) {
    && -1 <= f.snapIndex <= f.commitIndex && 0 <= f.commitIndex < |f.log| && f.currentTerm <= term
    && f.log[..f.commitIndex + 1] <= leader && Matching(f.log, leader) && Behind(f.log, leader, term)
  }

  predicate Leading(l: Peer, target: NodeID) {
    && l.role == Leader && target in l.nextIndex && target in l.matchIndex
    && -1 <= l.snapIndex <= l.commitIndex && 0 <= l.commitIndex < |l.log|
    && 0 < l.nextIndex[target] <= |l.log|
  }

  /** The next call starts neither below the follower's snapshot nor within a log that outruns. */
  ghost predicate Ready(l: Peer, f: Peer) {
    && Leading(l, f.id) && Compatible(f, l.log, l.currentTerm)
    && f.snapIndex < Max(l.nextIndex[f.id], l.snapIndex + 1)
    && (l.nextIndex[f.id] < |l.log| ==> !Outruns(f.log, l.log))
  }

  /** Both compact at the same indices. */
  predicate SamePlan(l: Peer, f: Peer) {
    l.threshold == f.threshold && OnPlan(l) && OnPlan(f)
  }

  /** The exchange touches the leader's bookkeeping and nothing else. */
  predicate SameLeader(l: Peer, l': Peer) {
    l' == l.(nextIndex := l'.nextIndex, matchIndex := l'.matchIndex, channels := l'.channels)
  }

  /** The follower has just installed a snapshot that ends where nextIndex begins. */
  ghost predicate Installed(l: Peer, f: Peer)
    requires Leading(l, f.id)
  {
    var next := l.nextIndex[f.id];
    l.snapIndex == f.commitIndex == next - 1 < |f.log| && f.log[..next] <= l.log
  }

  ghost predicate Done(l: Peer, f: Peer) {
    l.log <= f.log && l.commitIndex <= f.commitIndex
  }

  // ----- reachable states

  /** In every reachable state a leader is ready for a peer of no later term, if its last entry is of
      its own term, which its no-op sees to, or it has sent nothing yet; and if both compact at the same
      threshold, or at least the peer has not compacted past both nextIndex and the leader's snapshot. */
  lemma ReachableReady(r: Cluster.Run, i: nat, p: NodeID, q: NodeID)
    requires Cluster.IsRun(r) && RunLaws.PeerIn(r, i, p) && RunLaws.PeerIn(r, i, q) && p != q
    requires var l, f := r.states[i].peers[p], r.states[i].peers[q];
      && l.role == Leader && f.currentTerm <= l.currentTerm && l.log != []
      && (q in l.nextIndex ==>
            && (r.thresholds[p] != r.thresholds[q] ==> f.snapIndex < Max(l.nextIndex[q], l.snapIndex + 1))
            && (l.LastTerm() == l.currentTerm || l.nextIndex[q] == |l.log|))
    ensures Ready(r.states[i].peers[p], r.states[i].peers[q])
    ensures r.thresholds[p] == r.thresholds[q] ==> SamePlan(r.states[i].peers[p], r.states[i].peers[q])
  {
    var samePlan := r.thresholds[p] == r.thresholds[q];
    hide RunLaws.HistAt, Cluster.IsRun;
    var l, f := r.states[i].peers[p], r.states[i].peers[q];
    RunLaws.PeerIdentity(r, i, q);
    RunLaws.LeaderTargets(r, i, p, q);
    RunLaws.LeadersHaveCommitted(r, i, i, p, p);
    RunLaws.SnapshotBounds(r, i, p);
    CommitLaws.CompactionOnPlan(r, i, p);
    CommitLaws.CompactionOnPlan(r, i, q);
    ReachableCompatible(r, i, p, q);
    if samePlan {
      RunLaws.CrashLosesOnlyTheTerm(r, i, q);
      KeepingUp.NotAheadOfLeader(r, i, p, q);
      if f.commitIndex <= l.commitIndex {
        PlanRises(f.commitIndex, l.commitIndex, l.threshold);
      }
    }
    if l.LastTerm() == l.currentTerm && Outruns(f.log, l.log) {
      RunLaws.TermsAscend(r, i, q, |l.log| - 1, |l.log|);
    }
  }

  lemma ReachableCompatible(r: Cluster.Run, i: nat, p: NodeID, q: NodeID)
    requires Cluster.IsRun(r) && RunLaws.PeerIn(r, i, p) && RunLaws.PeerIn(r, i, q) && p != q
    requires var l, f := r.states[i].peers[p], r.states[i].peers[q]; l.role == Leader && f.currentTerm <= l.currentTerm
    ensures var l, f := r.states[i].peers[p], r.states[i].peers[q]; Compatible(f, l.log, l.currentTerm)
  {
    hide RunLaws.HistAt, Cluster.IsRun;
    var l, f := r.states[i].peers[p], r.states[i].peers[q];
    RunLaws.LeadersHaveCommitted(r, i, i, q, p);
    RunLaws.SnapshotBounds(r, i, q);
    forall k: nat | k < |f.log| && k < |l.log| && f.log[k].term == l.log[k].term
      ensures f.log[..k + 1] == l.log[..k + 1]
    {
      RunLaws.LogMatching(r, i, i, q, p, k);
    }
    forall k: nat | k < |f.log| && f.log[k].term == l.currentTerm ensures k < |l.log| {
      RunLaws.LeaderHasItsEntries(r, i, p, q, k);
    }
  }

  /** Whoever commits further on the same plan compacts no less. */
  lemma PlanRises(a: int, b: int, threshold: int)
    requires 0 <= a <= b
    ensures CompactAfter(-1, 0, a, threshold) <= CompactAfter(-1, 0, b, threshold)
  {
    CompactCompose(-1, 0, a, b, threshold);
    CompactBounds(-1, 0, a, threshold);
    CompactBounds(CompactAfter(-1, 0, a, threshold), a, b, threshold);
  }

  // ----- what a leader does while a call is under way

  /** Leader l later in the same leadership, with commands taken and entries committed since l0. */
  predicate Later(l0: Peer, l: Peer, target: NodeID) {
    && Leading(l0, target) && Leading(l, target)
    && l.id == l0.id && l.others == l0.others && l.threshold == l0.threshold
    && l.currentTerm == l0.currentTerm && l.votedFor == l0.votedFor
    && l.nextIndex == l0.nextIndex && l.matchIndex == l0.matchIndex
    && l0.log <= l.log && (forall k | |l0.log| <= k < |l.log| :: l.log[k].term == l.currentTerm)
    && l0.commitIndex <= l.commitIndex && l0.snapIndex <= l.snapIndex
  }

  lemma LaterOn(a: Peer, b: Peer, c: Peer, target: NodeID)
    requires Later(a, b, target) && Later(b, c, target)
    ensures Later(a, c, target)
  {
  }

  lemma AppendIsLater(l: Peer, target: NodeID, e: LogEntry)
    requires Leading(l, target) && e.term == l.currentTerm
    ensures Later(l, ClientAppend(l, e), target)
  {
  }

  lemma CommitIsLater(l: Peer, target: NodeID, idx: int)
    requires Leading(l, target)
    ensures Later(l, CommitPending(l, idx), target)
    ensures OnPlan(l) ==> OnPlan(CommitPending(l, idx))
  {
    CommitMoves(l, idx);
    if OnPlan(l) {
      CommitKeepsPlan(l, idx);
    }
  }

  lemma CommitKeepsPlan(p: Peer, idx: int)
    requires OnPlan(p) && 0 <= p.commitIndex
    ensures OnPlan(Save(UpdateCommitIndex(p, idx)))
  {
    var last := Min(idx, |p.log| - 1);
    if last > p.commitIndex {
      CompactCompose(-1, 0, p.commitIndex, last, p.threshold);
    }
  }

  /** Whatever it does, the leader stays ready for the follower. */
  lemma LaterReady(l0: Peer, l: Peer, f: Peer)
    requires Ready(l0, f) && Later(l0, l, f.id)
    ensures Ready(l, f)
  {
    assert |l0.log| < |l.log| && |l0.log| < |f.log| ==> f.log[|l0.log|].term != l.log[|l0.log|].term;
    forall i | 0 <= i < |f.log| && i < |l.log| && f.log[i].term == l.log[i].term
      ensures f.log[..i + 1] == l.log[..i + 1]
    {
      assert i < |l0.log|;
      assert l.log[..i + 1] == l0.log[..i + 1];
    }
  }

  // ----- one AppendEntries exchange

  /** A request with all of the leader's log after prev. */
  predicate Offers(leader: seq<LogEntry>, req: AppendEntriesReq) {
    && 0 <= req.prevLogIndex < |leader| && req.prevLogTerm == leader[req.prevLogIndex].term
    && req.entries == leader[req.prevLogIndex + 1..] && 0 <= req.leaderCommit < |leader|
  }

  /** A compatible follower that agrees at prev takes everything. */
  lemma Takes(f: Peer, leader: seq<LogEntry>, req: AppendEntriesReq)
    requires Compatible(f, leader, req.term) && Offers(leader, req)
    requires f.snapIndex <= req.prevLogIndex < |f.log| && f.log[req.prevLogIndex].term == req.prevLogTerm
    requires req.entries != [] ==> !Outruns(f.log, leader)
    ensures !ReportsOverride(f, req)
    ensures HandleAppendEntries(f, req) ==
      (TakeEntries(AcceptLeader(f, req), req), Replied(AppendEntriesRes(req.term, true)))
    ensures var f' := TakeEntries(AcceptLeader(f, req), req);
      && Compatible(f', leader, req.term) && leader <= f'.log && f'.id == f.id && f'.threshold == f.threshold
      && f'.commitIndex == Max(f.commitIndex, req.leaderCommit) && f'.commitIndex < |leader|
      && f'.snapIndex == CompactAfter(f.snapIndex, f.commitIndex, f'.commitIndex, f.threshold)
      && f'.log == (if req.entries != [] then leader else f.log)
  {
    hide HandleAppendEntries, TakeEntries, CompactAfter, Matching, Behind, ScanOverruns, Merge, MatchCount;
    var prev := req.prevLogIndex;
    assert leader[..prev + |req.entries| + 1] == leader;
    assert Fits(f.log, leader, prev, req.entries) by {
      assert req.entries == leader[prev + 1..prev + |req.entries| + 1];
    }
    OverrunsExactly(f.log, leader, prev, req.entries);
    TakeEntriesTakes(f, req);
    TakeEntriesCompacts(f, req);
    NoOverride(f, leader, req);
    Replies(f, req);
    TakenLog(f, leader, req);
  }

  lemma TakeEntriesCompacts(f: Peer, req: AppendEntriesReq)
    requires 0 <= req.prevLogIndex < |f.log| && f.currentTerm <= req.term
    ensures var f' := TakeEntries(AcceptLeader(f, req), req);
      f'.snapIndex == CompactAfter(f.snapIndex, f.commitIndex, f'.commitIndex, f.threshold)
  {
    CommitCompacts(AcceptLeader(f, req).(log := NewLog(f.log, req)), req.leaderCommit);
    hide NewLog, UpdateCommitIndex, CompactAfter;
  }

  lemma CommitCompacts(p: Peer, idx: int)
    ensures var q := Save(UpdateCommitIndex(p, idx));
      q.snapIndex == CompactAfter(p.snapIndex, p.commitIndex, q.commitIndex, p.threshold)
  {
  }

  lemma Replies(f: Peer, req: AppendEntriesReq)
    requires f.snapIndex <= req.prevLogIndex && 0 <= req.prevLogIndex < |f.log|
    requires f.currentTerm <= req.term && f.log[req.prevLogIndex].term == req.prevLogTerm
    requires req.entries != [] ==> !ScanOverruns(f.log, req.prevLogIndex, req.entries)
    ensures HandleAppendEntries(f, req) ==
      (TakeEntries(AcceptLeader(f, req), req), Replied(AppendEntriesRes(req.term, true)))
  {
    hide TakeEntries, ScanOverruns;
  }

  lemma NoOverride(f: Peer, leader: seq<LogEntry>, req: AppendEntriesReq)
    requires Offers(leader, req) && 0 <= f.commitIndex < |f.log| && f.log[..f.commitIndex + 1] <= leader
    requires req.prevLogIndex < |f.log|
    requires req.entries != [] ==> !ScanOverruns(f.log, req.prevLogIndex, req.entries)
    ensures !ReportsOverride(f, req)
  {
    hide HandleAppendEntries, MatchCount;
    if req.entries != [] {
      assert req.entries == leader[req.prevLogIndex + 1..req.prevLogIndex + |req.entries| + 1];
      ScanPassesCommon(f.log, leader, req.prevLogIndex, req.entries, f.commitIndex);
    }
  }

  lemma TakenLog(f: Peer, leader: seq<LogEntry>, req: AppendEntriesReq)
    requires Offers(leader, req) && Fits(f.log, leader, req.prevLogIndex, req.entries)
    requires Behind(f.log, leader, req.term)
    requires req.entries != [] ==> !ScanOverruns(f.log, req.prevLogIndex, req.entries)
    ensures var log := NewLog(f.log, req);
      && leader <= log && Matching(log, leader) && Behind(log, leader, req.term)
      && log == (if req.entries != [] then leader else f.log)
  {
    hide MatchCount, Merge;
    var prev := req.prevLogIndex;
    assert leader[..prev + |req.entries| + 1] == leader;
    if req.entries != [] {
      MergeFollowsLeader(f.log, leader, prev, req.entries);
    } else {
      assert f.log[..prev + 1] == leader[..prev + 1] == leader;
    }
  }

  /** One that does not agree answers so, and loses nothing. */
  lemma Refuses(f: Peer, leader: seq<LogEntry>, req: AppendEntriesReq)
    requires Compatible(f, leader, req.term) && Offers(leader, req)
    requires f.snapIndex <= req.prevLogIndex
    requires req.prevLogIndex < |f.log| ==> f.log[req.prevLogIndex].term != req.prevLogTerm
    ensures !ReportsOverride(f, req) && !Outruns(f.log, leader) && f.commitIndex < req.prevLogIndex
    ensures Compatible(AcceptLeader(f, req), leader, req.term)
    ensures HandleAppendEntries(f, req) == (AcceptLeader(f, req), Replied(AppendEntriesRes(req.term, false)))
  {
    hide Matching, Behind, ScanOverruns, MatchCount;
    var own, prev := f.log[..f.commitIndex + 1], req.prevLogIndex;
    assert forall k | 0 <= k <= f.commitIndex :: f.log[k] == own[k] == leader[k];
  }

  /** The follower's side of an exchange, whether or not its reply arrives. */
  ghost predicate Answered(l: Peer, f: Peer, f': Peer, success: bool)
    requires Leading(l, f.id)
  {
    && f'.id == f.id && f'.threshold == f.threshold && Compatible(f', l.log, l.currentTerm)
    && f'.snapIndex == CompactAfter(f.snapIndex, f.commitIndex, f'.commitIndex, f.threshold)
    && (if success then
          && Done(l, f') && f'.commitIndex == Max(f.commitIndex, l.commitIndex) < |l.log|
          && f'.log == (if l.nextIndex[f.id] < |l.log| then l.log else f.log)
        else
          && f'.log == f.log && f'.commitIndex == f.commitIndex
          && f.commitIndex < l.nextIndex[f.id] - 1 && !Outruns(f.log, l.log))
  }

  /** The logs agree just before nextIndex. */
  predicate AgreeAtNext(l: Peer, f: Peer)
    requires Leading(l, f.id)
  {
    var prev := l.nextIndex[f.id] - 1;
    prev < |f.log| && f.log[prev].term == l.log[prev].term
  }

  /** The follower neither dies nor overrides what it committed: it takes the leader's log, or refuses. */
  lemma Answer(l: Peer, f: Peer)
    requires Ready(l, f) && CanSend(l, f.id)
    ensures var req := AppendRequest(l, f.id);
      var (f', out) := HandleAppendEntries(f, req);
      && !ReportsOverride(f, req)
      && out.Replied? && out.res.term == l.currentTerm && Answered(l, f, f', out.res.success)
      && (out.res.success <==> AgreeAtNext(l, f))
      && (Installed(l, f) ==> out.res.success)
  {
    hide HandleAppendEntries, TakeEntries, Matching, Behind;
    var req := AppendRequest(l, f.id);
    var prev := req.prevLogIndex;
    assert Offers(l.log, req);
    if Installed(l, f) {
      assert f.log[..prev + 1][prev] == l.log[prev];
    }
    CompactNothing(f.snapIndex, f.commitIndex, f.threshold);
    hide Offers, Outruns, ReportsOverride, CompactAfter, Compatible;
    if prev < |f.log| && f.log[prev].term == l.log[prev].term {
      Takes(f, l.log, req);
    } else {
      Refuses(f, l.log, req);
    }
  }

  /** The reply arrives: either the follower has the leader's log, or nextIndex goes down by one. */
  lemma Exchange(l: Peer, f: Peer)
    requires Ready(l, f) && CanSend(l, f.id)
    ensures var req := AppendRequest(l, f.id);
      var (f', out) := HandleAppendEntries(f, req);
      && out.Replied?
      && var l' := Model.HandleAppendReply(l, f.id, req, out.res);
      && SameLeader(l, l') && Ready(l', f') && (SamePlan(l, f) ==> SamePlan(l', f'))
      && (if out.res.success then Done(l', f') && l'.nextIndex[f.id] == |l.log| && l'.matchIndex[f.id] == |l.log| - 1
          else l'.nextIndex[f.id] == l.nextIndex[f.id] - 1)
  {
    hide HandleAppendEntries, Compatible, Outruns, Signal, TakeEntries, Installed, ReportsOverride;
    Answer(l, f);
    var f' := HandleAppendEntries(f, AppendRequest(l, f.id)).0;
    LogBounds(l, f, f');
    AnswerKeepsPlan(l, f, f');
  }

  lemma LogBounds(l: Peer, f: Peer, f': Peer)
    requires Ready(l, f) && Compatible(f', l.log, l.currentTerm)
    ensures f.snapIndex <= f.commitIndex && 0 <= f.commitIndex < |l.log|
    ensures f'.snapIndex <= f'.commitIndex && 0 <= f'.commitIndex < |l.log|
  {
  }

  /** Whether or not the answer arrives, compaction stays on plan; and what the follower has newly
      compacted, the leader has compacted too. */
  lemma AnswerKeepsPlan(l: Peer, f: Peer, f': Peer)
    requires 0 <= f.commitIndex <= f'.commitIndex && f'.threshold == f.threshold
    requires f'.snapIndex == CompactAfter(f.snapIndex, f.commitIndex, f'.commitIndex, f.threshold)
    requires f'.commitIndex == f.commitIndex || f'.commitIndex == l.commitIndex
    ensures SamePlan(l, f) ==> SamePlan(l, f') && f'.snapIndex <= Max(f.snapIndex, l.snapIndex)
  {
    if OnPlan(f) {
      CompactCompose(-1, 0, f.commitIndex, f'.commitIndex, f.threshold);
    }
  }

  /** The reply is lost: the leader tries again from the same nextIndex, and is ready to unless the
      follower has meanwhile compacted past it, which it has not if both compact at the same indices. */
  lemma Unanswered(l: Peer, f: Peer)
    requires Ready(l, f) && CanSend(l, f.id)
    ensures var f' := HandleAppendEntries(f, AppendRequest(l, f.id)).0;
      && f'.id == f.id
      && (f'.snapIndex < l.nextIndex[f.id] ==> Ready(l, f'))
      && (SamePlan(l, f) ==> Ready(l, f') && SamePlan(l, f'))
      && (Installed(l, f) && l.nextIndex[f.id] == |l.log| ==> Installed(l, f'))
  {
    hide HandleAppendEntries, Compatible, CompactAfter, CanSend, ReportsOverride;
    Answer(l, f);
    var f' := HandleAppendEntries(f, AppendRequest(l, f.id)).0;
    LogBounds(l, f, f');
    AnswerKeepsPlan(l, f, f');
  }

  /** So, whatever the thresholds, the repeated request kills the follower exactly if it took the first
      and the commit index that came with it makes it compact as far as nextIndex. */
  lemma RetryDiesExactly(l: Peer, f: Peer)
    requires Ready(l, f) && CanSend(l, f.id)
    ensures var req := AppendRequest(l, f.id);
      HandleAppendEntries(HandleAppendEntries(f, req).0, req).1 == OutOfRange <==>
        && AgreeAtNext(l, f)
        && l.nextIndex[f.id] <= CompactAfter(f.snapIndex, f.commitIndex, Max(f.commitIndex, l.commitIndex), f.threshold)
  {
    hide HandleAppendEntries, Compatible, CompactAfter, ReportsOverride, Outruns;
    var req := AppendRequest(l, f.id);
    var f' := HandleAppendEntries(f, req).0;
    Answer(l, f);
    LogBounds(l, f, f');
    CompactNothing(f.snapIndex, f.commitIndex, f.threshold);
    Unanswered(l, f);
    if f'.snapIndex < l.nextIndex[f.id] {
      Answer(l, f');
    } else {
      Reaches(f', l);
      BelowSnapshotDies(f', req);
    }
  }

  lemma CompactNothing(snapIndex: int, from: int, threshold: int)
    ensures CompactAfter(snapIndex, from, from, threshold) == snapIndex
  {
  }

  lemma Reaches(f: Peer, l: Peer)
    requires Compatible(f, l.log, l.currentTerm)
    ensures f.snapIndex < |f.log| && f.currentTerm <= l.currentTerm
  {
  }

  lemma BelowSnapshotDies(f: Peer, req: AppendEntriesReq)
    requires f.currentTerm <= req.term && 0 <= req.prevLogIndex < f.snapIndex < |f.log|
    ensures HandleAppendEntries(f, req).1 == OutOfRange
  {
  }

  /** And why Ready rules out a follower that has outrun the leader: it is exactly the one that dies. */
  lemma OutrunDies(l: Peer, f: Peer)
    requires Leading(l, f.id) && Compatible(f, l.log, l.currentTerm) && CanSend(l, f.id)
    requires f.snapIndex < l.nextIndex[f.id] < |l.log|
    ensures HandleAppendEntries(f, AppendRequest(l, f.id)).1 == OutOfRange <==> Outruns(f.log, l.log)
  {
    var req := AppendRequest(l, f.id);
    var prev := req.prevLogIndex;
    if Outruns(f.log, l.log) {
      hide Matching, Behind;
      assert req.entries == l.log[prev + 1..prev + |req.entries| + 1];
      assert l.log[..prev + |req.entries| + 1] == l.log;
      assert Fits(f.log, l.log, prev, req.entries);
      OverrunsExactly(f.log, l.log, prev, req.entries);
      OverrunDies(f, req);
    } else {
      hide HandleAppendEntries, Compatible, Outruns;
      Answer(l, f);
    }
  }

  lemma OverrunDies(f: Peer, req: AppendEntriesReq)
    requires f.currentTerm <= req.term && f.snapIndex <= req.prevLogIndex && 0 <= req.prevLogIndex < |f.log|
    requires f.log[req.prevLogIndex].term == req.prevLogTerm && req.entries != []
    requires ScanOverruns(f.log, req.prevLogIndex, req.entries)
    ensures HandleAppendEntries(f, req).1 == OutOfRange
  {
    hide ScanOverruns;
  }

  // ----- one InstallSnapshot exchange

  /** The follower then agrees with the leader as far as the snapshot goes, whether or not the leader
      hears of it. */
  lemma Install(l: Peer, f: Peer)
    requires Ready(l, f) && l.nextIndex[f.id] <= l.snapIndex
    ensures var (f', out) := HandleInstallSnapshot(f, SnapshotRequest(l), l.log[..l.snapIndex + 1]);
      && out.Replied? && f'.id == f.id && Ready(l, f') && (SamePlan(l, f) ==> SamePlan(l, f'))
      && var l' := Model.HandleInstallSnapshotRes(l, f.id, out.res);
      && SameLeader(l, l') && Ready(l', f') && Installed(l', f') && (SamePlan(l, f) ==> SamePlan(l', f'))
  {
    hide Matching, HandleInstallSnapshot, CompactAfter;
    var req := SnapshotRequest(l);
    var prefix := l.log[..l.snapIndex + 1];
    InstallFollowsLeader(f, l.log, l.snapIndex, req);
    var f' := HandleInstallSnapshot(f, req, prefix).0;
    assert f'.log[..l.snapIndex + 1] == prefix;
    SameIds(f, req, prefix);
    if SamePlan(l, f) {
      CompactAtSnapshot(-1, 0, l.commitIndex, l.threshold);
    }
  }

  lemma SameIds(f: Peer, req: InstallSnapshotReq, prefix: seq<LogEntry>)
    requires |prefix| == req.snapshot.lastIncludedIndex + 1
    ensures var f' := HandleInstallSnapshot(f, req, prefix).0; f'.id == f.id && f'.threshold == f.threshold
  {
  }

  // ----- replies that reach a leader that has gone on

  /** An answered call: what it does to the leader as it was at the call, it does to it later. */
  lemma ReplyLater(l0: Peer, l: Peer, f: Peer)
    requires Ready(l0, f) && CanSend(l0, f.id) && Later(l0, l, f.id)
    ensures var req := AppendRequest(l0, f.id);
      var (f', out) := HandleAppendEntries(f, req);
      && out.Replied?
      && var l' := Model.HandleAppendReply(l, f.id, req, out.res);
      && SameLeader(l, l') && Ready(l', f')
      && (SamePlan(l0, f) && SamePlan(l, f) ==> SamePlan(l', f'))
      && (if out.res.success then l'.nextIndex[f.id] == |l0.log| && l'.matchIndex[f.id] == |l0.log| - 1
          else l'.nextIndex[f.id] == l.nextIndex[f.id] - 1)
  {
    hide HandleAppendEntries, Compatible, Outruns, Signal, ReportsOverride;
    hide AppendRequest, CanSend, Installed, CompactAfter;
    var req := AppendRequest(l0, f.id);
    var (f', out) := HandleAppendEntries(f, req);
    Answer(l0, f);
    Exchange(l0, f);
    RequestEnd(l0, f.id);
    var l0' := Model.HandleAppendReply(l0, f.id, req, out.res);
    var l' := Model.HandleAppendReply(l, f.id, req, out.res);
    LogBounds(l0, f, f');
    assert Later(l0', l', f.id);
    LaterReady(l0', l', f');
  }

  lemma RequestEnd(l: Peer, target: NodeID)
    requires Leading(l, target) && CanSend(l, target)
    ensures AppendRequest(l, target).End() + 1 == |l.log|
  {
  }

  /** An installed snapshot, heard of by a leader that may meanwhile have compacted further. */
  lemma InstallLater(l0: Peer, l: Peer, f: Peer)
    requires Ready(l0, f) && l0.nextIndex[f.id] <= l0.snapIndex && Later(l0, l, f.id)
    ensures var (f', out) := HandleInstallSnapshot(f, SnapshotRequest(l0), l0.log[..l0.snapIndex + 1]);
      && out.Replied? && f'.id == f.id && Ready(l, f') && (SamePlan(l0, f) && SamePlan(l, f) ==> SamePlan(l, f'))
      && var l' := Model.HandleInstallSnapshotRes(l, f.id, out.res);
      && SameLeader(l, l') && Ready(l', f') && (SamePlan(l0, f) && SamePlan(l, f) ==> SamePlan(l', f'))
      && l'.nextIndex[f.id] == l.snapIndex + 1
      && (l.snapIndex == l0.snapIndex ==> Installed(l', f'))
  {
    hide HandleInstallSnapshot, Compatible, Outruns, CompactAfter;
    Install(l0, f);
    var f' := HandleInstallSnapshot(f, SnapshotRequest(l0), l0.log[..l0.snapIndex + 1]).0;
    LaterReady(l0, l, f');
    if l.snapIndex == l0.snapIndex {
      InstalledLater(l0.(nextIndex := l0.nextIndex[f.id := l0.snapIndex + 1]), l, f');
    }
  }

  lemma InstalledLater(l0: Peer, l: Peer, f: Peer)
    requires Leading(l0, f.id) && Leading(l, f.id) && Installed(l0, f)
    requires l.snapIndex == l0.snapIndex && l0.log <= l.log
    ensures 0 <= l.snapIndex < |l.log|
    ensures Installed(l.(nextIndex := l.nextIndex[f.id := l.snapIndex + 1]), f)
  {
  }
}
