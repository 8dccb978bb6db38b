/** Crashes, and a follower's answers to its leader, keep the invariant of the cluster. */
module FollowerSteps {
  import opened Messages
  import opened PeerModel
  import opened PeerLaws
  import opened Cluster
  import opened H = History
  import opened ClusterInv
  import opened ClusterFrames

  // ----- crash

  /** A peer that died and was restarted from disk is in order if the disk was. */
  lemma RestartOk(c: Cluster, v: NodeID, p: Peer, h: Hist)
    requires Shape(h) && v in h.nodes
    requires Linked(p, v, h) && CommitOk(p, v, h) && VotesRemembered(p, v, h)
    requires v in c.peers && c.peers[v] == Restart(p)
    ensures PeerOk(c, v, h)
  {
  }

  lemma RestartPeers(c: Cluster, h: Hist, h': Hist, v: NodeID, p: Peer, c': Cluster)
    requires Shape(h) && PeersOk(c, h) && StepOf(h, h', v) && v in h.nodes && h'.ballots == h.ballots
    requires Linked(p, v, h') && CommitOk(p, v, h') && VotesRemembered(p, v, h')
    requires c' == SetPeer(c, v, Restart(p))
    ensures PeersOk(c', h')
  {
    hide Linked, CommitOk, VotesRemembered, CandidateOk, LeaderOk;
    RestartOk(c', v, p, h');
    OtherPeers(c, c', h, h', v);
  }

  lemma RestartKeeps(c: Cluster, h: Hist, h': Hist, v: NodeID, p: Peer, c': Cluster)
    requires Good(c, h) && v in c.peers && Inv(h') && StepOf(h, h', v) && v in h.nodes && h'.ballots == h.ballots
    requires Linked(p, v, h') && CommitOk(p, v, h') && VotesRemembered(p, v, h')
    requires c' == SetPeer(c, v, Restart(p))
    ensures Good(c', h')
  {
    hide Good, Inv, PeersOk, PeerOk, MessagesOk, Linked, CommitOk, VotesRemembered, CandidateOk, LeaderOk;
    hide BallotsCast, LeadersElected, Grows, StepOf, Advances;
    GoodAt(c, h, v);
    StepShapes(h, h', v);
    RestartPeers(c, h, h', v, p, c');
    QuietMessages(c, c', h, h', v);
    MakeGood(c', h');
  }

  lemma CrashKeeps(c: Cluster, h: Hist, p: NodeID)
    requires Good(c, h) && Enabled(c, Crash(p))
    ensures Keeps(c, h, Crash(p))
  {
    hide Good, Inv, PeersOk, PeerOk, MessagesOk, Linked, CommitOk, VotesRemembered, CandidateOk, LeaderOk;
    hide BallotsCast, LeadersElected, Grows, StepOf;
    GoodAt(c, h, p);
    StayStep(h, p);
    StepShapes(h, h, p);
    RestartKeeps(c, h, h, p, c.peers[p], Next(c, Crash(p)));
  }

  // ----- a follower receiving AppendEntries

  lemma LogsMatch(p: Peer, h: Hist, v: NodeID, req: AppendEntriesReq)
    requires Shape(h) && LogsTraced(h) && v in h.nodes && Linked(p, v, h) && req.term in h.leaderLog
    ensures Matching(p.log, h.leaderLog[req.term])
  {
    var log, l := p.log, h.leaderLog[req.term];
    assert Traced(h.leaderLog, h.log[v]) && Traced(h.leaderLog, l);
    forall i: nat | i < |log| && i < |l| && log[i].term == l[i].term
      ensures log[..i + 1] == l[..i + 1]
    {
      TracedLogsMatch(h.leaderLog, log, l, i);
    }
  }

  /** Where the logs have the same term at prev, what is sent continues the follower's log. */
  lemma RequestFits(c: Cluster, h: Hist, v: NodeID, req: AppendEntriesReq)
    requires Shape(h) && LogsTraced(h) && v in h.nodes && v in c.peers && Linked(c.peers[v], v, h)
    requires AppendRequestOk(h, req)
    requires req.prevLogIndex < |c.peers[v].log| && c.peers[v].log[req.prevLogIndex].term == req.prevLogTerm
    ensures Fits(c.peers[v].log, h.leaderLog[req.term], req.prevLogIndex, req.entries)
  {
    LogsMatch(c.peers[v], h, v, req);
  }

  /** A leader whose requests a peer still listens to has everything the peer has committed. */
  lemma LeaderHasCommitted(h: Hist, p: Peer, v: NodeID, t: nat)
    requires Shape(h) && LeadersKeep(h) && v in h.nodes && Linked(p, v, h) && CommitOk(p, v, h)
    requires t in h.leaderLog && t >= p.currentTerm
    ensures p.log[..p.commitIndex + 1] <= h.leaderLog[t]
  {
    CertifiedInLeader(h, p.log[..p.commitIndex + 1], h.term[v], t);
  }

  /** The "Overriding commited logs" exit cannot happen. */
  lemma NeverFatal(c: Cluster, h: Hist, v: NodeID, req: AppendEntriesReq)
    requires Shape(h) && LeadersKeep(h) && v in h.nodes && v in c.peers
    requires Linked(c.peers[v], v, h) && CommitOk(c.peers[v], v, h) && AppendRequestOk(h, req)
    ensures HandleAppendEntries(c.peers[v], req).1 != Fatal
  {
    var p, prev := c.peers[v], req.prevLogIndex;
    if req.term >= p.currentTerm {
      LeaderHasCommitted(h, p, v, req.term);
      var l := h.leaderLog[req.term];
      assert forall i | 0 <= i <= p.commitIndex :: p.log[i] == p.log[..p.commitIndex + 1][i] == l[i];
    }
  }

  /** Nor can the "overriding committed log" error report. */
  lemma NeverOverrides(c: Cluster, h: Hist, v: NodeID, req: AppendEntriesReq)
    requires Shape(h) && LeadersKeep(h) && v in h.nodes && v in c.peers
    requires Linked(c.peers[v], v, h) && CommitOk(c.peers[v], v, h) && AppendRequestOk(h, req)
    ensures !ReportsOverride(c.peers[v], req)
  {
    hide MatchCount, Certified, ReportsOverride, LeadersKeep;
    var p := c.peers[v];
    OverrideMeans(p, req);
    if req.term >= p.currentTerm {
      LeaderHasCommitted(h, p, v, req.term);
      if req.prevLogIndex < |p.log| && !ScanOverruns(p.log, req.prevLogIndex, req.entries) {
        ScanPassesCommon(p.log, h.leaderLog[req.term], req.prevLogIndex, req.entries, p.commitIndex);
      }
    }
  }

  lemma OverrideMeans(p: Peer, req: AppendEntriesReq)
    ensures ReportsOverride(p, req) ==>
      && req.term >= p.currentTerm && 0 <= req.prevLogIndex < |p.log|
      && !ScanOverruns(p.log, req.prevLogIndex, req.entries)
      && req.prevLogIndex + MatchCount(p.log, req.prevLogIndex, req.entries) < p.commitIndex
  {
    hide MatchCount, TakeEntries;
  }

  lemma RaiseGrows(h: Hist, v: NodeID, t: nat)
    requires Shape(h) && CanRaise(h, v, t)
    ensures Shape(RaiseTerm(h, v, t)) && Grows(h, RaiseTerm(h, v, t))
  {
  }

  lemma AcceptLeaderRemembers(p: Peer, v: NodeID, h: Hist, req: AppendEntriesReq)
    requires Shape(h) && BallotsCast(h) && v in h.nodes && req.term >= p.currentTerm && CanRaise(h, v, req.term)
    requires Linked(p, v, h) && VotesRemembered(p, v, h)
    ensures Shape(RaiseTerm(h, v, req.term))
    ensures var q, h' := AcceptLeader(p, req), RaiseTerm(h, v, req.term); Linked(q, v, h') && VotesRemembered(q, v, h')
  {
  }

  /** A peer that has saved the term of a request it listens to. */
  lemma AcceptLeaderOk(p: Peer, v: NodeID, h: Hist, req: AppendEntriesReq)
    requires Shape(h) && BallotsCast(h) && v in h.nodes && req.term >= p.currentTerm
    requires Linked(p, v, h) && CommitOk(p, v, h) && VotesRemembered(p, v, h)
    ensures CanRaise(h, v, req.term) && Shape(RaiseTerm(h, v, req.term))
    ensures var q, h' := AcceptLeader(p, req), RaiseTerm(h, v, req.term);
      Linked(q, v, h') && CommitOk(q, v, h') && VotesRemembered(q, v, h')
  {
    hide VotesRemembered, BallotsCast, Grows, Certified;
    var q, h' := AcceptLeader(p, req), RaiseTerm(h, v, req.term);
    assert CanRaise(h, v, req.term);
    RaiseGrows(h, v, req.term);
    AcceptLeaderRemembers(p, v, h, req);
    CommitCarries(p, v, h, h');
  }

  lemma AcceptLeaderRestarts(c: Cluster, h: Hist, v: NodeID, req: AppendEntriesReq, c': Cluster)
    requires Good(c, h) && v in c.peers && req.term >= c.peers[v].currentTerm
    requires c' == SetPeer(c, v, Restart(AcceptLeader(c.peers[v], req)))
    ensures Good(c', RaiseTerm(h, v, req.term)) && Advances(h, RaiseTerm(h, v, req.term))
  {
    hide Good, Inv, PeersOk, PeerOk, MessagesOk, Linked, CommitOk, VotesRemembered, CandidateOk, LeaderOk;
    hide BallotsCast, LeadersElected, Grows, StepOf, Advances;
    GoodAt(c, h, v);
    AcceptLeaderOk(c.peers[v], v, h, req);
    var h' := RaiseTerm(h, v, req.term);
    RaiseStep(h, v, req.term);
    StepShapes(h, h', v);
    RestartKeeps(c, h, h', v, AcceptLeader(c.peers[v], req), c');
  }

  /** A request that succeeds leaves the follower with the leader's log up to the last index
      covered, and acknowledges just that. */
  lemma SuccessAccepts(c: Cluster, h: Hist, v: NodeID, req: AppendEntriesReq, q: Peer)
    requires Shape(h) && LogsTraced(h) && v in h.nodes && v in c.peers
    requires Linked(c.peers[v], v, h) && AppendRequestOk(h, req)
    requires req.prevLogIndex < |c.peers[v].log| && c.peers[v].log[req.prevLogIndex].term == req.prevLogTerm
    requires req.entries != [] ==> !ScanOverruns(c.peers[v].log, req.prevLogIndex, req.entries)
    requires TookEntries(c.peers[v], q, req)
    ensures CanAccept(h, v, req.term, req.End() + 1, q.log)
  {
    var p, l, prev := c.peers[v], h.leaderLog[req.term], req.prevLogIndex;
    RequestFits(c, h, v, req);
    NewLogFollows(p.log, l, req);
    hide NewLog, ScanOverruns, Certified, KeepsCommon, OnDisk;
  }

  lemma NewLogFollows(log: seq<LogEntry>, leader: seq<LogEntry>, req: AppendEntriesReq)
    requires Fits(log, leader, req.prevLogIndex, req.entries)
    requires req.entries != [] ==> !ScanOverruns(log, req.prevLogIndex, req.entries)
    ensures var end := req.End() + 1;
      var log' := NewLog(log, req);
      leader[..end] <= log' && (log' == log || (log' == leader[..end] && KeepsCommon(log, leader, log')))
  {
    hide MatchCount, Merge, ScanOverruns;
    var prev := req.prevLogIndex;
    if req.entries == [] {
      assert log[..prev + 1] == leader[..prev + 1];
    } else {
      MergeFollowsLeader(log, leader, prev, req.entries);
    }
  }

  /** A committed prefix of the leader's log, as the follower's own. */
  lemma CommitsPrefix(q: Peer, v: NodeID, h: Hist, l: seq<LogEntry>, n: nat, t: nat)
    requires Shape(h) && v in h.nodes && h.term[v] >= t && -1 <= q.snapIndex <= q.commitIndex < |q.log|
    requires n < |l| && q.commitIndex == n && q.log[..n + 1] == l[..n + 1] && Certified(h, l[..n + 1], t)
    ensures CommitOk(q, v, h)
  {
  }

  lemma CommitBounds(p: Peer, v: NodeID, h: Hist)
    requires Shape(h) && v in h.nodes && CommitOk(p, v, h)
    ensures 0 <= p.commitIndex < |p.log| && -1 <= p.snapIndex <= p.commitIndex
    ensures Certified(h, p.log[..p.commitIndex + 1], h.term[v])
  {
  }

  lemma LeaderPrefix(leader: seq<LogEntry>, log: seq<LogEntry>, end: nat, n: nat)
    requires n <= end < |leader| && leader[..end + 1] <= log
    ensures log[..n + 1] == leader[..n + 1]
  {
    assert log[..end + 1] == leader[..end + 1];
    assert log[..n + 1] == log[..end + 1][..n + 1];
  }

  lemma SuccessCommits(p: Peer, h: Hist, v: NodeID, req: AppendEntriesReq, q: Peer, h': Hist)
    requires Shape(h) && LeadersKeep(h) && v in h.nodes && Linked(p, v, h) && CommitOk(p, v, h)
    requires AppendRequestOk(h, req) && req.prevLogIndex < |p.log| && TookEntries(p, q, req)
    requires CanAccept(h, v, req.term, req.End() + 1, q.log)
    requires h' == Accept(h, v, req.term, req.End() + 1, q.log) && Shape(h') && Grows(h, h')
    ensures CommitOk(q, v, h')
  {
    hide NewLog, LeadersKeep, Certified, Grows, KeepsCommon, Acked, OnDisk, CommitOk;
    var l := h.leaderLog[req.term];
    CommitBounds(p, v, h);
    LeaderHasCommitted(h, p, v, req.term);
    if q.commitIndex == p.commitIndex {
      KeepsCommitted(p.log, l, q.log, p.commitIndex);
      CertifiedStable(h, h', p.log[..p.commitIndex + 1], h.term[v], req.term);
      CommitsPrefix(q, v, h', p.log, p.commitIndex, req.term);
    } else {
      LeaderPrefix(l, q.log, req.End(), req.leaderCommit);
      CertifiedStable(h, h', l[..req.leaderCommit + 1], req.term, req.term);
      CommitsPrefix(q, v, h', l, req.leaderCommit, req.term);
    }
  }

  lemma KeepsCommitted(a: seq<LogEntry>, b: seq<LogEntry>, c: seq<LogEntry>, i: nat)
    requires i < |a| && a[..i + 1] <= b && (c == a || KeepsCommon(a, b, c))
    ensures i < |c| && c[..i + 1] == a[..i + 1]
  {
    assert a[..i + 1] == b[..i + 1];
  }

  lemma SuccessPeer(p: Peer, h: Hist, v: NodeID, req: AppendEntriesReq, q: Peer, h': Hist)
    requires Shape(h) && BallotsCast(h) && v in h.nodes && Linked(p, v, h) && VotesRemembered(p, v, h)
    requires 0 <= req.prevLogIndex < |p.log| && TookEntries(p, q, req)
    requires h' == Accept(h, v, req.term, req.End() + 1, q.log) && Shape(h')
    ensures Linked(q, v, h') && VotesRemembered(q, v, h')
  {
  }

  ghost predicate CanSucceed(p: Peer, req: AppendEntriesReq) {
    && 0 <= req.prevLogIndex < |p.log| && p.log[req.prevLogIndex].term == req.prevLogTerm
    && (req.entries != [] ==> !ScanOverruns(p.log, req.prevLogIndex, req.entries))
  }

  lemma AcceptAcknowledges(h: Hist, v: NodeID, t: nat, k: nat, log: seq<LogEntry>)
    requires CanAccept(h, v, t, k, log)
    ensures Acked(Accept(h, v, t, k, log), v, t, k - 1) && Accept(h, v, t, k, log).ballots == h.ballots
  {
  }

  lemma SucceedsStep(c: Cluster, h: Hist, v: NodeID, req: AppendEntriesReq, q: Peer)
    requires Inv(h) && v in h.nodes && v in c.peers && PeerOk(c, v, h)
    requires AppendRequestOk(h, req) && CanSucceed(c.peers[v], req) && TookEntries(c.peers[v], q, req)
    ensures var h' := Accept(h, v, req.term, req.End() + 1, q.log);
      && StepOf(h, h', v) && Inv(h') && q.role == Follower && h'.ballots == h.ballots
      && Linked(q, v, h') && CommitOk(q, v, h') && VotesRemembered(q, v, h')
      && Acked(h', v, req.term, req.End())
  {
    hide Inv, LogsTraced, BallotsCast, LeadersElected, AcksGiven, LeadersKeep;
    hide PeerOk, Linked, CommitOk, VotesRemembered;
    hide CandidateOk, LeaderOk, StepOf, Grows, Acked, AppendRequestOk, ScanOverruns;
    var h' := Accept(h, v, req.term, req.End() + 1, q.log);
    InvShape(h);
    PeerParts(c, v, h);
    SuccessAccepts(c, h, v, req, q);
    AcceptAcknowledges(h, v, req.term, req.End() + 1, q.log);
    AcceptStep(h, v, req.term, req.End() + 1, q.log);
    StepShapes(h, h', v);
    SuccessCommits(c.peers[v], h, v, req, q, h');
    SuccessPeer(c.peers[v], h, v, req, q, h');
  }

  /** A follower's step towards a leader's term or log, with the reply it sends. */
  lemma FollowerReplies(c: Cluster, h: Hist, h': Hist, v: NodeID, q: Peer, r: AppendReply, c': Cluster)
    requires Good(c, h) && v in c.peers && StepOf(h, h', v) && Inv(h') && v in h.nodes && h'.ballots == h.ballots
    requires q.role == Follower && Linked(q, v, h') && CommitOk(q, v, h') && VotesRemembered(q, v, h')
    requires c' == SetPeer(c, v, q).(appendReplies := c.appendReplies + {r}) && AppendReplyOk(h', r)
    ensures Good(c', h')
  {
    hide Good, Inv, PeersOk, PeerOk, MessagesOk, Linked, CommitOk, VotesRemembered, CandidateOk, LeaderOk;
    hide BallotsCast, LeadersElected, Grows, StepOf, AppendReplyOk;
    GoodAt(c, h, v);
    StepShapes(h, h', v);
    FollowerPeers(c, h, h', v, q, c');
    ReplyMessages(c, c', h, h', v, r);
    MakeGood(c', h');
  }

  lemma RequestStarts(h: Hist, req: AppendEntriesReq)
    requires AppendRequestOk(h, req)
    ensures req.prevLogIndex >= 0 && req.End() >= 0 && req.term in h.leaderLog && req.End() < |h.leaderLog[req.term]|
  {
  }

  lemma ReceiveSucceeds(c: Cluster, h: Hist, v: NodeID, req: AppendEntriesReq, q: Peer, c': Cluster)
    requires Good(c, h) && v in c.peers && AppendRequestOk(h, req)
    requires CanSucceed(c.peers[v], req) && TookEntries(c.peers[v], q, req)
    requires c' == SetPeer(c, v, q).(
      appendReplies := c.appendReplies + {AppendReply(v, req, AppendEntriesRes(req.term, true))})
    ensures var h' := Accept(h, v, req.term, req.End() + 1, q.log); Good(c', h') && Advances(h, h')
  {
    hide Good, Inv, PeersOk, PeerOk, MessagesOk, Linked, CommitOk, VotesRemembered, CandidateOk, LeaderOk;
    hide BallotsCast, LeadersElected, Grows, StepOf, Advances;
    hide CanSucceed, TookEntries, AppendRequestOk, Acked;
    RequestStarts(h, req);
    var h' := Accept(h, v, req.term, req.End() + 1, q.log);
    var reply := AppendReply(v, req, AppendEntriesRes(req.term, true));
    GoodAt(c, h, v);
    SucceedsStep(c, h, v, req, q);
    StepShapes(h, h', v);
    AppendRequestCarries(h, h', req);
    FollowerReplies(c, h, h', v, q, reply, c');
  }

  /** At its first entry a log agrees with every leader's: a refusal in the request's own term is
      of a later one. */
  lemma RefusalIsLater(p: Peer, h: Hist, v: NodeID, req: AppendEntriesReq)
    requires Shape(h) && LeadersKeep(h) && v in h.nodes && Linked(p, v, h) && CommitOk(p, v, h)
    requires AppendRequestOk(h, req)
    requires req.term >= p.currentTerm
    requires HandleAppendEntries(p, req).1 == Replied(AppendEntriesRes(req.term, false))
    ensures req.prevLogIndex >= 1
  {
    hide Certified;
    LeaderHasCommitted(h, p, v, req.term);
    assert p.log[0] == p.log[..p.commitIndex + 1][0];
  }

  lemma ReceiveFails(c: Cluster, h: Hist, v: NodeID, req: AppendEntriesReq, c': Cluster)
    requires Good(c, h) && v in c.peers && AppendRequestOk(h, req) && req.term >= c.peers[v].currentTerm
    requires req.prevLogIndex >= 1
    requires c' == SetPeer(c, v, AcceptLeader(c.peers[v], req)).(
      appendReplies := c.appendReplies + {AppendReply(v, req, AppendEntriesRes(req.term, false))})
    ensures Good(c', RaiseTerm(h, v, req.term)) && Advances(h, RaiseTerm(h, v, req.term))
  {
    hide Good, Inv, PeersOk, PeerOk, MessagesOk, Linked, CommitOk, VotesRemembered, CandidateOk, LeaderOk;
    hide BallotsCast, LeadersElected, Grows, StepOf, Advances;
    hide AppendRequestOk;
    var h' := RaiseTerm(h, v, req.term);
    var reply := AppendReply(v, req, AppendEntriesRes(req.term, false));
    GoodAt(c, h, v);
    AcceptLeaderOk(c.peers[v], v, h, req);
    RaiseStep(h, v, req.term);
    StepShapes(h, h', v);
    AppendRequestCarries(h, h', req);
    FollowerReplies(c, h, h', v, AcceptLeader(c.peers[v], req), reply, c');
  }

  /** A stale request changes nothing. */
  lemma ReceiveStale(c: Cluster, h: Hist, v: NodeID, req: AppendEntriesReq, c': Cluster, res: AppendEntriesRes)
    requires Good(c, h) && v in c.peers && AppendRequestOk(h, req) && !res.success && res.term > req.term
    requires c' == c.(appendReplies := c.appendReplies + {AppendReply(v, req, res)})
    ensures Good(c', h) && Advances(h, h)
  {
    hide Good, Inv, PeersOk, PeerOk, MessagesOk, Linked, CommitOk, VotesRemembered, CandidateOk, LeaderOk;
    hide BallotsCast, LeadersElected, Grows, StepOf, Advances;
    hide AppendRequestOk;
    GoodAt(c, h, v);
    StayStep(h, v);
    StepShapes(h, h, v);
    SamePeers(c, c', h);
    ReplyMessages(c, c', h, h, v, AppendReply(v, req, res));
    MakeGood(c', h);
  }

  lemma RefusalAt(c: Cluster, h: Hist, v: NodeID, req: AppendEntriesReq)
    requires Good(c, h) && v in c.peers && AppendRequestOk(h, req) && req.term >= c.peers[v].currentTerm
    requires HandleAppendEntries(c.peers[v], req).1 == Replied(AppendEntriesRes(req.term, false))
    ensures req.prevLogIndex >= 1
  {
    hide MessagesOk, HandleAppendEntries, AppendRequestOk;
    assert PeerOk(c, v, h);
    RefusalIsLater(c.peers[v], h, v, req);
  }

  lemma ReceiveShape(c: Cluster, v: NodeID, req: AppendEntriesReq)
    requires Enabled(c, ReceiveAppend(v, req))
    ensures v in c.peers && req in c.appendRequests
    ensures var (q, outcome) := HandleAppendEntries(c.peers[v], req);
      Next(c, ReceiveAppend(v, req)) ==
        if outcome.Replied? then
          SetPeer(c, v, q).(appendReplies := c.appendReplies + {AppendReply(v, req, outcome.res)})
        else SetPeer(c, v, Restart(q))
  {
    hide HandleAppendEntries;
  }

  lemma RequestIn(c: Cluster, h: Hist, req: AppendEntriesReq)
    requires Good(c, h) && req in c.appendRequests
    ensures Shape(h) && c.peers.Keys == h.nodes && AppendRequestOk(h, req) && req.End() >= 0
  {
    hide LogsTraced, Ordered, TermsBound, BallotsCast, LeadersElected, AcksGiven, AcksKept, LeadersKeep;
    hide PeerOk, Certified;
  }

  lemma SucceedsMeans(p: Peer, req: AppendEntriesReq)
    requires req.term >= p.currentTerm
    ensures Succeeds(p, req) ==>
      HandleAppendEntries(p, req).1 == Replied(AppendEntriesRes(req.term, true)) && CanSucceed(p, req)
    ensures !Succeeds(p, req) && HandleAppendEntries(p, req).1.Replied? ==>
      HandleAppendEntries(p, req).1 == Replied(AppendEntriesRes(req.term, false))
  {
    hide TakeEntries, MatchCount;
  }

  lemma ReceiveAppendKeeps(c: Cluster, h: Hist, v: NodeID, req: AppendEntriesReq)
    requires Good(c, h) && Enabled(c, ReceiveAppend(v, req))
    ensures Keeps(c, h, ReceiveAppend(v, req))
  {
    hide Good, Advances, Next, Enabled, Restart, AcceptLeader, TakeEntries, AppendRequestOk, Accept;
    hide Succeeds, TookEntries, CanSucceed;
    ReceiveShape(c, v, req);
    var p, c' := c.peers[v], Next(c, ReceiveAppend(v, req));
    var (q, outcome) := HandleAppendEntries(p, req);
    RequestIn(c, h, req);
    if req.term < p.currentTerm {
      assert c.peers[v := p] == c.peers;
      ReceiveStale(c, h, v, req, c', outcome.res);
    } else if Succeeds(p, req) {
      SucceedsMeans(p, req);
      SuccessTakesEntries(p, req);
      ReceiveSucceeds(c, h, v, req, q, c');
    } else {
      SucceedsMeans(p, req);
      FailureListens(p, req);
      if outcome.Replied? {
        RefusalAt(c, h, v, req);
        ReceiveFails(c, h, v, req, c');
      } else {
        AcceptLeaderRestarts(c, h, v, req, c');
      }
    }
  }

  lemma CrashInAppendKeeps(c: Cluster, h: Hist, v: NodeID, req: AppendEntriesReq)
    requires Good(c, h) && Enabled(c, CrashInAppend(v, req))
    ensures Keeps(c, h, CrashInAppend(v, req))
  {
    AcceptLeaderRestarts(c, h, v, req, Next(c, CrashInAppend(v, req)));
  }
}
