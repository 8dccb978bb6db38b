/** The steps of a leader: taking a client's request, replicating it, committing it. */
module LeaderSteps {
  import opened Wrappers
  import Ledger
  import opened Messages
  import opened PeerModel
  import opened PeerLaws
  import opened Cluster
  import opened H = History
  import opened ClusterInv
  import opened ClusterFrames

  // ----- a client's request

  lemma ChannelGrows(p: Peer, q: Peer, i: int, h: Hist, h': Hist)
    requires Grows(h, h') && i in p.channels && ChannelOk(p, i, h)
    requires i in q.channels && q.channels[i] == p.channels[i] && p.log <= q.log
    requires q.id == p.id && q.currentTerm == p.currentTerm && q.matchIndex == p.matchIndex
    requires q.commitIndex == p.commitIndex && q.others == p.others
    ensures ChannelOk(q, i, h')
  {
    ChannelCarries(p, i, h, h');
    assert forall t :: Matches(p, t, i) <==> Matches(q, t, i);
  }

  lemma NewChannel(p: Peer, v: NodeID, h: Hist, e: LogEntry, h': Hist)
    requires Shape(h) && v in h.nodes && p.role == Leader && p.id == v && v in h.log && h.log[v] == p.log
    requires LeaderOk(p, v, h) && 0 <= p.commitIndex < |p.log| && e.term == p.currentTerm
    requires h' == H.Append(h, v, p.currentTerm, e)
    ensures ChannelOk(ClientAppend(p, e), |p.log|, h')
  {
    hide ChannelOk;
    var q := ClientAppend(p, e);
    forall t | t in p.matchIndex ensures p.matchIndex[t] < |p.log| {
      assert TargetOk(p, t, h);
    }
    OwnChannel(q, |p.log|, h');
  }

  /** A channel with the leader's own message only. */
  lemma OwnChannel(q: Peer, i: int, h: Hist)
    requires 0 < i < |q.log| && q.log[i].term == q.currentTerm && q.commitIndex < i
    requires i in q.channels && q.channels[i] == [q.id] && q.id in h.nodes && Acked(h, q.id, q.currentTerm, i)
    requires forall t | t in q.matchIndex :: q.matchIndex[t] < i
    ensures ChannelOk(q, i, h)
  {
  }

  lemma ClientLeader(p: Peer, v: NodeID, h: Hist, e: LogEntry, h': Hist)
    requires Shape(h) && v in h.nodes && p.role == Leader && p.id == v && v in h.log && h.log[v] == p.log
    requires LeaderOk(p, v, h) && 0 <= p.commitIndex < |p.log| && e.term == p.currentTerm
    requires h' == H.Append(h, v, p.currentTerm, e) && Shape(h') && Grows(h, h')
    ensures LeaderOk(ClientAppend(p, e), v, h')
  {
    hide ChannelOk, Certified;
    var q := ClientAppend(p, e);
    forall t | t in q.others ensures TargetOk(q, t, h') {
      assert TargetOk(p, t, h);
    }
    forall i | i in q.channels ensures ChannelOk(q, i, h') {
      if i == |p.log| {
        NewChannel(p, v, h, e, h');
      } else {
        assert ChannelOk(p, i, h);
        ChannelGrows(p, q, i, h, h');
      }
    }
  }

  lemma LeaderHolds(p: Peer, v: NodeID, h: Hist)
    requires Shape(h) && v in h.nodes && p.role == Leader && LeaderOk(p, v, h)
    ensures h.term[v] == p.currentTerm
  {
  }

  lemma ClientPeer(c: Cluster, h: Hist, v: NodeID, e: LogEntry, c': Cluster, h': Hist)
    requires Shape(h) && v in h.nodes && v in c.peers && PeerOk(c, v, h)
    requires c.peers[v].role == Leader && e.term == c.peers[v].currentTerm
    requires h' == H.Append(h, v, e.term, e) && Shape(h') && Grows(h, h')
    requires c'.peers == c.peers[v := ClientAppend(c.peers[v], e)]
    ensures PeerOk(c', v, h')
  {
    hide LeaderOk, Certified, Grows, ChannelOk, TargetOk;
    var p, q := c.peers[v], c'.peers[v];
    LeaderHolds(p, v, h);
    ClientLeader(p, v, h, e, h');
    assert q.log[..q.commitIndex + 1] == p.log[..p.commitIndex + 1];
    CommitCarries(p, v, h, h');
  }

  lemma LeaderCanAppend(p: Peer, v: NodeID, h: Hist, e: LogEntry)
    requires Shape(h) && v in h.nodes && Linked(p, v, h) && LeaderOk(p, v, h)
    requires p.role == Leader && e.term == p.currentTerm
    ensures H.CanAppend(h, v, e.term, e) && v in h.log
  {
  }

  lemma ClientQuiet(p: Peer, e: LogEntry)
    requires p.role == Leader
    ensures SameCandidacy(p, ClientAppend(p, e)) && SameLeadership(p, ClientAppend(p, e))
  {
  }

  lemma ClientGood(c: Cluster, h: Hist, v: NodeID, e: LogEntry, c': Cluster)
    requires Good(c, h) && v in h.nodes && v in c.peers && c.peers[v].role == Leader && e.term == c.peers[v].currentTerm
    requires c' == SetPeer(c, v, ClientAppend(c.peers[v], e))
    ensures v in h.log && var h' := H.Append(h, v, e.term, e); Good(c', h') && Advances(h, h')
  {
    hide Good, Inv, PeersOk, PeerOk, MessagesOk, Linked, CommitOk, VotesRemembered, CandidateOk, LeaderOk;
    hide BallotsCast, LeadersElected, Grows, StepOf, Advances;
    hide ClientAppend, OnlyPeer, SameCandidacy, SameLeadership;
    SetPeerOnly(c, v, ClientAppend(c.peers[v], e));
    GoodAt(c, h, v);
    LeaderCanAppend(c.peers[v], v, h, e);
    var h' := H.Append(h, v, e.term, e);
    AppendStep(h, v, e.term, e);
    StepShapes(h, h', v);
    ClientPeers(c, h, v, e, c', h');
    ClientQuiet(c.peers[v], e);
    QuietMessages(c, c', h, h', v);
    MakeGood(c', h');
  }

  lemma ClientPeers(c: Cluster, h: Hist, v: NodeID, e: LogEntry, c': Cluster, h': Hist)
    requires Shape(h) && PeersOk(c, h) && v in h.nodes && c.peers[v].role == Leader && e.term == c.peers[v].currentTerm
    requires c' == SetPeer(c, v, ClientAppend(c.peers[v], e))
    requires h' == H.Append(h, v, e.term, e) && StepOf(h, h', v)
    ensures PeersOk(c', h')
  {
    hide PeerOk;
    assert PeerOk(c, v, h);
    ClientPeer(c, h, v, e, c', h');
    OtherPeers(c, c', h, h', v);
  }

  lemma ClientRequestKeeps(c: Cluster, h: Hist, v: NodeID, cmd: Option<Ledger.Action>)
    requires Good(c, h) && Enabled(c, ClientRequest(v, cmd))
    ensures Keeps(c, h, ClientRequest(v, cmd))
  {
    hide Inv, PeerOk, MessagesOk;
    ClientGood(c, h, v, LogEntry(cmd, c.peers[v].currentTerm), Next(c, ClientRequest(v, cmd)));
  }

  // ----- sending entries

  /** The follower commit bound: a request never carries a commit index beyond its entries. */
  lemma RequestIsOk(c: Cluster, h: Hist, v: NodeID, target: NodeID)
    requires Shape(h) && v in h.nodes && v in c.peers && PeerOk(c, v, h)
    requires c.peers[v].role == Leader && CanSend(c.peers[v], target)
    ensures AppendRequestOk(h, AppendRequest(c.peers[v], target))
    ensures AppendRequest(c.peers[v], target).End() == |c.peers[v].log| - 1
  {
  }

  lemma SendShape(c: Cluster, v: NodeID, target: NodeID)
    requires Enabled(c, SendAppend(v, target))
    ensures v in c.peers && c.peers[v].role == Leader && CanSend(c.peers[v], target)
    ensures var req := AppendRequest(c.peers[v], target);
      Next(c, SendAppend(v, target)) ==
        c.(appendRequests := c.appendRequests + {req}, calls := c.calls[(v, target) := req])
  {
    assert c.peers[v := c.peers[v]] == c.peers;
  }

  lemma SendAppendKeeps(c: Cluster, h: Hist, v: NodeID, target: NodeID)
    requires Good(c, h) && Enabled(c, SendAppend(v, target))
    ensures Keeps(c, h, SendAppend(v, target))
  {
    hide Good, Inv, PeersOk, PeerOk, MessagesOk, Linked, CommitOk, VotesRemembered, CandidateOk, LeaderOk;
    hide BallotsCast, LeadersElected, Grows, StepOf, Advances;
    hide AppendRequestOk, Enabled;
    var c' := Next(c, SendAppend(v, target));
    SendShape(c, v, target);
    GoodAt(c, h, v);
    StayStep(h, v);
    StepShapes(h, h, v);
    SamePeers(c, c', h);
    RequestIsOk(c, h, v, target);
    SendMessages(c, h, v, target, c');
    MakeGood(c', h);
  }

  lemma SendMessages(c: Cluster, h: Hist, v: NodeID, target: NodeID, c': Cluster)
    requires Shape(h) && c.peers.Keys == h.nodes && MessagesOk(c, h) && v in h.nodes && PeerOk(c, v, h)
    requires c.peers[v].role == Leader && CanSend(c.peers[v], target)
    requires var req := AppendRequest(c.peers[v], target);
      && AppendRequestOk(h, req) && req.End() == |c.peers[v].log| - 1
      && c' == c.(appendRequests := c.appendRequests + {req}, calls := c.calls[(v, target) := req])
    ensures MessagesOk(c', h)
  {
    hide AppendRequestOk, AppendReplyOk, VoteReplyOk;
    var req := AppendRequest(c.peers[v], target);
    assert TargetOk(c.peers[v], target, h);
    forall m | m in c'.voteRequests ensures VoteRequestOk(c', h, m) {
      assert VoteRequestOk(c, h, m);
    }
    forall m | m in c'.appendRequests ensures AppendRequestOk(h, m) {
      assert m in c.appendRequests ==> AppendRequestOk(h, m);
    }
    forall p, t | (p, t) in c'.calls ensures CallOk(c', h, p, t, c'.calls[(p, t)]) {
      assert (p, t) in c.calls ==> CallOk(c, h, p, t, c.calls[(p, t)]);
    }
  }

  // ----- handling a reply

  /** The waiters of the indices a target has newly acknowledged each get one message from it. */
  lemma SignalledChannel(p: Peer, q: Peer, target: NodeID, end: int, i: int, h: Hist)
    requires i in p.channels && ChannelOk(p, i, h)
    requires target in p.matchIndex && target in h.nodes && target != p.id && p.matchIndex[target] <= end
    requires i <= end ==> Acked(h, target, p.currentTerm, i)
    requires q == p.(nextIndex := q.nextIndex, matchIndex := p.matchIndex[target := end],
                     channels := Signal(p.channels, target, Max(p.commitIndex, p.matchIndex[target]), end))
    ensures ChannelOk(q, i, h)
  {
    var from := Max(p.commitIndex, p.matchIndex[target]);
    if from < i <= end {
      assert !Matches(p, target, i);
      assert target !in p.channels[i];
      assert q.channels[i] == p.channels[i] + [target];
      forall t ensures t in q.channels[i] <==> Matches(q, t, i) {
        assert t in p.channels[i] <==> Matches(p, t, i);
      }
    } else {
      assert q.channels[i] == p.channels[i];
      if i > p.commitIndex {
        forall t ensures t in q.channels[i] <==> Matches(q, t, i) {
          assert t in p.channels[i] <==> Matches(p, t, i);
        }
      }
    }
  }

  lemma AcceptedLeader(p: Peer, v: NodeID, h: Hist, r: AppendReply)
    requires Shape(h) && v in h.nodes && p.role == Leader && p.id == v && p.others == h.nodes - {v} && LeaderOk(p, v, h)
    requires r.from in p.matchIndex && r.req.term == p.currentTerm && r.res.success
    requires AppendReplyOk(h, r) && p.matchIndex[r.from] <= r.req.End()
    ensures LeaderOk(HandleAppendReply(p, r.from, r.req, r.res), v, h)
  {
    var q, end := HandleAppendReply(p, r.from, r.req, r.res), r.req.End();
    forall t | t in q.others ensures TargetOk(q, t, h) {
      assert TargetOk(p, t, h);
    }
    forall i | i in q.channels ensures ChannelOk(q, i, h) {
      assert ChannelOk(p, i, h);
      SignalledChannel(p, q, r.from, end, i, h);
    }
  }

  lemma RejectedLeader(p: Peer, v: NodeID, h: Hist, target: NodeID)
    requires Shape(h) && v in h.nodes && p.role == Leader && LeaderOk(p, v, h)
    requires target in p.nextIndex && p.nextIndex[target] >= 2
    ensures LeaderOk(p.(nextIndex := p.nextIndex[target := p.nextIndex[target] - 1]), v, h)
  {
    var q := p.(nextIndex := p.nextIndex[target := p.nextIndex[target] - 1]);
    forall t | t in q.others ensures TargetOk(q, t, h) {
      assert TargetOk(p, t, h);
    }
    forall i | i in q.channels ensures ChannelOk(q, i, h) {
      assert ChannelOk(p, i, h);
      ChannelGrows(p, q, i, h, h);
    }
  }

  /** A leader that learns of a later term steps down, the term saved. */
  lemma DeposedOk(p: Peer, v: NodeID, h: Hist, term: nat, q: Peer)
    requires Shape(h) && BallotsCast(h) && v in h.nodes && term > p.currentTerm
    requires Linked(p, v, h) && CommitOk(p, v, h)
    requires q == Save(BecomeFollower(UpdateTerm(p, term)))
    requires Shape(RaiseTerm(h, v, term)) && Grows(h, RaiseTerm(h, v, term))
    ensures q.role == Follower
    ensures var h' := RaiseTerm(h, v, term); Linked(q, v, h') && CommitOk(q, v, h') && VotesRemembered(q, v, h')
  {
    hide Certified, Grows;
    CommitCarries(p, v, h, RaiseTerm(h, v, term));
  }

  lemma TermInHistory(p: Peer, v: NodeID, h: Hist)
    requires Shape(h) && v in h.nodes && Linked(p, v, h)
    ensures v in h.term && h.term[v] <= p.currentTerm
  {
  }

  lemma DeposedKeeps(c: Cluster, h: Hist, v: NodeID, r: AppendReply, c': Cluster)
    requires Good(c, h) && v in c.peers && r.res.term > c.peers[v].currentTerm
    requires c' == SetPeer(c, v, Save(BecomeFollower(UpdateTerm(c.peers[v], r.res.term)))).(
      calls := c.calls - {(v, r.from)})
    ensures Good(c', RaiseTerm(h, v, r.res.term)) && Advances(h, RaiseTerm(h, v, r.res.term))
  {
    hide Good, Inv, PeersOk, PeerOk, MessagesOk, Linked, CommitOk, VotesRemembered, CandidateOk, LeaderOk;
    hide BallotsCast, LeadersElected, Grows, StepOf, Advances;
    hide Save, BecomeFollower, UpdateTerm;
    var h' := RaiseTerm(h, v, r.res.term);
    GoodAt(c, h, v);
    TermInHistory(c.peers[v], v, h);
    RaiseStep(h, v, r.res.term);
    StepShapes(h, h', v);
    DeposedOk(c.peers[v], v, h, r.res.term, c'.peers[v]);
    FollowerKeeps(c, h, h', v, c'.peers[v], c');
  }

  lemma ReplyPeer(p: Peer, v: NodeID, h: Hist, r: AppendReply)
    requires Shape(h) && v in h.nodes && p.role == Leader && Linked(p, v, h) && CommitOk(p, v, h) && LeaderOk(p, v, h)
    requires r.from in p.nextIndex && r.from in p.matchIndex && r.req.term == p.currentTerm
    requires AppendReplyOk(h, r) && p.matchIndex[r.from] <= r.req.End() && p.nextIndex[r.from] == r.req.prevLogIndex + 1
    requires r.res.success || r.res.term <= p.currentTerm
    ensures var q := HandleAppendReply(p, r.from, r.req, r.res);
      Linked(q, v, h) && CommitOk(q, v, h) && LeaderOk(q, v, h)
  {
    hide LeaderOk;
    if r.res.success {
      AcceptedLeader(p, v, h, r);
    } else {
      RejectedLeader(p, v, h, r.from);
    }
  }

  lemma MessagesAt(c: Cluster, h: Hist, v: NodeID, r: AppendReply)
    requires Shape(h) && c.peers.Keys == h.nodes && MessagesOk(c, h)
    requires r in c.appendReplies && (v, r.from) in c.calls && c.calls[(v, r.from)] == r.req
    ensures AppendReplyOk(h, r) && CallOk(c, h, v, r.from, r.req)
  {
  }

  lemma CallIsOpen(c: Cluster, h: Hist, v: NodeID, r: AppendReply)
    requires CallOk(c, h, v, r.from, r.req) && v in c.peers
    requires c.peers[v].role == Leader && c.peers[v].currentTerm == r.req.term
    ensures var p := c.peers[v];
      && r.from in p.matchIndex && p.matchIndex[r.from] <= r.req.End()
      && r.from in p.nextIndex && p.nextIndex[r.from] == r.req.prevLogIndex + 1
  {
  }

  lemma ReplyMoves(p: Peer, v: NodeID, h: Hist, r: AppendReply)
    requires p.role == Leader && r.from in p.nextIndex && r.from in p.matchIndex
    requires r.res.success || r.res.term <= p.currentTerm
    ensures var q := HandleAppendReply(p, r.from, r.req, r.res);
      && q.role == Leader && q.currentTerm == p.currentTerm && q.votedFor == p.votedFor && q.disk == p.disk
      && q.matchIndex.Keys == p.matchIndex.Keys && q.nextIndex.Keys == p.nextIndex.Keys
      && (forall t | t in q.matchIndex && t != r.from :: q.matchIndex[t] == p.matchIndex[t])
      && (forall t | t in q.nextIndex && t != r.from :: q.nextIndex[t] == p.nextIndex[t])
    ensures Shape(h) && VotesRemembered(p, v, h) ==> VotesRemembered(HandleAppendReply(p, r.from, r.req, r.res), v, h)
  {
  }

  lemma StillLeaderKeeps(c: Cluster, h: Hist, v: NodeID, r: AppendReply, c': Cluster)
    requires Good(c, h) && v in c.peers && c.peers[v].role == Leader && c.peers[v].currentTerm == r.req.term
    requires r in c.appendReplies && (v, r.from) in c.calls && c.calls[(v, r.from)] == r.req
    requires r.from in c.peers[v].nextIndex && r.from in c.peers[v].matchIndex
    requires r.res.success || r.res.term <= c.peers[v].currentTerm
    requires c' == SetPeer(c, v, HandleAppendReply(c.peers[v], r.from, r.req, r.res)).(calls := c.calls - {(v, r.from)})
    ensures Good(c', h) && Advances(h, h)
  {
    hide Good, Inv, PeersOk, PeerOk, MessagesOk, Linked, CommitOk, VotesRemembered, CandidateOk, LeaderOk;
    hide BallotsCast, LeadersElected, Grows, StepOf, Advances;
    hide AppendReplyOk, CallOk;
    var p, q := c.peers[v], c'.peers[v];
    GoodAt(c, h, v);
    MessagesAt(c, h, v, r);
    CallIsOpen(c, h, v, r);
    StayStep(h, v);
    StepShapes(h, h, v);
    ReplyPeer(p, v, h, r);
    ReplyMoves(p, v, h, r);
    LeaderPeers(c, h, v, q, c');
    ReplyCalls(c, h, v, r.from, q, c');
    MakeGood(c', h);
  }

  lemma ReplyCalls(c: Cluster, h: Hist, v: NodeID, from: NodeID, q: Peer, c': Cluster)
    requires Shape(h) && c.peers.Keys == h.nodes && MessagesOk(c, h) && v in h.nodes
    requires c' == SetPeer(c, v, q).(calls := c.calls - {(v, from)})
    requires q.role == c.peers[v].role == Leader && q.currentTerm == c.peers[v].currentTerm
    requires q.matchIndex.Keys == c.peers[v].matchIndex.Keys && q.nextIndex.Keys == c.peers[v].nextIndex.Keys
    requires forall t | t in q.matchIndex && t != from :: q.matchIndex[t] == c.peers[v].matchIndex[t]
    requires forall t | t in q.nextIndex && t != from :: q.nextIndex[t] == c.peers[v].nextIndex[t]
    ensures MessagesOk(c', h)
  {
    hide AppendRequestOk, AppendReplyOk, VoteReplyOk;
    forall m | m in c'.voteRequests ensures VoteRequestOk(c', h, m) {
      assert VoteRequestOk(c, h, m);
    }
    forall p, t | (p, t) in c'.calls ensures CallOk(c', h, p, t, c'.calls[(p, t)]) {
      assert CallOk(c, h, p, t, c.calls[(p, t)]);
    }
  }

  lemma LeaderPeers(c: Cluster, h: Hist, v: NodeID, q: Peer, c': Cluster)
    requires Shape(h) && PeersOk(c, h) && v in h.nodes && c'.peers == c.peers[v := q] && c'.voteReplies == c.voteReplies
    requires q.role == Leader && LeaderOk(q, v, h) && CommitOk(q, v, h) && Linked(q, v, h)
    requires VotesRemembered(q, v, h)
    ensures PeersOk(c', h)
  {
    hide CommitOk, Linked, LeaderOk;
    StayStep(h, v);
    assert PeerOk(c, v, h);
    OtherPeers(c, c', h, h, v);
  }

  lemma ReceiveAppendReplyKeeps(c: Cluster, h: Hist, v: NodeID, r: AppendReply)
    requires Good(c, h) && Enabled(c, ReceiveAppendReply(v, r))
    ensures Keeps(c, h, ReceiveAppendReply(v, r))
  {
    hide Inv, PeerOk, MessagesOk;
    var c' := Next(c, ReceiveAppendReply(v, r));
    if !r.res.success && r.res.term > c.peers[v].currentTerm {
      DeposedKeeps(c, h, v, r, c');
    } else {
      StillLeaderKeeps(c, h, v, r, c');
    }
  }

  // ----- committing

  lemma DistinctSize(s: seq<NodeID>)
    requires Distinct(s)
    ensures |set t | t in s| == |s|
  {
    if s != [] {
      var front, last := s[..|s| - 1], s[|s| - 1];
      DistinctSize(front);
      assert (set t | t in s) == (set t | t in front) + {last};
    }
  }

  /** A majority of messages in a channel is a majority of distinct peers that hold the entry. */
  lemma PendingCommitted(p: Peer, h: Hist, i: int)
    requires Shape(h) && i in p.channels && ChannelOk(p, i, h)
    requires p.currentTerm in h.leaderLog && h.leaderLog[p.currentTerm] == p.log
    requires 2 * |p.channels[i]| > |h.nodes|
    ensures i >= 0 && Committed(h, p.currentTerm, i)
  {
    var q := set t | t in p.channels[i];
    DistinctSize(p.channels[i]);
    Smaller(q, Supporters(h, p.currentTerm, i));
  }

  /** Whoever acknowledged a pending index acknowledged every earlier pending one. */
  lemma NestedChannels(p: Peer, h: Hist, i: int, j: int)
    requires i in p.channels && j in p.channels && ChannelOk(p, i, h) && ChannelOk(p, j, h)
    requires p.commitIndex < i <= j
    ensures forall t | t in p.channels[j] :: t in p.channels[i]
    ensures |p.channels[j]| <= |p.channels[i]|
  {
    forall t | t in p.channels[j] ensures t in p.channels[i] {
      assert Matches(p, t, j) && Matches(p, t, i);
    }
    DistinctSize(p.channels[i]);
    DistinctSize(p.channels[j]);
    Smaller((set t | t in p.channels[j]), (set t | t in p.channels[i]));
  }

  /** All that the commit of a pending index changes. */
  predicate CommittedTo(p: Peer, q: Peer, idx: int) {
    q == p.(commitIndex := Max(p.commitIndex, idx), snapIndex := q.snapIndex, disk := q.disk,
            channels := p.channels - {idx})
  }

  lemma CommittedChannel(p: Peer, q: Peer, idx: int, i: int, h: Hist)
    requires idx in p.channels && ChannelOk(p, idx, h) && 2 * |p.channels[idx]| > p.TotalPeers()
    requires i in p.channels && ChannelOk(p, i, h)
    requires CommittedTo(p, q, idx)
    requires i != idx
    ensures ChannelOk(q, i, h)
  {
    if p.commitIndex < i <= idx {
      NestedChannels(p, h, i, idx);
    }
    assert forall t :: Matches(q, t, i) <==> Matches(p, t, i);
  }

  lemma CommittedLeader(p: Peer, v: NodeID, h: Hist, idx: int, q: Peer)
    requires Shape(h) && v in h.nodes && p.role == Leader && LeaderOk(p, v, h)
    requires idx in p.channels && 2 * |p.channels[idx]| > p.TotalPeers()
    requires CommittedTo(p, q, idx)
    ensures LeaderOk(q, v, h)
  {
    forall t | t in q.others ensures TargetOk(q, t, h) {
      assert TargetOk(p, t, h);
    }
    assert ChannelOk(p, idx, h);
    forall i | i in q.channels ensures ChannelOk(q, i, h) {
      assert ChannelOk(p, i, h);
      CommittedChannel(p, q, idx, i, h);
    }
  }

  lemma CommitShape(p: Peer, idx: int)
    requires p.role == Leader && idx < |p.log|
    ensures var q := CommitPending(p, idx);
      && CommittedTo(p, q, idx)
      && OnDisk(q)
      && (q.snapIndex == p.snapIndex || p.commitIndex < q.snapIndex <= q.commitIndex)
  {
    CommitMoves(p, idx);
  }

  lemma CommitPeer(p: Peer, v: NodeID, h: Hist, idx: int)
    requires Shape(h) && v in h.nodes && p.role == Leader && Linked(p, v, h) && CommitOk(p, v, h) && LeaderOk(p, v, h)
    requires idx in p.channels && 2 * |p.channels[idx]| > p.TotalPeers()
    ensures var q := CommitPending(p, idx); Linked(q, v, h) && CommitOk(q, v, h)
  {
    var q := CommitPending(p, idx);
    assert ChannelOk(p, idx, h);
    CommitShape(p, idx);
    assert |h.nodes - {v}| == |h.nodes| - 1;
    PendingCommitted(p, h, idx);
    if q.commitIndex == idx {
      assert q.log[..q.commitIndex + 1] <= h.leaderLog[p.currentTerm][..idx + 1];
      assert Certified(h, q.log[..q.commitIndex + 1], h.term[v]);
    }
  }

  lemma CommitLeads(p: Peer, v: NodeID, h: Hist, idx: int)
    requires Shape(h) && v in h.nodes && p.role == Leader
    requires Linked(p, v, h) && LeaderOk(p, v, h) && VotesRemembered(p, v, h)
    requires idx in p.channels && 2 * |p.channels[idx]| > p.TotalPeers()
    ensures var q := CommitPending(p, idx);
      LeaderOk(q, v, h) && q.role == Leader && q.currentTerm == p.currentTerm
      && q.matchIndex == p.matchIndex && q.nextIndex == p.nextIndex
      && VotesRemembered(q, v, h)
  {
    assert ChannelOk(p, idx, h);
    CommitShape(p, idx);
    CommittedLeader(p, v, h, idx, CommitPending(p, idx));
  }

  /** A leader's step that concerns only itself. */
  lemma LeaderKeeps(c: Cluster, h: Hist, v: NodeID, q: Peer)
    requires Good(c, h) && v in h.nodes && v in c.peers && c.peers[v].role == q.role == Leader
    requires q.currentTerm == c.peers[v].currentTerm
    requires q.matchIndex == c.peers[v].matchIndex && q.nextIndex == c.peers[v].nextIndex
    requires Linked(q, v, h) && CommitOk(q, v, h) && LeaderOk(q, v, h) && VotesRemembered(q, v, h)
    ensures Good(SetPeer(c, v, q), h) && Advances(h, h)
  {
    hide Good, Inv, PeersOk, PeerOk, MessagesOk, Linked, CommitOk, VotesRemembered, CandidateOk, LeaderOk;
    hide BallotsCast, LeadersElected, Grows, StepOf, Advances;
    hide OnlyPeer;
    var c' := SetPeer(c, v, q);
    SetPeerOnly(c, v, q);
    GoodAt(c, h, v);
    StayStep(h, v);
    StepShapes(h, h, v);
    LeaderPeers(c, h, v, q, c');
    QuietMessages(c, c', h, h, v);
    MakeGood(c', h);
  }

  lemma CommitKeeps(c: Cluster, h: Hist, v: NodeID, idx: int)
    requires Good(c, h) && Enabled(c, Commit(v, idx))
    ensures Keeps(c, h, Commit(v, idx))
  {
    hide LogsTraced, Ordered, TermsBound, BallotsCast, LeadersElected, AcksGiven, AcksKept, LeadersKeep, MessagesOk;
    hide Linked, CommitOk, CandidateOk, LeaderOk, VotesRemembered, CommitPending;
    assert PeerOk(c, v, h);
    CommitLeads(c.peers[v], v, h, idx);
    CommitPeer(c.peers[v], v, h, idx);
    LeaderKeeps(c, h, v, CommitPending(c.peers[v], idx));
  }
}
