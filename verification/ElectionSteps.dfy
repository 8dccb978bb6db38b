/** Timeouts, votes and the counting of votes keep the invariant of the cluster. */
module ElectionSteps {
  import opened Wrappers
  import opened Messages
  import opened PeerModel
  import opened PeerLaws
  import opened Cluster
  import opened H = History
  import opened ClusterInv
  import opened ClusterFrames

  // ----- elections

  /** A step that casts a ballot for the given candidate. */
  lemma CastMessages(c: Cluster, c': Cluster, h: Hist, v: NodeID, candidate: NodeID, h': Hist)
    requires Shape(h) && v in h.nodes && StepOf(h, h', v) && BallotsAsked(h')
    requires OnlyPeer(c, c', v) && c.peers.Keys == h.nodes && MessagesOk(c, h)
    requires SameLeadership(c.peers[v], c'.peers[v])
    requires c'.appendRequests == c.appendRequests && c'.appendReplies == c.appendReplies && c'.calls == c.calls
    requires forall m | m in c'.voteRequests :: VoteRequestOk(c', h', m)
    requires c'.voteReplies == c.voteReplies
    ensures MessagesOk(c', h')
  {
    hide VoteRequestOk, VoteReplyOk, AppendRequestOk, AppendReplyOk, CallOk, BallotsAsked, StepOf, Grows, OnlyPeer;
    StepShapes(h, h', v);
    AppendMessagesCarry(c, h, h');
    CallsCarry(c, c', h, h', v);
    assert c'.peers.Keys == h'.nodes by {
      OnlyPeerKeys(c, c', v);
    }
    forall r | r in c'.voteReplies ensures VoteReplyOk(h', r) {
      assert VoteReplyOk(h, r);
      VoteReplyCarries(h, h', r);
    }
  }

  lemma VoteReplyCarries(h: Hist, h': Hist, r: VoteReply)
    requires Grows(h, h') && VoteReplyOk(h, r)
    ensures VoteReplyOk(h', r)
  {
  }

  lemma TimeoutCounted(c: Cluster, h: Hist, p: NodeID, t: nat, c': Cluster)
    requires Shape(h) && BallotsAsked(h) && p in h.nodes && t > h.term[p]
    requires c'.voteReplies == c.voteReplies
    ensures Counted(c', CastBallot(h, p, t, p), p, t) == {p}
    ensures forall g :: VotedFor(CastBallot(h, p, t, p), g, t, p) ==> g == p
  {
  }

  /** Standing for election: only the own vote is counted, and nobody leads the new term. */
  lemma StandsOk(c: Cluster, h: Hist, p: NodeID, c': Cluster, h': Hist)
    requires Shape(h) && BallotsAsked(h) && BallotsCast(h) && LeadersElected(h)
    requires p in h.nodes && p in c.peers && Linked(c.peers[p], p, h) && c.peers[p].log != []
    requires VotesRemembered(c.peers[p], p, h)
    requires c'.peers == c.peers[p := StartElection(c.peers[p])] && c'.voteReplies == c.voteReplies
    requires h' == CastBallot(h, p, c.peers[p].currentTerm + 1, p) && Shape(h')
    ensures Linked(c'.peers[p], p, h') && VotesRemembered(c'.peers[p], p, h') && CandidateOk(c', c'.peers[p], p, h')
  {
    var t := c.peers[p].currentTerm + 1;
    TimeoutCounted(c, h, p, t, c');
    hide Counted;
    assert t in h.leader && h.leader[t] == p ==> (p, t) in h.ballots;
  }

  lemma TimeoutPeer(c: Cluster, h: Hist, p: NodeID, c': Cluster)
    requires Shape(h) && BallotsAsked(h) && BallotsCast(h) && LeadersElected(h)
    requires p in h.nodes && p in c.peers && PeerOk(c, p, h)
    requires c'.peers == c.peers[p := StartElection(c.peers[p])] && c'.voteReplies == c.voteReplies
    requires var h' := CastBallot(h, p, c.peers[p].currentTerm + 1, p); Shape(h') && Grows(h, h')
    ensures PeerOk(c', p, CastBallot(h, p, c.peers[p].currentTerm + 1, p))
  {
    hide Certified, Grows;
    var t := c.peers[p].currentTerm + 1;
    var h' := CastBallot(h, p, t, p);
    PeerParts(c, p, h);
    TimeoutCounted(c, h, p, t, c');
    CommitCarries(c.peers[p], p, h, h');
    StandsOk(c, h, p, c', h');
    hide PeerOk, Counted, BallotsAsked, LeadersElected;
    assert CommitOk(c'.peers[p], p, h') by {
      hide VotesRemembered, CandidateOk, LeaderOk;
    }
  }

  lemma TimeoutRequests(c: Cluster, h: Hist, p: NodeID, c': Cluster)
    requires Shape(h) && c.peers.Keys == h.nodes && MessagesOk(c, h)
    requires p in h.nodes && Linked(c.peers[p], p, h) && c.peers[p].log != []
    requires c'.peers == c.peers[p := StartElection(c.peers[p])]
    requires c'.voteRequests == c.voteRequests + {VoteRequest(c'.peers[p])}
    requires var h' := CastBallot(h, p, c.peers[p].currentTerm + 1, p); Shape(h') && Grows(h, h')
    ensures forall m | m in c'.voteRequests :: VoteRequestOk(c', CastBallot(h, p, c.peers[p].currentTerm + 1, p), m)
  {
    forall m | m in c'.voteRequests
      ensures VoteRequestOk(c', CastBallot(h, p, c.peers[p].currentTerm + 1, p), m)
    {
      assert m in c.voteRequests ==> VoteRequestOk(c, h, m);
    }
  }

  lemma TimeoutMessages(c: Cluster, h: Hist, p: NodeID, c': Cluster, h': Hist)
    requires Shape(h) && c.peers.Keys == h.nodes && MessagesOk(c, h)
    requires p in h.nodes && Linked(c.peers[p], p, h) && c.peers[p].log != []
    requires c' == SetPeer(c, p, StartElection(c.peers[p])).(
      voteRequests := c.voteRequests + {VoteRequest(StartElection(c.peers[p]))})
    requires h' == CastBallot(h, p, c.peers[p].currentTerm + 1, p) && StepOf(h, h', p) && BallotsAsked(h')
    ensures MessagesOk(c', h')
  {
    hide StepOf, Grows, VoteRequestOk, VoteReplyOk, AppendRequestOk, AppendReplyOk, CallOk, BallotsAsked, Linked;
    StepShapes(h, h', p);
    TimeoutRequests(c, h, p, c');
    CastMessages(c, c', h, p, p, h');
  }

  lemma TimeoutBallots(c: Cluster, h: Hist, p: NodeID, h': Hist)
    requires Shape(h) && c.peers.Keys == h.nodes && MessagesOk(c, h) && p in h.nodes && Linked(c.peers[p], p, h)
    requires h' == CastBallot(h, p, c.peers[p].currentTerm + 1, p) && Shape(h') && Grows(h, h')
    ensures BallotsAsked(h) && BallotsAsked(h')
  {
    hide VoteRequestOk, VoteReplyOk, AppendRequestOk, AppendReplyOk, CallOk, Grows;
    BallotsAskedCarries(h, h');
  }

  lemma CanStand(p: Peer, v: NodeID, h: Hist)
    requires Shape(h) && BallotsCast(h) && v in h.nodes && Linked(p, v, h)
    ensures CanCast(h, v, p.currentTerm + 1)
  {
  }

  lemma TimeoutGood(c: Cluster, h: Hist, p: NodeID, c': Cluster)
    requires Good(c, h) && p in h.nodes && p in c.peers && c.peers[p].log != []
    requires c' == SetPeer(c, p, StartElection(c.peers[p])).(
      voteRequests := c.voteRequests + {VoteRequest(StartElection(c.peers[p]))})
    ensures p in h.log && var h' := CastBallot(h, p, c.peers[p].currentTerm + 1, p); Good(c', h') && Advances(h, h')
  {
    hide Good, Inv, PeersOk, PeerOk, MessagesOk, Linked, CommitOk, VotesRemembered, CandidateOk, LeaderOk;
    hide BallotsCast, LeadersElected, Grows, StepOf, Advances;
    hide BallotsAsked;
    var t := c.peers[p].currentTerm + 1;
    GoodAt(c, h, p);
    CanStand(c.peers[p], p, h);
    var h' := CastBallot(h, p, t, p);
    CastStep(h, p, t, p);
    StepShapes(h, h', p);
    TimeoutBallots(c, h, p, h');
    TimeoutPeer(c, h, p, c');
    OtherPeers(c, c', h, h', p);
    TimeoutMessages(c, h, p, c', h');
    MakeGood(c', h');
  }

  lemma TimeoutShape(c: Cluster, p: NodeID)
    requires Enabled(c, Timeout(p))
    ensures p in c.peers && c.peers[p].log != []
    ensures Next(c, Timeout(p)) == SetPeer(c, p, StartElection(c.peers[p])).(
      voteRequests := c.voteRequests + {VoteRequest(StartElection(c.peers[p]))})
  {
    hide StartElection;
  }

  lemma TimeoutHistory(c: Cluster, h: Hist, p: NodeID)
    requires Enabled(c, Timeout(p)) && Shape(h) && c.peers.Keys == h.nodes
    ensures p in h.log && HistoryAfter(c, h, Timeout(p)) == CastBallot(h, p, c.peers[p].currentTerm + 1, p)
  {
    hide Next;
  }

  lemma TimeoutKeeps(c: Cluster, h: Hist, p: NodeID)
    requires Good(c, h) && Enabled(c, Timeout(p))
    ensures Keeps(c, h, Timeout(p))
  {
    TimeoutShape(c, p);
    GoodAt(c, h, p);
    TimeoutHistory(c, h, p);
    hide Good, Inv, Advances, Enabled, Next, StartElection, HistoryAfter, CastBallot;
    hide PeersOk, PeerOk, MessagesOk, Linked, CommitOk, VotesRemembered, CandidateOk, LeaderOk;
    hide BallotsCast, LeadersElected;
    TimeoutGood(c, h, p, Next(c, Timeout(p)));
  }

  // ----- answering a candidate

  /** What a peer answering a candidate becomes, when it does not grant its vote. */
  lemma RefusedOk(c: Cluster, h: Hist, v: NodeID, req: RequestVoteReq, c': Cluster)
    requires Shape(h) && BallotsCast(h) && v in h.nodes && v in c.peers && PeerOk(c, v, h) && c.peers[v].log != []
    requires !HandleRequestVote(c.peers[v], req).1.voteGranted
    requires c'.peers == c.peers[v := HandleRequestVote(c.peers[v], req).0]
    requires c'.voteReplies == c.voteReplies + {VoteReply(v, req.candidateID, HandleRequestVote(c.peers[v], req).1)}
    ensures PeerOk(c', v, h)
    ensures SameCandidacy(c.peers[v], c'.peers[v]) && SameLeadership(c.peers[v], c'.peers[v])
  {
    var p, q := c.peers[v], c'.peers[v];
    if q.role != Follower {
      assert q == p;
      assert forall t :: Counted(c', h, v, t) == Counted(c, h, v, t);
    }
  }

  lemma RefuseCarries(c: Cluster, h: Hist, v: NodeID, w: NodeID, r: VoteReply, c': Cluster)
    requires Shape(h) && OnlyPeer(c, c', v) && w != v && w in h.nodes && w in c.peers && PeerOk(c, w, h)
    requires c'.voteReplies == c.voteReplies + {r} && !r.res.voteGranted
    ensures PeerOk(c', w, h)
  {
    assert forall t :: Counted(c', h, w, t) == Counted(c, h, w, t);
  }

  /** A reply to a candidate, the ballot (if any) already accounted for. */
  lemma VoteReplyMessages(c: Cluster, h: Hist, v: NodeID, r: VoteReply, c': Cluster, h': Hist)
    requires StepOf(h, h', v) && OnlyPeer(c, c', v) && c.peers.Keys == h.nodes && MessagesOk(c, h) && BallotsAsked(h')
    requires SameCandidacy(c.peers[v], c'.peers[v]) && SameLeadership(c.peers[v], c'.peers[v])
    requires c' == c.(peers := c'.peers, voteReplies := c.voteReplies + {r}) && VoteReplyOk(h', r)
    ensures MessagesOk(c', h')
  {
    hide VoteRequestOk, VoteReplyOk, AppendRequestOk, AppendReplyOk, CallOk, BallotsAsked;
    VoteMessagesCarry(c, c', h, h', v);
    AppendMessagesCarry(c, h, h');
    CallsCarry(c, c', h, h', v);
  }

  lemma RefuseKeeps(c: Cluster, h: Hist, v: NodeID, req: RequestVoteReq, c': Cluster)
    requires Good(c, h) && v in c.peers && c.peers[v].log != [] && !HandleRequestVote(c.peers[v], req).1.voteGranted
    requires c' == SetPeer(c, v, HandleRequestVote(c.peers[v], req).0).(
      voteReplies := c.voteReplies + {VoteReply(v, req.candidateID, HandleRequestVote(c.peers[v], req).1)})
    ensures Good(c', h) && Advances(h, h)
  {
    hide LogsTraced, Ordered, TermsBound, LeadersElected, AcksGiven, AcksKept, LeadersKeep;
    hide Linked, CommitOk, VotesRemembered, CandidateOk, LeaderOk;
    assert PeerOk(c, v, h);
    StayStep(h, v);
    RefusedOk(c, h, v, req, c');
    var r := VoteReply(v, req.candidateID, HandleRequestVote(c.peers[v], req).1);
    forall w | w in h.nodes && w != v ensures PeerOk(c', w, h) {
      assert PeerOk(c, w, h);
      RefuseCarries(c, h, v, w, r, c');
    }
    VoteReplyMessages(c, h, v, r, c', h);
  }

  /** A vote granted: the term is the candidate's, and the ballot is new. */
  ghost predicate Granted(p: Peer, q: Peer, req: RequestVoteReq)
    requires p.log != []
  {
    && q.role == (if req.term > p.currentTerm then Follower else p.role)
    && q.log == p.log && q.commitIndex == p.commitIndex && q.snapIndex == p.snapIndex
    && q.id == p.id && q.others == p.others
    && p.currentTerm <= req.term == q.currentTerm && q.votedFor == Some(req.candidateID)
    && (req.term == p.currentTerm ==> p.votedFor == None)
    && OnDisk(q) && !MoreUpToDate(p.log, req.lastLogIndex, req.lastLogTerm)
  }

  lemma GrantShape(p: Peer, req: RequestVoteReq)
    requires p.log != [] && HandleRequestVote(p, req).1.voteGranted
    ensures Granted(p, HandleRequestVote(p, req).0, req)
    ensures HandleRequestVote(p, req).1 == RequestVoteRes(req.term, true)
  {
  }

  /** Only a follower still has its vote to give. */
  lemma GranterFollows(c: Cluster, h: Hist, v: NodeID, req: RequestVoteReq, q: Peer)
    requires Shape(h) && BallotsCast(h) && LeadersElected(h)
    requires v in h.nodes && v in c.peers && PeerOk(c, v, h) && c.peers[v].log != [] && Granted(c.peers[v], q, req)
    ensures q.role == Follower && (v, req.term) !in h.ballots
  {
    var p := c.peers[v];
    if p.role == Candidate {
      assert VotedFor(h, v, p.currentTerm, v);
    } else if p.role == Leader {
      assert v in h.voters[p.currentTerm];
    }
  }

  lemma GrantPeer(c: Cluster, h: Hist, v: NodeID, req: RequestVoteReq, q: Peer, h': Hist)
    requires Shape(h) && BallotsCast(h) && v in h.nodes && v in c.peers && PeerOk(c, v, h) && c.peers[v].log != []
    requires Granted(c.peers[v], q, req) && (v, req.term) !in h.ballots
    requires h' == CastBallot(h, v, req.term, req.candidateID) && Shape(h') && Grows(h, h')
    ensures Linked(q, v, h') && CommitOk(q, v, h') && VotesRemembered(q, v, h')
  {
    hide Certified, Grows, CandidateOk, LeaderOk, MoreUpToDate;
    CommitCarries(c.peers[v], v, h, h');
  }

  /** The candidate that gets the vote: the voter's log is behind its own, and the vote is not
      counted before its reply arrives. */
  lemma CandidateGains(c: Cluster, h: Hist, v: NodeID, req: RequestVoteReq, c': Cluster, w: NodeID)
    requires Shape(h) && v in h.nodes && w in h.nodes && w != v && OnlyPeer(c, c', v) && c.peers.Keys == h.nodes
    requires Linked(c.peers[v], v, h) && CandidateOk(c, c.peers[w], w, h) && VoteRequestOk(c, h, req)
    requires c.peers[v].log != [] && !MoreUpToDate(c.peers[v].log, req.lastLogIndex, req.lastLogTerm)
    requires (v, req.term) !in h.ballots && Grows(h, CastBallot(h, v, req.term, req.candidateID))
    requires c'.voteReplies == c.voteReplies + {VoteReply(v, req.candidateID, RequestVoteRes(req.term, true))}
    ensures CandidateOk(c', c'.peers[w], w, CastBallot(h, v, req.term, req.candidateID))
  {
    var p, h' := c.peers[w], CastBallot(h, v, req.term, req.candidateID);
    if p.role == Candidate {
      var t := p.currentTerm;
      NotYetCounted(c, h, v, req, c', w, t);
      forall g | VotedFor(h', g, t, w)
        ensures var b := h'.ballots[(g, t)].log; b != [] && AtLeastAsUpToDate(p.log, b)
      {
        assert (g, t) != (v, req.term) ==> VotedFor(h, g, t, w);
      }
      assert VotedFor(h', w, t, w);
    }
  }

  lemma NotYetCounted(c: Cluster, h: Hist, v: NodeID, req: RequestVoteReq, c': Cluster, w: NodeID, t: nat)
    requires v in h.log && w != v && (v, req.term) !in h.ballots
    requires c'.voteReplies == c.voteReplies + {VoteReply(v, req.candidateID, RequestVoteRes(req.term, true))}
    ensures Counted(c', CastBallot(h, v, req.term, req.candidateID), w, t) == Counted(c, h, w, t)
  {
    var h' := CastBallot(h, v, req.term, req.candidateID);
    forall g: NodeID ensures g in Counted(c', h', w, t) <==> g in Counted(c, h, w, t) {
      assert g == v && t == req.term ==> g !in Counted(c', h', w, t) && g !in Counted(c, h, w, t);
    }
  }

  lemma GrantLog(p: Peer, q: Peer, req: RequestVoteReq)
    requires p.log != [] && Granted(p, q, req)
    ensures !MoreUpToDate(p.log, req.lastLogIndex, req.lastLogTerm)
  {
  }

  lemma GrantPeers(c: Cluster, h: Hist, v: NodeID, req: RequestVoteReq, q: Peer, c': Cluster)
    requires Shape(h) && BallotsCast(h) && PeersOk(c, h) && v in h.nodes && c.peers[v].log != []
    requires VoteRequestOk(c, h, req) && q.role == Follower && (v, req.term) !in h.ballots && v != req.candidateID
    requires Granted(c.peers[v], q, req)
    requires c'.peers == c.peers[v := q]
    requires c'.voteReplies == c.voteReplies + {VoteReply(v, req.candidateID, RequestVoteRes(req.term, true))}
    requires StepOf(h, CastBallot(h, v, req.term, req.candidateID), v)
    ensures PeersOk(c', CastBallot(h, v, req.term, req.candidateID))
  {
    hide Linked, CommitOk, VotesRemembered, CandidateOk, LeaderOk, VoteRequestOk, PeerOk;
    hide StepOf, Grows, Granted, BallotsCast;
    var h' := CastBallot(h, v, req.term, req.candidateID);
    assert PeerOk(c, v, h);
    StepShapes(h, h', v);
    GrantPeer(c, h, v, req, q, h');
    FollowerOk(c', v, h');
    GrantLog(c.peers[v], q, req);
    forall w | w in h'.nodes && w != v ensures PeerOk(c', w, h') {
      assert PeerOk(c, w, h);
      GrantOther(c, h, v, req, c', w);
    }
  }

  lemma GrantOther(c: Cluster, h: Hist, v: NodeID, req: RequestVoteReq, c': Cluster, w: NodeID)
    requires Shape(h) && c.peers.Keys == h.nodes && v in h.nodes && c.peers[v].log != [] && OnlyPeer(c, c', v)
    requires w in h.nodes && w != v && PeerOk(c, v, h) && PeerOk(c, w, h)
    requires VoteRequestOk(c, h, req) && (v, req.term) !in h.ballots
    requires !MoreUpToDate(c.peers[v].log, req.lastLogIndex, req.lastLogTerm)
    requires c'.voteReplies == c.voteReplies + {VoteReply(v, req.candidateID, RequestVoteRes(req.term, true))}
    requires StepOf(h, CastBallot(h, v, req.term, req.candidateID), v)
    ensures PeerOk(c', w, CastBallot(h, v, req.term, req.candidateID))
  {
    hide CommitOk, CandidateOk, LeaderOk;
    var h' := CastBallot(h, v, req.term, req.candidateID);
    CandidateGains(c, h, v, req, c', w);
    CommitCarries(c.peers[w], w, h, h');
    LeaderCarries(c.peers[w], w, h, h');
  }

  lemma VoteRequestIn(c: Cluster, h: Hist, req: RequestVoteReq)
    requires Shape(h) && c.peers.Keys == h.nodes && MessagesOk(c, h) && req in c.voteRequests
    ensures VoteRequestOk(c, h, req) && 0 < req.term && BallotsAsked(h)
  {
    hide VoteReplyOk, AppendRequestOk, AppendReplyOk, CallOk, BallotsAsked;
    assert VoteRequestOk(c, h, req);
  }

  lemma CanGrant(p: Peer, v: NodeID, h: Hist, req: RequestVoteReq, q: Peer)
    requires Shape(h) && v in h.nodes && Linked(p, v, h) && p.log != [] && Granted(p, q, req)
    ensures v in h.log && v in h.term && h.term[v] <= req.term
  {
  }

  lemma GrantBallots(c: Cluster, h: Hist, v: NodeID, req: RequestVoteReq, h': Hist)
    requires Shape(h) && c.peers.Keys == h.nodes && VoteRequestOk(c, h, req) && BallotsAsked(h) && v in h.log
    requires h' == CastBallot(h, v, req.term, req.candidateID) && Shape(h') && Grows(h, h')
    ensures BallotsAsked(h')
    ensures v != req.candidateID ==> VoteReplyOk(h', VoteReply(v, req.candidateID, RequestVoteRes(req.term, true)))
  {
    BallotsAskedCarries(h, h');
  }

  lemma GrantMessages(c: Cluster, h: Hist, v: NodeID, q: Peer, r: VoteReply, c': Cluster, h': Hist)
    requires StepOf(h, h', v) && v in c.peers && c.peers.Keys == h.nodes && MessagesOk(c, h) && BallotsAsked(h')
    requires q.role == Follower && VoteReplyOk(h', r)
    requires c' == SetPeer(c, v, q).(voteReplies := c.voteReplies + {r})
    ensures c'.peers.Keys == h'.nodes && MessagesOk(c', h')
  {
    hide StepOf, MessagesOk, BallotsAsked, VoteReplyOk;
    StepShapes(h, h', v);
    VoteReplyMessages(c, h, v, r, c', h');
  }

  lemma GrantKeeps(c: Cluster, h: Hist, v: NodeID, req: RequestVoteReq, q: Peer, c': Cluster)
    requires Good(c, h) && v in h.nodes && v in c.peers && c.peers[v].log != []
    requires req in c.voteRequests && v != req.candidateID
    requires Granted(c.peers[v], q, req)
    requires c' == SetPeer(c, v, q).(
      voteReplies := c.voteReplies + {VoteReply(v, req.candidateID, RequestVoteRes(req.term, true))})
    ensures v in h.log && var h' := CastBallot(h, v, req.term, req.candidateID); Good(c', h') && Advances(h, h')
  {
    hide Good, Inv, PeersOk, PeerOk, MessagesOk, Linked, CommitOk, VotesRemembered, CandidateOk, LeaderOk;
    hide BallotsCast, LeadersElected, Grows, StepOf, Advances;
    hide BallotsAsked, VoteRequestOk, VoteReplyOk, Granted;
    GoodAt(c, h, v);
    VoteRequestIn(c, h, req);
    CanGrant(c.peers[v], v, h, req, q);
    GranterFollows(c, h, v, req, q);
    CastStep(h, v, req.term, req.candidateID);
    var h' := CastBallot(h, v, req.term, req.candidateID);
    hide CastBallot;
    StepShapes(h, h', v);
    GrantPeers(c, h, v, req, q, c');
    GrantBallots(c, h, v, req, h');
    GrantMessages(c, h, v, q, VoteReply(v, req.candidateID, RequestVoteRes(req.term, true)), c', h');
    MakeGood(c', h');
  }

  lemma ReceiveVoteRequestKeeps(c: Cluster, h: Hist, v: NodeID, req: RequestVoteReq)
    requires Good(c, h) && Enabled(c, ReceiveVoteRequest(v, req))
    ensures Keeps(c, h, ReceiveVoteRequest(v, req))
  {
    hide Inv, PeerOk, MessagesOk;
    var c' := Next(c, ReceiveVoteRequest(v, req));
    if HandleRequestVote(c.peers[v], req).1.voteGranted {
      GrantShape(c.peers[v], req);
      GrantKeeps(c, h, v, req, HandleRequestVote(c.peers[v], req).0, c');
    } else {
      RefuseKeeps(c, h, v, req, c');
    }
  }

  // ----- counting votes

  lemma CountedGains(c: Cluster, h: Hist, p: NodeID, t: nat, r: VoteReply, c': Cluster)
    requires r in c.voteReplies && r.candidate == p && r.res == RequestVoteRes(t, true) && VoteReplyOk(h, r)
    requires c'.voteReplies == c.voteReplies - {r}
    ensures Counted(c', h, p, t) == Counted(c, h, p, t) + {r.voter}
    ensures r.voter !in Counted(c, h, p, t)
  {
  }

  lemma CountedSame(c: Cluster, h: Hist, p: NodeID, t: nat, r: VoteReply, c': Cluster)
    requires c'.voteReplies == c.voteReplies - {r} && (r.candidate != p || r.res != RequestVoteRes(t, true))
    ensures Counted(c', h, p, t) == Counted(c, h, p, t)
  {
  }

  /** The steps that consume a vote reply and send nothing. */
  lemma VoteReplyKeeps(c: Cluster, h: Hist, r: VoteReply, q: Peer, c': Cluster)
    requires Good(c, h) && r.candidate in h.nodes && r.candidate in c.peers
    requires c' == SetPeer(c, r.candidate, q).(voteReplies := c.voteReplies - {r})
    requires PeerOk(c', r.candidate, h)
    requires SameCandidacy(c.peers[r.candidate], q) && SameLeadership(c.peers[r.candidate], q)
    ensures Good(c', h) && Advances(h, h)
  {
    hide LogsTraced, Ordered, TermsBound, BallotsCast, LeadersElected, AcksGiven, AcksKept, LeadersKeep, PeerOk;
    StayStep(h, r.candidate);
    OtherPeers(c, c', h, h, r.candidate);
    QuietMessages(c, c', h, h, r.candidate);
  }

  lemma RespondKeepsBasics(p: Peer, v: NodeID, h: Hist, res: RequestVoteRes)
    requires Shape(h) && BallotsCast(h) && v in h.nodes
    requires Linked(p, v, h) && CommitOk(p, v, h) && VotesRemembered(p, v, h)
    requires p.role == Candidate ==> h.term[v] == p.currentTerm
    ensures var q := HandleRequestVoteRespond(p, res);
      Linked(q, v, h) && CommitOk(q, v, h) && VotesRemembered(q, v, h)
  {
    hide Certified;
  }

  lemma LeaderIgnores(p: Peer, v: NodeID, h: Hist, res: RequestVoteRes)
    requires Shape(h) && v in h.nodes && p.role == Leader && LeaderOk(p, v, h)
    ensures LeaderOk(HandleRequestVoteRespond(p, res), v, h)
  {
    hide TargetOk, ChannelOk;
  }

  lemma RespondCounts(p: Peer, res: RequestVoteRes)
    requires p.role == Candidate
    ensures var q := HandleRequestVoteRespond(p, res);
      q.role == Candidate ==>
        && q.currentTerm == p.currentTerm && q.log == p.log
        && q.voteCount == if res == RequestVoteRes(p.currentTerm, true) then p.voteCount + 1 else p.voteCount
  {
  }

  lemma StillCandidate(c: Cluster, p: Peer, c': Cluster, q: Peer, v: NodeID, h: Hist)
    requires Shape(h) && v in h.nodes && CandidateOk(c, p, v, h) && p.role == q.role == Candidate
    requires q.currentTerm == p.currentTerm && q.log == p.log && q.voteCount == |Counted(c', h, v, p.currentTerm)|
    ensures CandidateOk(c', q, v, h)
  {
    hide Counted;
  }

  lemma CandidateCounts(c: Cluster, h: Hist, r: VoteReply, c': Cluster)
    requires Shape(h) && r in c.voteReplies && VoteReplyOk(h, r) && r.candidate in h.nodes && r.candidate in c.peers
    requires CandidateOk(c, c.peers[r.candidate], r.candidate, h) && c.peers[r.candidate].role == Candidate
    requires c'.peers == c.peers[r.candidate := HandleRequestVoteRespond(c.peers[r.candidate], r.res)]
    requires c'.voteReplies == c.voteReplies - {r} && c'.peers[r.candidate].role == Candidate
    ensures CandidateOk(c', c'.peers[r.candidate], r.candidate, h)
  {
    var p := c.peers[r.candidate];
    var t := p.currentTerm;
    RespondCounts(p, r.res);
    if r.res == RequestVoteRes(t, true) {
      CountedGains(c, h, r.candidate, t, r, c');
    } else {
      CountedSame(c, h, r.candidate, t, r, c');
    }
    assert p.voteCount == |Counted(c, h, r.candidate, t)|;
    hide CandidateOk, Counted, HandleRequestVoteRespond;
    StillCandidate(c, p, c', c'.peers[r.candidate], r.candidate, h);
  }

  lemma CountPeer(c: Cluster, h: Hist, r: VoteReply, c': Cluster)
    requires Shape(h) && BallotsCast(h) && r in c.voteReplies && VoteReplyOk(h, r)
    requires r.candidate in h.nodes && r.candidate in c.peers && PeerOk(c, r.candidate, h)
    requires c'.peers == c.peers[r.candidate := HandleRequestVoteRespond(c.peers[r.candidate], r.res)]
    requires c'.voteReplies == c.voteReplies - {r}
    requires c.peers[r.candidate].role == Leader || c'.peers[r.candidate].role != Leader
    ensures PeerOk(c', r.candidate, h)
  {
    hide Certified, TargetOk, ChannelOk;
    var v := r.candidate;
    var p, q := c.peers[v], c'.peers[v];
    RespondKeepsBasics(p, v, h, r.res);
    if p.role == Candidate && q.role == Candidate {
      CandidateCounts(c, h, r, c');
    } else if p.role == Leader {
      LeaderIgnores(p, v, h, r.res);
    }
  }

  /** Whoever a majority voted for in a term with a leader is that leader. */
  lemma MajorityLeads(h: Hist, q: set<NodeID>, t: nat, v: NodeID)
    requires Shape(h) && LeadersElected(h) && t in h.leader
    requires Majority(h.nodes, q) && forall g | g in q :: VotedFor(h, g, t, v)
    ensures h.leader[t] == v
  {
    var g := Overlap(h.nodes, q, h.voters[t]);
    assert VotedFor(h, g, t, v);
  }

  predicate Wins(p: Peer, res: RequestVoteRes) {
    p.role == Candidate && res == RequestVoteRes(p.currentTerm, true) && p.voteCount + 1 > p.TotalPeers() / 2
  }

  lemma Winning(p: Peer, res: RequestVoteRes)
    ensures Wins(p, res) <==> p.role == Candidate && HandleRequestVoteRespond(p, res).role == Leader
    ensures Wins(p, res) ==> HandleRequestVoteRespond(p, res) == Save(BecomeLeader(p.(voteCount := p.voteCount + 1)))
  {
  }

  /** The bare counter is enough: a majority of distinct voters, in a term without a leader. */
  lemma WinnerElectable(c: Cluster, h: Hist, r: VoteReply, c': Cluster)
    requires Shape(h) && BallotsCast(h) && LeadersElected(h)
    requires r in c.voteReplies && VoteReplyOk(h, r)
    requires r.candidate in h.nodes && r.candidate in c.peers && PeerOk(c, r.candidate, h)
    requires Wins(c.peers[r.candidate], r.res) && c'.voteReplies == c.voteReplies - {r}
    ensures var t := c.peers[r.candidate].currentTerm;
      CanElect(h, r.candidate, t, Counted(c', h, r.candidate, t))
  {
    var v, p := r.candidate, c.peers[r.candidate];
    var t := p.currentTerm;
    var q := Counted(c', h, v, t);
    CountedGains(c, h, v, t, r, c');
    assert |h.nodes - {v}| == |h.nodes| - 1;
    assert Majority(h.nodes, q);
    if t in h.leader {
      MajorityLeads(h, q, t, v);
    }
  }

  lemma CandidateHolds(c: Cluster, v: NodeID, h: Hist)
    requires Shape(h) && v in h.nodes && v in c.peers && PeerOk(c, v, h) && c.peers[v].role == Candidate
    ensures h.term[v] == c.peers[v].currentTerm && c.peers[v].log != []
  {
  }

  lemma LeaderBegins(c: Cluster, h: Hist, v: NodeID, q: set<NodeID>, c': Cluster)
    requires Shape(h) && v in h.nodes && v in c.peers && PeerOk(c, v, h) && c.peers[v].role == Candidate
    requires CanElect(h, v, c.peers[v].currentTerm, q)
    requires c'.peers == c.peers[v := Save(BecomeLeader(c.peers[v].(voteCount := c.peers[v].voteCount + 1)))]
    requires var h' := Elect(h, v, c.peers[v].currentTerm, q); Shape(h') && Grows(h, h')
    ensures PeerOk(c', v, Elect(h, v, c.peers[v].currentTerm, q))
  {
    hide Certified, Grows, ChannelOk;
    var h' := Elect(h, v, c.peers[v].currentTerm, q);
    CandidateHolds(c, v, h);
    CommitCarries(c.peers[v], v, h, h');
    forall t | t in c'.peers[v].others ensures TargetOk(c'.peers[v], t, h') {
    }
  }

  lemma ElectMessages(c: Cluster, c': Cluster, h: Hist, h': Hist, v: NodeID)
    requires StepOf(h, h', v) && OnlyPeer(c, c', v) && c.peers.Keys == h.nodes && MessagesOk(c, h)
    requires c'.peers[v].role == Leader && c'.peers[v].currentTerm !in h.leader && h'.ballots == h.ballots
    requires c' == c.(peers := c'.peers, voteReplies := c'.voteReplies) && c'.voteReplies <= c.voteReplies
    ensures MessagesOk(c', h')
  {
    hide VoteRequestOk, VoteReplyOk, AppendRequestOk, AppendReplyOk, CallOk, BallotsAsked;
    BallotsAskedCarries(h, h');
    VoteMessagesCarry(c, c', h, h', v);
    AppendMessagesCarry(c, h, h');
    ElectCalls(c, c', h, h', v);
  }

  lemma ElectCalls(c: Cluster, c': Cluster, h: Hist, h': Hist, v: NodeID)
    requires Shape(h) && c.peers.Keys == h.nodes && MessagesOk(c, h)
    requires OnlyPeer(c, c', v) && Grows(h, h') && c'.calls == c.calls && c'.peers[v].currentTerm !in h.leader
    ensures forall p, t | (p, t) in c'.calls :: CallOk(c', h', p, t, c'.calls[(p, t)])
  {
    hide CallOk;
    forall p, t | (p, t) in c'.calls ensures CallOk(c', h', p, t, c'.calls[(p, t)]) {
      assert CallOk(c, h, p, t, c.calls[(p, t)]);
      ElectCall(c, c', h, h', v, p, t);
    }
  }

  /** A new leader has called nobody in its term. */
  lemma ElectCall(c: Cluster, c': Cluster, h: Hist, h': Hist, v: NodeID, p: NodeID, t: NodeID)
    requires OnlyPeer(c, c', v) && Grows(h, h') && c'.calls == c.calls && (p, t) in c.calls
    requires c'.peers[v].currentTerm !in h.leader && CallOk(c, h, p, t, c.calls[(p, t)])
    ensures CallOk(c', h', p, t, c'.calls[(p, t)])
  {
    AppendRequestCarries(h, h', c.calls[(p, t)]);
  }

  lemma WinnerOk(c: Cluster, h: Hist, r: VoteReply, q: set<NodeID>, c': Cluster, h': Hist)
    requires Shape(h) && r.candidate in h.nodes && r.candidate in c.peers && PeerOk(c, r.candidate, h)
    requires Wins(c.peers[r.candidate], r.res)
    requires c'.peers == c.peers[r.candidate := HandleRequestVoteRespond(c.peers[r.candidate], r.res)]
    requires CanElect(h, r.candidate, c.peers[r.candidate].currentTerm, q)
    requires h' == Elect(h, r.candidate, c.peers[r.candidate].currentTerm, q) && StepOf(h, h', r.candidate)
    ensures PeerOk(c', r.candidate, h')
    ensures c'.peers[r.candidate].role == Leader
    ensures c'.peers[r.candidate].currentTerm == c.peers[r.candidate].currentTerm
  {
    hide PeerOk, CanElect, HandleRequestVoteRespond, Elect, StepOf, Grows;
    Winning(c.peers[r.candidate], r.res);
    StepShapes(h, h', r.candidate);
    LeaderBegins(c, h, r.candidate, q, c');
  }

  lemma WinPeers(c: Cluster, h: Hist, r: VoteReply, c': Cluster, h': Hist)
    requires Shape(h) && PeersOk(c, h) && r.candidate in h.nodes && StepOf(h, h', r.candidate)
    requires OnlyPeer(c, c', r.candidate) && r.candidate in h'.nodes && PeerOk(c', r.candidate, h')
    requires c'.voteReplies == c.voteReplies - {r} && h'.ballots == h.ballots
    ensures PeersOk(c', h')
  {
    hide PeerOk, StepOf, OnlyPeer;
    OtherPeers(c, c', h, h', r.candidate);
  }

  lemma WinHistory(c: Cluster, h: Hist, r: VoteReply, q: set<NodeID>, c': Cluster)
    requires Inv(h) && r in c.voteReplies && VoteReplyOk(h, r)
    requires r.candidate in h.nodes && r.candidate in c.peers && PeerOk(c, r.candidate, h)
    requires Wins(c.peers[r.candidate], r.res)
    requires c'.voteReplies == c.voteReplies - {r} && q == Counted(c', h, r.candidate, c.peers[r.candidate].currentTerm)
    ensures var t := c.peers[r.candidate].currentTerm;
      CanElect(h, r.candidate, t, q) && t !in h.leader && StepOf(h, Elect(h, r.candidate, t, q), r.candidate)
      && Inv(Elect(h, r.candidate, t, q))
  {
    hide LogsTraced, Ordered, TermsBound, AcksGiven, AcksKept, LeadersKeep, PeerOk, StepOf;
    WinnerElectable(c, h, r, c');
    ElectStep(h, r.candidate, c.peers[r.candidate].currentTerm, q);
  }

  lemma WinKeeps(c: Cluster, h: Hist, r: VoteReply, q: set<NodeID>, c': Cluster)
    requires Good(c, h) && r in c.voteReplies && r.candidate in c.peers && Wins(c.peers[r.candidate], r.res)
    requires c' == SetPeer(c, r.candidate, HandleRequestVoteRespond(c.peers[r.candidate], r.res)).(
      voteReplies := c.voteReplies - {r})
    requires q == Counted(c', h, r.candidate, c.peers[r.candidate].currentTerm)
    ensures var h' := Elect(h, r.candidate, c.peers[r.candidate].currentTerm, q); Good(c', h') && Advances(h, h')
  {
    hide LogsTraced, Ordered, TermsBound, BallotsCast, AcksGiven, AcksKept, LeadersKeep, LeadersElected, PeerOk, Wins;
    hide VoteReplyOk, CallOk, AppendRequestOk, AppendReplyOk, VoteRequestOk, BallotsAsked, HandleRequestVoteRespond;
    hide StepOf, CanElect, Counted, Advances, Grows;
    var v := r.candidate;
    assert PeerOk(c, v, h) && VoteReplyOk(h, r);
    WinHistory(c, h, r, q, c');
    var h' := Elect(h, v, c.peers[v].currentTerm, q);
    WinnerOk(c, h, r, q, c', h');
    StepShapes(h, h', v);
    WinPeers(c, h, r, c', h');
    ElectMessages(c, c', h, h', v);
  }

  lemma VoteReplyShape(c: Cluster, r: VoteReply)
    requires Enabled(c, ReceiveVoteReply(r))
    ensures r in c.voteReplies && r.candidate in c.peers
    ensures Next(c, ReceiveVoteReply(r)) ==
      SetPeer(c, r.candidate, HandleRequestVoteRespond(c.peers[r.candidate], r.res)).(
        voteReplies := c.voteReplies - {r})
  {
    hide HandleRequestVoteRespond;
  }

  lemma VoteReplyIn(c: Cluster, h: Hist, r: VoteReply)
    requires Shape(h) && c.peers.Keys == h.nodes && MessagesOk(c, h) && r in c.voteReplies
    ensures VoteReplyOk(h, r)
  {
    hide VoteRequestOk, AppendRequestOk, AppendReplyOk, CallOk, BallotsAsked;
  }

  lemma RespondQuiet(p: Peer, res: RequestVoteRes)
    requires !Wins(p, res)
    ensures var q := HandleRequestVoteRespond(p, res); SameCandidacy(p, q) && SameLeadership(p, q)
    ensures var q := HandleRequestVoteRespond(p, res); p.role == Leader || q.role != Leader
  {
  }

  lemma ReceiveVoteReplyKeeps(c: Cluster, h: Hist, r: VoteReply)
    requires Good(c, h) && Enabled(c, ReceiveVoteReply(r))
    ensures Keeps(c, h, ReceiveVoteReply(r))
  {
    hide Good, Inv, PeersOk, PeerOk, MessagesOk, Linked, CommitOk, VotesRemembered, CandidateOk, LeaderOk, VoteReplyOk;
    hide Advances, Wins, Enabled, Next, HandleRequestVoteRespond;
    VoteReplyShape(c, r);
    var c' := Next(c, ReceiveVoteReply(r));
    var p := c.peers[r.candidate];
    GoodAt(c, h, r.candidate);
    VoteReplyIn(c, h, r);
    Winning(p, r.res);
    if Wins(p, r.res) {
      WinKeeps(c, h, r, Counted(c', h, r.candidate, p.currentTerm), c');
    } else {
      RespondQuiet(p, r.res);
      CountPeer(c, h, r, c');
      VoteReplyKeeps(c, h, r, c'.peers[r.candidate], c');
    }
  }
}
