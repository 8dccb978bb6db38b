/** What a step of one peer leaves alone: the other peers and the messages already sent. */
module ClusterFrames {
  import opened Wrappers
  import Ledger
  import opened Messages
  import opened PeerModel
  import opened Cluster
  import opened H = History
  import opened HistorySteps
  import opened ClusterInv

  /** The history moved by a step of node v. */
  ghost predicate StepOf(h: Hist, h': Hist, v: NodeID) {
    && Shape(h) && Shape(h') && Extends(h, h') && Fresh(h, h')
    && (forall w | w in h.nodes && w != v :: h'.log[w] == h.log[w] && h'.term[w] == h.term[w])
    && (forall w, t | (w, t) in h'.ballots && w != v :: (w, t) in h.ballots)
    && (forall t | t in h.leader && h.leader[t] != v :: h'.leaderLog[t] == h.leaderLog[t])
    && (forall t | t in h'.leader && t !in h.leader :: h'.leader[t] == v)
  }

  lemma StepShapes(h: Hist, h': Hist, v: NodeID)
    requires StepOf(h, h', v)
    ensures Shape(h) && Shape(h') && h.nodes == h'.nodes && Grows(h, h') && Advances(h, h')
  {
  }

  ghost predicate OnlyPeer(c: Cluster, c': Cluster, v: NodeID) {
    && v in c.peers && c'.peers.Keys == c.peers.Keys
    && forall w | w in c.peers && w != v :: c'.peers[w] == c.peers[w]
  }

  /** The environment is free: a peer may crash at any time, time out unless it leads, and be asked for a
      command if it leads. */
  lemma MayHappen(c: Cluster, p: NodeID, cmd: Option<Ledger.Action>)
    requires LogsNotEmpty(c) && p in c.peers
    ensures Enabled(c, Crash(p))
    ensures Enabled(c, Timeout(p)) <==> c.peers[p].role != Leader
    ensures Enabled(c, ClientRequest(p, cmd)) <==> c.peers[p].role == Leader
  {
    assert c.peers[p].log != [];
    hide LogsNotEmpty;
  }

  /** Every message in flight may arrive, a request at any peer but its sender; one to append may also
      find the peer dying between its two saves. */
  lemma MayArrive(c: Cluster, v: NodeID, m: RequestVoteReq, reply: VoteReply, req: AppendEntriesReq)
    requires LogsNotEmpty(c) && v in c.peers
    ensures m in c.voteRequests && m.candidateID != v ==> Enabled(c, ReceiveVoteRequest(v, m))
    ensures reply in c.voteReplies && reply.candidate == v ==> Enabled(c, ReceiveVoteReply(reply))
    ensures req in c.appendRequests && req.leaderID != v ==> Enabled(c, ReceiveAppend(v, req))
    ensures req in c.appendRequests && req.leaderID != v && req.term >= c.peers[v].currentTerm ==>
      Enabled(c, CrashInAppend(v, req))
  {
    assert c.peers[v].log != [];
    hide LogsNotEmpty;
  }

  /** A step is one peer's: the others do not change. */
  lemma OnlyActorSteps(c: Cluster, e: Event, v: NodeID)
    requires Enabled(c, e) && v in c.peers
    ensures v in Next(c, e).peers
    ensures v == Actor(e) ==> CanStep(c.peers[v], e)
    ensures Next(c, e).peers[v] == if v == Actor(e) then StepPeer(c.peers[v], e) else c.peers[v]
  {
    hide CanStep, StepPeer, HandleRequestVote, HandleAppendEntries;
  }

  lemma CommitCarries(p: Peer, w: NodeID, h: Hist, h': Hist)
    requires Shape(h) && Shape(h') && Grows(h, h') && w in h.nodes
    requires CommitOk(p, w, h)
    ensures CommitOk(p, w, h')
  {
    CertifiedStable(h, h', p.log[..p.commitIndex + 1], h.term[w], h'.term[w]);
  }

  lemma ChannelCarries(p: Peer, i: int, h: Hist, h': Hist)
    requires Grows(h, h') && i in p.channels && ChannelOk(p, i, h)
    ensures ChannelOk(p, i, h')
  {
    forall t | t in p.channels[i]
      ensures t in h'.nodes && Acked(h', t, p.currentTerm, i)
    {
      assert Acked(h, t, p.currentTerm, i);
    }
  }

  lemma LeaderCarries(p: Peer, w: NodeID, h: Hist, h': Hist)
    requires Shape(h) && Shape(h') && Grows(h, h') && w in h.nodes && LeaderOk(p, w, h)
    requires h'.term[w] == h.term[w]
    requires p.currentTerm in h.leader && h.leader[p.currentTerm] == w ==>
      h'.leaderLog[p.currentTerm] == h.leaderLog[p.currentTerm]
    ensures LeaderOk(p, w, h')
  {
    if p.role == Leader {
      forall t | t in p.others
        ensures TargetOk(p, t, h')
      {
        assert TargetOk(p, t, h);
      }
      forall i | i in p.channels
        ensures ChannelOk(p, i, h')
      {
        ChannelCarries(p, i, h, h');
      }
    }
  }

  // ----- candidates

  /** Nothing about the votes for anyone but v changes. */
  ghost predicate SameVotesForOthers(c: Cluster, c': Cluster, h: Hist, h': Hist, v: NodeID) {
    && (forall b | b in h'.ballots && b !in h.ballots :: h'.ballots[b].candidate == v)
    && (forall r | r in c'.voteReplies && r !in c.voteReplies :: r.candidate == v)
    && (forall r | r in c.voteReplies && r !in c'.voteReplies :: r.candidate == v)
  }

  lemma CountedCarries(c: Cluster, c': Cluster, h: Hist, h': Hist, v: NodeID, w: NodeID, t: nat)
    requires Grows(h, h') && SameVotesForOthers(c, c', h, h', v) && w != v
    ensures Counted(c', h', w, t) == Counted(c, h, w, t)
    ensures forall g :: VotedFor(h', g, t, w) <==> VotedFor(h, g, t, w)
  {
    forall g: NodeID
      ensures VotedFor(h', g, t, w) <==> VotedFor(h, g, t, w)
    {
      assert (g, t) in h.ballots ==> h'.ballots[(g, t)] == h.ballots[(g, t)];
    }
    var yes := (g: NodeID) => VoteReply(g, w, RequestVoteRes(t, true));
    assert forall g :: yes(g) in c'.voteReplies <==> yes(g) in c.voteReplies;
    forall g: NodeID
      ensures g in Counted(c', h', w, t) <==> g in Counted(c, h, w, t)
    {
      assert yes(g) in c'.voteReplies <==> yes(g) in c.voteReplies;
    }
  }

  lemma CandidateCarries(c: Cluster, c': Cluster, h: Hist, h': Hist, v: NodeID, w: NodeID)
    requires StepOf(h, h', v) && SameVotesForOthers(c, c', h, h', v) && OnlyPeer(c, c', v)
    requires w in h.nodes && w in c.peers && w != v && CandidateOk(c, c.peers[w], w, h)
    ensures CandidateOk(c', c'.peers[w], w, h')
  {
    var p := c.peers[w];
    if p.role == Candidate {
      var t := p.currentTerm;
      CountedCarries(c, c', h, h', v, w, t);
      forall g | VotedFor(h', g, t, w)
        ensures var b := h'.ballots[(g, t)].log; b != [] && AtLeastAsUpToDate(p.log, b)
      {
        assert VotedFor(h, g, t, w);
      }
      assert VotedFor(h', w, t, w);
    }
  }

  lemma OtherPeer(c: Cluster, c': Cluster, h: Hist, h': Hist, v: NodeID, w: NodeID)
    requires StepOf(h, h', v) && OnlyPeer(c, c', v) && SameVotesForOthers(c, c', h, h', v)
    requires w != v && w in h.nodes && w in c.peers && PeerOk(c, w, h)
    ensures PeerOk(c', w, h')
  {
    CandidateCarries(c, c', h, h', v, w);
    CommitCarries(c.peers[w], w, h, h');
    LeaderCarries(c.peers[w], w, h, h');
  }

  /** All peers are in order after a step if the one that moved is and nobody else's votes changed. */
  lemma OtherPeers(c: Cluster, c': Cluster, h: Hist, h': Hist, v: NodeID)
    requires StepOf(h, h', v) && PeersOk(c, h) && OnlyPeer(c, c', v) && SameVotesForOthers(c, c', h, h', v)
    requires v in h'.nodes && PeerOk(c', v, h')
    ensures PeersOk(c', h')
  {
    forall w | w in h'.nodes && w != v
      ensures PeerOk(c', w, h')
    {
      assert PeerOk(c, w, h);
      OtherPeer(c, c', h, h', v, w);
    }
  }

  // ----- messages

  lemma AppendRequestCarries(h: Hist, h': Hist, m: AppendEntriesReq)
    requires Grows(h, h') && AppendRequestOk(h, m)
    ensures AppendRequestOk(h', m)
  {
    var l, l' := h.leaderLog[m.term], h'.leaderLog[m.term];
    assert l <= l';
    assert l[m.prevLogIndex + 1..m.End() + 1] == l'[m.prevLogIndex + 1..m.End() + 1];
    assert l[..m.leaderCommit + 1] == l'[..m.leaderCommit + 1];
    CertifiedStable(h, h', l[..m.leaderCommit + 1], m.term, m.term);
  }

  /** The peer's candidacy, if it has one after the step, is the one it had. */
  ghost predicate SameCandidacy(p: Peer, p': Peer) {
    p'.role == Candidate ==> p.role == Candidate && p'.currentTerm == p.currentTerm && p'.log == p.log
  }

  lemma VoteRequestCarries(c: Cluster, c': Cluster, h: Hist, h': Hist, v: NodeID, m: RequestVoteReq)
    requires Shape(h) && Shape(h') && Grows(h, h') && OnlyPeer(c, c', v) && c.peers.Keys == h.nodes
    requires SameCandidacy(c.peers[v], c'.peers[v]) && VoteRequestOk(c, h, m)
    ensures VoteRequestOk(c', h', m)
  {
  }

  lemma VoteMessagesCarry(c: Cluster, c': Cluster, h: Hist, h': Hist, v: NodeID)
    requires Shape(h) && Shape(h') && Grows(h, h') && OnlyPeer(c, c', v) && c.peers.Keys == h.nodes && MessagesOk(c, h)
    requires SameCandidacy(c.peers[v], c'.peers[v])
    ensures forall m | m in c.voteRequests :: VoteRequestOk(c', h', m)
    ensures forall r | r in c.voteReplies :: VoteReplyOk(h', r)
  {
    forall m | m in c.voteRequests
      ensures VoteRequestOk(c', h', m)
    {
      assert VoteRequestOk(c, h, m);
      VoteRequestCarries(c, c', h, h', v, m);
    }
    forall r | r in c.voteReplies
      ensures VoteReplyOk(h', r)
    {
      assert VoteReplyOk(h, r);
    }
  }

  lemma AppendMessagesCarry(c: Cluster, h: Hist, h': Hist)
    requires Shape(h) && Shape(h') && Grows(h, h') && c.peers.Keys == h.nodes && MessagesOk(c, h)
    ensures forall m | m in c.appendRequests :: AppendRequestOk(h', m)
    ensures forall r | r in c.appendReplies :: AppendReplyOk(h', r)
  {
    forall m | m in c.appendRequests
      ensures AppendRequestOk(h', m)
    {
      assert AppendRequestOk(h, m);
      AppendRequestCarries(h, h', m);
    }
    forall r | r in c.appendReplies
      ensures AppendReplyOk(h', r)
    {
      assert AppendReplyOk(h, r);
      AppendRequestCarries(h, h', r.req);
    }
  }

  /** The peer's leadership, if it has one after the step, is the one it had. */
  ghost predicate SameLeadership(p: Peer, p': Peer) {
    p'.role == Leader ==>
      && p.role == Leader && p'.currentTerm == p.currentTerm
      && p'.matchIndex == p.matchIndex && p'.nextIndex == p.nextIndex
  }

  lemma CallCarries(c: Cluster, c': Cluster, h: Hist, h': Hist, v: NodeID, p: NodeID, t: NodeID, m: AppendEntriesReq)
    requires Grows(h, h') && OnlyPeer(c, c', v) && SameLeadership(c.peers[v], c'.peers[v]) && CallOk(c, h, p, t, m)
    ensures CallOk(c', h', p, t, m)
  {
    AppendRequestCarries(h, h', m);
  }

  lemma CallsCarry(c: Cluster, c': Cluster, h: Hist, h': Hist, v: NodeID)
    requires Shape(h) && Shape(h') && Grows(h, h') && c.peers.Keys == h.nodes && MessagesOk(c, h)
    requires OnlyPeer(c, c', v) && SameLeadership(c.peers[v], c'.peers[v])
    ensures forall p, t | (p, t) in c.calls :: CallOk(c', h', p, t, c.calls[(p, t)])
  {
    forall p, t | (p, t) in c.calls
      ensures CallOk(c', h', p, t, c.calls[(p, t)])
    {
      assert CallOk(c, h, p, t, c.calls[(p, t)]);
      CallCarries(c, c', h, h', v, p, t, c.calls[(p, t)]);
    }
  }

  lemma BallotsAskedCarries(h: Hist, h': Hist)
    requires Shape(h) && Shape(h') && Grows(h, h') && BallotsAsked(h)
    requires forall b | b in h'.ballots && b !in h.ballots ::
      var v := h'.ballots[b].candidate; v in h'.nodes && b.1 <= h'.term[v]
    ensures BallotsAsked(h')
  {
    forall g, t | (g, t) in h'.ballots
      ensures var v := h'.ballots[(g, t)].candidate; v in h'.nodes && t <= h'.term[v]
    {
      if (g, t) in h.ballots {
        assert h'.ballots[(g, t)] == h.ballots[(g, t)];
      }
    }
  }

  // ----- the five steps of a history, as steps of one node

  lemma InvShape(h: Hist)
    requires Inv(h)
    ensures Shape(h) && LogsTraced(h) && BallotsCast(h) && LeadersElected(h) && AcksGiven(h) && LeadersKeep(h)
  {
  }

  lemma PeerParts(c: Cluster, v: NodeID, h: Hist)
    requires Shape(h) && v in h.nodes && v in c.peers && PeerOk(c, v, h)
    ensures var p := c.peers[v];
      Linked(p, v, h) && CommitOk(p, v, h) && VotesRemembered(p, v, h) && CandidateOk(c, p, v, h) && LeaderOk(p, v, h)
  {
  }

  lemma StayStep(h: Hist, v: NodeID)
    requires Shape(h)
    ensures StepOf(h, h, v)
  {
  }

  lemma RaiseStep(h: Hist, v: NodeID, t: nat)
    requires Inv(h) && CanRaise(h, v, t)
    ensures StepOf(h, RaiseTerm(h, v, t), v) && Inv(RaiseTerm(h, v, t))
  {
    RaiseTermInv(h, v, t);
  }

  lemma CastStep(h: Hist, v: NodeID, t: nat, candidate: NodeID)
    requires Inv(h) && CanCast(h, v, t)
    ensures StepOf(h, CastBallot(h, v, t, candidate), v) && Inv(CastBallot(h, v, t, candidate))
  {
    CastBallotInv(h, v, t, candidate);
  }

  lemma ElectStep(h: Hist, p: NodeID, t: nat, q: set<NodeID>)
    requires Inv(h) && CanElect(h, p, t, q)
    ensures StepOf(h, Elect(h, p, t, q), p) && Inv(Elect(h, p, t, q))
  {
    ElectInv(h, p, t, q);
  }

  lemma AppendTouches(h: Hist, p: NodeID, t: nat, e: LogEntry)
    requires Shape(h) && H.CanAppend(h, p, t, e)
    ensures var h' := H.Append(h, p, t, e);
      && h'.nodes == h.nodes && h'.term == h.term && h'.ballots == h.ballots && h'.leader == h.leader
      && (forall w | w in h.nodes && w != p :: h'.log[w] == h.log[w])
      && (forall u | u in h.leader && h.leader[u] != p :: h'.leaderLog[u] == h.leaderLog[u])
  {
  }

  lemma AppendStep(h: Hist, p: NodeID, t: nat, e: LogEntry)
    requires Inv(h) && H.CanAppend(h, p, t, e)
    ensures StepOf(h, H.Append(h, p, t, e), p) && Inv(H.Append(h, p, t, e))
  {
    hide Inv, Extends, Fresh;
    InvShape(h);
    AppendInv(h, p, t, e);
    InvShape(H.Append(h, p, t, e));
    AppendFresh(h, p, t, e);
    AppendTouches(h, p, t, e);
    hide H.Append, H.CanAppend, LogsTraced, BallotsCast, LeadersElected, AcksGiven, LeadersKeep;
  }

  lemma AcceptStep(h: Hist, v: NodeID, t: nat, k: nat, log: seq<LogEntry>)
    requires Inv(h) && CanAccept(h, v, t, k, log)
    ensures StepOf(h, Accept(h, v, t, k, log), v) && Inv(Accept(h, v, t, k, log))
  {
    hide Inv, Extends, Fresh;
    InvShape(h);
    AcceptInv(h, v, t, k, log);
    InvShape(Accept(h, v, t, k, log));
    AcceptFresh(h, v, t, k, log);
  }

  // ----- steps that leave most things alone

  lemma SamePeers(c: Cluster, c': Cluster, h: Hist)
    requires Shape(h) && PeersOk(c, h) && c'.peers == c.peers && c'.voteReplies == c.voteReplies
    ensures PeersOk(c', h)
  {
    forall w | w in h.nodes ensures PeerOk(c', w, h) {
      assert PeerOk(c, w, h);
      assert forall t :: Counted(c', h, w, t) == Counted(c, h, w, t);
    }
  }

  lemma OnlyPeerKeys(c: Cluster, c': Cluster, v: NodeID)
    requires OnlyPeer(c, c', v)
    ensures c'.peers.Keys == c.peers.Keys
  {
  }

  lemma SetPeerOnly(c: Cluster, v: NodeID, p: Peer)
    requires v in c.peers
    ensures OnlyPeer(c, SetPeer(c, v, p), v)
  {
  }

  lemma BallotsStillAsked(c: Cluster, h: Hist, h': Hist)
    requires Shape(h) && Shape(h') && Grows(h, h') && h'.ballots == h.ballots
    requires c.peers.Keys == h.nodes && MessagesOk(c, h)
    ensures BallotsAsked(h')
  {
    hide VoteRequestOk, VoteReplyOk, AppendRequestOk, AppendReplyOk, CallOk;
    BallotsAskedCarries(h, h');
  }

  /** Most steps of a peer send nothing new. */
  lemma QuietMessages(c: Cluster, c': Cluster, h: Hist, h': Hist, v: NodeID)
    requires StepOf(h, h', v) && OnlyPeer(c, c', v) && c.peers.Keys == h.nodes && MessagesOk(c, h)
    requires SameCandidacy(c.peers[v], c'.peers[v]) && SameLeadership(c.peers[v], c'.peers[v])
    requires h'.ballots == h.ballots
    requires c'.voteRequests == c.voteRequests && c'.voteReplies <= c.voteReplies
    requires c'.appendRequests == c.appendRequests && c'.appendReplies == c.appendReplies
    requires forall k | k in c'.calls :: k in c.calls && c'.calls[k] == c.calls[k]
    ensures MessagesOk(c', h')
  {
    hide VoteRequestOk, VoteReplyOk, AppendRequestOk, AppendReplyOk, CallOk, BallotsAsked;
    hide StepOf, Grows, OnlyPeer, SameCandidacy, SameLeadership;
    StepShapes(h, h', v);
    OnlyPeerKeys(c, c', v);
    BallotsStillAsked(c, h, h');
    VoteMessagesCarry(c, c', h, h', v);
    AppendMessagesCarry(c, h, h');
    CallsCarry(c, c', h, h', v);
  }

  /** The steps that add nothing but a reply. */
  lemma ReplyMessages(c: Cluster, c': Cluster, h: Hist, h': Hist, v: NodeID, r: AppendReply)
    requires StepOf(h, h', v) && OnlyPeer(c, c', v) && c.peers.Keys == h.nodes && MessagesOk(c, h)
    requires SameCandidacy(c.peers[v], c'.peers[v]) && SameLeadership(c.peers[v], c'.peers[v])
    requires h'.ballots == h.ballots
    requires c' == c.(peers := c'.peers, appendReplies := c.appendReplies + {r}) && AppendReplyOk(h', r)
    ensures MessagesOk(c', h')
  {
    hide VoteRequestOk, VoteReplyOk, AppendRequestOk, AppendReplyOk, CallOk, BallotsAsked;
    hide StepOf, Grows, OnlyPeer, SameCandidacy, SameLeadership;
    StepShapes(h, h', v);
    OnlyPeerKeys(c, c', v);
    BallotsStillAsked(c, h, h');
    VoteMessagesCarry(c, c', h, h', v);
    AppendMessagesCarry(c, h, h');
    CallsCarry(c, c', h, h', v);
  }

  // ----- taking the invariant apart and putting it together

  lemma GoodAt(c: Cluster, h: Hist, v: NodeID)
    requires Good(c, h) && v in c.peers
    ensures Inv(h) && Shape(h) && BallotsCast(h) && LeadersElected(h)
    ensures c.peers.Keys == h.nodes && v in h.nodes && PeersOk(c, h) && MessagesOk(c, h)
    ensures PeerOk(c, v, h) && Linked(c.peers[v], v, h) && CommitOk(c.peers[v], v, h)
    ensures VotesRemembered(c.peers[v], v, h) && CandidateOk(c, c.peers[v], v, h) && LeaderOk(c.peers[v], v, h)
  {
    assert PeerOk(c, v, h);
  }

  lemma MakeGood(c: Cluster, h: Hist)
    requires Inv(h) && Shape(h) && PeersOk(c, h) && c.peers.Keys == h.nodes && MessagesOk(c, h)
    ensures Good(c, h)
  {
  }

  /** A peer that ends as a follower, in order, and sends nothing. */
  lemma FollowerKeeps(c: Cluster, h: Hist, h': Hist, v: NodeID, q: Peer, c': Cluster)
    requires Good(c, h) && v in c.peers && StepOf(h, h', v) && Inv(h') && v in h.nodes && h'.ballots == h.ballots
    requires q.role == Follower && Linked(q, v, h') && CommitOk(q, v, h') && VotesRemembered(q, v, h')
    requires c' == SetPeer(c, v, q).(calls := c'.calls)
    requires forall k | k in c'.calls :: k in c.calls && c'.calls[k] == c.calls[k]
    ensures Good(c', h') && Advances(h, h')
  {
    hide Good, Inv, PeersOk, PeerOk, MessagesOk, Linked, CommitOk, VotesRemembered, CandidateOk, LeaderOk;
    hide BallotsCast, LeadersElected, Grows, StepOf, Advances;
    GoodAt(c, h, v);
    StepShapes(h, h', v);
    FollowerPeers(c, h, h', v, q, c');
    QuietMessages(c, c', h, h', v);
    MakeGood(c', h');
  }

  lemma FollowerOk(c: Cluster, v: NodeID, h: Hist)
    requires Shape(h) && v in h.nodes && v in c.peers && c.peers[v].role == Follower
    requires Linked(c.peers[v], v, h) && CommitOk(c.peers[v], v, h) && VotesRemembered(c.peers[v], v, h)
    ensures PeerOk(c, v, h)
  {
  }

  lemma FollowerPeers(c: Cluster, h: Hist, h': Hist, v: NodeID, q: Peer, c': Cluster)
    requires Shape(h) && PeersOk(c, h) && StepOf(h, h', v) && v in h.nodes && h'.ballots == h.ballots
    requires q.role == Follower && Linked(q, v, h') && CommitOk(q, v, h') && VotesRemembered(q, v, h')
    requires c'.peers == c.peers[v := q] && c'.voteReplies == c.voteReplies
    ensures PeersOk(c', h')
  {
    hide Linked, CommitOk, VotesRemembered, PeerOk, StepOf;
    StepShapes(h, h', v);
    FollowerOk(c', v, h');
    OtherPeers(c, c', h, h', v);
  }
}
