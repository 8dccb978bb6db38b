/** How far ahead of its nextIndex a leader a follower can be: within the leader's term a follower has
    committed nothing from nextIndex on that the leader has not, whatever got lost or delayed. */
module KeepingUp {
  import opened Messages
  import opened PeerModel
  import opened PeerLaws
  import opened Cluster
  import opened H = History
  import opened ClusterInv
  import opened ClusterFrames
  import opened RunLaws
  import opened CommitLaws
  import Leaderships

  /** In the leader's term, what q has committed from the bound on the leader has committed too. */
  predicate NotAhead(q: Peer, p: Peer, bound: int) {
    q.disk.currentTerm == p.currentTerm ==> q.commitIndex < bound || q.commitIndex <= p.commitIndex
  }

  /** Leader p and its target q: as long as q has not saved the leader's term, only entries of that term
      lie beyond nextIndex; afterwards q is not ahead. */
  ghost predicate TargetUp(p: Peer, q: Peer, t: NodeID) {
    p.role == Leader ==>
      && t in p.nextIndex
      && (q.disk.currentTerm < p.currentTerm ==>
            forall k | 0 <= p.nextIndex[t] <= k < |p.log| :: p.log[k].term == p.currentTerm)
      && NotAhead(q, p, p.nextIndex[t])
  }

  predicate RequestUp(c: Cluster, m: AppendEntriesReq) {
    m.leaderID in c.peers && c.peers[m.leaderID].role == Leader && c.peers[m.leaderID].currentTerm == m.term ==>
      m.leaderCommit <= c.peers[m.leaderID].commitIndex
  }

  /** A reply in the request's own term: the term is saved, and a refusal still stands for what it said. */
  predicate ReplyUp(c: Cluster, r: AppendReply) {
    r.res.term <= r.req.term ==>
      && r.from in c.peers && r.req.term <= c.peers[r.from].disk.currentTerm
      && (!r.res.success && r.req.leaderID in c.peers && c.peers[r.req.leaderID].role == Leader &&
          c.peers[r.req.leaderID].currentTerm == r.req.term ==>
            NotAhead(c.peers[r.from], c.peers[r.req.leaderID], r.req.prevLogIndex))
  }

  ghost predicate TargetsUp(c: Cluster) {
    forall p, t {:trigger TargetUp(c.peers[p], c.peers[t], t)} | p in c.peers && t in c.peers && p != t ::
      TargetUp(c.peers[p], c.peers[t], t)
  }

  ghost predicate KeepsUp(c: Cluster) {
    && TargetsUp(c)
    && (forall m {:trigger RequestUp(c, m)} | m in c.appendRequests :: RequestUp(c, m))
    && (forall r {:trigger ReplyUp(c, r)} | r in c.appendReplies :: ReplyUp(c, r))
  }

  // ----- what one step does to a peer

  /** A peer commits as a leader, or from a request. */
  ghost predicate CommitSource(a: Peer, b: Peer, e: Event) {
    || b.commitIndex == a.commitIndex
    || (e.Commit? && a.role == Leader && b.role == Leader && b.currentTerm == a.currentTerm)
    || (e.ReceiveAppend? && b.disk.currentTerm == e.appendReq.term &&
        b.commitIndex <= Max(a.commitIndex, e.appendReq.leaderCommit))
  }

  lemma StepCommits(a: Peer, e: Event)
    requires CanStep(a, e) && IndicesSaved(a)
    ensures CommitSource(a, StepPeer(a, e), e)
  {
    if e.ReceiveAppend? {
      if Succeeds(a, e.appendReq) && e.appendReq.term >= a.currentTerm {
        SuccessTakesEntries(a, e.appendReq);
      } else if e.appendReq.term >= a.currentTerm {
        FailureListens(a, e.appendReq);
      }
      hide HandleAppendEntries;
    } else if e.Commit? {
      CommitMoves(a, e.idx);
    }
  }

  /** A leader that stays: its log grows by entries of its term, its commit index does not fall, and only
      a reply moves a nextIndex, up by a success and to the request's start by a refusal. */
  ghost predicate LeadsOn(a: Peer, b: Peer, e: Event) {
    && a.log <= b.log && (forall k | |a.log| <= k < |b.log| :: b.log[k].term == b.currentTerm)
    && a.commitIndex <= b.commitIndex
    && forall t | t in a.nextIndex :: t in b.nextIndex &&
         (b.nextIndex[t] == a.nextIndex[t] ||
          (e.ReceiveAppendReply? && e.appendReply.from == t &&
           b.nextIndex[t] == if e.appendReply.res.success then e.appendReply.req.End() + 1 else a.nextIndex[t] - 1))
  }

  lemma StepLeads(a: Peer, e: Event)
    requires CanStep(a, e) && a.role == Leader && StepPeer(a, e).role == Leader
    requires StepPeer(a, e).currentTerm == a.currentTerm
    ensures LeadsOn(a, StepPeer(a, e), e)
  {
    if e.ReceiveAppend? {
      Leaderships.AppendMakesNoLeader(a, e.appendReq);
      hide HandleAppendEntries;
    } else if e.Commit? {
      CommitMoves(a, e.idx);
    }
  }

  // ----- before the leader's term is saved

  /** What a peer has committed in earlier terms lies before nextIndex. */
  lemma CommitBeforeNext(c: Cluster, h: Hist, p: NodeID, t: NodeID)
    requires Good(c, h) && p in c.peers && t in c.peers && c.peers[p].role == Leader
    requires TargetUp(c.peers[p], c.peers[t], t) && c.peers[t].disk.currentTerm < c.peers[p].currentTerm
    requires 1 <= c.peers[p].nextIndex[t]
    ensures c.peers[t].commitIndex < c.peers[p].nextIndex[t]
  {
    hide LogsTraced, Ordered, BallotsCast, LeadersElected, AcksGiven, AcksKept, LeadersKeep, AcksHeld, MessagesOk;
    hide VotesRemembered, CandidateOk, Certified, TargetOk, ChannelOk;
    assert PeerOk(c, p, h) && PeerOk(c, t, h);
    var q, l := c.peers[t], c.peers[p];
    CommittedHeld(h, q, t, l.currentTerm);
    assert q.log[..q.commitIndex + 1][q.commitIndex] == l.log[q.commitIndex];
    assert q.log[q.commitIndex].term <= h.term[t];
  }

  lemma CommittedHeld(h: Hist, q: Peer, t: NodeID, u: nat)
    requires Inv(h) && t in h.nodes && Linked(q, t, h) && CommitOk(q, t, h) && u in h.leaderLog && h.term[t] <= u
    ensures 0 <= q.commitIndex < |q.log| && q.log[..q.commitIndex + 1] <= h.leaderLog[u]
  {
    hide Certified;
    CertifiedInLeader(h, q.log[..q.commitIndex + 1], h.term[t], u);
  }

  // ----- what a step keeps

  /** Two states a step apart, with their histories. */
  ghost predicate StepsTo(c: Cluster, h: Hist, e: Event, c': Cluster, h': Hist) {
    Good(c, h) && Enabled(c, e) && c' == Next(c, e) && Good(c', h') && Grows(h, h')
  }

  lemma LeaderIs(c: Cluster, h: Hist, p: NodeID)
    requires Good(c, h) && p in c.peers && c.peers[p].role == Leader
    ensures var a := c.peers[p];
      && a.currentTerm in h.leader && h.leader[a.currentTerm] == p && a.disk.currentTerm == a.currentTerm
      && a.currentTerm in h.leaderLog && h.leaderLog[a.currentTerm] == a.log
      && forall t | t in c.peers && t != p :: t in a.nextIndex && 1 <= a.nextIndex[t]
  {
    hide Inv, MessagesOk, CommitOk, VotesRemembered, CandidateOk, ChannelOk;
    assert Shape(h) by {
      GoodAt(c, h, p);
    }
    assert PeerOk(c, p, h);
    forall t | t in c.peers && t != p ensures t in c.peers[p].nextIndex && 1 <= c.peers[p].nextIndex[t] {
      assert TargetOk(c.peers[p], t, h);
    }
  }

  lemma TermRises(c: Cluster, h: Hist, e: Event, c': Cluster, h': Hist, t: NodeID)
    requires StepsTo(c, h, e, c', h') && t in c.peers
    ensures t in c'.peers && c.peers[t].disk.currentTerm <= c'.peers[t].disk.currentTerm
  {
    hide Next, Enabled, Good, LeaderOk, CandidateOk, CommitOk, VotesRemembered, PeersOk, MessagesOk;
    OnlyActorSteps(c, e, t);
    GoodAt(c, h, t);
    GoodAt(c', h', t);
  }

  /** A request in flight is of its term's leader, which has led since. */
  lemma RequestOf(c: Cluster, h: Hist, m: AppendEntriesReq)
    requires Good(c, h) && m in c.appendRequests
    ensures m.term in h.leader && h.leader[m.term] == m.leaderID && m.term in h.leaderLog
  {
    hide Inv, PeersOk, Certified;
    assert AppendRequestOk(h, m);
  }

  lemma ReplyOf(c: Cluster, h: Hist, r: AppendReply)
    requires Good(c, h) && r in c.appendReplies
    ensures r.req.term in h.leader && h.leader[r.req.term] == r.req.leaderID && r.req.term in h.leaderLog
  {
    hide Inv, PeersOk, Certified;
    assert AppendReplyOk(h, r);
  }

  /** What t commits in a step within the term of leader p, p has committed. */
  lemma NotAheadKept(c: Cluster, h: Hist, e: Event, c': Cluster, h': Hist, p: NodeID, t: NodeID, bound: int)
    requires StepsTo(c, h, e, c', h') && KeepsUp(c) && p in c.peers && t in c.peers && p != t && Actor(e) == t
    requires c.peers[p].role == Leader
    requires c.peers[t].commitIndex < bound || c.peers[t].commitIndex <= c.peers[p].commitIndex
    ensures t in c'.peers && NotAhead(c'.peers[t], c.peers[p], bound)
  {
    hide Good, Enabled, Next, CanStep, StepPeer, TargetsUp, Grows;
    OnlyActorSteps(c, e, t);
    GoodSaved(c, h, t);
    StepCommits(c.peers[t], e);
    LeaderIs(c, h, p);
    var l, a, b := c.peers[p], c.peers[t], c'.peers[t];
    if e.ReceiveAppend? {
      InFlight(c, e);
      RequestOf(c, h, e.appendReq);
      assert RequestUp(c, e.appendReq);
    } else if e.Commit? && b.role == Leader && b.currentTerm == a.currentTerm && a.role == Leader {
      LeaderIs(c, h, t);
      LeaderIs(c', h', t);
    }
  }

  lemma InFlight(c: Cluster, e: Event)
    requires Enabled(c, e)
    ensures e.ReceiveAppend? ==> e.appendReq in c.appendRequests
    ensures e.ReceiveAppendReply? ==> e.appendReply in c.appendReplies && (e.p, e.appendReply.from) in c.calls &&
                                      c.calls[(e.p, e.appendReply.from)] == e.appendReply.req
  {
  }

  lemma TargetMoves(c: Cluster, h: Hist, e: Event, c': Cluster, h': Hist, p: NodeID, t: NodeID)
    requires StepsTo(c, h, e, c', h') && KeepsUp(c) && p in c.peers && t in c.peers && p != t && Actor(e) == t
    ensures t in c'.peers && TargetUp(c.peers[p], c'.peers[t], t)
  {
    hide Good, Enabled, Next, Grows;
    TermRises(c, h, e, c', h', t);
    var l, a := c.peers[p], c.peers[t];
    assert TargetUp(l, a, t);
    if l.role == Leader {
      LeaderIs(c, h, p);
      if a.disk.currentTerm < l.currentTerm {
        CommitBeforeNext(c, h, p, t);
      }
      if a.disk.currentTerm <= l.currentTerm {
        NotAheadKept(c, h, e, c', h', p, t, l.nextIndex[t]);
      }
    }
  }

  /** Whether a leader of the later state led in the same term in the earlier one; otherwise the term is new. */
  predicate LedBefore(c: Cluster, c': Cluster, p: NodeID)
    requires p in c.peers && p in c'.peers
  {
    c.peers[p].role == Leader && c.peers[p].currentTerm == c'.peers[p].currentTerm
  }

  lemma NewTerm(c: Cluster, h: Hist, e: Event, c': Cluster, h': Hist, p: NodeID)
    requires StepsTo(c, h, e, c', h') && p in c.peers && p in c'.peers && c'.peers[p].role == Leader
    requires !LedBefore(c, c', p)
    ensures c'.peers[p].currentTerm !in h.leaderLog
    ensures forall t | t in c'.peers[p].nextIndex :: c'.peers[p].nextIndex[t] == |c'.peers[p].log|
  {
    hide Good, Enabled, Next;
    Leaderships.NewLeader(c, h, e, p);
    Leaderships.OnlyVotesMakeLeaders(c, e, p);
    Leaderships.NewLeaderStarts(c, e, p);
  }

  lemma StaysLeader(c: Cluster, h: Hist, e: Event, c': Cluster, h': Hist, p: NodeID)
    requires StepsTo(c, h, e, c', h') && p in c.peers && p in c'.peers && c'.peers[p].role == Leader
    requires LedBefore(c, c', p)
    ensures LeadsOn(c.peers[p], c'.peers[p], e) || (c'.peers[p] == c.peers[p] && Actor(e) != p)
  {
    hide Good, Enabled, Next, StepPeer, CanStep, LeadsOn;
    OnlyActorSteps(c, e, p);
    if p == Actor(e) {
      StepLeads(c.peers[p], e);
    }
  }

  /** A new leader has everything its voters, and all others of its term, have committed. */
  lemma NobodyAhead(c: Cluster, h: Hist, p: NodeID, t: NodeID)
    requires Good(c, h) && p in c.peers && t in c.peers && c.peers[p].role == Leader
    ensures NotAhead(c.peers[t], c.peers[p], |c.peers[p].log|)
  {
    hide Inv, PeersOk, PeerOk, MessagesOk, CandidateOk, LeaderOk, VotesRemembered, CommitOk;
    hide BallotsCast, LeadersElected;
    LeaderIs(c, h, p);
    GoodAt(c, h, t);
    if c.peers[t].disk.currentTerm == c.peers[p].currentTerm {
      CommittedHeld(h, c.peers[t], t, c.peers[p].currentTerm);
    }
  }

  /** The call a reply answers started where nextIndex is. */
  lemma ReplyAt(c: Cluster, h: Hist, e: Event)
    requires Good(c, h) && Enabled(c, e) && e.ReceiveAppendReply?
    ensures e.p in c.peers && c.peers[e.p].role == Leader && c.peers[e.p].currentTerm == e.appendReply.req.term
    ensures e.appendReply.from != e.p && e.appendReply.req.leaderID == e.p
    ensures var next := c.peers[e.p].nextIndex;
      e.appendReply.from in next && next[e.appendReply.from] == e.appendReply.req.prevLogIndex + 1
  {
    Leaderships.CallAt(c, h, e.p, e.appendReply.from);
    LeaderIs(c, h, e.p);
    hide Good;
  }

  /** How a leader that stays moves its targets. */
  lemma BoundMoves(c: Cluster, h: Hist, e: Event, c': Cluster, h': Hist, p: NodeID, t: NodeID)
    requires StepsTo(c, h, e, c', h') && KeepsUp(c) && p in c.peers && t in c.peers && p != t && Actor(e) == p
    requires p in c'.peers && c'.peers[p].role == Leader && LedBefore(c, c', p)
    ensures t in c.peers[p].nextIndex && t in c'.peers[p].nextIndex
    ensures var next, next' := c.peers[p].nextIndex[t], c'.peers[p].nextIndex[t];
      next <= next' ||
      (c.peers[p].currentTerm <= c.peers[t].disk.currentTerm && NotAhead(c.peers[t], c.peers[p], next'))
  {
    hide Good, Enabled, Next, Grows, CanStep, StepPeer, TargetsUp, NotAhead;
    LeaderIs(c, h, p);
    StaysLeader(c, h, e, c', h', p);
    OnlyActorSteps(c, e, p);
    if e.ReceiveAppendReply? && e.appendReply.from == t {
      InFlight(c, e);
      ReplyAt(c, h, e);
      assert ReplyUp(c, e.appendReply);
      ReplyTerm(c.peers[p], e);
    }
  }

  lemma LeaderMoves(c: Cluster, h: Hist, e: Event, c': Cluster, h': Hist, p: NodeID, t: NodeID)
    requires StepsTo(c, h, e, c', h') && KeepsUp(c) && p in c.peers && t in c.peers && p != t && Actor(e) == p
    ensures p in c'.peers && TargetUp(c'.peers[p], c.peers[t], t)
  {
    hide Good, Enabled, Next, Grows, CanStep, StepPeer, LeadsOn;
    OnlyActorSteps(c, e, p);
    OnlyActorSteps(c, e, t);
    if c'.peers[p].role == Leader {
      LeaderIs(c', h', p);
      if LedBefore(c, c', p) {
        StaysLeader(c, h, e, c', h', p);
        assert TargetUp(c.peers[p], c.peers[t], t);
        BoundMoves(c, h, e, c', h', p, t);
        LeaderIs(c, h, p);
        StillUp(c.peers[p], c'.peers[p], c.peers[t], t, e);
      } else {
        NewTerm(c, h, e, c', h', p);
        NobodyAhead(c', h', p, t);
      }
    }
  }

  lemma StillUp(a: Peer, b: Peer, q: Peer, t: NodeID, e: Event)
    requires TargetUp(a, q, t) && LeadsOn(a, b, e) && a.role == b.role == Leader && a.currentTerm == b.currentTerm
    requires t in a.nextIndex && t in b.nextIndex && 0 <= a.nextIndex[t]
    requires a.nextIndex[t] <= b.nextIndex[t] || (a.currentTerm <= q.disk.currentTerm && NotAhead(q, a, b.nextIndex[t]))
    ensures TargetUp(b, q, t)
  {
    if q.disk.currentTerm < b.currentTerm {
      forall k | 0 <= b.nextIndex[t] <= k < |b.log| ensures b.log[k].term == b.currentTerm {
        assert k < |a.log| ==> b.log[k] == a.log[k] && a.log[k].term == a.currentTerm;
      }
    }
  }

  /** A leader that stays has not been refused for its term. */
  lemma ReplyTerm(a: Peer, e: Event)
    requires e.ReceiveAppendReply? && CanStep(a, e)
    ensures StepPeer(a, e).role == Leader && !e.appendReply.res.success ==> e.appendReply.res.term <= a.currentTerm
  {
  }

  lemma TargetsKept(c: Cluster, h: Hist, e: Event, c': Cluster, h': Hist)
    requires StepsTo(c, h, e, c', h') && KeepsUp(c)
    ensures TargetsUp(c')
  {
    hide Good, Next, Grows;
    forall p, t | p in c'.peers && t in c'.peers && p != t
      ensures TargetUp(c'.peers[p], c'.peers[t], t)
    {
      SamePeersThere(c, h, e, c', h', p);
      SamePeersThere(c, h, e, c', h', t);
      hide Enabled, TargetUp;
      OnlyActorSteps(c, e, p);
      OnlyActorSteps(c, e, t);
      if Actor(e) == p {
        LeaderMoves(c, h, e, c', h', p, t);
      } else if Actor(e) == t {
        TargetMoves(c, h, e, c', h', p, t);
      } else {
        assert TargetUp(c.peers[p], c.peers[t], t);
      }
    }
  }

  lemma SamePeersThere(c: Cluster, h: Hist, e: Event, c': Cluster, h': Hist, p: NodeID)
    requires StepsTo(c, h, e, c', h') && p in c'.peers
    ensures p in c.peers
  {
    hide Inv, Next, Enabled, MessagesOk;
  }

  // ----- requests and replies

  lemma RequestKept(c: Cluster, h: Hist, e: Event, c': Cluster, h': Hist, m: AppendEntriesReq)
    requires StepsTo(c, h, e, c', h') && KeepsUp(c) && m in c.appendRequests
    ensures RequestUp(c', m)
  {
    hide Good, Next, Enabled, Grows, LeadsOn;
    RequestOf(c, h, m);
    var p := m.leaderID;
    if p in c'.peers && c'.peers[p].role == Leader && c'.peers[p].currentTerm == m.term {
      SamePeersThere(c, h, e, c', h', p);
      assert LedBefore(c, c', p) by {
        if !LedBefore(c, c', p) {
          NewTerm(c, h, e, c', h', p);
        }
      }
      assert RequestUp(c, m);
      StaysLeader(c, h, e, c', h', p);
      LeadsOnCommits(c.peers[p], c'.peers[p], e);
    }
  }

  lemma LeadsOnCommits(a: Peer, b: Peer, e: Event)
    requires LeadsOn(a, b, e)
    ensures a.commitIndex <= b.commitIndex
  {
  }

  lemma RequestsKept(c: Cluster, h: Hist, e: Event, c': Cluster, h': Hist)
    requires StepsTo(c, h, e, c', h') && KeepsUp(c)
    ensures forall m | m in c'.appendRequests :: RequestUp(c', m)
  {
    hide Good, Grows, RequestUp;
    forall m | m in c'.appendRequests ensures RequestUp(c', m) {
      if m in c.appendRequests {
        RequestKept(c, h, e, c', h', m);
      } else {
        NewRequest(c, h, e, m);
      }
    }
  }

  lemma NewRequest(c: Cluster, h: Hist, e: Event, m: AppendEntriesReq)
    requires Good(c, h) && Enabled(c, e) && m in Next(c, e).appendRequests && m !in c.appendRequests
    ensures RequestUp(Next(c, e), m)
  {
    OnlySendsRequest(c, e, m);
    OwnName(c, h, e.p);
    hide Good;
  }

  lemma OnlySendsRequest(c: Cluster, e: Event, m: AppendEntriesReq)
    requires Enabled(c, e) && m in Next(c, e).appendRequests && m !in c.appendRequests
    ensures e.SendAppend? && m == AppendRequest(c.peers[e.p], e.target)
  {
  }

  lemma OwnName(c: Cluster, h: Hist, p: NodeID)
    requires Good(c, h) && p in c.peers
    ensures c.peers[p].id == p
  {
    GoodAt(c, h, p);
  }

  lemma ReplyKept(c: Cluster, h: Hist, e: Event, c': Cluster, h': Hist, r: AppendReply)
    requires StepsTo(c, h, e, c', h') && KeepsUp(c) && r in c.appendReplies
    ensures ReplyUp(c', r)
  {
    hide Good, Next, Enabled, Grows, LeadsOn, TargetsUp, NotAhead;
    ReplyOf(c, h, r);
    assert ReplyUp(c, r);
    if r.res.term <= r.req.term {
      TermRises(c, h, e, c', h', r.from);
      var p := r.req.leaderID;
      if !r.res.success && p in c'.peers && c'.peers[p].role == Leader && c'.peers[p].currentTerm == r.req.term {
        RefusalStands(c, h, e, c', h', r);
      }
    }
  }

  lemma RefusalStands(c: Cluster, h: Hist, e: Event, c': Cluster, h': Hist, r: AppendReply)
    requires StepsTo(c, h, e, c', h') && KeepsUp(c) && r in c.appendReplies
    requires r.res.term <= r.req.term && !r.res.success
    requires r.req.leaderID in c'.peers && c'.peers[r.req.leaderID].role == Leader
    requires c'.peers[r.req.leaderID].currentTerm == r.req.term && r.from in c'.peers
    ensures NotAhead(c'.peers[r.from], c'.peers[r.req.leaderID], r.req.prevLogIndex)
  {
    hide Good, Next, Enabled, Grows, LeadsOn, TargetsUp;
    var p, t := r.req.leaderID, r.from;
    SamePeersThere(c, h, e, c', h', p);
    ReplyOf(c, h, r);
    assert ReplyUp(c, r);
    assert LedBefore(c, c', p) by {
      if !LedBefore(c, c', p) {
        NewTerm(c, h, e, c', h', p);
      }
    }
    if p != t {
      StaysLeader(c, h, e, c', h', p);
      if LeadsOn(c.peers[p], c'.peers[p], e) {
        LeadsOnCommits(c.peers[p], c'.peers[p], e);
      }
      OnlyActorSteps(c, e, p);
      OnlyActorSteps(c, e, t);
      TermRises(c, h, e, c', h', t);
      if Actor(e) == t && c.peers[t].disk.currentTerm == r.req.term {
        NotAheadKept(c, h, e, c', h', p, t, r.req.prevLogIndex);
      }
    }
  }

  /** What a follower answers in the request's own term: the term is saved, and a refusal is of a request
      that starts beyond what it has committed. */
  lemma AnswersUp(a: Peer, req: AppendEntriesReq)
    requires HandleAppendEntries(a, req).1.Replied? && 0 <= a.commitIndex < |a.log|
    ensures var (b, out) := HandleAppendEntries(a, req);
      out.res.term <= req.term ==>
        b.disk.currentTerm == req.term && (!out.res.success ==> b.commitIndex < req.prevLogIndex)
  {
    if req.term >= a.currentTerm {
      if Succeeds(a, req) {
        SuccessTakesEntries(a, req);
      } else {
        FailureListens(a, req);
      }
      hide TakeEntries;
    }
  }

  lemma NewReply(c: Cluster, h: Hist, e: Event, r: AppendReply)
    requires Good(c, h) && Enabled(c, e) && r in Next(c, e).appendReplies && r !in c.appendReplies
    ensures ReplyUp(Next(c, e), r)
  {
    OnlyReceivesReply(c, e, r);
    GoodCommit(c, h, e.v);
    AnswersUp(c.peers[e.v], e.appendReq);
    hide Good, HandleAppendEntries;
  }

  lemma OnlyReceivesReply(c: Cluster, e: Event, r: AppendReply)
    requires Enabled(c, e) && r in Next(c, e).appendReplies && r !in c.appendReplies
    ensures e.ReceiveAppend? && e.v in c.peers
    ensures var (b, out) := HandleAppendEntries(c.peers[e.v], e.appendReq);
      out.Replied? && r == AppendReply(e.v, e.appendReq, out.res)
  {
    hide HandleAppendEntries;
  }

  lemma GoodCommit(c: Cluster, h: Hist, v: NodeID)
    requires Good(c, h) && v in c.peers
    ensures 0 <= c.peers[v].commitIndex < |c.peers[v].log|
  {
    GoodAt(c, h, v);
    hide Inv, Certified;
  }

  lemma RepliesKept(c: Cluster, h: Hist, e: Event, c': Cluster, h': Hist)
    requires StepsTo(c, h, e, c', h') && KeepsUp(c)
    ensures forall r | r in c'.appendReplies :: ReplyUp(c', r)
  {
    hide Good, Grows, ReplyUp, Enabled, Next;
    forall r | r in c'.appendReplies ensures ReplyUp(c', r) {
      if r in c.appendReplies {
        ReplyKept(c, h, e, c', h', r);
      } else {
        NewReply(c, h, e, r);
      }
    }
  }

  // ----- over a run

  lemma {:induction false} AlwaysUp(r: Run, i: nat)
    requires IsRun(r) && i < |r.states|
    ensures KeepsUp(r.states[i])
  {
    hide Good, Enabled, Next, Grows, TargetsUp;
    if i == 0 {
      StartsUp(r);
    } else {
      AlwaysUp(r, i - 1);
      HistoryGrows(r, i - 1, i);
      var c, h, e, c', h' := r.states[i - 1], HistAt(r, i - 1), r.events[i - 1], r.states[i], HistAt(r, i);
      assert StepsTo(c, h, e, c', h');
      TargetsKept(c, h, e, c', h');
      RequestsKept(c, h, e, c', h');
      RepliesKept(c, h, e, c', h');
    }
  }

  lemma StartsUp(r: Run)
    requires IsRun(r)
    ensures KeepsUp(r.states[0])
  {
    hide Enabled, Next;
  }

  /** In a reachable state no follower of a leader's term, or an earlier one, has committed both beyond its
      nextIndex and beyond the leader's own commit index. */
  lemma NotAheadOfLeader(r: Run, i: nat, p: NodeID, t: NodeID)
    requires IsRun(r) && PeerIn(r, i, p) && PeerIn(r, i, t) && p != t
    requires var l, q := r.states[i].peers[p], r.states[i].peers[t];
      l.role == Leader && q.disk.currentTerm <= l.currentTerm
    ensures var l, q := r.states[i].peers[p], r.states[i].peers[t];
      t in l.nextIndex && (q.commitIndex < l.nextIndex[t] || q.commitIndex <= l.commitIndex)
  {
    hide Good, HistAt;
    AlwaysUp(r, i);
    LeaderTargets(r, i, p, t);
    var c, h := r.states[i], HistAt(r, i);
    assert TargetUp(c.peers[p], c.peers[t], t);
    if c.peers[t].disk.currentTerm < c.peers[p].currentTerm {
      CommitBeforeNext(c, h, p, t);
    }
  }
}
