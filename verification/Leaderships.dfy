/** What holds within one leadership, from the first to the last state a peer leads in a term. */
module Leaderships {
  import opened Messages
  import opened PeerModel
  import opened PeerLaws
  import opened Cluster
  import opened H = History
  import opened ClusterInv
  import opened ClusterFrames
  import opened RunLaws
  import ElectionSteps

  ghost predicate Leads(r: Run, i: nat, p: NodeID, t: nat) {
    PeerIn(r, i, p) && r.states[i].peers[p].role == Leader && r.states[i].peers[p].currentTerm == t
  }

  /** A peer becomes the leader of a term only if the term never had one. */
  lemma NewLeader(c: Cluster, h: Hist, e: Event, p: NodeID)
    requires Good(c, h) && Enabled(c, e) && p in c.peers && p in Next(c, e).peers
    requires Next(c, e).peers[p].role == Leader
    requires !(c.peers[p].role == Leader && c.peers[p].currentTerm == Next(c, e).peers[p].currentTerm)
    ensures Next(c, e).peers[p].currentTerm !in h.leaderLog
  {
    hide Good, Inv, PeersOk, PeerOk, MessagesOk, Linked, CommitOk, VotesRemembered, CandidateOk, LeaderOk, VoteReplyOk;
    hide Enabled, Next, HandleRequestVoteRespond;
    OnlyVotesMakeLeaders(c, e, p);
    var r := e.voteReply;
    ElectionSteps.VoteReplyShape(c, r);
    GoodAt(c, h, p);
    ElectionSteps.VoteReplyIn(c, h, r);
    ElectionSteps.Winning(c.peers[p], r.res);
    ElectionSteps.WinnerElectable(c, h, r, Next(c, e));
  }

  lemma OnlyVotesMakeLeaders(c: Cluster, e: Event, p: NodeID)
    requires Enabled(c, e) && p in c.peers && p in Next(c, e).peers
    requires Next(c, e).peers[p].role == Leader
    requires !(c.peers[p].role == Leader && c.peers[p].currentTerm == Next(c, e).peers[p].currentTerm)
    ensures e.ReceiveVoteReply? && e.voteReply.candidate == p && c.peers[p].role == Candidate
  {
    hide Enabled, Next;
    OnlyActorSteps(c, e, p);
    if e.ReceiveAppend? {
      AppendMakesNoLeader(c.peers[p], e.appendReq);
      hide HandleAppendEntries;
    }
  }

  /** A new leader starts every target at the end of its log. */
  lemma NewLeaderStarts(c: Cluster, e: Event, p: NodeID)
    requires Enabled(c, e) && e.ReceiveVoteReply? && p in c.peers && p in Next(c, e).peers && Actor(e) == p
    requires c.peers[p].role == Candidate && Next(c, e).peers[p].role == Leader
    ensures var b := Next(c, e).peers[p]; forall t | t in b.nextIndex :: b.nextIndex[t] == |b.log|
  {
    hide HandleRequestVoteRespond;
    ElectionSteps.Winning(c.peers[p], e.voteReply.res);
  }

  lemma AppendMakesNoLeader(p: Peer, req: AppendEntriesReq)
    ensures var q := HandleAppendEntries(p, req).0; q == p || q.role == Follower
  {
    if req.term >= p.currentTerm && !Succeeds(p, req) {
      FailureListens(p, req);
    } else if req.term >= p.currentTerm {
      SuccessTakesEntries(p, req);
    }
  }

  lemma {:induction false} StaysOut(r: Run, j: nat, k: nat, p: NodeID, t: nat)
    requires IsRun(r) && j <= k < |r.states| && p in r.nodes
    requires t in HistAt(r, j).leaderLog && !Leads(r, j, p, t)
    ensures !Leads(r, k, p, t)
  {
    hide Good, Enabled, Next, HistoryAfter;
    if j < k {
      StaysOut(r, j, k - 1, p, t);
      HistoryGrows(r, j, k - 1);
      if Leads(r, k, p, t) {
        PeersStay(r, k - 1, p);
        NewLeader(r.states[k - 1], HistAt(r, k - 1), r.events[k - 1], p);
      }
    }
  }

  /** A leadership is one stretch of the run: once ended it never resumes in the same term. */
  lemma LeadershipUnbroken(r: Run, i: nat, j: nat, k: nat, p: NodeID, t: nat)
    requires IsRun(r) && i <= j <= k && Leads(r, i, p, t) && Leads(r, k, p, t)
    ensures Leads(r, j, p, t)
  {
    hide Good;
    TermHasLeader(r, i, p);
    HistoryGrows(r, i, j);
    if !Leads(r, j, p, t) {
      StaysOut(r, j, k, p, t);
    }
  }

  lemma TermHasLeader(r: Run, i: nat, p: NodeID)
    requires IsRun(r) && PeerIn(r, i, p) && r.states[i].peers[p].role == Leader
    ensures r.states[i].peers[p].currentTerm in HistAt(r, i).leaderLog
  {
    hide HistAt;
    PeerAt(r, i, p);
  }

  lemma CallAt(c: Cluster, h: Hist, p: NodeID, t: NodeID)
    requires Good(c, h) && (p, t) in c.calls
    ensures CallOk(c, h, p, t, c.calls[(p, t)])
  {
    hide Inv, PeersOk;
  }

  lemma ReplyAnswersCall(c: Cluster, h: Hist, e: Event)
    requires Good(c, h) && Enabled(c, e) && e.ReceiveAppendReply?
    ensures e.p in c.peers && var m := c.peers[e.p].matchIndex;
      e.appendReply.from in m && m[e.appendReply.from] <= e.appendReply.req.End()
  {
    CallAt(c, h, e.p, e.appendReply.from);
    hide Good;
  }

  lemma MatchStep(c: Cluster, h: Hist, e: Event, p: NodeID, t: NodeID)
    requires Good(c, h) && Enabled(c, e) && p in c.peers && p in Next(c, e).peers
    requires c.peers[p].role == Next(c, e).peers[p].role == Leader
    requires c.peers[p].currentTerm == Next(c, e).peers[p].currentTerm
    requires t in c.peers[p].matchIndex
    ensures t in Next(c, e).peers[p].matchIndex && c.peers[p].matchIndex[t] <= Next(c, e).peers[p].matchIndex[t]
  {
    hide Good, Enabled, Next, CanStep, StepPeer;
    OnlyActorSteps(c, e, p);
    if p == Actor(e) {
      MatchMoves(c.peers[p], e, t);
      if e.ReceiveAppendReply? && e.appendReply.from == t {
        ReplyAnswersCall(c, h, e);
      }
    }
  }

  /** Only the successful reply to a call moves a leader's matchIndex: to the end of the request. */
  lemma MatchMoves(a: Peer, e: Event, t: NodeID)
    requires CanStep(a, e) && a.role == Leader && t in a.matchIndex
    ensures var b := StepPeer(a, e);
      b.role == Leader && b.currentTerm == a.currentTerm ==>
        && t in b.matchIndex
        && (b.matchIndex[t] == a.matchIndex[t] ||
            (e.ReceiveAppendReply? && e.appendReply.from == t && b.matchIndex[t] == e.appendReply.req.End()))
  {
    if e.ReceiveAppend? {
      AppendMakesNoLeader(a, e.appendReq);
      hide HandleAppendEntries;
    }
  }

  /** Within one leadership no matchIndex ever decreases. */
  lemma {:induction false} MatchIndexMonotone(r: Run, i: nat, j: nat, p: NodeID, t: nat, target: NodeID)
    requires IsRun(r) && i <= j && Leads(r, i, p, t) && Leads(r, j, p, t)
    requires target in r.nodes && target != p
    ensures target in r.states[i].peers[p].matchIndex && target in r.states[j].peers[p].matchIndex
    ensures r.states[i].peers[p].matchIndex[target] <= r.states[j].peers[p].matchIndex[target]
  {
    hide Good, Enabled, Next;
    LeaderTargets(r, i, p, target);
    if i < j {
      LeadershipUnbroken(r, i, j - 1, j, p, t);
      MatchIndexMonotone(r, i, j - 1, p, t, target);
      MatchStep(r.states[j - 1], HistAt(r, j - 1), r.events[j - 1], p, target);
    }
  }
}
