/** The waiters of a leader: every command of its term that is not committed yet has its channel, for as
    long as the leadership lasts, and the messages in it only grow in number. */
module PendingLaws {
  import opened Messages
  import opened PeerModel
  import opened Cluster
  import opened H = History
  import opened ClusterInv
  import opened ClusterFrames
  import opened HandlerLaws
  import opened RunLaws
  import opened Leaderships
  import HistorySteps

  /** No pending command without its channel. */
  ghost predicate AllWaited(a: Peer) {
    a.role == Leader ==>
      forall k | a.commitIndex < k < |a.log| && k >= 0 && a.log[k].term == a.currentTerm :: k in a.channels
  }

  /** A step within a leadership closes no channel but that of the index it commits, and takes no
      message out of one. */
  ghost predicate ChannelsGo(a: Peer, b: Peer, e: Event) {
    forall i | i in a.channels && !(e.Commit? && e.idx == i) :: i in b.channels && a.channels[i] <= b.channels[i]
  }

  /** And what else matters to the waiters: the log gets longer only by a command, which gets its channel. */
  ghost predicate WaitersGo(a: Peer, b: Peer, e: Event) {
    && ChannelsGo(a, b, e)
    && a.log <= b.log && a.commitIndex <= b.commitIndex
    && (forall k | |a.log| <= k < |b.log| :: k in b.channels)
    && (e.Commit? && e.idx in a.channels ==> e.idx <= b.commitIndex)
  }

  lemma StepWaits(a: Peer, e: Event)
    requires CanStep(a, e) && a.role == Leader && StepPeer(a, e).role == Leader
    requires StepPeer(a, e).currentTerm == a.currentTerm && forall i | i in a.channels :: i < |a.log|
    ensures WaitersGo(a, StepPeer(a, e), e)
  {
    match e
    case ReceiveAppend(_, req) =>
      AppendMakesNoLeader(a, req);
      hide HandleAppendEntries;
    case ReceiveVoteRequest(_, req) =>
      VoteAnswered(a, req);
      hide HandleRequestVote;
    case ReceiveVoteReply(r) =>
      VoteCounted(a, r.res);
      hide HandleRequestVoteRespond;
    case ReceiveAppendReply(_, r) =>
      ReplyHandled(a, r.from, r.req, r.res);
      hide HandleAppendReply;
    case ClientRequest(_, cmd) =>
      CommandTaken(a, LogEntry(cmd, a.currentTerm));
      hide ClientAppend;
    case Commit(_, idx) =>
      CommandCommitted(a, idx);
      hide CommitPending;
    case _ =>
  }

  /** The channels of a reachable leader are of its log, and its log before the election of earlier terms. */
  lemma ChannelsInLog(c: Cluster, h: Hist, p: NodeID)
    requires Good(c, h) && p in c.peers && c.peers[p].role == Leader
    ensures forall i | i in c.peers[p].channels :: 0 < i < |c.peers[p].log|
  {
    hide Inv, PeersOk, PeerOk, MessagesOk, Linked, CommitOk, VotesRemembered, CandidateOk;
    GoodAt(c, h, p);
    forall i | i in c.peers[p].channels ensures 0 < i < |c.peers[p].log| {
      assert ChannelOk(c.peers[p], i, h);
    }
  }

  /** A new leader has no entry of its term yet. */
  lemma NothingPendingYet(c: Cluster, h: Hist, e: Event, p: NodeID)
    requires Good(c, h) && Enabled(c, e) && p in c.peers && p in Next(c, e).peers && Next(c, e).peers[p].role == Leader
    requires !(c.peers[p].role == Leader && c.peers[p].currentTerm == Next(c, e).peers[p].currentTerm)
    ensures AllWaited(Next(c, e).peers[p])
  {
    hide Good, Enabled, Next, HandleRequestVoteRespond;
    NewLeader(c, h, e, p);
    OnlyVotesMakeLeaders(c, e, p);
    OnlyActorSteps(c, e, p);
    VoteCounted(c.peers[p], e.voteReply.res);
    EarlierTerms(c, h, p, Next(c, e).peers[p].currentTerm);
  }

  lemma EarlierTerms(c: Cluster, h: Hist, p: NodeID, t: nat)
    requires Good(c, h) && p in c.peers && t !in h.leaderLog
    ensures forall k | 0 <= k < |c.peers[p].log| :: c.peers[p].log[k].term != t
  {
    hide Ordered, TermsBound, BallotsCast, LeadersElected, AcksGiven, AcksKept, LeadersKeep, AcksHeld;
    GoodAt(c, h, p);
    HistorySteps.ElectedNothingYet(h, p, t);
  }

  lemma StepKeepsWaited(c: Cluster, h: Hist, e: Event, p: NodeID)
    requires Good(c, h) && Enabled(c, e) && p in c.peers && p in Next(c, e).peers && AllWaited(c.peers[p])
    ensures AllWaited(Next(c, e).peers[p])
  {
    hide Good, Enabled, Next, StepPeer, CanStep;
    var a, b := c.peers[p], Next(c, e).peers[p];
    if b.role == Leader {
      if a.role == Leader && a.currentTerm == b.currentTerm {
        OnlyActorSteps(c, e, p);
        ChannelsInLog(c, h, p);
        if p == Actor(e) {
          StepWaits(a, e);
        }
      } else {
        NothingPendingYet(c, h, e, p);
      }
    }
  }

  // ----- over every run

  /** In every reachable state every command of a leader's term beyond its commit index has its channel. */
  lemma {:induction false} PendingHaveChannels(r: Run, i: nat, p: NodeID)
    requires IsRun(r) && PeerIn(r, i, p)
    ensures AllWaited(r.states[i].peers[p])
  {
    hide Good, Enabled, Next;
    if i > 0 {
      PeersStay(r, i - 1, p);
      PendingHaveChannels(r, i - 1, p);
      StepKeepsWaited(r.states[i - 1], HistAt(r, i - 1), r.events[i - 1], p);
    }
  }

  /** The waiter of an index has committed it between two states. */
  ghost predicate CommittedBetween(r: Run, i: nat, j: nat, p: NodeID, idx: int) {
    exists k :: i <= k < j && k < |r.events| && r.events[k] == Commit(p, idx)
  }

  /** A waiter's channel stays open throughout the leadership, losing no message, until the waiter commits. */
  lemma {:induction false} ChannelStays(r: Run, i: nat, j: nat, p: NodeID, t: nat, idx: int)
    requires IsRun(r) && i <= j && Leads(r, i, p, t) && Leads(r, j, p, t) && idx in r.states[i].peers[p].channels
    ensures CommittedBetween(r, i, j, p, idx) ||
      (idx in r.states[j].peers[p].channels && r.states[i].peers[p].channels[idx] <= r.states[j].peers[p].channels[idx])
  {
    hide Good, Enabled, Next, HistAt, StepPeer, CanStep;
    if i < j {
      LeadershipUnbroken(r, i, j - 1, j, p, t);
      ChannelStays(r, i, j - 1, p, t, idx);
      if CommittedBetween(r, i, j - 1, p, idx) {
        var k :| i <= k < j - 1 && k < |r.events| && r.events[k] == Commit(p, idx);
        assert i <= k < j && k < |r.events|;
      } else {
        StepKeepsChannel(r, j - 1, p, idx);
      }
    }
  }

  lemma StepKeepsChannel(r: Run, j: nat, p: NodeID, idx: int)
    requires IsRun(r) && PeerIn(r, j, p) && PeerIn(r, j + 1, p) && idx in r.states[j].peers[p].channels
    requires r.states[j].peers[p].role == r.states[j + 1].peers[p].role == Leader
    requires r.states[j].peers[p].currentTerm == r.states[j + 1].peers[p].currentTerm
    ensures r.events[j] == Commit(p, idx) ||
      (idx in r.states[j + 1].peers[p].channels &&
       r.states[j].peers[p].channels[idx] <= r.states[j + 1].peers[p].channels[idx])
  {
    hide Good, Enabled, Next, HistAt, StepPeer, CanStep;
    var c, e := r.states[j], r.events[j];
    OnlyActorSteps(c, e, p);
    ChannelsInLog(c, HistAt(r, j), p);
    if p == Actor(e) {
      StepWaits(c.peers[p], e);
    }
  }
}
