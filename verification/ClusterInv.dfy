/** The invariant that ties a cluster to its history. */
module ClusterInv {
  import opened Wrappers
  import opened Messages
  import opened PeerModel
  import opened Cluster
  import opened H = History

  // ----- committed prefixes

  /** The log is part of what some leader of term at most t committed. */
  ghost predicate Certified(h: Hist, log: seq<LogEntry>, t: nat) {
    exists u: nat, n: nat :: Committed(h, u, n) && u <= t && log <= h.leaderLog[u][..n + 1]
  }

  lemma CertifiedStable(h: Hist, h': Hist, log: seq<LogEntry>, t: nat, t': nat)
    requires Grows(h, h') && Certified(h, log, t) && t <= t'
    ensures Certified(h', log, t')
  {
    var u: nat, n: nat :| Committed(h, u, n) && u <= t && log <= h.leaderLog[u][..n + 1];
    CommittedStable(h, h', u, n);
    OwnEntryStable(h, h', u, n);
  }

  /** Leader Completeness (section 5.4): what was committed, every leader since has. */
  lemma CertifiedInLeader(h: Hist, log: seq<LogEntry>, t: nat, u: nat)
    requires Shape(h) && LeadersKeep(h) && Certified(h, log, t) && t <= u && u in h.leaderLog
    ensures log <= h.leaderLog[u]
  {
    var w: nat, n: nat :| Committed(h, w, n) && w <= t && log <= h.leaderLog[w][..n + 1];
    CommittedNotDead(h, w, n);
    if w < u {
      assert HoldsOrDead(h, h.leaderLog[u], w, n);
    }
  }

  /** Any two committed prefixes agree. */
  lemma CertifiedAgree(h: Hist, a: seq<LogEntry>, b: seq<LogEntry>, t: nat, u: nat)
    requires Shape(h) && LeadersKeep(h) && Certified(h, a, t) && Certified(h, b, u)
    ensures a <= b || b <= a
  {
    var x: nat, n: nat :| Committed(h, x, n) && x <= t && a <= h.leaderLog[x][..n + 1];
    var y: nat, m: nat :| Committed(h, y, m) && y <= u && b <= h.leaderLog[y][..m + 1];
    assert Certified(h, a, x) && Certified(h, b, y);
    var z := if x < y then y else x;
    CertifiedInLeader(h, a, x, z);
    CertifiedInLeader(h, b, y, z);
  }

  // ----- peers

  ghost predicate Linked(p: Peer, v: NodeID, h: Hist)
    requires Shape(h) && v in h.nodes
  {
    && p.id == v && p.others == h.nodes - {v}
    && p.log == p.disk.log == h.log[v]
    && p.commitIndex == p.disk.commitIndex && p.snapIndex == p.disk.snapIndex
    && p.disk.currentTerm == h.term[v] <= p.currentTerm
  }

  ghost predicate CommitOk(p: Peer, v: NodeID, h: Hist)
    requires Shape(h) && v in h.nodes
  {
    && 0 <= p.commitIndex < |p.log|
    && -1 <= p.snapIndex <= p.commitIndex
    && Certified(h, p.log[..p.commitIndex + 1], h.term[v])
  }

  /** A vote is remembered for as long as its term lasts, across crashes. */
  ghost predicate VotesRemembered(p: Peer, v: NodeID, h: Hist) {
    forall t: nat | (v, t) in h.ballots ::
      && (t == p.currentTerm ==> p.votedFor == Some(h.ballots[(v, t)].candidate))
      && (t == p.disk.currentTerm ==> p.disk.votedFor == Some(h.ballots[(v, t)].candidate))
  }

  /** The peers whose vote the candidate has counted: itself, and those whose reply has arrived. */
  ghost function Counted(c: Cluster, h: Hist, v: NodeID, t: nat): set<NodeID> {
    set g | g in h.nodes && VotedFor(h, g, t, v) &&
            (g == v || VoteReply(g, v, RequestVoteRes(t, true)) !in c.voteReplies)
  }

  predicate VotedFor(h: Hist, g: NodeID, t: nat, v: NodeID) {
    (g, t) in h.ballots && h.ballots[(g, t)].candidate == v
  }

  ghost predicate CandidateOk(c: Cluster, p: Peer, v: NodeID, h: Hist)
    requires Shape(h) && v in h.nodes
  {
    p.role == Candidate ==>
      && h.term[v] == p.currentTerm
      && VotedFor(h, v, p.currentTerm, v)
      && p.voteCount == |Counted(c, h, v, p.currentTerm)|
      && p.log != []
      && (forall g | VotedFor(h, g, p.currentTerm, v) ::
            var b := h.ballots[(g, p.currentTerm)].log; b != [] && AtLeastAsUpToDate(p.log, b))
      && (p.currentTerm in h.leader ==> h.leader[p.currentTerm] != v)
  }

  ghost predicate LeaderOk(p: Peer, v: NodeID, h: Hist)
    requires Shape(h) && v in h.nodes
  {
    p.role == Leader ==>
      && p.currentTerm in h.leader && h.leader[p.currentTerm] == v
      && h.leaderLog[p.currentTerm] == p.log
      && h.term[v] == p.currentTerm
      && p.nextIndex.Keys == p.matchIndex.Keys == p.others
      && (forall t {:trigger TargetOk(p, t, h)} | t in p.others :: TargetOk(p, t, h))
      && (forall i {:trigger ChannelOk(p, i, h)} | i in p.channels :: ChannelOk(p, i, h))
  }

  ghost predicate TargetOk(p: Peer, t: NodeID, h: Hist)
    requires t in p.nextIndex && t in p.matchIndex
  {
    && 1 <= p.nextIndex[t] <= |p.log|
    && 0 <= p.matchIndex[t] < |p.log|
    && (p.matchIndex[t] > 0 ==> Acked(h, t, p.currentTerm, p.matchIndex[t]))
  }

  ghost predicate Distinct(s: seq<NodeID>) {
    forall i, j | 0 <= i < j < |s| :: s[i] != s[j]
  }

  /** Who has acknowledged index i to the leader, as its bookkeeping tells. */
  predicate Matches(p: Peer, t: NodeID, i: int) {
    t == p.id || (t in p.matchIndex && i <= p.matchIndex[t])
  }

  /** The channel of a pending index holds one message per peer that acknowledged it; once the
      index has been passed by the commit index it holds a majority. */
  ghost predicate ChannelOk(p: Peer, i: int, h: Hist)
    requires i in p.channels
  {
    && 0 < i < |p.log| && p.log[i].term == p.currentTerm
    && Distinct(p.channels[i])
    && (forall t | t in p.channels[i] :: t in h.nodes && Acked(h, t, p.currentTerm, i))
    && (if i > p.commitIndex then forall t :: t in p.channels[i] <==> Matches(p, t, i)
        else 2 * |p.channels[i]| > p.TotalPeers())
  }

  ghost predicate PeersOk(c: Cluster, h: Hist)
    requires Shape(h)
  {
    c.peers.Keys == h.nodes && forall v {:trigger PeerOk(c, v, h)} | v in h.nodes :: PeerOk(c, v, h)
  }

  ghost predicate PeerOk(c: Cluster, v: NodeID, h: Hist)
    requires Shape(h) && v in h.nodes && v in c.peers
  {
    && Linked(c.peers[v], v, h)
    && CommitOk(c.peers[v], v, h)
    && VotesRemembered(c.peers[v], v, h)
    && CandidateOk(c, c.peers[v], v, h)
    && LeaderOk(c.peers[v], v, h)
  }

  // ----- messages

  ghost predicate BallotsAsked(h: Hist)
    requires Shape(h)
  {
    forall g, t | (g, t) in h.ballots ::
      var v := h.ballots[(g, t)].candidate;
      v in h.nodes && t <= h.term[v]
  }

  /** A request for votes speaks for its candidate as long as the candidacy lasts. */
  ghost predicate VoteRequestOk(c: Cluster, h: Hist, m: RequestVoteReq)
    requires Shape(h) && c.peers.Keys == h.nodes
  {
    && m.candidateID in h.nodes
    && 0 < m.term <= h.term[m.candidateID]
    && var p := c.peers[m.candidateID];
       p.role == Candidate && p.currentTerm == m.term ==>
         p.log != [] && m.lastLogIndex == |p.log| - 1 && m.lastLogTerm == p.LastTerm()
  }

  ghost predicate VoteReplyOk(h: Hist, r: VoteReply) {
    r.res.voteGranted ==> r.voter in h.nodes && r.voter != r.candidate && VotedFor(h, r.voter, r.res.term, r.candidate)
  }

  /** A request to append carries a stretch of its leader's log and a commit index within it. */
  ghost predicate AppendRequestOk(h: Hist, m: AppendEntriesReq) {
    && m.term in h.leader && h.leader[m.term] == m.leaderID
    && m.term in h.leaderLog
    && var l := h.leaderLog[m.term];
       && 0 <= m.prevLogIndex && m.End() < |l|
       && m.prevLogTerm == l[m.prevLogIndex].term
       && m.entries == l[m.prevLogIndex + 1..m.End() + 1]
       && 0 <= m.leaderCommit <= m.End()
       && Certified(h, l[..m.leaderCommit + 1], m.term)
  }

  ghost predicate AppendReplyOk(h: Hist, r: AppendReply) {
    && r.from in h.nodes
    && AppendRequestOk(h, r.req)
    && (r.res.success ==> Acked(h, r.from, r.req.term, r.req.End()))
    && (!r.res.success && r.res.term <= r.req.term ==> r.req.prevLogIndex >= 1)
  }

  ghost predicate CallOk(c: Cluster, h: Hist, p: NodeID, t: NodeID, m: AppendEntriesReq) {
    && p in c.peers && t != p
    && AppendRequestOk(h, m)
    && (c.peers[p].role == Leader && c.peers[p].currentTerm == m.term ==>
          && t in c.peers[p].matchIndex && c.peers[p].matchIndex[t] <= m.End()
          && t in c.peers[p].nextIndex && c.peers[p].nextIndex[t] == m.prevLogIndex + 1)
  }

  ghost predicate MessagesOk(c: Cluster, h: Hist)
    requires Shape(h) && c.peers.Keys == h.nodes
  {
    && BallotsAsked(h)
    && (forall m {:trigger VoteRequestOk(c, h, m)} | m in c.voteRequests :: VoteRequestOk(c, h, m))
    && (forall r {:trigger VoteReplyOk(h, r)} | r in c.voteReplies :: VoteReplyOk(h, r))
    && (forall m {:trigger AppendRequestOk(h, m)} | m in c.appendRequests :: AppendRequestOk(h, m))
    && (forall r {:trigger AppendReplyOk(h, r)} | r in c.appendReplies :: AppendReplyOk(h, r))
    && (forall p, t | (p, t) in c.calls :: CallOk(c, h, p, t, c.calls[(p, t)]))
  }

  ghost predicate Good(c: Cluster, h: Hist) {
    Inv(h) && PeersOk(c, h) && MessagesOk(c, h)
  }

  // ----- the history a step leaves behind

  ghost function HistoryAfter(c: Cluster, h: Hist, e: Event): Hist
    requires Enabled(c, e) && Shape(h) && c.peers.Keys == h.nodes
  {
    match e
    case Timeout(p) => CastBallot(h, p, c.peers[p].currentTerm + 1, p)
    case ReceiveVoteRequest(v, req) =>
      if HandleRequestVote(c.peers[v], req).1.voteGranted then CastBallot(h, v, req.term, req.candidateID) else h
    case ReceiveVoteReply(r) =>
      var p, q := c.peers[r.candidate], Next(c, e).peers[r.candidate];
      if p.role == Candidate && q.role == Leader then
        Elect(h, r.candidate, p.currentTerm, Counted(Next(c, e), h, r.candidate, p.currentTerm))
      else h
    case ClientRequest(p, cmd) => H.Append(h, p, c.peers[p].currentTerm, LogEntry(cmd, c.peers[p].currentTerm))
    case ReceiveAppend(v, req) =>
      if req.term < c.peers[v].currentTerm then h
      else
        var (q, outcome) := HandleAppendEntries(c.peers[v], req);
        if outcome.Replied? && outcome.res.success && req.End() >= 0 then
          Accept(h, v, req.term, req.End() + 1, q.log)
        else RaiseTerm(h, v, req.term)
    case CrashInAppend(v, req) => RaiseTerm(h, v, req.term)
    case ReceiveAppendReply(p, r) =>
      if !r.res.success && r.res.term > c.peers[p].currentTerm then RaiseTerm(h, p, r.res.term) else h
    case _ => h
  }

  /** A step that keeps the cluster in order, with a history that forgets nothing. */
  ghost predicate Keeps(c: Cluster, h: Hist, e: Event)
    requires Enabled(c, e) && Shape(h) && c.peers.Keys == h.nodes
  {
    Good(Next(c, e), HistoryAfter(c, h, e)) && Advances(h, HistoryAfter(c, h, e))
  }
}
