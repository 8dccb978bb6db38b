/** The cluster as a transition system. Each critical section of a peer is one step; the network
    may lose, delay and reorder messages and may deliver a request more than once. A message that
    is never delivered is lost; requests stay deliverable for ever, to any peer but their sender. */
module Cluster {
  import opened Wrappers
  import opened Messages
  import opened PeerModel
  import Ledger

  datatype VoteReply = VoteReply(voter: NodeID, candidate: NodeID, res: RequestVoteRes)

  datatype AppendReply = AppendReply(from: NodeID, req: AppendEntriesReq, res: AppendEntriesRes)

  datatype Cluster = Cluster(
    peers: map<NodeID, Peer>,
    voteRequests: set<RequestVoteReq>,
    voteReplies: set<VoteReply>,
    appendRequests: set<AppendEntriesReq>,
    appendReplies: set<AppendReply>,
    calls: map<(NodeID, NodeID), AppendEntriesReq>)  // the request a leader's loop for a target awaits a reply to

  datatype Event =
    | Timeout(p: NodeID)
    | ReceiveVoteRequest(v: NodeID, voteReq: RequestVoteReq)
    | ReceiveVoteReply(voteReply: VoteReply)
    | ClientRequest(p: NodeID, cmd: Option<Ledger.Action>)
    | SendAppend(p: NodeID, target: NodeID)
    | ReceiveAppend(v: NodeID, appendReq: AppendEntriesReq)
    | CrashInAppend(v: NodeID, appendReq: AppendEntriesReq)
    | ReceiveAppendReply(p: NodeID, appendReply: AppendReply)
    | Commit(p: NodeID, idx: int)
    | Crash(p: NodeID)

  function Init(nodes: set<NodeID>, thresholds: map<NodeID, int>): Cluster
    requires thresholds.Keys == nodes
  {
    Cluster(map v | v in nodes :: NewPeer(v, nodes - {v}, thresholds[v]), {}, {}, {}, {}, map[])
  }

  predicate LogsNotEmpty(c: Cluster) {
    forall v | v in c.peers :: c.peers[v].log != []
  }

  /** The peer whose critical section an event is. */
  function Actor(e: Event): NodeID {
    match e
    case Timeout(p) => p
    case ReceiveVoteRequest(v, _) => v
    case ReceiveVoteReply(r) => r.candidate
    case ClientRequest(p, _) => p
    case SendAppend(p, _) => p
    case ReceiveAppend(v, _) => v
    case CrashInAppend(v, _) => v
    case ReceiveAppendReply(p, _) => p
    case Commit(p, _) => p
    case Crash(p) => p
  }

  /** What the event takes of that peer. */
  predicate CanStep(p: Peer, e: Event) {
    p.log != [] &&
    match e
    case Timeout(_) => p.role != Leader
    case ReceiveVoteRequest(v, req) => v != req.candidateID
    case ClientRequest(_, _) => p.role == Leader
    case SendAppend(_, target) => p.role == Leader && CanSend(p, target)
    case ReceiveAppend(v, req) => v != req.leaderID
    case CrashInAppend(v, req) => v != req.leaderID && req.term >= p.currentTerm
    case ReceiveAppendReply(_, r) =>
      p.role == Leader && p.currentTerm == r.req.term && r.from in p.nextIndex && r.from in p.matchIndex
    case Commit(_, idx) => p.role == Leader && idx in p.channels && 2 * |p.channels[idx]| > p.TotalPeers()
    case _ => true
  }

  function StepPeer(p: Peer, e: Event): Peer
    requires CanStep(p, e)
  {
    match e
    case Timeout(_) => StartElection(p)
    case ReceiveVoteRequest(_, req) => HandleRequestVote(p, req).0
    case ReceiveVoteReply(r) => HandleRequestVoteRespond(p, r.res)
    case ClientRequest(_, cmd) => ClientAppend(p, LogEntry(cmd, p.currentTerm))
    case SendAppend(_, _) => p
    case ReceiveAppend(_, req) =>
      var (q, outcome) := HandleAppendEntries(p, req);
      if outcome.Replied? then q else Restart(q)
    case CrashInAppend(_, req) => Restart(AcceptLeader(p, req))
    case ReceiveAppendReply(_, r) => HandleAppendReply(p, r.from, r.req, r.res)
    case Commit(_, idx) => CommitPending(p, idx)
    case Crash(_) => Restart(p)
  }

  predicate Enabled(c: Cluster, e: Event) {
    && LogsNotEmpty(c)
    && Actor(e) in c.peers && CanStep(c.peers[Actor(e)], e)
    && match e
       case ReceiveVoteRequest(_, req) => req in c.voteRequests
       case ReceiveVoteReply(r) => r in c.voteReplies
       case ReceiveAppend(_, req) => req in c.appendRequests
       case CrashInAppend(_, req) => req in c.appendRequests
       case ReceiveAppendReply(p, r) => r in c.appendReplies && (p, r.from) in c.calls && c.calls[(p, r.from)] == r.req
       case _ => true
  }

  function SetPeer(c: Cluster, v: NodeID, p: Peer): Cluster {
    c.(peers := c.peers[v := p])
  }

  function Next(c: Cluster, e: Event): Cluster
    requires Enabled(c, e)
  {
    var p := c.peers[Actor(e)];
    var q := StepPeer(p, e);
    var c' := SetPeer(c, Actor(e), q);
    match e
    case Timeout(_) => c'.(voteRequests := c.voteRequests + {VoteRequest(q)})
    case ReceiveVoteRequest(v, req) =>
      c'.(voteReplies := c.voteReplies + {VoteReply(v, req.candidateID, HandleRequestVote(p, req).1)})
    case ReceiveVoteReply(r) => c'.(voteReplies := c.voteReplies - {r})
    case SendAppend(v, target) =>
      var req := AppendRequest(p, target);
      c'.(appendRequests := c.appendRequests + {req}, calls := c.calls[(v, target) := req])
    case ReceiveAppend(v, req) =>
      (match HandleAppendEntries(p, req).1
       case Replied(res) => c'.(appendReplies := c.appendReplies + {AppendReply(v, req, res)})
       case _ => c')
    case ReceiveAppendReply(v, r) => c'.(calls := c.calls - {(v, r.from)})
    case _ => c'
  }

  // ----- runs

  /** A run of the cluster: its states, and the step taken in each but the last. */
  datatype Run = Run(nodes: set<NodeID>, thresholds: map<NodeID, int>, states: seq<Cluster>, events: seq<Event>)

  ghost predicate IsRun(r: Run) {
    && r.nodes != {} && r.thresholds.Keys == r.nodes
    && |r.states| == |r.events| + 1
    && r.states[0] == Init(r.nodes, r.thresholds)
    && forall i | 0 <= i < |r.events| ::
         Enabled(r.states[i], r.events[i]) && r.states[i + 1] == Next(r.states[i], r.events[i])
  }
}
