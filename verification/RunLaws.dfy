/** What holds over every run of the cluster: the safety properties of Figure 3 of the Raft paper
    ("In Search of an Understandable Consensus Algorithm"), and what this implementation adds. */
module RunLaws {
  import opened Wrappers
  import opened Messages
  import opened PeerModel
  import opened PeerLaws
  import opened Cluster
  import opened H = History
  import opened HistorySteps
  import opened ClusterInv
  import opened ClusterFrames
  import FollowerSteps
  import ElectionSteps
  import LeaderSteps
  import Ledger

  // ----- the invariant along a run

  lemma InitGood(nodes: set<NodeID>, thresholds: map<NodeID, int>)
    requires nodes != {} && thresholds.Keys == nodes
    ensures Good(Init(nodes, thresholds), Begin(nodes))
  {
    var c, h := Init(nodes, thresholds), Begin(nodes);
    BeginInv(nodes);
    assert Supporters(h, 0, 0) == nodes;
    assert Committed(h, 0, 0);
    forall v | v in h.nodes ensures PeerOk(c, v, h) {
      assert c.peers[v].log[..1] == h.leaderLog[0][..1];
    }
  }

  lemma StepKeeps(c: Cluster, h: Hist, e: Event)
    requires Good(c, h) && Enabled(c, e)
    ensures Keeps(c, h, e)
  {
    hide Inv, PeerOk, MessagesOk, Next, Enabled, Grows;
    match e
    case Timeout(p) => ElectionSteps.TimeoutKeeps(c, h, p);
    case ReceiveVoteRequest(v, req) => ElectionSteps.ReceiveVoteRequestKeeps(c, h, v, req);
    case ReceiveVoteReply(r) => ElectionSteps.ReceiveVoteReplyKeeps(c, h, r);
    case ClientRequest(p, cmd) => LeaderSteps.ClientRequestKeeps(c, h, p, cmd);
    case SendAppend(p, target) => LeaderSteps.SendAppendKeeps(c, h, p, target);
    case ReceiveAppend(v, req) => FollowerSteps.ReceiveAppendKeeps(c, h, v, req);
    case CrashInAppend(v, req) => FollowerSteps.CrashInAppendKeeps(c, h, v, req);
    case ReceiveAppendReply(p, r) => LeaderSteps.ReceiveAppendReplyKeeps(c, h, p, r);
    case Commit(p, idx) => LeaderSteps.CommitKeeps(c, h, p, idx);
    case Crash(p) => FollowerSteps.CrashKeeps(c, h, p);
  }

  /** The history of a run up to its i-th state. */
  ghost function HistAt(r: Run, i: nat): (h: Hist)
    requires IsRun(r) && i < |r.states|
    ensures Good(r.states[i], h) && h.nodes == r.nodes
  {
    hide Inv, PeerOk, MessagesOk, HistoryAfter, Next, Enabled;
    if i == 0 then
      InitGood(r.nodes, r.thresholds);
      Begin(r.nodes)
    else
      var h := HistAt(r, i - 1);
      StepKeeps(r.states[i - 1], h, r.events[i - 1]);
      HistoryAfter(r.states[i - 1], h, r.events[i - 1])
  }

  lemma {:induction false} HistoryGrows(r: Run, i: nat, j: nat)
    requires IsRun(r) && i <= j < |r.states|
    ensures Grows(HistAt(r, i), HistAt(r, j))
  {
    hide Good, HistoryAfter, Next, Enabled;
    if i < j {
      HistoryGrows(r, i, j - 1);
      StepKeeps(r.states[j - 1], HistAt(r, j - 1), r.events[j - 1]);
      GrowsOn(HistAt(r, i), HistAt(r, j - 1), HistAt(r, j));
    } else {
      StayGrows(HistAt(r, i));
    }
  }

  lemma StayGrows(h: Hist)
    ensures Grows(h, h)
  {
  }

  lemma GrowsOn(a: Hist, b: Hist, c: Hist)
    requires Grows(a, b) && Grows(b, c)
    ensures Grows(a, c)
  {
    forall t | t in a.leaderLog ensures t in c.leaderLog && a.leaderLog[t] <= c.leaderLog[t] {
      assert a.leaderLog[t] <= b.leaderLog[t] <= c.leaderLog[t];
    }
  }

  /** What the invariant says about one peer of one state. */
  lemma PeerAt(r: Run, i: nat, p: NodeID)
    requires IsRun(r) && i < |r.states| && p in r.nodes
    ensures p in r.states[i].peers && Shape(HistAt(r, i)) && PeerOk(r.states[i], p, HistAt(r, i))
  {
    var h := HistAt(r, i);
    assert PeerOk(r.states[i], p, h);
  }

  lemma ClusterPeers(r: Run, i: nat, p: NodeID)
    requires IsRun(r) && i < |r.states| && p in r.states[i].peers
    ensures PeerIn(r, i, p)
  {
    var h := HistAt(r, i);
  }

  /** A peer is named by its key, and every other one is its peer. */
  lemma PeerIdentity(r: Run, i: nat, p: NodeID)
    requires IsRun(r) && PeerIn(r, i, p)
    ensures r.states[i].peers[p].id == p && r.states[i].peers[p].others == r.nodes - {p}
  {
    hide HistAt;
    PeerAt(r, i, p);
  }

  ghost predicate PeerIn(r: Run, i: int, p: NodeID)
  {
    0 <= i < |r.states| && p in r.nodes && p in r.states[i].peers
  }

  /** Every peer is there in every state. */
  lemma PeersStay(r: Run, i: nat, p: NodeID)
    requires IsRun(r) && i < |r.states| && p in r.nodes
    ensures PeerIn(r, i, p)
  {
    PeerAt(r, i, p);
  }

  // ----- Election Safety

  /** At most one peer ever leads in a term, however many crashes, losses and retries there are. */
  lemma ElectionSafety(r: Run, i: nat, j: nat, p: NodeID, q: NodeID)
    requires IsRun(r) && i <= j && PeerIn(r, i, p) && PeerIn(r, j, q)
    requires r.states[i].peers[p].role == Leader && r.states[j].peers[q].role == Leader
    requires r.states[i].peers[p].currentTerm == r.states[j].peers[q].currentTerm
    ensures p == q
  {
    hide Inv, MessagesOk, HistAt;
    PeerAt(r, i, p);
    PeerAt(r, j, q);
    HistoryGrows(r, i, j);
  }

  // ----- Log Matching

  /** Two logs, of any peers at any times, with the same term at an index agree up to it. */
  lemma LogMatching(r: Run, i: nat, j: nat, p: NodeID, q: NodeID, k: nat)
    requires IsRun(r) && i <= j && PeerIn(r, i, p) && PeerIn(r, j, q)
    requires k < |r.states[i].peers[p].log| && k < |r.states[j].peers[q].log|
    requires r.states[i].peers[p].log[k].term == r.states[j].peers[q].log[k].term
    ensures r.states[i].peers[p].log[..k + 1] == r.states[j].peers[q].log[..k + 1]
  {
    hide HistAt, PeersOk, MessagesOk, CommitOk, VotesRemembered, CandidateOk, LeaderOk;
    var h, h' := HistAt(r, i), HistAt(r, j);
    PeerAt(r, i, p);
    PeerAt(r, j, q);
    HistoryGrows(r, i, j);
    assert Traced(h.leaderLog, h.log[p]) && Traced(h'.leaderLog, h'.log[q]);
    TracedStable(h.leaderLog, h'.leaderLog, h.log[p]);
    TracedLogsMatch(h'.leaderLog, h.log[p], h'.log[q], k);
  }

  /** Terms never go down along a log, and never exceed the peer's own. */
  lemma TermsAscend(r: Run, i: nat, p: NodeID, j: nat, k: nat)
    requires IsRun(r) && PeerIn(r, i, p) && j <= k < |r.states[i].peers[p].log|
    ensures var a := r.states[i].peers[p]; a.log[j].term <= a.log[k].term <= a.currentTerm
  {
    hide HistAt, PeersOk, MessagesOk, CommitOk, VotesRemembered, CandidateOk, LeaderOk;
    hide BallotsCast, LeadersElected, AcksGiven, AcksKept, LeadersKeep;
    PeerAt(r, i, p);
    var h := HistAt(r, i);
    TracedOrdered(h.leaderLog, h.log[p], j, k);
    TracedOrdered(h.leaderLog, h.log[p], k, |h.log[p]| - 1);
  }

  /** A leader has every entry of its term that anyone has. */
  lemma LeaderHasItsEntries(r: Run, i: nat, p: NodeID, q: NodeID, k: nat)
    requires IsRun(r) && PeerIn(r, i, p) && PeerIn(r, i, q)
    requires r.states[i].peers[p].role == Leader && k < |r.states[i].peers[q].log|
    requires r.states[i].peers[q].log[k].term == r.states[i].peers[p].currentTerm
    ensures r.states[i].peers[q].log[..k + 1] <= r.states[i].peers[p].log
  {
    hide HistAt, PeersOk, MessagesOk, CommitOk, VotesRemembered, CandidateOk;
    hide Ordered, TermsBound, BallotsCast, LeadersElected, AcksGiven, AcksKept, LeadersKeep;
    PeerAt(r, i, p);
    PeerAt(r, i, q);
    var h := HistAt(r, i);
    assert Traced(h.leaderLog, h.log[q]) && TracedAt(h.leaderLog, h.log[q], k);
  }

  // ----- Leader Completeness

  /** From the moment a majority of a pending index's messages is in, every leader of that term or
      a later one has the entry and everything before it. */
  lemma LeaderCompleteness(r: Run, i: nat, j: nat, p: NodeID, idx: int, q: NodeID)
    requires IsRun(r) && i <= j && PeerIn(r, i, p) && PeerIn(r, j, q)
    requires Enabled(r.states[i], Commit(p, idx))
    requires r.states[j].peers[q].role == Leader && r.states[j].peers[q].currentTerm >= r.states[i].peers[p].currentTerm
    ensures 0 <= idx < |r.states[i].peers[p].log|
    ensures r.states[i].peers[p].log[..idx + 1] <= r.states[j].peers[q].log
  {
    hide HistAt, Certified, Grows, Enabled, Good;
    hide PeersOk, MessagesOk, PeerOk;
    PendingCertified(r, i, p, idx);
    HistoryGrows(r, i, j);
    var h, h' := HistAt(r, i), HistAt(r, j);
    var a := r.states[i].peers[p];
    CertifiedStable(h, h', a.log[..idx + 1], a.currentTerm, a.currentTerm);
    CertifiedLeads(r, j, q, a.log[..idx + 1], a.currentTerm);
  }

  lemma PendingCertified(r: Run, i: nat, p: NodeID, idx: int)
    requires IsRun(r) && PeerIn(r, i, p) && Enabled(r.states[i], Commit(p, idx))
    ensures var a := r.states[i].peers[p];
      0 <= idx < |a.log| && Certified(HistAt(r, i), a.log[..idx + 1], a.currentTerm)
  {
    hide HistAt, PeersOk, MessagesOk, CommitOk, VotesRemembered, CandidateOk, Inv;
    var h, a := HistAt(r, i), r.states[i].peers[p];
    CommitEnabled(r.states[i], p, idx);
    hide Enabled;
    PeerAt(r, i, p);
    assert ChannelOk(a, idx, h);
    assert |h.nodes - {p}| == |h.nodes| - 1;
    LeaderSteps.PendingCommitted(a, h, idx);
    assert Certified(h, a.log[..idx + 1], a.currentTerm);
  }

  /** What is certified by a term, a leader of that or a later one has. */
  lemma CertifiedLeads(r: Run, j: nat, q: NodeID, log: seq<LogEntry>, t: nat)
    requires IsRun(r) && PeerIn(r, j, q) && r.states[j].peers[q].role == Leader
    requires Certified(HistAt(r, j), log, t) && t <= r.states[j].peers[q].currentTerm
    ensures log <= r.states[j].peers[q].log
  {
    hide HistAt, PeersOk, MessagesOk, CommitOk, VotesRemembered, CandidateOk, Certified;
    hide LogsTraced, Ordered, TermsBound, BallotsCast, LeadersElected, AcksGiven, AcksKept, LeadersKeep;
    hide TargetOk, ChannelOk;
    PeerAt(r, j, q);
    CertifiedInLeader(HistAt(r, j), log, t, r.states[j].peers[q].currentTerm);
  }

  /** Every leader has what any peer has committed in an earlier state of no later term. */
  lemma LeadersHaveCommitted(r: Run, i: nat, j: nat, p: NodeID, q: NodeID)
    requires IsRun(r) && i <= j && PeerIn(r, i, p) && PeerIn(r, j, q)
    requires r.states[j].peers[q].role == Leader && r.states[j].peers[q].currentTerm >= r.states[i].peers[p].currentTerm
    ensures 0 <= r.states[i].peers[p].commitIndex < |r.states[i].peers[p].log|
    ensures var a := r.states[i].peers[p]; a.log[..a.commitIndex + 1] <= r.states[j].peers[q].log
  {
    hide HistAt, PeersOk, MessagesOk, VotesRemembered, CandidateOk;
    hide LogsTraced, Ordered, TermsBound, BallotsCast, LeadersElected, AcksGiven, AcksKept, LeadersKeep;
    hide Certified, Grows, LeaderOk;
    var h, h' := HistAt(r, i), HistAt(r, j);
    var a := r.states[i].peers[p];
    PeerAt(r, i, p);
    HistoryGrows(r, i, j);
    CertifiedStable(h, h', a.log[..a.commitIndex + 1], h.term[p], h.term[p]);
    CertifiedLeads(r, j, q, a.log[..a.commitIndex + 1], h.term[p]);
  }

  // ----- State Machine Safety

  /** What two peers have committed, at whatever times, agrees. */
  lemma CommittedPrefixesAgree(r: Run, i: nat, j: nat, p: NodeID, q: NodeID)
    requires IsRun(r) && i <= j && PeerIn(r, i, p) && PeerIn(r, j, q)
    ensures var a, b := r.states[i].peers[p], r.states[j].peers[q];
      && 0 <= a.commitIndex < |a.log| && 0 <= b.commitIndex < |b.log|
      && (a.log[..a.commitIndex + 1] <= b.log[..b.commitIndex + 1] ||
          b.log[..b.commitIndex + 1] <= a.log[..a.commitIndex + 1])
  {
    hide HistAt, PeersOk, MessagesOk, VotesRemembered, CandidateOk, LeaderOk;
    hide LogsTraced, Ordered, TermsBound, BallotsCast, LeadersElected, AcksGiven, AcksKept, LeadersKeep;
    var h, h' := HistAt(r, i), HistAt(r, j);
    var a, b := r.states[i].peers[p], r.states[j].peers[q];
    PeerAt(r, i, p);
    PeerAt(r, j, q);
    HistoryGrows(r, i, j);
    CertifiedStable(h, h', a.log[..a.commitIndex + 1], h.term[p], h.term[p]);
    CertifiedAgree(h', a.log[..a.commitIndex + 1], b.log[..b.commitIndex + 1], h.term[p], h'.term[q]);
  }

  /** No two peers ever apply different commands at the same index. */
  lemma StateMachineSafety(r: Run, i: nat, j: nat, p: NodeID, q: NodeID, k: nat)
    requires IsRun(r) && i <= j && PeerIn(r, i, p) && PeerIn(r, j, q)
    requires k <= r.states[i].peers[p].commitIndex && k <= r.states[j].peers[q].commitIndex
    ensures k < |r.states[i].peers[p].log| && k < |r.states[j].peers[q].log|
    ensures r.states[i].peers[p].log[k] == r.states[j].peers[q].log[k]
  {
    CommittedPrefixesAgree(r, i, j, p, q);
    var a, b := r.states[i].peers[p], r.states[j].peers[q];
    assert a.log[..a.commitIndex + 1][k] == b.log[..b.commitIndex + 1][k];
  }

  /** The ledger of a peer, and the snapshot it took last, as its log and indices determine them. */
  ghost function LedgerOf(p: Peer): Ledger.State
    requires 0 <= p.commitIndex < |p.log|
  {
    Replay(p.log[..p.commitIndex + 1])
  }

  ghost function SnapshotOf(p: Peer): Option<Snapshot>
    requires p.snapIndex < |p.log|
  {
    if p.snapIndex < 0 then None
    else Some(Snapshot(p.snapIndex, p.log[p.snapIndex].term, Replay(p.log[..p.snapIndex + 1])))
  }

  /** Peers with the same commit index have the same ledger, whatever the times. */
  lemma LedgersAgree(r: Run, i: nat, j: nat, p: NodeID, q: NodeID)
    requires IsRun(r) && i <= j && PeerIn(r, i, p) && PeerIn(r, j, q)
    requires r.states[i].peers[p].commitIndex == r.states[j].peers[q].commitIndex
    ensures var a, b := r.states[i].peers[p], r.states[j].peers[q];
      0 <= a.commitIndex < |a.log| && b.commitIndex < |b.log| && LedgerOf(a) == LedgerOf(b)
  {
    CommittedPrefixesAgree(r, i, j, p, q);
    var a, b := r.states[i].peers[p], r.states[j].peers[q];
    assert a.log[..a.commitIndex + 1] == b.log[..b.commitIndex + 1];
  }

  /** Two snapshots are the same as soon as they were taken at the same index, whatever the
      thresholds, the restarts and the times. */
  lemma SnapshotsAgree(r: Run, i: nat, j: nat, p: NodeID, q: NodeID)
    requires IsRun(r) && i <= j && PeerIn(r, i, p) && PeerIn(r, j, q)
    ensures var a, b := r.states[i].peers[p], r.states[j].peers[q];
      && -1 <= a.snapIndex < |a.log| && -1 <= b.snapIndex < |b.log|
      && (SnapshotOf(a) == SnapshotOf(b) <==> a.snapIndex == b.snapIndex)
  {
    CommittedPrefixesAgree(r, i, j, p, q);
    SnapshotBounds(r, i, p);
    SnapshotBounds(r, j, q);
    var a, b := r.states[i].peers[p], r.states[j].peers[q];
    if a.snapIndex == b.snapIndex >= 0 {
      SamePrefix(a.log, b.log, a.commitIndex, b.commitIndex, a.snapIndex);
    }
  }

  lemma SamePrefix(a: seq<LogEntry>, b: seq<LogEntry>, i: nat, j: nat, k: nat)
    requires k <= i < |a| && k <= j < |b| && (a[..i + 1] <= b[..j + 1] || b[..j + 1] <= a[..i + 1])
    ensures a[..k + 1] == b[..k + 1] && a[k] == b[k]
  {
    assert a[..k + 1] == a[..i + 1][..k + 1] == b[..j + 1][..k + 1] == b[..k + 1];
    assert a[k] == a[..k + 1][k] == b[k];
  }

  lemma SnapshotBounds(r: Run, i: nat, p: NodeID)
    requires IsRun(r) && PeerIn(r, i, p)
    ensures var a := r.states[i].peers[p]; -1 <= a.snapIndex <= a.commitIndex < |a.log|
  {
    PeerAt(r, i, p);
  }

  // ----- what AppendEntries never does

  /** Neither the exit nor the error report about overridden committed entries is reachable, for
      requests however old. */
  lemma CommittedNeverOverridden(r: Run, i: nat, v: NodeID, req: AppendEntriesReq)
    requires IsRun(r) && PeerIn(r, i, v) && req in r.states[i].appendRequests
    ensures HandleAppendEntries(r.states[i].peers[v], req).1 != Fatal
    ensures !ReportsOverride(r.states[i].peers[v], req)
  {
    hide HistAt, PeersOk, VotesRemembered, CandidateOk, LeaderOk, Linked, CommitOk;
    hide HandleAppendEntries, ReportsOverride;
    PeerAt(r, i, v);
    var h := HistAt(r, i);
    assert AppendRequestOk(h, req);
    FollowerSteps.NeverFatal(r.states[i], h, v, req);
    FollowerSteps.NeverOverrides(r.states[i], h, v, req);
  }

  /** What remains possible is running out of range, and only for a request overtaken by the follower:
      one that starts below its snapshot, or brings entries it already holds and has gone beyond. */
  lemma AppendDiesExactly(r: Run, i: nat, v: NodeID, req: AppendEntriesReq)
    requires IsRun(r) && PeerIn(r, i, v) && req in r.states[i].appendRequests
    ensures 0 <= req.prevLogIndex
    ensures var p := r.states[i].peers[v];
      HandleAppendEntries(p, req).1 == OutOfRange <==>
        && req.term >= p.currentTerm && req.prevLogIndex < |p.log|
        && (req.prevLogIndex < p.snapIndex ||
            (p.log[req.prevLogIndex].term == req.prevLogTerm && req.entries != [] &&
             HoldsBeyond(p.log, req.prevLogIndex, req.entries)))
  {
    hide HistAt, PeersOk, CommitOk, VotesRemembered, CandidateOk, LeaderOk, HandleAppendEntries;
    PeerAt(r, i, v);
    var h := HistAt(r, i);
    assert AppendRequestOk(h, req);
    FollowerSteps.LogsMatch(r.states[i].peers[v], h, v, req);
    PeerLaws.AppendDiesExactly(r.states[i].peers[v], h.leaderLog[req.term], req);
  }

  /** Every request ever sent carries a commit index within what it covers, and every peer that
      accepts one then holds the entries sent, so it commits only what the leader had sending it. */
  lemma CommitWithinRequest(r: Run, i: nat, v: NodeID, req: AppendEntriesReq)
    requires IsRun(r) && PeerIn(r, i, v) && req in r.states[i].appendRequests
    ensures 0 <= req.leaderCommit <= req.End()
    ensures var (q, outcome) := HandleAppendEntries(r.states[i].peers[v], req);
      outcome == Replied(AppendEntriesRes(req.term, true)) && req.term >= r.states[i].peers[v].currentTerm ==>
        && 0 <= req.prevLogIndex && HoldsRequest(q.log, req)
        && q.commitIndex == Max(r.states[i].peers[v].commitIndex, req.leaderCommit)
  {
    hide HistAt, PeersOk, VotesRemembered, CandidateOk, LeaderOk, CommitOk, Certified, HandleAppendEntries, Succeeds;
    hide Ordered, TermsBound, BallotsCast, LeadersElected, AcksGiven, AcksKept, LeadersKeep, TookEntries;
    PeerAt(r, i, v);
    var h, p := HistAt(r, i), r.states[i].peers[v];
    assert AppendRequestOk(h, req);
    if req.term >= p.currentTerm {
      FollowerSteps.SucceedsMeans(p, req);
      SucceedsAs(p, req);
      if Succeeds(p, req) {
        SuccessTakesEntries(p, req);
        TakenHolds(r.states[i], h, v, req, HandleAppendEntries(p, req).0);
      }
    }
  }

  lemma SucceedsAs(p: Peer, req: AppendEntriesReq)
    ensures HandleAppendEntries(p, req).1 == Replied(AppendEntriesRes(req.term, true)) <==> Succeeds(p, req)
  {
    hide HandleAppendEntries;
  }

  lemma TakenHolds(c: Cluster, h: Hist, v: NodeID, req: AppendEntriesReq, q: Peer)
    requires Shape(h) && LogsTraced(h) && v in h.nodes && v in c.peers
    requires Linked(c.peers[v], v, h) && AppendRequestOk(h, req)
    requires req.prevLogIndex < |c.peers[v].log| && c.peers[v].log[req.prevLogIndex].term == req.prevLogTerm
    requires req.entries != [] ==> !ScanOverruns(c.peers[v].log, req.prevLogIndex, req.entries)
    requires TookEntries(c.peers[v], q, req)
    ensures 0 <= req.prevLogIndex <= req.End() < |q.log| && q.log[req.prevLogIndex].term == req.prevLogTerm
    ensures q.log[req.prevLogIndex + 1..req.End() + 1] == req.entries
    ensures q.commitIndex == Max(c.peers[v].commitIndex, req.leaderCommit)
  {
    hide LogsTraced, Linked, ScanOverruns, NewLog, KeepsCommon, Certified, OnDisk;
    FollowerSteps.SuccessAccepts(c, h, v, req, q);
    HoldsStretch(q.log, h.leaderLog[req.term], req);
  }

  lemma HoldsStretch(log: seq<LogEntry>, leader: seq<LogEntry>, req: AppendEntriesReq)
    requires 0 <= req.prevLogIndex && req.End() < |leader| && leader[..req.End() + 1] <= log
    requires req.entries == leader[req.prevLogIndex + 1..req.End() + 1]
    requires req.prevLogTerm == leader[req.prevLogIndex].term
    ensures req.End() < |log| && log[req.prevLogIndex].term == req.prevLogTerm
    ensures log[req.prevLogIndex + 1..req.End() + 1] == req.entries
  {
    var common := leader[..req.End() + 1];
    assert log[..req.End() + 1] == common;
    assert forall k | 0 <= k <= req.End() :: log[k] == log[..req.End() + 1][k] == leader[k];
  }

  // ----- votes

  /** The voter's disk has carried a vote for the candidate in the term. */
  ghost predicate HasVoted(r: Run, now: nat, g: NodeID, t: nat, candidate: NodeID) {
    exists k: nat :: k <= now && PeerIn(r, k, g) && DiskVote(r.states[k].peers[g], t, candidate)
  }

  predicate DiskVote(p: Peer, t: nat, candidate: NodeID) {
    p.disk.currentTerm == t && p.disk.votedFor == Some(candidate)
  }

  /** Every ballot of the history was once on the voter's disk. */
  lemma {:induction false} BallotOnDisk(r: Run, i: nat, g: NodeID, t: nat)
    requires IsRun(r) && i < |r.states| && (g, t) in HistAt(r, i).ballots
    ensures HasVoted(r, i, g, t, HistAt(r, i).ballots[(g, t)].candidate)
  {
    hide Good, Enabled, Next, HistoryAfter;
    var h := HistAt(r, i);
    assert i > 0;
    var before := HistAt(r, i - 1);
    StepKeeps(r.states[i - 1], before, r.events[i - 1]);
    if (g, t) in before.ballots {
      assert h.ballots[(g, t)] == before.ballots[(g, t)];
      BallotOnDisk(r, i - 1, g, t);
      var candidate := before.ballots[(g, t)].candidate;
      var k: nat :| k <= i - 1 && PeerIn(r, k, g) && DiskVote(r.states[k].peers[g], t, candidate);
    } else {
      BallotNow(r.states[i], h, g, t);
      PeersStay(r, i, g);
    }
  }

  lemma BallotNow(c: Cluster, h: Hist, g: NodeID, t: nat)
    requires Good(c, h) && (g, t) in h.ballots && g in h.term && h.term[g] == t
    ensures g in h.nodes && g in c.peers
    ensures DiskVote(c.peers[g], t, h.ballots[(g, t)].candidate)
  {
    assert PeerOk(c, g, h);
  }

  /** The bare counter of a candidate is the number of distinct peers that granted it a vote. */
  lemma VoteCountIsHonest(r: Run, i: nat, p: NodeID) returns (granters: set<NodeID>)
    requires IsRun(r) && PeerIn(r, i, p) && r.states[i].peers[p].role == Candidate
    ensures granters <= r.nodes && |granters| == r.states[i].peers[p].voteCount
    ensures forall g | g in granters :: HasVoted(r, i, g, r.states[i].peers[p].currentTerm, p)
  {
    hide HistAt, Inv, MessagesOk, CommitOk, VotesRemembered, LeaderOk;
    var h := HistAt(r, i);
    var t := r.states[i].peers[p].currentTerm;
    PeerAt(r, i, p);
    granters := Counted(r.states[i], h, p, t);
    forall g | g in granters ensures HasVoted(r, i, g, t, p) {
      assert VotedFor(h, g, t, p);
      BallotOnDisk(r, i, g, t);
    }
  }

  /** A granted vote is never forgotten: as long as the voter's term is the vote's, in memory or on
      disk, the vote is there; and the disk never falls back below it. */
  lemma GrantedVotesKept(r: Run, i: nat, j: nat, reply: VoteReply)
    requires IsRun(r) && i <= j < |r.states| && reply in r.states[i].voteReplies && reply.res.voteGranted
    ensures PeerIn(r, j, reply.voter)
    ensures var p := r.states[j].peers[reply.voter];
      && reply.res.term <= p.disk.currentTerm <= p.currentTerm
      && (p.disk.currentTerm == reply.res.term ==> p.disk.votedFor == Some(reply.candidate))
      && (p.currentTerm == reply.res.term ==> p.votedFor == Some(reply.candidate))
  {
    hide HistAt, PeersOk, CommitOk, CandidateOk, LeaderOk;
    hide LogsTraced, Ordered, TermsBound, LeadersElected, AcksGiven, AcksKept, LeadersKeep;
    var h, h' := HistAt(r, i), HistAt(r, j);
    assert VoteReplyOk(h, reply);
    HistoryGrows(r, i, j);
    PeerAt(r, j, reply.voter);
    assert h'.ballots[(reply.voter, reply.res.term)].candidate == reply.candidate;
  }

  // ----- acknowledgements

  /** The follower's disk has carried this prefix of the leader's log, in the leader's term. */
  ghost predicate HasStored(r: Run, now: nat, v: NodeID, t: nat, log: seq<LogEntry>) {
    exists k: nat :: k <= now && PeerIn(r, k, v) && DiskHolds(r.states[k].peers[v], t, log)
  }

  predicate DiskHolds(p: Peer, t: nat, log: seq<LogEntry>) {
    p.disk.currentTerm == t && log <= p.disk.log
  }

  /** What the history has acknowledged was once on the node's disk in that term. */
  lemma {:induction false} AckOnDisk(r: Run, i: nat, v: NodeID, t: nat, n: nat)
    requires IsRun(r) && i < |r.states| && Acked(HistAt(r, i), v, t, n)
    ensures t in HistAt(r, i).leaderLog && n < |HistAt(r, i).leaderLog[t]|
    ensures HasStored(r, i, v, t, HistAt(r, i).leaderLog[t][..n + 1])
  {
    hide Good, Enabled, Next, HistoryAfter;
    var h := HistAt(r, i);
    AckBounds(r, i, v, t, n);
    if i > 0 && Acked(HistAt(r, i - 1), v, t, n) {
      var before := HistAt(r, i - 1);
      StepKeeps(r.states[i - 1], before, r.events[i - 1]);
      AckOnDisk(r, i - 1, v, t, n);
      assert before.leaderLog[t] <= h.leaderLog[t];
      assert h.leaderLog[t][..n + 1] == before.leaderLog[t][..n + 1];
      var k: nat :| k <= i - 1 && PeerIn(r, k, v) && DiskHolds(r.states[k].peers[v], t, before.leaderLog[t][..n + 1]);
    } else {
      PeersStay(r, i, v);
      if i > 0 {
        StepKeeps(r.states[i - 1], HistAt(r, i - 1), r.events[i - 1]);
      }
      AckNow(r.states[i], h, v, t, n);
    }
  }

  lemma AckBounds(r: Run, i: nat, v: NodeID, t: nat, n: nat)
    requires IsRun(r) && i < |r.states| && Acked(HistAt(r, i), v, t, n)
    ensures var h := HistAt(r, i); v in h.nodes && v in h.term && v in h.log && t in h.leaderLog && n < |h.leaderLog[t]|
    ensures i == 0 ==> var h := HistAt(r, i); t == h.term[v] && h.leaderLog[t][..n + 1] <= h.log[v]
  {
    AcksBounded(r, i);
    hide Good, HistoryAfter, Enabled, Next, Init, AcksGiven;
    if i == 0 {
      AckAtStart(r, v, t, n);
    }
    hide HistAt;
    AckInHistory(HistAt(r, i), v, t, n);
  }

  lemma AckInHistory(h: Hist, v: NodeID, t: nat, n: nat)
    requires Shape(h) && AcksGiven(h) && Acked(h, v, t, n)
    ensures v in h.nodes && v in h.term && v in h.log && t in h.leaderLog && n < |h.leaderLog[t]|
  {
  }

  lemma AckAtStart(r: Run, v: NodeID, t: nat, n: nat)
    requires IsRun(r) && Acked(HistAt(r, 0), v, t, n)
    ensures var h := HistAt(r, 0);
      v in h.term && v in h.log && t in h.leaderLog && n < |h.leaderLog[t]| &&
      t == h.term[v] && h.leaderLog[t][..n + 1] <= h.log[v]
  {
    hide Good, HistoryAfter, Enabled, Next, Init;
  }

  lemma AcksBounded(r: Run, i: nat)
    requires IsRun(r) && i < |r.states|
    ensures Shape(HistAt(r, i)) && AcksGiven(HistAt(r, i))
  {
    hide HistAt, PeersOk, MessagesOk;
    hide LogsTraced, Ordered, TermsBound, BallotsCast, LeadersElected, AcksKept, LeadersKeep, AcksGiven;
  }

  lemma AckNow(c: Cluster, h: Hist, v: NodeID, t: nat, n: nat)
    requires Good(c, h) && v in h.nodes && v in c.peers && t in h.leaderLog && n < |h.leaderLog[t]|
    requires h.term[v] == t && h.leaderLog[t][..n + 1] <= h.log[v]
    ensures DiskHolds(c.peers[v], t, h.leaderLog[t][..n + 1])
  {
    assert PeerOk(c, v, h);
  }

  /** An acknowledged request is never taken back within its term: as long as that is the term on the
      follower's disk, the disk holds the leader's entries up to the end of the request; and the disk
      never falls back to an earlier term. */
  lemma AcknowledgedKept(r: Run, i: nat, j: nat, reply: AppendReply)
    requires IsRun(r) && i <= j < |r.states| && reply in r.states[i].appendReplies && reply.res.success
    ensures PeerIn(r, j, reply.from) && 0 <= reply.req.prevLogIndex
    ensures var p, req := r.states[j].peers[reply.from], reply.req;
      && req.term <= p.disk.currentTerm
      && (p.disk.currentTerm == req.term ==> HoldsRequest(p.disk.log, req))
  {
    hide HistAt, PeersOk, CommitOk, CandidateOk, LeaderOk, VotesRemembered;
    hide LogsTraced, Ordered, TermsBound, BallotsCast, LeadersElected, AcksKept, LeadersKeep, Certified;
    var h, h' := HistAt(r, i), HistAt(r, j);
    assert AppendReplyOk(h, reply);
    HistoryGrows(r, i, j);
    PeerAt(r, j, reply.from);
    AppendRequestCarries(h, h', reply.req);
    StillHeld(h', r.states[j].peers[reply.from], reply);
  }

  predicate HoldsRequest(log: seq<LogEntry>, req: AppendEntriesReq)
    requires 0 <= req.prevLogIndex
  {
    && req.End() < |log| && log[req.prevLogIndex].term == req.prevLogTerm
    && log[req.prevLogIndex + 1..req.End() + 1] == req.entries
  }

  lemma StillHeld(h: Hist, p: Peer, reply: AppendReply)
    requires Shape(h) && AcksGiven(h) && AcksHeld(h) && reply.from in h.nodes && Linked(p, reply.from, h)
    requires AppendRequestOk(h, reply.req) && Acked(h, reply.from, reply.req.term, reply.req.End())
    ensures 0 <= reply.req.prevLogIndex && reply.req.term <= p.disk.currentTerm
    ensures p.disk.currentTerm == reply.req.term ==> HoldsRequest(p.disk.log, reply.req)
  {
    hide Certified;
    var req := reply.req;
    var l, n := h.leaderLog[req.term], h.acks[(reply.from, req.term)];
    if p.disk.currentTerm == req.term {
      assert l[..req.End() + 1] == l[..n + 1][..req.End() + 1];
      HoldsStretch(p.disk.log, l, req);
    }
  }

  /** A leader's channels: one message per distinct peer, never more than the channel's capacity, and
      each from a peer whose disk has carried the entry, and all before it, in this term. */
  lemma ChannelsAreHonest(r: Run, i: nat, p: NodeID, idx: int)
    requires IsRun(r) && PeerIn(r, i, p) && r.states[i].peers[p].role == Leader && idx in r.states[i].peers[p].channels
    ensures var a := r.states[i].peers[p];
      && 0 < idx < |a.log|
      && |a.channels[idx]| <= a.TotalPeers() == |r.nodes|
      && |set t | t in a.channels[idx]| == |a.channels[idx]|
      && forall t | t in a.channels[idx] :: t in r.nodes && HasStored(r, i, t, a.currentTerm, a.log[..idx + 1])
  {
    hide HistAt, Inv, PeersOk, MessagesOk, CommitOk, VotesRemembered, CandidateOk;
    var h, a := HistAt(r, i), r.states[i].peers[p];
    PeerAt(r, i, p);
    assert ChannelOk(a, idx, h);
    LeaderSteps.DistinctSize(a.channels[idx]);
    Smaller((set t | t in a.channels[idx]), r.nodes);
    assert |h.nodes - {p}| == |h.nodes| - 1;
    forall t | t in a.channels[idx] ensures HasStored(r, i, t, a.currentTerm, a.log[..idx + 1]) {
      AckOnDisk(r, i, t, a.currentTerm, idx);
    }
  }

  /** No waiter is left behind: an index the commit index has passed has its majority in its own
      channel, and before that whoever acknowledged a later pending index acknowledged it too. */
  lemma NoStrandedWaiter(r: Run, i: nat, p: NodeID, idx: int)
    requires IsRun(r) && PeerIn(r, i, p) && r.states[i].peers[p].role == Leader && idx in r.states[i].peers[p].channels
    ensures var a := r.states[i].peers[p];
      if idx <= a.commitIndex then Enabled(r.states[i], Commit(p, idx))
      else forall j, t | j in a.channels && idx <= j && t in a.channels[j] :: t in a.channels[idx]
  {
    hide HistAt, Inv, MessagesOk, PeerOk, ChannelOk, Enabled;
    var h, a := HistAt(r, i), r.states[i].peers[p];
    ChannelAt(r, i, p, idx);
    if idx > a.commitIndex {
      forall j, t | j in a.channels && idx <= j && t in a.channels[j]
        ensures t in a.channels[idx]
      {
        ChannelAt(r, i, p, j);
        LeaderSteps.NestedChannels(a, h, idx, j);
      }
    } else {
      LogsStay(r, i);
      PassedIsFull(a, idx, h);
      CommitEnabled(r.states[i], p, idx);
    }
  }

  lemma ChannelAt(r: Run, i: nat, p: NodeID, idx: int)
    requires IsRun(r) && PeerIn(r, i, p) && r.states[i].peers[p].role == Leader && idx in r.states[i].peers[p].channels
    ensures ChannelOk(r.states[i].peers[p], idx, HistAt(r, i))
  {
    hide HistAt, Inv, MessagesOk, CommitOk, VotesRemembered, CandidateOk, Linked, TargetOk, ChannelOk;
    PeerAt(r, i, p);
  }

  lemma PassedIsFull(p: Peer, idx: int, h: Hist)
    requires idx in p.channels && ChannelOk(p, idx, h) && idx <= p.commitIndex
    ensures 2 * |p.channels[idx]| > p.TotalPeers()
  {
  }

  /** A pending index with its majority: the waiter's step is enabled, and only then. */
  lemma CommitEnabled(c: Cluster, p: NodeID, idx: int)
    requires LogsNotEmpty(c)
    ensures Enabled(c, Commit(p, idx)) <==>
      && p in c.peers && c.peers[p].role == Leader && idx in c.peers[p].channels
      && 2 * |c.peers[p].channels[idx]| > c.peers[p].TotalPeers()
  {
  }

  lemma LogsStay(r: Run, i: nat)
    requires IsRun(r) && i < |r.states|
    ensures LogsNotEmpty(r.states[i])
  {
    var c, h := r.states[i], HistAt(r, i);
    forall v | v in c.peers ensures c.peers[v].log != [] {
      PeerAt(r, i, v);
    }
  }

  // ----- leaders' bookkeeping

  lemma LeaderTargets(r: Run, i: nat, p: NodeID, target: NodeID)
    requires IsRun(r) && PeerIn(r, i, p) && r.states[i].peers[p].role == Leader && target in r.nodes && target != p
    ensures var a := r.states[i].peers[p];
      && target in a.nextIndex && 1 <= a.nextIndex[target] <= |a.log|
      && target in a.matchIndex && 0 <= a.matchIndex[target] < |a.log|
  {
    hide HistAt, Inv, MessagesOk, CommitOk, VotesRemembered, CandidateOk;
    PeerAt(r, i, p);
    assert TargetOk(r.states[i].peers[p], target, HistAt(r, i));
  }

  // ----- crashes

  /** A crash at any point loses nothing but an unsaved term: log, commit index, compaction and hence
      the ledger rebuilt from disk are as they were, and the term is one the peer has been in. */
  lemma CrashLosesOnlyTheTerm(r: Run, i: nat, p: NodeID)
    requires IsRun(r) && PeerIn(r, i, p)
    ensures var a, b := r.states[i].peers[p], Restart(r.states[i].peers[p]);
      && b.log == a.log && b.commitIndex == a.commitIndex && b.snapIndex == a.snapIndex
      && b.currentTerm <= a.currentTerm && b.role == Follower
      && (b.currentTerm < a.currentTerm ==> a.role == Follower)
  {
    hide HistAt;
    PeerAt(r, i, p);
  }
}
