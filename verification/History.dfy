/** The safety argument of sections 5.3 and 5.4 of the Raft paper ("In Search of an
    Understandable Consensus Algorithm"), on a history of the cluster instead of the cluster:
    the durable term and log of every node, the log of every leader there has been, every
    ballot cast and every acknowledgement given. Five kinds of step extend a history;
    ClusterInv and the step modules show that whatever the peers do amounts to these. */
module History {
  import opened Messages

  /** A vote, with the voter's log at the time. */
  datatype Ballot = Ballot(candidate: NodeID, log: seq<LogEntry>)

  datatype Hist = Hist(
    nodes: set<NodeID>,
    term: map<NodeID, nat>,
    log: map<NodeID, seq<LogEntry>>,
    leaderLog: map<nat, seq<LogEntry>>,      // by term; grows while the leader appends
    leader: map<nat, NodeID>,
    voters: map<nat, set<NodeID>>,
    ballots: map<(NodeID, nat), Ballot>,     // by voter and term
    acks: map<(NodeID, nat), nat>)           // by node and leader's term: highest index held for that leader

  // ----- majorities

  predicate Majority(nodes: set<NodeID>, q: set<NodeID>) {
    q <= nodes && 2 * |q| > |nodes|
  }

  lemma Smaller(a: set<NodeID>, b: set<NodeID>)
    requires a <= b
    ensures |a| <= |b|
  {
    assert b == a + (b - a);
  }

  /** Any two majorities share a node. */
  lemma Overlap(nodes: set<NodeID>, q: set<NodeID>, r: set<NodeID>) returns (v: NodeID)
    requires Majority(nodes, q) && Majority(nodes, r)
    ensures v in q && v in r
  {
    if q * r == {} {
      assert |q + r| == |q| + |r|;
      Smaller(q + r, nodes);
    }
    v :| v in q * r;
  }

  // ----- logs and the leaders they come from

  /** Every prefix of the log is what the leader of its last entry's term had. */
  ghost predicate Traced(leaderLog: map<nat, seq<LogEntry>>, log: seq<LogEntry>) {
    && log != []
    && forall i {:trigger TracedAt(leaderLog, log, i)} | 0 <= i < |log| :: TracedAt(leaderLog, log, i)
  }

  predicate TracedAt(leaderLog: map<nat, seq<LogEntry>>, log: seq<LogEntry>, i: int)
    requires 0 <= i < |log|
  {
    log[i].term in leaderLog && log[..i + 1] <= leaderLog[log[i].term]
  }

  /** Terms never decrease along a leader's log, and end with at most its own. */
  ghost predicate Ordered(leaderLog: map<nat, seq<LogEntry>>) {
    forall t {:trigger OrderedBelow(leaderLog[t], t)} | t in leaderLog :: OrderedBelow(leaderLog[t], t)
  }

  ghost predicate OrderedBelow(log: seq<LogEntry>, t: nat) {
    forall i, j | 0 <= i <= j < |log| :: log[i].term <= log[j].term <= t
  }

  /** Log Matching (section 5.3). */
  lemma TracedLogsMatch(leaderLog: map<nat, seq<LogEntry>>, a: seq<LogEntry>, b: seq<LogEntry>, i: nat)
    requires Traced(leaderLog, a) && Traced(leaderLog, b)
    requires i < |a| && i < |b| && a[i].term == b[i].term
    ensures a[..i + 1] == b[..i + 1]
  {
    assert TracedAt(leaderLog, a, i) && TracedAt(leaderLog, b, i);
    var l := leaderLog[a[i].term];
    assert a[..i + 1] == l[..i + 1] && b[..i + 1] == l[..i + 1];
  }

  lemma TracedOrdered(leaderLog: map<nat, seq<LogEntry>>, log: seq<LogEntry>, i: nat, j: nat)
    requires Traced(leaderLog, log) && Ordered(leaderLog)
    requires i <= j < |log|
    ensures log[i].term <= log[j].term
  {
    assert TracedAt(leaderLog, log, j);
    var l := leaderLog[log[j].term];
    assert OrderedBelow(l, log[j].term);
    assert log[..j + 1] <= l;
    assert log[i] == l[i] && log[j] == l[j];
  }

  lemma TracedPrefix(leaderLog: map<nat, seq<LogEntry>>, log: seq<LogEntry>, k: nat)
    requires Traced(leaderLog, log) && 0 < k <= |log|
    ensures Traced(leaderLog, log[..k])
  {
    var p := log[..k];
    forall i | 0 <= i < k
      ensures TracedAt(leaderLog, p, i)
    {
      assert TracedAt(leaderLog, log, i);
      assert p[..i + 1] == log[..i + 1];
    }
  }

  /** Leader logs only grow, and new terms only get added. */
  ghost predicate LeaderLogsGrow(old_: map<nat, seq<LogEntry>>, new_: map<nat, seq<LogEntry>>) {
    forall t | t in old_ :: t in new_ && old_[t] <= new_[t]
  }

  lemma TracedStable(old_: map<nat, seq<LogEntry>>, new_: map<nat, seq<LogEntry>>, log: seq<LogEntry>)
    requires LeaderLogsGrow(old_, new_) && Traced(old_, log)
    ensures Traced(new_, log)
  {
    forall i | 0 <= i < |log|
      ensures TracedAt(new_, log, i)
    {
      assert TracedAt(old_, log, i);
      assert log[..i + 1] <= old_[log[i].term] <= new_[log[i].term];
    }
  }

  // ----- acknowledged, settled and committed entries

  /** Index n of the log of leader t is an entry that leader appended itself. */
  predicate OwnEntry(h: Hist, t: nat, n: nat) {
    t in h.leaderLog && n < |h.leaderLog[t]| && h.leaderLog[t][n].term == t
  }

  predicate Acked(h: Hist, v: NodeID, t: nat, n: nat) {
    (v, t) in h.acks && n <= h.acks[(v, t)]
  }

  /** The node has moved on without acknowledging index n of leader t, and never will. */
  predicate Settled(h: Hist, v: NodeID, t: nat, n: nat) {
    !Acked(h, v, t, n) && v in h.term && h.term[v] > t
  }

  function Supporters(h: Hist, t: nat, n: nat): set<NodeID> {
    set v | v in h.nodes && Acked(h, v, t, n)
  }

  function Hopefuls(h: Hist, t: nat, n: nat): set<NodeID> {
    set v | v in h.nodes && !Settled(h, v, t, n)
  }

  predicate Committed(h: Hist, t: nat, n: nat) {
    OwnEntry(h, t, n) && Majority(h.nodes, Supporters(h, t, n))
  }

  /** No majority can acknowledge the entry any more. */
  predicate Dead(h: Hist, t: nat, n: nat) {
    2 * |Hopefuls(h, t, n)| <= |h.nodes|
  }

  lemma CommittedNotDead(h: Hist, t: nat, n: nat)
    requires Committed(h, t, n)
    ensures !Dead(h, t, n)
  {
    Smaller(Supporters(h, t, n), Hopefuls(h, t, n));
  }

  /** The log starts with everything leader t had up to index n. */
  predicate Holds(h: Hist, log: seq<LogEntry>, t: nat, n: nat)
    requires t in h.leaderLog && n < |h.leaderLog[t]|
  {
    h.leaderLog[t][..n + 1] <= log
  }

  predicate HoldsOrDead(h: Hist, log: seq<LogEntry>, t: nat, n: nat)
    requires OwnEntry(h, t, n)
  {
    Holds(h, log, t, n) || Dead(h, t, n)
  }

  // ----- the invariant

  ghost predicate Shape(h: Hist) {
    && h.nodes != {}
    && h.term.Keys == h.nodes
    && h.log.Keys == h.nodes
    && h.leader.Keys == h.voters.Keys == h.leaderLog.Keys - {0}
    && 0 in h.leaderLog
  }

  ghost predicate LogsTraced(h: Hist) {
    && (forall v {:trigger Traced(h.leaderLog, h.log[v])} | v in h.log :: Traced(h.leaderLog, h.log[v]))
    && (forall t {:trigger Traced(h.leaderLog, h.leaderLog[t])} | t in h.leaderLog ::
          Traced(h.leaderLog, h.leaderLog[t]))
    && (forall b {:trigger Traced(h.leaderLog, h.ballots[b].log)} | b in h.ballots ::
          Traced(h.leaderLog, h.ballots[b].log))
  }

  /** No log is from the future. */
  ghost predicate TermsBound(h: Hist)
    requires Shape(h)
  {
    forall v, i | v in h.log && 0 <= i < |h.log[v]| :: h.log[v][i].term <= h.term[v]
  }

  ghost predicate BallotsCast(h: Hist)
    requires Shape(h)
  {
    forall v, t | (v, t) in h.ballots :: v in h.nodes && 0 < t <= h.term[v]
  }

  ghost predicate LeadersElected(h: Hist)
    requires Shape(h)
  {
    forall t | t in h.leader ::
      && Majority(h.nodes, h.voters[t])
      && h.leader[t] in h.voters[t]
      && forall v | v in h.voters[t] :: (v, t) in h.ballots && h.ballots[(v, t)].candidate == h.leader[t]
  }

  ghost predicate AcksGiven(h: Hist)
    requires Shape(h)
  {
    forall v, t | (v, t) in h.acks ::
      v in h.nodes && t in h.leaderLog && h.acks[(v, t)] < |h.leaderLog[t]| && t <= h.term[v]
  }

  /** A node still holds what it acknowledged, and held it when it voted later, unless the entry
      has no chance left. */
  ghost predicate AcksKept(h: Hist)
    requires Shape(h)
  {
    forall v, t, n {:trigger HoldsOrDead(h, h.log[v], t, n)} {:trigger BallotsKeep(h, v, t, n)}
      | v in h.nodes && Acked(h, v, t, n) && OwnEntry(h, t, n) ::
      HoldsOrDead(h, h.log[v], t, n) && BallotsKeep(h, v, t, n)
  }

  /** Within the term of an acknowledgement a node holds all it has acknowledged. */
  ghost predicate AcksHeld(h: Hist)
    requires Shape(h) && AcksGiven(h)
  {
    forall v, t | (v, t) in h.acks && h.term[v] == t :: h.leaderLog[t][..h.acks[(v, t)] + 1] <= h.log[v]
  }

  ghost predicate BallotsKeep(h: Hist, v: NodeID, t: nat, n: nat)
    requires OwnEntry(h, t, n)
  {
    forall u: nat {:trigger HoldsOrDead(h, h.ballots[(v, u)].log, t, n)} | u > t && (v, u) in h.ballots ::
      HoldsOrDead(h, h.ballots[(v, u)].log, t, n)
  }

  /** The core of Leader Completeness. */
  ghost predicate LeadersKeep(h: Hist)
    requires Shape(h)
  {
    forall t, n, u {:trigger HoldsOrDead(h, h.leaderLog[u], t, n)} | OwnEntry(h, t, n) && t < u && u in h.leaderLog ::
      HoldsOrDead(h, h.leaderLog[u], t, n)
  }

  ghost predicate Inv(h: Hist) {
    && Shape(h)
    && LogsTraced(h)
    && Ordered(h.leaderLog)
    && TermsBound(h)
    && BallotsCast(h)
    && LeadersElected(h)
    && AcksGiven(h)
    && AcksKept(h)
    && LeadersKeep(h)
    && AcksHeld(h)
  }

  // ----- steps

  function Begin(nodes: set<NodeID>): Hist {
    Hist(nodes, map v | v in nodes :: 0, map v | v in nodes :: [SENTINEL],
         map[0 := [SENTINEL]], map[], map[], map[],
         map v | v in nodes :: (v, 0) := 0)
  }

  function RaiseTerm(h: Hist, v: NodeID, t: nat): Hist {
    h.(term := h.term[v := t])
  }

  ghost predicate CanRaise(h: Hist, v: NodeID, t: nat) {
    v in h.term && h.term[v] <= t
  }

  function CastBallot(h: Hist, v: NodeID, t: nat, candidate: NodeID): Hist
    requires v in h.log
  {
    h.(term := h.term[v := t], ballots := h.ballots[(v, t) := Ballot(candidate, h.log[v])])
  }

  ghost predicate CanCast(h: Hist, v: NodeID, t: nat) {
    CanRaise(h, v, t) && v in h.log && 0 < t && (v, t) !in h.ballots
  }

  predicate AtLeastAsUpToDate(a: seq<LogEntry>, b: seq<LogEntry>)
    requires a != [] && b != []
  {
    var at, bt := a[|a| - 1].term, b[|b| - 1].term;
    bt < at || (bt == at && |b| <= |a|)
  }

  function Elect(h: Hist, p: NodeID, t: nat, q: set<NodeID>): Hist
    requires p in h.log
  {
    h.(leaderLog := h.leaderLog[t := h.log[p]], leader := h.leader[t := p], voters := h.voters[t := q])
  }

  ghost predicate CanElect(h: Hist, p: NodeID, t: nat, q: set<NodeID>) {
    && p in h.log && h.log[p] != [] && p in h.term && h.term[p] <= t
    && t > 0 && t !in h.leaderLog
    && Majority(h.nodes, q) && p in q
    && forall v | v in q ::
      && (v, t) in h.ballots && h.ballots[(v, t)].candidate == p
      && h.ballots[(v, t)].log != [] && AtLeastAsUpToDate(h.log[p], h.ballots[(v, t)].log)
  }

  function Append(h: Hist, p: NodeID, t: nat, e: LogEntry): Hist
    requires p in h.log
  {
    var log := h.log[p] + [e];
    h.(log := h.log[p := log], leaderLog := h.leaderLog[t := log], acks := h.acks[(p, t) := |log| - 1])
  }

  ghost predicate CanAppend(h: Hist, p: NodeID, t: nat, e: LogEntry) {
    && p in h.log && p in h.term && h.term[p] == t && e.term == t
    && t in h.leader && h.leader[t] == p
    && t in h.leaderLog && h.leaderLog[t] == h.log[p]
  }

  /** Node v, in term t, stores log and acknowledges the first k entries of the leader's log. */
  function Accept(h: Hist, v: NodeID, t: nat, k: nat, log: seq<LogEntry>): Hist
    requires k > 0
  {
    var n := if Acked(h, v, t, k - 1) then h.acks[(v, t)] else k - 1;
    h.(term := h.term[v := t], log := h.log[v := log], acks := h.acks[(v, t) := n])
  }

  /** What two logs agree on from the start, the third still has. */
  ghost predicate KeepsCommon(a: seq<LogEntry>, b: seq<LogEntry>, c: seq<LogEntry>) {
    forall k: nat | k <= |a| && k <= |b| && a[..k] == b[..k] :: a[..k] <= c
  }

  ghost predicate CanAccept(h: Hist, v: NodeID, t: nat, k: nat, log: seq<LogEntry>) {
    && v in h.log && CanRaise(h, v, t)
    && t in h.leaderLog && 0 < k <= |h.leaderLog[t]|
    && h.leaderLog[t][..k] <= log
    && (log == h.log[v] || (log == h.leaderLog[t][..k] && KeepsCommon(h.log[v], h.leaderLog[t], log)))
  }

  // ----- what a step preserves whatever it is

  /** Nothing recorded is lost or changed. */
  ghost predicate Grows(h: Hist, h': Hist) {
    && h'.nodes == h.nodes
    && (forall v | v in h.term :: v in h'.term && h.term[v] <= h'.term[v])
    && LeaderLogsGrow(h.leaderLog, h'.leaderLog)
    && (forall b | b in h.ballots :: b in h'.ballots && h'.ballots[b] == h.ballots[b])
    && (forall t | t in h.leader :: t in h'.leader && h'.leader[t] == h.leader[t])
    && (forall a | a in h.acks :: a in h'.acks && h.acks[a] <= h'.acks[a])
  }

  /** A node that has left a term acknowledges nothing more in it. */
  ghost predicate NoLateAcks(h: Hist, h': Hist) {
    forall v, t | (v, t) in h'.acks && v in h.term && h.term[v] > t ::
      (v, t) in h.acks && h'.acks[(v, t)] == h.acks[(v, t)]
  }

  /** A ballot or an acknowledgement is recorded when the node's disk carries it. */
  ghost predicate Fresh(h: Hist, h': Hist) {
    && (forall b {:trigger b in h'.ballots} | b in h'.ballots && b !in h.ballots ::
          b.0 in h'.term && h'.term[b.0] == b.1)
    && (forall v: NodeID, t: nat, n: nat {:trigger Acked(h', v, t, n)} | Acked(h', v, t, n) && !Acked(h, v, t, n) ::
          && v in h'.term && h'.term[v] == t && v in h'.log
          && t in h'.leaderLog && n < |h'.leaderLog[t]| && Holds(h', h'.log[v], t, n))
  }

  ghost predicate Advances(h: Hist, h': Hist) {
    Grows(h, h') && Fresh(h, h')
  }

  lemma OwnEntryStable(h: Hist, h': Hist, t: nat, n: nat)
    requires Grows(h, h') && OwnEntry(h, t, n)
    ensures OwnEntry(h', t, n)
    ensures h'.leaderLog[t][..n + 1] == h.leaderLog[t][..n + 1]
  {
    assert h.leaderLog[t] <= h'.leaderLog[t];
  }

  lemma DeadStable(h: Hist, h': Hist, t: nat, n: nat)
    requires Grows(h, h') && NoLateAcks(h, h') && Dead(h, t, n)
    ensures Dead(h', t, n)
  {
    assert forall v | Settled(h, v, t, n) :: Settled(h', v, t, n);
    Smaller(Hopefuls(h', t, n), Hopefuls(h, t, n));
  }

  lemma CommittedStable(h: Hist, h': Hist, t: nat, n: nat)
    requires Grows(h, h') && Committed(h, t, n)
    ensures Committed(h', t, n)
  {
    OwnEntryStable(h, h', t, n);
    Smaller(Supporters(h, t, n), Supporters(h', t, n));
  }

  lemma HoldsOrDeadStable(h: Hist, h': Hist, log: seq<LogEntry>, t: nat, n: nat)
    requires Grows(h, h') && NoLateAcks(h, h') && OwnEntry(h, t, n) && HoldsOrDead(h, log, t, n)
    ensures OwnEntry(h', t, n) && HoldsOrDead(h', log, t, n)
  {
    OwnEntryStable(h, h', t, n);
    if Dead(h, t, n) {
      DeadStable(h, h', t, n);
    }
  }
}
