/** Every step of a history keeps its invariant. */
module HistorySteps {
  import opened Messages
  import opened History

  lemma BeginInv(nodes: set<NodeID>)
    requires nodes != {}
    ensures Inv(Begin(nodes))
  {
    BeginTraced(nodes);
    BeginKept(nodes);
    assert [SENTINEL][..1] == [SENTINEL];
  }

  lemma BeginTraced(nodes: set<NodeID>)
    ensures LogsTraced(Begin(nodes)) && Ordered(Begin(nodes).leaderLog)
  {
    var h := Begin(nodes);
    assert h.leaderLog[0] == [SENTINEL] && [SENTINEL][..1] == [SENTINEL];
    assert Traced(h.leaderLog, [SENTINEL]);
  }

  lemma BeginKept(nodes: set<NodeID>)
    requires Shape(Begin(nodes))
    ensures AcksKept(Begin(nodes)) && LeadersKeep(Begin(nodes))
  {
    var h := Begin(nodes);
    forall v: NodeID, t: nat, n: nat | v in h.nodes && Acked(h, v, t, n) && OwnEntry(h, t, n)
      ensures HoldsOrDead(h, h.log[v], t, n) && BallotsKeep(h, v, t, n)
    {
      assert t == 0 && n == 0 && h.log[v] == h.leaderLog[0];
    }
  }

  ghost predicate Extends(h: Hist, h': Hist) {
    Grows(h, h') && NoLateAcks(h, h')
  }

  // ----- what every step carries over

  /** Acknowledgements and ballots of before, if no acknowledgement is added and ballots are added
      only with the voter's own log. */
  lemma AcksKeptCarries(h: Hist, h': Hist)
    requires Shape(h) && Shape(h') && Extends(h, h') && AcksGiven(h) && AcksKept(h)
    requires h'.acks == h.acks && h'.log == h.log
    requires forall v, u | (v, u) in h'.ballots && (v, u) !in h.ballots ::
      v in h.log && h'.ballots[(v, u)].log == h.log[v]
    ensures AcksKept(h')
  {
    forall v: NodeID, t: nat, n: nat | v in h'.nodes && Acked(h', v, t, n) && OwnEntry(h', t, n)
      ensures HoldsOrDead(h', h'.log[v], t, n) && BallotsKeep(h', v, t, n)
    {
      assert Acked(h, v, t, n) && h.leaderLog[t] <= h'.leaderLog[t];
      assert OwnEntry(h, t, n);
      HoldsOrDeadStable(h, h', h.log[v], t, n);
      BallotsKeepCarries(h, h', v, t, n);
    }
  }

  /** Without a new acknowledgement or a new log. */
  lemma AcksHeldCarries(h: Hist, h': Hist)
    requires Shape(h) && Shape(h') && Grows(h, h') && AcksGiven(h) && AcksGiven(h') && AcksHeld(h)
    requires h'.acks == h.acks && h'.log == h.log
    ensures AcksHeld(h')
  {
    forall v, t | (v, t) in h'.acks && h'.term[v] == t
      ensures h'.leaderLog[t][..h'.acks[(v, t)] + 1] <= h'.log[v]
    {
      assert h.term[v] == t && h.leaderLog[t] <= h'.leaderLog[t];
    }
  }

  lemma BallotsKeepCarries(h: Hist, h': Hist, v: NodeID, t: nat, n: nat)
    requires Extends(h, h') && OwnEntry(h, t, n) && OwnEntry(h', t, n) && BallotsKeep(h, v, t, n)
    requires forall u: nat | u > t && (v, u) in h'.ballots ::
      (v, u) in h.ballots || HoldsOrDead(h', h'.ballots[(v, u)].log, t, n)
    ensures BallotsKeep(h', v, t, n)
  {
    forall u: nat | u > t && (v, u) in h'.ballots
      ensures HoldsOrDead(h', h'.ballots[(v, u)].log, t, n)
    {
      if (v, u) in h.ballots {
        HoldsOrDeadStable(h, h', h.ballots[(v, u)].log, t, n);
      }
    }
  }

  lemma LeadersKeepCarries(h: Hist, h': Hist)
    requires Shape(h) && Shape(h') && Extends(h, h') && LeadersKeep(h) && h'.leaderLog == h.leaderLog
    ensures LeadersKeep(h')
  {
    forall t: nat, n: nat, u: nat | OwnEntry(h', t, n) && t < u && u in h'.leaderLog
      ensures HoldsOrDead(h', h'.leaderLog[u], t, n)
    {
      assert OwnEntry(h, t, n) && HoldsOrDead(h, h.leaderLog[u], t, n);
      HoldsOrDeadStable(h, h', h.leaderLog[u], t, n);
    }
  }

  // ----- raising a term

  lemma RaiseTermInv(h: Hist, v: NodeID, t: nat)
    requires Inv(h) && CanRaise(h, v, t)
    ensures Extends(h, RaiseTerm(h, v, t)) && Inv(RaiseTerm(h, v, t))
  {
    var h' := RaiseTerm(h, v, t);
    RaiseTermExtends(h, v, t);
    AcksHeldCarries(h, h');
    AcksKeptCarries(h, h');
    LeadersKeepCarries(h, h');
    hide Ordered, BallotsCast, LeadersElected, AcksGiven, AcksKept, LeadersKeep, Extends;
  }

  lemma RaiseTermExtends(h: Hist, v: NodeID, t: nat)
    requires Shape(h) && TermsBound(h) && BallotsCast(h) && LeadersElected(h) && AcksGiven(h) && CanRaise(h, v, t)
    ensures var h' := RaiseTerm(h, v, t);
      && Shape(h') && Extends(h, h') && TermsBound(h') && BallotsCast(h') && LeadersElected(h') && AcksGiven(h')
  {
  }

  // ----- voting

  lemma CastBallotInv(h: Hist, v: NodeID, t: nat, candidate: NodeID)
    requires Inv(h) && CanCast(h, v, t)
    ensures Extends(h, CastBallot(h, v, t, candidate)) && Inv(CastBallot(h, v, t, candidate))
  {
    var h' := CastBallot(h, v, t, candidate);
    CastBallotExtends(h, v, t, candidate);
    CastBallotRecords(h, v, t, candidate);
    AcksHeldCarries(h, h');
    AcksKeptCarries(h, h');
    LeadersKeepCarries(h, h');
    hide LogsTraced, Ordered, TermsBound, BallotsCast, LeadersElected, AcksGiven, AcksKept, LeadersKeep, Extends;
  }

  lemma CastBallotExtends(h: Hist, v: NodeID, t: nat, candidate: NodeID)
    requires Shape(h) && AcksGiven(h) && CanCast(h, v, t)
    ensures var h' := CastBallot(h, v, t, candidate); Shape(h') && Extends(h, h') && AcksGiven(h')
  {
  }

  lemma CastBallotRecords(h: Hist, v: NodeID, t: nat, candidate: NodeID)
    requires Shape(h) && CanCast(h, v, t) && Shape(CastBallot(h, v, t, candidate))
    requires LogsTraced(h) && Ordered(h.leaderLog) && TermsBound(h) && BallotsCast(h) && LeadersElected(h)
    ensures var h' := CastBallot(h, v, t, candidate);
      LogsTraced(h') && Ordered(h'.leaderLog) && TermsBound(h') && BallotsCast(h') && LeadersElected(h')
  {
  }

  // ----- winning an election (section 5.4.1)

  /** A log at least as up to date as one holding a living entry holds the entry too. */
  lemma UpToDateHolds(h: Hist, a: seq<LogEntry>, b: seq<LogEntry>, t: nat, n: nat)
    requires Shape(h) && Ordered(h.leaderLog) && LeadersKeep(h)
    requires Traced(h.leaderLog, a) && Traced(h.leaderLog, b) && AtLeastAsUpToDate(a, b)
    requires OwnEntry(h, t, n) && !Dead(h, t, n) && Holds(h, b, t, n)
    ensures Holds(h, a, t, n)
  {
    var l := h.leaderLog[t];
    assert b[n] == l[..n + 1][n] == l[n];
    TracedOrdered(h.leaderLog, b, n, |b| - 1);
    assert TracedAt(h.leaderLog, a, |a| - 1);
    var u := a[|a| - 1].term;
    var last := h.leaderLog[u];
    assert a == a[..|a|] && a <= last;
    if u > t {
      assert HoldsOrDead(h, last, t, n);
      assert last[n] == l[..n + 1][n];
      assert last[|a| - 1].term == u;
      assert OrderedBelow(last, u);
      assert n < |a|;
      assert l[..n + 1] == last[..n + 1] == a[..n + 1];
    } else {
      assert |b| <= |a|;
      assert l[..n + 1] == a[..n + 1];
    }
  }

  lemma WinnerHolds(h: Hist, p: NodeID, u: nat, q: set<NodeID>, t: nat, n: nat)
    requires Shape(h) && LogsTraced(h) && Ordered(h.leaderLog)
    requires BallotsCast(h) && AcksKept(h) && LeadersKeep(h)
    requires CanElect(h, p, u, q) && OwnEntry(h, t, n) && t < u
    ensures HoldsOrDead(h, h.log[p], t, n)
  {
    if !Dead(h, t, n) {
      var v := Overlap(h.nodes, q, Hopefuls(h, t, n));
      assert Acked(h, v, t, n);
      var b := h.ballots[(v, u)].log;
      assert HoldsOrDead(h, h.log[v], t, n) && BallotsKeep(h, v, t, n);
      assert HoldsOrDead(h, b, t, n) && Traced(h.leaderLog, h.log[p]) && Traced(h.leaderLog, b);
      UpToDateHolds(h, h.log[p], b, t, n);
    }
  }

  lemma ElectInv(h: Hist, p: NodeID, u: nat, q: set<NodeID>)
    requires Inv(h) && CanElect(h, p, u, q)
    ensures Extends(h, Elect(h, p, u, q)) && Inv(Elect(h, p, u, q))
  {
    var h' := Elect(h, p, u, q);
    ElectExtends(h, p, u, q);
    ElectTraced(h, p, u, q);
    ElectRecords(h, p, u, q);
    AcksHeldCarries(h, h');
    AcksKeptCarries(h, h');
    ElectLeaders(h, p, u, q);
    hide LogsTraced, Ordered, LeadersElected, AcksGiven, AcksKept, LeadersKeep, Extends, CanElect;
  }

  lemma ElectExtends(h: Hist, p: NodeID, u: nat, q: set<NodeID>)
    requires Shape(h) && CanElect(h, p, u, q)
    ensures var h' := Elect(h, p, u, q); Extends(h, h') && Shape(h')
  {
  }

  lemma ElectRecords(h: Hist, p: NodeID, u: nat, q: set<NodeID>)
    requires Shape(h) && CanElect(h, p, u, q) && Shape(Elect(h, p, u, q)) && LeadersElected(h) && AcksGiven(h)
    ensures LeadersElected(Elect(h, p, u, q)) && AcksGiven(Elect(h, p, u, q))
  {
  }

  lemma ElectLeaders(h: Hist, p: NodeID, u: nat, q: set<NodeID>)
    requires Shape(h) && LogsTraced(h) && Ordered(h.leaderLog)
    requires BallotsCast(h) && AcksKept(h) && LeadersKeep(h)
    requires CanElect(h, p, u, q) && Extends(h, Elect(h, p, u, q))
    ensures LeadersKeep(Elect(h, p, u, q))
  {
    var h' := Elect(h, p, u, q);
    forall t: nat, n: nat, w: nat | OwnEntry(h', t, n) && t < w && w in h'.leaderLog
      ensures HoldsOrDead(h', h'.leaderLog[w], t, n)
    {
      ElectedNothingYet(h, p, u);
      assert OwnEntry(h, t, n);
      if w == u {
        WinnerHolds(h, p, u, q, t, n);
      }
      HoldsOrDeadStable(h, h', h'.leaderLog[w], t, n);
    }
  }

  lemma ElectedNothingYet(h: Hist, p: NodeID, u: nat)
    requires LogsTraced(h) && p in h.log && u !in h.leaderLog
    ensures forall i | 0 <= i < |h.log[p]| :: h.log[p][i].term != u
  {
    assert Traced(h.leaderLog, h.log[p]);
    forall i | 0 <= i < |h.log[p]|
      ensures h.log[p][i].term != u
    {
      assert TracedAt(h.leaderLog, h.log[p], i);
    }
  }

  lemma ElectTraced(h: Hist, p: NodeID, u: nat, q: set<NodeID>)
    requires Shape(h) && LogsTraced(h) && Ordered(h.leaderLog) && TermsBound(h) && CanElect(h, p, u, q)
    ensures LogsTraced(Elect(h, p, u, q)) && Ordered(Elect(h, p, u, q).leaderLog)
  {
    var h' := Elect(h, p, u, q);
    LogsTracedCarries(h, h');
    var log := h.log[p];
    assert Traced(h.leaderLog, log);
    forall i, j | 0 <= i <= j < |log|
      ensures log[i].term <= log[j].term <= u
    {
      TracedOrdered(h.leaderLog, log, i, j);
    }
    assert OrderedBelow(log, u);
    forall t | t in h'.leaderLog
      ensures OrderedBelow(h'.leaderLog[t], t)
    {
      assert t != u ==> OrderedBelow(h.leaderLog[t], t);
    }
  }

  lemma LogsTracedCarries(h: Hist, h': Hist)
    requires LogsTraced(h) && LeaderLogsGrow(h.leaderLog, h'.leaderLog)
    ensures forall v | v in h.log :: Traced(h'.leaderLog, h.log[v])
    ensures forall t | t in h.leaderLog :: Traced(h'.leaderLog, h.leaderLog[t])
    ensures forall b | b in h.ballots :: Traced(h'.leaderLog, h.ballots[b].log)
  {
    forall v | v in h.log ensures Traced(h'.leaderLog, h.log[v]) {
      TracedStable(h.leaderLog, h'.leaderLog, h.log[v]);
    }
    forall t | t in h.leaderLog ensures Traced(h'.leaderLog, h.leaderLog[t]) {
      TracedStable(h.leaderLog, h'.leaderLog, h.leaderLog[t]);
    }
    forall b | b in h.ballots ensures Traced(h'.leaderLog, h.ballots[b].log) {
      TracedStable(h.leaderLog, h'.leaderLog, h.ballots[b].log);
    }
  }

  // ----- a leader appending an entry

  lemma AppendInv(h: Hist, p: NodeID, t: nat, e: LogEntry)
    requires Inv(h) && CanAppend(h, p, t, e)
    ensures Extends(h, Append(h, p, t, e)) && Inv(Append(h, p, t, e))
  {
    var h' := Append(h, p, t, e);
    AppendExtends(h, p, t, e);
    AppendTraced(h, p, t, e);
    AppendAcks(h, p, t, e);
    AppendLeaders(h, p, t, e);
    AppendRecords(h, p, t, e);
    AppendHeld(h, p, t, e);
    hide LogsTraced, Ordered, TermsBound, BallotsCast, LeadersElected, AcksGiven, AcksKept, LeadersKeep;
    hide Extends, CanAppend;
  }

  lemma AppendHeld(h: Hist, p: NodeID, t: nat, e: LogEntry)
    requires Shape(h) && CanAppend(h, p, t, e) && AcksGiven(h) && AcksHeld(h)
    requires Shape(Append(h, p, t, e)) && AcksGiven(Append(h, p, t, e))
    ensures AcksHeld(Append(h, p, t, e))
  {
    var h' := Append(h, p, t, e);
    forall v, u | (v, u) in h'.acks && h'.term[v] == u
      ensures h'.leaderLog[u][..h'.acks[(v, u)] + 1] <= h'.log[v]
    {
      if (v, u) != (p, t) {
        assert h'.leaderLog[u][..h.acks[(v, u)] + 1] == h.leaderLog[u][..h.acks[(v, u)] + 1];
      }
    }
  }

  lemma AppendRecords(h: Hist, p: NodeID, t: nat, e: LogEntry)
    requires Shape(h) && CanAppend(h, p, t, e) && Shape(Append(h, p, t, e))
    requires TermsBound(h) && BallotsCast(h) && LeadersElected(h)
    ensures var h' := Append(h, p, t, e); TermsBound(h') && BallotsCast(h') && LeadersElected(h')
  {
  }

  lemma AppendExtends(h: Hist, p: NodeID, t: nat, e: LogEntry)
    requires Shape(h) && CanAppend(h, p, t, e) && AcksGiven(h)
    ensures var h' := Append(h, p, t, e); Extends(h, h') && Shape(h') && AcksGiven(h')
  {
    var h' := Append(h, p, t, e);
    assert forall v, u | (v, u) in h.acks :: v == p && u == t ==> h.acks[(v, u)] < |h.log[p]|;
  }

  lemma AppendTraced(h: Hist, p: NodeID, t: nat, e: LogEntry)
    requires LogsTraced(h) && Ordered(h.leaderLog) && CanAppend(h, p, t, e)
    ensures LogsTraced(Append(h, p, t, e)) && Ordered(Append(h, p, t, e).leaderLog)
  {
    var h' := Append(h, p, t, e);
    LogsTracedCarries(h, h');
    ExtendedTraced(h'.leaderLog, h.log[p], e);
    ExtendedOrdered(h.leaderLog, t, e);
  }

  lemma ExtendedOrdered(leaderLog: map<nat, seq<LogEntry>>, t: nat, e: LogEntry)
    requires Ordered(leaderLog) && t in leaderLog && e.term == t
    ensures Ordered(leaderLog[t := leaderLog[t] + [e]])
  {
    var leaderLog' := leaderLog[t := leaderLog[t] + [e]];
    forall u | u in leaderLog'
      ensures OrderedBelow(leaderLog'[u], u)
    {
      assert OrderedBelow(leaderLog[u], u);
    }
  }

  lemma ExtendedTraced(leaderLog: map<nat, seq<LogEntry>>, log: seq<LogEntry>, e: LogEntry)
    requires Traced(leaderLog, log) && e.term in leaderLog && log + [e] == leaderLog[e.term]
    ensures Traced(leaderLog, log + [e])
  {
    var log' := log + [e];
    forall i | 0 <= i < |log'|
      ensures TracedAt(leaderLog, log', i)
    {
      if i < |log| {
        assert TracedAt(leaderLog, log, i);
        assert log'[i] == log[i] && log'[..i + 1] == log[..i + 1];
      }
    }
  }

  /** The new entry is acknowledged by no node that has moved on, so a later term kills it. */
  lemma LateAppendIsDead(h: Hist, p: NodeID, t: nat, e: LogEntry, u: nat)
    requires Shape(h) && BallotsCast(h) && LeadersElected(h) && AcksGiven(h)
    requires CanAppend(h, p, t, e) && t < u && u in h.leaderLog
    ensures Dead(Append(h, p, t, e), t, |h.log[p]|)
  {
    var h' := Append(h, p, t, e);
    var n := |h.log[p]|;
    var q := h.voters[u];
    assert forall v | v in q :: Settled(h', v, t, n);
    Smaller(q, h.nodes - Hopefuls(h', t, n));
    assert |h.nodes - Hopefuls(h', t, n)| == |h.nodes| - |Hopefuls(h', t, n)|;
  }

  lemma AppendLeaders(h: Hist, p: NodeID, t: nat, e: LogEntry)
    requires Shape(h) && BallotsCast(h) && LeadersElected(h) && AcksGiven(h) && LeadersKeep(h)
    requires CanAppend(h, p, t, e) && Extends(h, Append(h, p, t, e))
    ensures LeadersKeep(Append(h, p, t, e))
  {
    var h' := Append(h, p, t, e);
    forall s: nat, n: nat, u: nat | OwnEntry(h', s, n) && s < u && u in h'.leaderLog
      ensures HoldsOrDead(h', h'.leaderLog[u], s, n)
    {
      if s == t && n == |h.log[p]| {
        LateAppendIsDead(h, p, t, e, u);
      } else {
        assert OwnEntry(h, s, n) && HoldsOrDead(h, h.leaderLog[u], s, n);
        HoldsOrDeadStable(h, h', h.leaderLog[u], s, n);
      }
    }
  }

  lemma AppendAcks(h: Hist, p: NodeID, t: nat, e: LogEntry)
    requires Shape(h) && BallotsCast(h) && AcksGiven(h) && AcksKept(h)
    requires CanAppend(h, p, t, e) && Extends(h, Append(h, p, t, e))
    ensures AcksKept(Append(h, p, t, e))
  {
    var h' := Append(h, p, t, e);
    forall v: NodeID, s: nat, n: nat | v in h'.nodes && Acked(h', v, s, n) && OwnEntry(h', s, n)
      ensures HoldsOrDead(h', h'.log[v], s, n) && BallotsKeep(h', v, s, n)
    {
      if v == p && s == t {
        assert h'.leaderLog[t] == h'.log[p];
      } else {
        assert Acked(h, v, s, n) && OwnEntry(h, s, n);
        HoldsOrDeadStable(h, h', h.log[v], s, n);
        BallotsKeepCarries(h, h', v, s, n);
      }
    }
  }

  // ----- a node accepting a leader's entries

  lemma AcceptInv(h: Hist, v: NodeID, t: nat, k: nat, log: seq<LogEntry>)
    requires Inv(h) && CanAccept(h, v, t, k, log)
    ensures Extends(h, Accept(h, v, t, k, log)) && Inv(Accept(h, v, t, k, log))
  {
    var h' := Accept(h, v, t, k, log);
    AcceptExtends(h, v, t, k, log);
    AcceptRecords(h, v, t, k, log);
    hide Ordered, LogsTraced, TermsBound, BallotsCast, LeadersElected, AcksGiven, AcksKept, LeadersKeep, AcksHeld;
    hide Extends, CanAccept, Accept;
    ExtendsGrows(h, h');
    LeadersKeepCarries(h, h');
    AcceptAcks(h, v, t, k, log);
    AcceptHeld(h, v, t, k, log);
  }

  lemma ExtendsGrows(h: Hist, h': Hist)
    requires Extends(h, h')
    ensures Grows(h, h')
  {
  }

  lemma AcceptRecords(h: Hist, v: NodeID, t: nat, k: nat, log: seq<LogEntry>)
    requires Shape(h) && CanAccept(h, v, t, k, log) && Shape(Accept(h, v, t, k, log))
    requires LogsTraced(h) && Ordered(h.leaderLog) && TermsBound(h) && BallotsCast(h) && LeadersElected(h)
    ensures var h' := Accept(h, v, t, k, log);
      && LogsTraced(h') && Ordered(h'.leaderLog) && TermsBound(h') && BallotsCast(h') && LeadersElected(h')
      && h'.leaderLog == h.leaderLog
  {
    if log != h.log[v] {
      TracedPrefix(h.leaderLog, h.leaderLog[t], k);
      assert OrderedBelow(h.leaderLog[t], t);
    }
  }

  lemma AcceptHeld(h: Hist, v: NodeID, t: nat, k: nat, log: seq<LogEntry>)
    requires Shape(h) && CanAccept(h, v, t, k, log) && AcksGiven(h) && AcksHeld(h)
    requires Shape(Accept(h, v, t, k, log)) && AcksGiven(Accept(h, v, t, k, log))
    ensures AcksHeld(Accept(h, v, t, k, log))
  {
    if (v, t) in h.acks {
      var n := h.acks[(v, t)];
      assert h.leaderLog[t][..n + 1] == h.log[v][..n + 1];
    }
  }

  lemma AcceptExtends(h: Hist, v: NodeID, t: nat, k: nat, log: seq<LogEntry>)
    requires Shape(h) && CanAccept(h, v, t, k, log) && AcksGiven(h)
    ensures var h' := Accept(h, v, t, k, log); Extends(h, h') && Shape(h') && AcksGiven(h')
  {
  }

  /** The node keeps every living entry it acknowledged before. */
  lemma AcceptKeeps(h: Hist, v: NodeID, t: nat, k: nat, log: seq<LogEntry>, s: nat, n: nat)
    requires Shape(h) && AcksGiven(h) && AcksKept(h) && LeadersKeep(h)
    requires CanAccept(h, v, t, k, log) && Acked(h, v, s, n) && OwnEntry(h, s, n)
    ensures HoldsOrDead(h, log, s, n)
  {
    if !Dead(h, s, n) {
      assert HoldsOrDead(h, h.log[v], s, n);
      var l, m := h.leaderLog[s], h.leaderLog[t];
      assert l[..n + 1] <= m by {
        if s < t {
          assert HoldsOrDead(h, m, s, n);
        }
      }
      assert h.log[v][..n + 1] == l[..n + 1] == m[..n + 1];
    }
  }

  lemma AcceptAcks(h: Hist, v: NodeID, t: nat, k: nat, log: seq<LogEntry>)
    requires Shape(h) && BallotsCast(h) && AcksGiven(h) && AcksKept(h) && LeadersKeep(h)
    requires CanAccept(h, v, t, k, log) && Extends(h, Accept(h, v, t, k, log))
    ensures AcksKept(Accept(h, v, t, k, log))
  {
    var h' := Accept(h, v, t, k, log);
    forall w: NodeID, s: nat, n: nat | w in h'.nodes && Acked(h', w, s, n) && OwnEntry(h', s, n)
      ensures HoldsOrDead(h', h'.log[w], s, n) && BallotsKeep(h', w, s, n)
    {
      assert OwnEntry(h, s, n);
      if Acked(h, w, s, n) {
        if w == v {
          AcceptKeeps(h, v, t, k, log, s, n);
        }
        HoldsOrDeadStable(h, h', h'.log[w], s, n);
        BallotsKeepCarries(h, h', w, s, n);
      } else {
        assert w == v && s == t && n < k;
        assert h.leaderLog[t][..n + 1] == h.leaderLog[t][..k][..n + 1] == log[..n + 1];
      }
    }
  }

  // ----- what gets recorded

  lemma AppendFresh(h: Hist, p: NodeID, t: nat, e: LogEntry)
    requires Shape(h) && AcksGiven(h) && CanAppend(h, p, t, e)
    ensures Fresh(h, Append(h, p, t, e))
  {
    var h' := Append(h, p, t, e);
    forall v: NodeID, u: nat, n: nat | Acked(h', v, u, n) && !Acked(h, v, u, n)
      ensures v in h'.log && u in h'.leaderLog && n < |h'.leaderLog[u]| && h'.term[v] == u && Holds(h', h'.log[v], u, n)
    {
      assert v == p && u == t && h'.log[p] == h'.leaderLog[t];
    }
  }

  lemma AcceptFresh(h: Hist, v: NodeID, t: nat, k: nat, log: seq<LogEntry>)
    requires Shape(h) && AcksGiven(h) && CanAccept(h, v, t, k, log)
    ensures Fresh(h, Accept(h, v, t, k, log))
  {
    var h' := Accept(h, v, t, k, log);
    forall w: NodeID, u: nat, n: nat | Acked(h', w, u, n) && !Acked(h, w, u, n)
      ensures w in h'.log && u in h'.leaderLog && n < |h'.leaderLog[u]| && h'.term[w] == u && Holds(h', h'.log[w], u, n)
    {
      assert w == v && u == t && n < k;
      assert h.leaderLog[t][..n + 1] == h.leaderLog[t][..k][..n + 1] == log[..n + 1];
    }
  }
}
