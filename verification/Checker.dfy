/** The repository's own consistency checks (simulation/local.go): what they accept, and that a
    cluster is always accepted. */
module Checker {
  import opened Wrappers
  import opened Messages
  import opened PeerModel
  import opened PeerNode
  import opened RunLaws
  import Cluster

  // ----- what a check accepts

  predicate SameCommands(a: seq<LogEntry>, b: seq<LogEntry>, n: nat)
    requires n <= |a| && n <= |b|
  {
    forall k | 0 <= k < n :: a[k].cmd == b[k].cmd
  }

  /** Log Matching, for commands: equal terms at an index mean equal commands up to it. */
  predicate Agree(a: seq<LogEntry>, b: seq<LogEntry>) {
    forall i | 0 <= i < |a| && i < |b| && a[i].term == b[i].term :: SameCommands(a, b, i + 1)
  }

  predicate SnapshotEqual(s1: Option<Snapshot>, s2: Option<Snapshot>) {
    match (s1, s2)
    case (None, None) => true
    case (Some(a), Some(b)) =>
      a.machine == b.machine && a.lastIncludedIndex == b.lastIncludedIndex && a.lastIncludedTerm == b.lastIncludedTerm
    case _ => false
  }

  /** Which is equality, ledger and all. */
  lemma EqualMeansEqual(s1: Option<Snapshot>, s2: Option<Snapshot>)
    ensures SnapshotEqual(s1, s2) <==> s1 == s2
  {
  }

  predicate PairOk(logs: map<NodeID, seq<LogEntry>>, snapshots: map<NodeID, Option<Snapshot>>, p: NodeID, q: NodeID)
    requires p in logs && q in logs && p in snapshots && q in snapshots
  {
    p != q && SnapshotEqual(snapshots[p], snapshots[q]) ==> Agree(logs[p], logs[q])
  }

  // ----- the checks

  method AgreeOnTwoLogEntries(a: seq<LogEntry>, b: seq<LogEntry>) returns (ok: bool)
    ensures ok <==> Agree(a, b)
  {
    var cmdIdentical := true;
    for i := 0 to Min(|a|, |b|)
      invariant cmdIdentical <==> SameCommands(a, b, i)
      invariant forall j | 0 <= j < i && a[j].term == b[j].term :: SameCommands(a, b, j + 1)
    {
      if a[i].cmd != b[i].cmd {
        cmdIdentical := false;
      }
      if a[i].term == b[i].term {
        if !cmdIdentical {
          assert !SameCommands(a, b, i + 1);
          return false;
        }
      }
    }
    ok := true;
  }

  method AgreeOnLogEntriesIfSnapshotEqual(logs: map<NodeID, seq<LogEntry>>, snapshots: map<NodeID, Option<Snapshot>>)
    returns (ok: bool)
    requires logs.Keys == snapshots.Keys
    ensures ok <==> forall p, q | p in logs && q in logs :: PairOk(logs, snapshots, p, q)
  {
    var peers1 := logs.Keys;
    while peers1 != {}
      invariant peers1 <= logs.Keys
      invariant forall p, q | p in logs && p !in peers1 && q in logs :: PairOk(logs, snapshots, p, q)
    {
      var peer1 :| peer1 in peers1;
      var peers2 := logs.Keys;
      while peers2 != {}
        invariant peers2 <= logs.Keys
        invariant forall q | q in logs && q !in peers2 :: PairOk(logs, snapshots, peer1, q)
      {
        var peer2 :| peer2 in peers2;
        if peer1 != peer2 && SnapshotEqual(snapshots[peer1], snapshots[peer2]) {
          var agree := AgreeOnTwoLogEntries(logs[peer1], logs[peer2]);
          if !agree {
            assert !PairOk(logs, snapshots, peer1, peer2);
            return false;
          }
        }
        peers2 := peers2 - {peer2};
      }
      peers1 := peers1 - {peer1};
    }
    ok := true;
  }

  // ----- on the cluster

  /** What GetRestLog returns. */
  function RestLog(p: Peer): seq<LogEntry>
    requires -1 <= p.snapIndex < |p.log|
  {
    p.log[p.snapIndex + 1..]
  }

  /** A peer's log, snapshot and ledger as objects are those of its view as a value. */
  lemma NodeShows(n: Node)
    requires n.Valid()
    ensures n.log == RestLog(n.View()) && n.snapshot == SnapshotOf(n.View())
    ensures n.stateMachine.Value() == LedgerOf(n.View())
  {
  }

  /** The logs and the snapshots as the check reads them: each peer's log first and its snapshot some
      time later, while the cluster goes on. */
  ghost predicate Reads(r: Cluster.Run, logAt: map<NodeID, nat>, snapshotAt: map<NodeID, nat>) {
    && Cluster.IsRun(r) && logAt.Keys == snapshotAt.Keys == r.nodes
    && forall p | p in r.nodes :: logAt[p] <= snapshotAt[p] && PeerIn(r, logAt[p], p) && PeerIn(r, snapshotAt[p], p)
  }

  /** The peer has not compacted between the two reads. */
  predicate Settled(r: Cluster.Run, logAt: map<NodeID, nat>, snapshotAt: map<NodeID, nat>, p: NodeID)
    requires p in logAt && p in snapshotAt && logAt[p] < |r.states| && snapshotAt[p] < |r.states|
    requires p in r.states[logAt[p]].peers && p in r.states[snapshotAt[p]].peers
  {
    r.states[logAt[p]].peers[p].snapIndex == r.states[snapshotAt[p]].peers[p].snapIndex
  }

  ghost function LogRead(r: Cluster.Run, i: nat, p: NodeID): seq<LogEntry>
    requires Cluster.IsRun(r) && PeerIn(r, i, p)
  {
    SnapshotBounds(r, i, p);
    RestLog(r.states[i].peers[p])
  }

  ghost function SnapshotRead(r: Cluster.Run, i: nat, p: NodeID): Option<Snapshot>
    requires Cluster.IsRun(r) && PeerIn(r, i, p)
  {
    SnapshotBounds(r, i, p);
    SnapshotOf(r.states[i].peers[p])
  }

  /** The check accepts every cluster, whenever it reads each peer, unless a peer compacts between the
      reading of its log and of its snapshot. */
  lemma CheckPasses(r: Cluster.Run, logAt: map<NodeID, nat>, snapshotAt: map<NodeID, nat>)
    requires Reads(r, logAt, snapshotAt)
    requires forall p | p in r.nodes :: Settled(r, logAt, snapshotAt, p)
    ensures var logs := map p | p in r.nodes :: LogRead(r, logAt[p], p);
      var snapshots := map p | p in r.nodes :: SnapshotRead(r, snapshotAt[p], p);
      forall p, q | p in logs && q in logs :: PairOk(logs, snapshots, p, q)
  {
    forall p, q | p in r.nodes && q in r.nodes &&
                  SnapshotEqual(SnapshotRead(r, snapshotAt[p], p), SnapshotRead(r, snapshotAt[q], q))
      ensures Agree(LogRead(r, logAt[p], p), LogRead(r, logAt[q], q))
    {
      assert Settled(r, logAt, snapshotAt, p) && Settled(r, logAt, snapshotAt, q);
      EqualSnapshots(r, snapshotAt[p], snapshotAt[q], p, q);
      RestLogsAgree(r, logAt[p], logAt[q], p, q);
    }
  }

  lemma NodesStay(r: Cluster.Run, i: nat)
    requires Cluster.IsRun(r) && i < |r.states|
    ensures r.states[i].peers.Keys == r.nodes && forall p | p in r.nodes :: PeerIn(r, i, p)
  {
    forall p | p in r.nodes ensures PeerIn(r, i, p) {
      PeersStay(r, i, p);
    }
    forall p | p in r.states[i].peers ensures p in r.nodes {
      ClusterPeers(r, i, p);
    }
  }

  /** In particular if it reads all of one state. */
  lemma CheckAlwaysPasses(r: Cluster.Run, i: nat)
    requires Cluster.IsRun(r) && i < |r.states|
    ensures r.states[i].peers.Keys == r.nodes && (forall p | p in r.nodes :: PeerIn(r, i, p))
    ensures var logs := map p | p in r.nodes :: LogRead(r, i, p);
      var snapshots := map p | p in r.nodes :: SnapshotRead(r, i, p);
      forall p, q | p in logs && q in logs :: PairOk(logs, snapshots, p, q)
  {
    NodesStay(r, i);
    hide Cluster.IsRun, PeerIn, SnapshotEqual, Agree, LogRead, SnapshotRead;
    forall p, q | p in r.nodes && q in r.nodes && SnapshotEqual(SnapshotRead(r, i, p), SnapshotRead(r, i, q))
      ensures Agree(LogRead(r, i, p), LogRead(r, i, q))
    {
      EqualSnapshots(r, i, i, p, q);
      RestLogsAgree(r, i, i, p, q);
    }
  }

  lemma EqualSnapshots(r: Cluster.Run, i: nat, j: nat, p: NodeID, q: NodeID)
    requires Cluster.IsRun(r) && PeerIn(r, i, p) && PeerIn(r, j, q)
    requires SnapshotEqual(SnapshotRead(r, i, p), SnapshotRead(r, j, q))
    ensures r.states[i].peers[p].snapIndex == r.states[j].peers[q].snapIndex
  {
    SnapshotBounds(r, i, p);
    SnapshotBounds(r, j, q);
  }

  lemma RestLogsAgree(r: Cluster.Run, i: nat, j: nat, p: NodeID, q: NodeID)
    requires Cluster.IsRun(r) && PeerIn(r, i, p) && PeerIn(r, j, q)
    requires r.states[i].peers[p].snapIndex == r.states[j].peers[q].snapIndex
    ensures Agree(LogRead(r, i, p), LogRead(r, j, q))
  {
    SnapshotBounds(r, i, p);
    SnapshotBounds(r, j, q);
    var a, b := r.states[i].peers[p], r.states[j].peers[q];
    var x, y, from := RestLog(a), RestLog(b), a.snapIndex + 1;
    forall k | 0 <= k < |x| && k < |y| && x[k].term == y[k].term
      ensures SameCommands(x, y, k + 1)
    {
      if i <= j {
        LogMatching(r, i, j, p, q, from + k);
      } else {
        LogMatching(r, j, i, q, p, from + k);
      }
      forall m | 0 <= m <= k ensures x[m].cmd == y[m].cmd {
        assert a.log[..from + k + 1][from + m] == b.log[..from + k + 1][from + m];
      }
    }
  }
}
