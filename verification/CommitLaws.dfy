/** How commit index and compaction move over a run. */
module CommitLaws {
  import opened Messages
  import opened PeerModel
  import opened PeerLaws
  import opened Cluster
  import opened H = History
  import opened ClusterInv
  import opened ClusterFrames
  import opened RunLaws
  import opened HandlerLaws

  /** How the two indices of a peer move: together, by a commit, or not at all. */
  ghost predicate IndicesMove(a: Peer, b: Peer) {
    && b.threshold == a.threshold
    && ((b.commitIndex == a.commitIndex && b.snapIndex == a.snapIndex) ||
        (a.commitIndex < b.commitIndex &&
         b.snapIndex == CompactAfter(a.snapIndex, a.commitIndex, b.commitIndex, a.threshold)))
  }

  lemma CommitMovesIndices(a: Peer, idx: int)
    ensures IndicesMove(a, UpdateCommitIndex(a, idx))
  {
  }

  predicate IndicesSaved(p: Peer) {
    p.disk.commitIndex == p.commitIndex && p.disk.snapIndex == p.snapIndex
  }

  lemma AppendMovesIndices(a: Peer, req: AppendEntriesReq)
    requires IndicesSaved(a)
    ensures var (b, out) := HandleAppendEntries(a, req);
      IndicesMove(a, b) && IndicesMove(a, Restart(b))
    ensures req.term >= a.currentTerm ==> IndicesMove(a, Restart(AcceptLeader(a, req)))
  {
    if req.term >= a.currentTerm {
      ListeningMovesNothing(a, req);
      if Succeeds(a, req) {
        SuccessTakesEntries(a, req);
        TakingMovesIndices(a, req);
      } else {
        FailureListens(a, req);
      }
      hide HandleAppendEntries, AcceptLeader, TakeEntries;
    }
  }

  lemma ListeningMovesNothing(a: Peer, req: AppendEntriesReq)
    requires IndicesSaved(a) && req.term >= a.currentTerm
    ensures var b := AcceptLeader(a, req); IndicesMove(a, b) && IndicesMove(a, Restart(b))
  {
  }

  lemma TakingMovesIndices(a: Peer, req: AppendEntriesReq)
    requires Succeeds(a, req) && req.term >= a.currentTerm
    ensures var b := HandleAppendEntries(a, req).0; IndicesMove(a, b) && IndicesMove(a, Restart(b))
  {
    hide NewLog, UpdateCommitIndex, CompactAfter, TookEntries, MatchCount, ScanOverruns;
    SuccessTakesEntries(a, req);
    var c := AcceptLeader(a, req).(log := NewLog(a.log, req));
    CommitMovesIndices(c, req.leaderCommit);
    CommitMoves(c, req.leaderCommit);
  }

  lemma PeerMovesIndices(a: Peer, e: Event)
    requires CanStep(a, e) && IndicesSaved(a)
    ensures IndicesMove(a, StepPeer(a, e))
  {
    if e.ReceiveAppend? || e.CrashInAppend? {
      AppendMovesIndices(a, e.appendReq);
      hide HandleAppendEntries, AcceptLeader, Restart, IndicesMove;
    } else if e.Commit? {
      CommitMovesIndices(a, e.idx);
    }
  }

  lemma GoodSaved(c: Cluster, h: Hist, v: NodeID)
    requires Good(c, h) && v in c.peers
    ensures IndicesSaved(c.peers[v])
  {
    assert PeerOk(c, v, h);
  }

  lemma StepMovesIndices(c: Cluster, h: Hist, e: Event, v: NodeID)
    requires Good(c, h) && Enabled(c, e) && v in c.peers && v in Next(c, e).peers
    ensures IndicesMove(c.peers[v], Next(c, e).peers[v])
  {
    hide Good, Enabled, Next;
    GoodSaved(c, h, v);
    OnlyActorSteps(c, e, v);
    if v == Actor(e) {
      PeerMovesIndices(c.peers[v], e);
    }
  }

  /** How far a peer has compacted depends on its commit index and its threshold alone, however its
      commits were batched and however often it restarted. */
  lemma {:induction false} CompactionOnPlan(r: Run, i: nat, p: NodeID)
    requires IsRun(r) && PeerIn(r, i, p)
    ensures OnPlan(r.states[i].peers[p]) && r.states[i].peers[p].threshold == r.thresholds[p]
    ensures 0 <= r.states[i].peers[p].commitIndex
  {
    hide Good, Enabled, Next;
    if i > 0 {
      PeersStay(r, i - 1, p);
      CompactionOnPlan(r, i - 1, p);
      StepMovesIndices(r.states[i - 1], HistAt(r, i - 1), r.events[i - 1], p);
      var a, b := r.states[i - 1].peers[p], r.states[i].peers[p];
      if a.commitIndex < b.commitIndex {
        CompactCompose(-1, 0, a.commitIndex, b.commitIndex, a.threshold);
      }
    }
  }

  /** Namely at every whole number of thresholds, counted from the first entry. */
  lemma CompactionInSteps(r: Run, i: nat, p: NodeID)
    requires IsRun(r) && PeerIn(r, i, p) && r.thresholds[p] >= 2
    ensures var a := r.states[i].peers[p]; LastStep(-1, r.thresholds[p], a.commitIndex, a.snapIndex)
  {
    hide IsRun, LastStep;
    CompactionOnPlan(r, i, p);
    var a := r.states[i].peers[p];
    CompactsInSteps(-1, 0, a.commitIndex, a.threshold);
  }

  /** With a threshold of at least 2 a peer never keeps as many committed entries uncompacted. */
  lemma {:induction false} RetentionBound(r: Run, i: nat, p: NodeID)
    requires IsRun(r) && PeerIn(r, i, p) && r.thresholds[p] >= 2
    ensures var a := r.states[i].peers[p]; a.threshold == r.thresholds[p] && a.commitIndex - a.snapIndex < a.threshold
  {
    hide Good, Enabled, Next;
    if i > 0 {
      PeersStay(r, i - 1, p);
      RetentionBound(r, i - 1, p);
      StepMovesIndices(r.states[i - 1], HistAt(r, i - 1), r.events[i - 1], p);
      var a, b := r.states[i - 1].peers[p], r.states[i].peers[p];
      if a.commitIndex < b.commitIndex {
        CompactRetention(a.snapIndex, a.commitIndex, b.commitIndex, a.threshold);
      }
    }
  }

  /** What a peer has committed it keeps for ever, across crashes and whatever requests arrive. */
  lemma {:induction false} CommittedForEver(r: Run, i: nat, j: nat, p: NodeID)
    requires IsRun(r) && i <= j && PeerIn(r, i, p) && PeerIn(r, j, p)
    ensures var a, b := r.states[i].peers[p], r.states[j].peers[p];
      && 0 <= a.commitIndex <= b.commitIndex < |b.log| && a.commitIndex < |a.log|
      && a.log[..a.commitIndex + 1] <= b.log
  {
    hide Good, Enabled, Next;
    CommitNeverFalls(r, i, j, p);
    CommittedPrefixesAgree(r, i, j, p, p);
  }

  lemma {:induction false} CommitNeverFalls(r: Run, i: nat, j: nat, p: NodeID)
    requires IsRun(r) && i <= j && PeerIn(r, i, p) && PeerIn(r, j, p)
    ensures r.states[i].peers[p].commitIndex <= r.states[j].peers[p].commitIndex
  {
    hide Good, Enabled, Next;
    if i < j {
      PeersStay(r, j - 1, p);
      CommitNeverFalls(r, i, j - 1, p);
      StepMovesIndices(r.states[j - 1], HistAt(r, j - 1), r.events[j - 1], p);
    }
  }
}
