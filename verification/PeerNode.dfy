/** One peer as the program has it: an object with a compacted log, a snapshot, a ledger and a
    disk. Each method is one critical section, or a part of one, and is proved to do to the whole
    log behind the compacted one (the ghost field full) exactly what PeerModel says. */
module PeerNode {
  import opened Wrappers
  import opened Messages
  import opened Model = PeerModel
  import Ledger

  // ----- the compacted representation

  function SnapIndexOf(snapshot: Option<Snapshot>): int {
    match snapshot
    case None => -1
    case Some(s) => s.lastIncludedIndex
  }

  /** The log and the last term of the snapshot are those of the full log. */
  ghost predicate Represents(log: seq<LogEntry>, snapshot: Option<Snapshot>, full: seq<LogEntry>) {
    && full != [] && -1 <= SnapIndexOf(snapshot) < |full|
    && log == full[SnapIndexOf(snapshot) + 1..]
    && (snapshot.Some? ==> 0 <= snapshot.value.lastIncludedIndex &&
                           snapshot.value.lastIncludedTerm == full[snapshot.value.lastIncludedIndex].term)
  }

  /** The snapshot, if any, holds the ledger as of its last index. */
  ghost predicate SnapshotAccurate(snapshot: Option<Snapshot>, full: seq<LogEntry>) {
    snapshot.Some? ==> 0 <= snapshot.value.lastIncludedIndex < |full| &&
                       snapshot.value.machine == Replay(full[..snapshot.value.lastIncludedIndex + 1])
  }

  /** What is committed is there, and nothing beyond it is compacted. */
  ghost predicate Accurate(snapshot: Option<Snapshot>, commitIndex: int, full: seq<LogEntry>) {
    SnapIndexOf(snapshot) <= commitIndex && 0 <= commitIndex < |full| && SnapshotAccurate(snapshot, full)
  }

  // ----- the disk

  datatype PersistentData = PersistentData(
    currentTerm: nat, commitIndex: int, voteCount: nat, votedFor: Option<NodeID>,
    log: seq<LogEntry>, snapshot: Option<Snapshot>,
    nodeID: NodeID, numOfNode: nat)

  class Storage {
    var data: Option<PersistentData>
    ghost var full: seq<LogEntry>

    ghost predicate Shaped()
      reads this
    {
      match data
      case None => true
      case Some(d) =>
        Represents(d.log, d.snapshot, full) && SnapIndexOf(d.snapshot) <= d.commitIndex && 0 <= d.commitIndex
    }

    ghost predicate Sound()
      reads this
    {
      Shaped() && (data.Some? ==> Accurate(data.value.snapshot, data.value.commitIndex, full))
    }

    ghost function View(): Saved
      reads this
    {
      match data
      case None => EMPTY_DISK
      case Some(d) => Saved(d.currentTerm, d.votedFor, d.voteCount, full, d.commitIndex, SnapIndexOf(d.snapshot))
    }

    constructor ()
      ensures data == None && Sound()
    {
      data := None;
      full := [];
    }

    method Save(d: PersistentData, ghost log: seq<LogEntry>)
      modifies this
      ensures data == Some(d) && full == log
    {
      data := Some(d);
      full := log;
    }

    method Load() returns (d: Option<PersistentData>)
      ensures d == data
    {
      d := data;
    }
  }

  // ----- the peer

  datatype Call =
    | NotLeading
    | NextIndexOutOfRange
    | SliceOutOfRange
    | SendSnapshot(snapshotReq: InstallSnapshotReq)
    | SendEntries(appendReq: AppendEntriesReq)

  class Node {
    const id: NodeID
    const others: set<NodeID>
    const snapshotThreshold: int
    const stateMachine: Ledger.TSM
    const storage: Storage

    var state: Role
    var currentTerm: nat
    var votedFor: Option<NodeID>
    var voteCount: nat
    var log: seq<LogEntry>
    var commitIndex: int
    var snapshot: Option<Snapshot>

    var nextIndex: map<NodeID, int>
    var matchIndex: map<NodeID, int>
    var channels: map<int, seq<NodeID>>

    ghost var full: seq<LogEntry>

    ghost function View(): Peer
      reads this, storage
    {
      Peer(id, others, snapshotThreshold, state, currentTerm, votedFor, voteCount,
           full, commitIndex, SnapIndexOf(snapshot), nextIndex, matchIndex, channels, storage.View())
    }

    /** The representation: indices can be translated. */
    ghost predicate Shaped()
      reads this, storage
    {
      && Represents(log, snapshot, full)
      && SnapIndexOf(snapshot) <= commitIndex && 0 <= commitIndex
      && (state == Leader ==> nextIndex.Keys == matchIndex.Keys == others)
      && storage.Shaped()
    }

    /** The ledger has executed the full log up to, not including, index i. */
    ghost predicate AppliedUpTo(i: nat)
      reads this`snapshot, this`full, stateMachine
    {
      i <= |full| && SnapshotAccurate(snapshot, full) && stateMachine.Value() == Replay(full[..i])
    }

    /** The ledger is the fold of the full log up to the commit index. */
    ghost predicate Applied()
      reads this, stateMachine
    {
      SnapIndexOf(snapshot) <= commitIndex && 0 <= commitIndex && AppliedUpTo(commitIndex + 1)
    }

    ghost predicate Valid()
      reads this, stateMachine, storage
    {
      Shaped() && Applied() && storage.Sound()
    }

    // ----- index translation (raft/peer.go:416-439)

    function ToLogIndex(trueIndex: int): (r: int)
      reads this`snapshot, this`log, this`full
      ensures r == trueIndex - SnapIndexOf(snapshot) - 1
      ensures Represents(log, snapshot, full) && 0 <= r < |log| ==> trueIndex < |full| && log[r] == full[trueIndex]
    {
      match snapshot
      case None => trueIndex
      case Some(s) => trueIndex - s.lastIncludedIndex - 1
    }

    function LogLen(): (n: int)
      reads this`snapshot, this`log, this`full
      ensures Represents(log, snapshot, full) ==> n == |full|
    {
      match snapshot
      case None => |log|
      case Some(s) => |log| + s.lastIncludedIndex + 1
    }

    /** Whether getLogTermByIndex finds an entry; otherwise its slice access runs out of range. */
    predicate HasTerm(trueIndex: int)
      reads this`snapshot, this`log, this`full
      ensures Represents(log, snapshot, full) ==>
        (HasTerm(trueIndex) <==> Max(SnapIndexOf(snapshot), 0) <= trueIndex < |full|)
    {
      (snapshot.Some? && trueIndex == snapshot.value.lastIncludedIndex) || 0 <= ToLogIndex(trueIndex) < |log|
    }

    function GetLogTermByIndex(trueIndex: int): (t: nat)
      reads this`snapshot, this`log, this`full
      requires HasTerm(trueIndex)
      ensures Represents(log, snapshot, full) ==> 0 <= trueIndex < |full| && t == full[trueIndex].term
    {
      if snapshot.Some? && trueIndex == snapshot.value.lastIncludedIndex then snapshot.value.lastIncludedTerm
      else log[ToLogIndex(trueIndex)].term
    }

    function GetTotalPeers(): nat {
      |others| + 1
    }

    // ----- disk and restart (raft/pstorage.go, raft/peer.go:91-137)

    /** A peer with nothing loaded yet. */
    constructor (id: NodeID, others: set<NodeID>, snapshotThreshold: int, stateMachine: Ledger.TSM, storage: Storage)
      requires storage.Sound()
      modifies stateMachine
      ensures Valid() && View() == NewPeer(id, others, snapshotThreshold).(disk := storage.View())
      ensures this.stateMachine == stateMachine && this.storage == storage
    {
      this.id := id;
      this.others := others;
      this.snapshotThreshold := snapshotThreshold;
      this.stateMachine := stateMachine;
      this.storage := storage;
      state := Follower;
      currentTerm := 0;
      votedFor := None;
      voteCount := 0;
      log := [SENTINEL];
      commitIndex := 0;
      snapshot := None;
      nextIndex := map[];
      matchIndex := map[];
      channels := map[];
      full := [SENTINEL];
      new;
      stateMachine.Reset();
      assert full[..1] == [SENTINEL];
      ReplaySentinel();
    }

    /** Reading the disk back and replaying the log: false, and nothing done, when the disk belongs
        to another peer or another cluster. */
    method LoadFromPersistentStorage() returns (ok: bool)
      requires Valid() && View() == NewPeer(id, others, snapshotThreshold).(disk := storage.View())
      modifies this, stateMachine
      ensures ok <==>
        (storage.data.Some? ==> storage.data.value.nodeID == id && storage.data.value.numOfNode == |others|)
      ensures Valid()
      ensures ok && storage.data.Some? ==> View() == Restart(old(View()))
      ensures !ok || storage.data == None ==> View() == old(View())
    {
      assert stateMachine.Value() == Ledger.EMPTY_STATE by {
        ReplaySentinel();
        assert full[..1] == [SENTINEL];
      }
      var data := storage.Load();
      if data == None {
        return true;
      }
      var d := data.value;
      if d.numOfNode != |others| || d.nodeID != id {
        return false;
      }
      Adopt(d);
      ok := true;
    }

    method Adopt(d: PersistentData)
      requires storage.data == Some(d) && storage.Sound()
      requires state != Leader && stateMachine.Value() == Ledger.EMPTY_STATE
      modifies this, stateMachine
      ensures Valid()
      ensures View() == old(View()).(
        currentTerm := d.currentTerm, votedFor := d.votedFor, voteCount := d.voteCount,
        log := storage.full, commitIndex := d.commitIndex, snapIndex := SnapIndexOf(d.snapshot))
    {
      hide Accurate, Applied, Shaped, View, Storage.Sound, Storage.View;
      TakeFields(d);
      ReplayFromSnapshot();
    }

    method TakeFields(d: PersistentData)
      requires storage.data == Some(d) && storage.Sound() && state != Leader
      modifies this
      ensures state == old(state) && Shaped() && Accurate(snapshot, commitIndex, full)
      ensures View() == old(View()).(
        currentTerm := d.currentTerm, votedFor := d.votedFor, voteCount := d.voteCount,
        log := storage.full, commitIndex := d.commitIndex, snapIndex := SnapIndexOf(d.snapshot))
    {
      hide Represents, Accurate;
      currentTerm := d.currentTerm;
      commitIndex := d.commitIndex;
      voteCount := d.voteCount;
      votedFor := d.votedFor;
      log := d.log;
      snapshot := d.snapshot;
      full := storage.full;
    }

    /** The ledger as of the commit index, from the snapshot and the entries after it. */
    method ReplayFromSnapshot()
      requires Shaped() && Accurate(snapshot, commitIndex, full)
      requires stateMachine.Value() == Ledger.EMPTY_STATE
      modifies stateMachine
      ensures Applied()
    {
      var i := 0;
      if snapshot.Some? {
        stateMachine.ResetWithSnapshot(snapshot.value.machine);
        i := snapshot.value.lastIncludedIndex + 1;
      }
      assert full[..0] == [];
      while i <= commitIndex
        invariant SnapIndexOf(snapshot) < i <= commitIndex + 1
        invariant stateMachine.Value() == Replay(full[..i])
        modifies stateMachine
      {
        ReplayNext(full, i);
        Execute(i);
        i := i + 1;
      }
    }

    method SaveToPersistentStorage()
      requires Shaped()
      modifies storage
      ensures Shaped() && View() == Save(old(View()))
      ensures storage.data.Some? && storage.data.value.nodeID == id && storage.data.value.numOfNode == |others|
      ensures Applied() ==> Valid()
    {
      storage.Save(PersistentData(currentTerm, commitIndex, voteCount, votedFor, log, snapshot, id, |others|), full);
    }

    // ----- role and term (raft/peer.go:211-253, raft/peer.go:314-324)

    method UpdateTerm(term: nat) returns (raised: bool)
      requires Valid()
      modifies this`currentTerm, this`votedFor
      ensures Valid() && View() == Model.UpdateTerm(old(View()), term)
      ensures raised <==> term > old(currentTerm)
    {
      hide Represents, Accurate, AppliedUpTo;
      raised := term > currentTerm;
      if raised {
        currentTerm := term;
        votedFor := None;
      }
    }

    method ChangeState(role: Role)
      requires Valid()
      modifies this, storage
      ensures Valid() && snapshot == old(snapshot)
      ensures role == old(state) ==> View() == old(View())
      ensures role != old(state) ==>
        View() == match role
                  case Follower => BecomeFollower(old(View()))
                  case Candidate => Model.StartElection(BecomeFollower(old(View())))
                  case Leader => BecomeLeader(old(View()))
    {
      hide Represents, Accurate, AppliedUpTo, SnapshotAccurate;
      if role == state {
        return;
      }
      if state == Leader {
        channels := map[];
        nextIndex := map[];
        matchIndex := map[];
      }
      state := role;
      match role {
        case Follower =>
        case Candidate =>
          StartElection();
        case Leader =>
          SetUpLeadership();
      }
    }

    method SetUpLeadership()
      requires Represents(log, snapshot, full)
      modifies this`nextIndex, this`matchIndex, this`channels
      ensures nextIndex == (map t | t in others :: |full|) && matchIndex == (map t | t in others :: 0)
      ensures channels == map[]
    {
      var len := LogLen();
      nextIndex := map t | t in others :: len;
      matchIndex := map t | t in others :: 0;
      channels := map[];
    }

    /** A term from a message: a later one makes the peer a follower. */
    method Observe(term: nat) returns (raised: bool)
      requires Valid()
      modifies this, storage
      ensures Valid() && snapshot == old(snapshot)
      ensures raised <==> term > old(currentTerm)
      ensures View() == if raised then BecomeFollower(Model.UpdateTerm(old(View()), term)) else old(View())
    {
      hide Represents, Accurate, AppliedUpTo;
      raised := UpdateTerm(term);
      if raised {
        ChangeState(Follower);
      }
    }

    // ----- elections (raft/request_vote.go)

    method StartElection()
      requires Valid() && state == Candidate
      modifies this`voteCount, this`currentTerm, this`votedFor, storage
      ensures Valid() && View() == Model.StartElection(old(View()))
    {
      hide Represents, Accurate, AppliedUpTo;
      voteCount := 1;
      var _ := UpdateTerm(currentTerm + 1);
      votedFor := Some(id);
      SaveToPersistentStorage();
    }

    lemma LastInRange()
      requires Represents(log, snapshot, full)
      ensures LogLen() == |full| > 0 && HasTerm(LogLen() - 1)
      ensures GetLogTermByIndex(LogLen() - 1) == full[|full| - 1].term
    {
    }

    predicate LogPriorCheck(lastLogIndex: int, lastLogTerm: nat)
      reads this`snapshot, this`log, this`full
      requires HasTerm(LogLen() - 1)
    {
      var myLastLogIndex := LogLen() - 1;
      var myLastLogTerm := GetLogTermByIndex(myLastLogIndex);
      myLastLogTerm > lastLogTerm || (myLastLogTerm == lastLogTerm && myLastLogIndex > lastLogIndex)
    }

    method MakeVoteRequest() returns (req: RequestVoteReq)
      requires Valid()
      ensures req == VoteRequest(View())
    {
      LastInRange();
      req := RequestVoteReq(currentTerm, id, LogLen() - 1, GetLogTermByIndex(LogLen() - 1));
    }

    method HandleRequestVote(req: RequestVoteReq) returns (res: RequestVoteRes)
      requires Valid()
      modifies this, storage
      ensures Valid() && (View(), res) == Model.HandleRequestVote(old(View()), req)
    {
      hide Represents, Accurate, AppliedUpTo;
      var _ := Observe(req.term);
      LastInRange();
      if req.term < currentTerm || LogPriorCheck(req.lastLogIndex, req.lastLogTerm) {
        return RequestVoteRes(currentTerm, false);
      }
      if votedFor != None {
        return RequestVoteRes(currentTerm, false);
      }
      GrantVote(req.candidateID);
      res := RequestVoteRes(currentTerm, true);
    }

    method GrantVote(candidate: NodeID)
      requires Valid()
      modifies this`votedFor, storage
      ensures Valid() && View() == Save(old(View()).(votedFor := Some(candidate)))
    {
      hide Represents, Accurate, AppliedUpTo;
      votedFor := Some(candidate);
      SaveToPersistentStorage();
    }

    method HandleRequestVoteRespond(res: RequestVoteRes)
      requires Valid()
      modifies this, storage
      ensures Valid() && View() == Model.HandleRequestVoteRespond(old(View()), res)
    {
      hide Represents, Accurate, AppliedUpTo;
      var raised := Observe(res.term);
      if raised {
        return;
      }
      if res.term < currentTerm || state != Candidate {
        return;
      }
      if res.voteGranted {
        voteCount := voteCount + 1;
        if voteCount > GetTotalPeers() / 2 {
          ChangeState(Leader);
        }
      }
      SaveToPersistentStorage();
    }

    // ----- commit and compaction (raft/peer.go:326-348, raft/snapshot.go:18-41)

    method MakeSnapshot(lastIncludedIndex: int) returns (s: Snapshot)
      requires HasTerm(lastIncludedIndex)
      ensures s == Snapshot(lastIncludedIndex, GetLogTermByIndex(lastIncludedIndex), stateMachine.Value())
    {
      var machine := stateMachine.TakeSnapshot();
      s := Snapshot(lastIncludedIndex, GetLogTermByIndex(lastIncludedIndex), machine);
    }

    /** Compacts the log up to an index beyond the last snapshot. */
    method SaveToSnapshot(lastIncludedIndex: int)
      requires Represents(log, snapshot, full) && SnapIndexOf(snapshot) < lastIncludedIndex < |full|
      modifies this`log, this`snapshot
      ensures Represents(log, snapshot, full)
      ensures snapshot == Some(Snapshot(lastIncludedIndex, full[lastIncludedIndex].term, stateMachine.Value()))
    {
      var s := MakeSnapshot(lastIncludedIndex);
      log := log[ToLogIndex(lastIncludedIndex + 1)..];
      snapshot := Some(s);
    }

    /** Applies the entries up to idx, compacting as it goes, and saves if that was any. What the log
        and the indices become does not depend on the ledger; the ledger is right if it was. */
    method UpdateCommitIndex(idx: int)
      requires Shaped()
      modifies this`log, this`snapshot, this`commitIndex, stateMachine, storage
      ensures Shaped() && View() == Model.UpdateCommitIndex(old(View()), idx)
      ensures old(Valid()) ==> Valid()
      ensures old(Applied()) ==> Applied()
    {
      hide Replay, CompactAfter;
      hide AppliedUpTo, Represents;
      var last := Min(idx, LogLen() - 1);
      if last > commitIndex {
        ApplyUpTo(last);
        commitIndex := last;
        SaveToPersistentStorage();
      }
    }

    method ApplyUpTo(last: int)
      requires Represents(log, snapshot, full)
      requires SnapIndexOf(snapshot) <= commitIndex < last < |full| && 0 <= commitIndex
      modifies this`log, this`snapshot, stateMachine
      ensures Represents(log, snapshot, full)
      ensures SnapIndexOf(snapshot) == CompactAfter(old(SnapIndexOf(snapshot)), commitIndex, last, snapshotThreshold)
      ensures SnapIndexOf(snapshot) <= last
      ensures old(Applied()) ==> AppliedUpTo(last + 1)
    {
      hide Represents, Replay;
      ghost var applied := Applied();
      for i := commitIndex + 1 to last + 1
        invariant Represents(log, snapshot, full) && SnapIndexOf(snapshot) < i
        invariant CompactAfter(SnapIndexOf(snapshot), i - 1, last, snapshotThreshold) ==
                  CompactAfter(old(SnapIndexOf(snapshot)), commitIndex, last, snapshotThreshold)
        invariant applied ==> AppliedUpTo(i)
        modifies this`log, this`snapshot, stateMachine
      {
        ApplyEntryAt(i);
      }
    }

    method ApplyEntryAt(i: int)
      requires Represents(log, snapshot, full) && SnapIndexOf(snapshot) < i < |full| && 0 <= i
      modifies this`log, this`snapshot, stateMachine
      ensures Represents(log, snapshot, full)
      ensures SnapIndexOf(snapshot) ==
        if i - old(SnapIndexOf(snapshot)) >= snapshotThreshold then i else old(SnapIndexOf(snapshot))
      ensures old(AppliedUpTo(i)) ==> AppliedUpTo(i + 1)
    {
      hide Replay;
      ReplayNext(full, i);
      Execute(i);
      if ToLogIndex(i) + 1 >= snapshotThreshold {
        SaveToSnapshot(i);
      }
    }

    /** The ledger executes one entry, if it carries a command. */
    method Execute(i: int)
      requires Represents(log, snapshot, full) && SnapIndexOf(snapshot) < i < |full|
      modifies stateMachine
      ensures stateMachine.Value() == ApplyEntry(old(stateMachine.Value()), full[i])
    {
      var action := log[ToLogIndex(i)].cmd;
      if action.Some? {
        var _ := stateMachine.ApplyAction(action.value);
      }
    }

    // ----- follower side of replication (raft/append_entry.go:19-82)

    method ConsistencyCheck(req: AppendEntriesReq) returns (r: Outcome<bool>)
      requires Valid()
      modifies this, storage
      ensures Valid()
      ensures req.term < old(currentTerm) ==> r == Replied(false) && View() == old(View())
      ensures req.term >= old(currentTerm) ==>
        View() == AcceptLeader(old(View()), req) && r == Model.ConsistencyCheck(View(), req)
    {
      hide Represents, Accurate, AppliedUpTo;
      if req.term < currentTerm {
        return Replied(false);
      }
      var _ := UpdateTerm(req.term);
      ChangeState(Follower);
      SaveToPersistentStorage();
      TermInRange(req.prevLogIndex);
      if LogLen() <= req.prevLogIndex {
        return Replied(false);
      }
      if !HasTerm(req.prevLogIndex) {
        return OutOfRange;
      }
      var myPrevLogTerm := GetLogTermByIndex(req.prevLogIndex);
      if myPrevLogTerm != req.prevLogTerm {
        if req.prevLogIndex <= commitIndex {
          return Fatal;
        }
        return Replied(false);
      }
      r := Replied(true);
    }

    lemma TermInRange(i: int)
      requires Represents(log, snapshot, full)
      ensures LogLen() == |full|
      ensures HasTerm(i) <==> Max(SnapIndexOf(snapshot), 0) <= i < |full|
      ensures HasTerm(i) ==> GetLogTermByIndex(i) == full[i].term
    {
    }

    /** The scan: None when it runs past the entries. */
    method Scan(prevLogIndex: int, entries: seq<LogEntry>) returns (n: Option<nat>)
      requires Represents(log, snapshot, full) && Max(SnapIndexOf(snapshot), 0) <= prevLogIndex < |full|
      ensures n == if ScanOverruns(full, prevLogIndex, entries) then None
                   else Some(MatchCount(full, prevLogIndex, entries))
    {
      hide Represents, MatchCount, LogLen, HasTerm, GetLogTermByIndex;
      var newLogIndex := 0;
      while true
        invariant newLogIndex <= |entries| && prevLogIndex + newLogIndex < |full|
        invariant MatchCount(full, prevLogIndex, entries) ==
                  newLogIndex + MatchCount(full, prevLogIndex + newLogIndex, entries[newLogIndex..])
        decreases |entries| - newLogIndex
      {
        TermInRange(prevLogIndex + newLogIndex + 1);
        MatchCountStep(full, prevLogIndex, entries, newLogIndex);
        if LogLen() <= prevLogIndex + newLogIndex + 1 {
          return Some(newLogIndex);
        }
        if newLogIndex >= |entries| {
          return None;
        }
        if GetLogTermByIndex(prevLogIndex + newLogIndex + 1) != entries[newLogIndex].term {
          return Some(newLogIndex);
        }
        newLogIndex := newLogIndex + 1;
      }
    }

    /** Cutting the log at the first new entry and appending the rest. */
    method ReplaceSuffix(prevLogIndex: int, entries: seq<LogEntry>, newLogIndex: nat)
      requires Represents(log, snapshot, full) && Max(SnapIndexOf(snapshot), 0) <= prevLogIndex < |full|
      requires newLogIndex == MatchCount(full, prevLogIndex, entries)
      modifies this`log, this`full
      ensures Represents(log, snapshot, full) && full == Merge(old(full), prevLogIndex, entries)
    {
      hide MatchCount, Merge, Represents;
      ghost var newLog, newFull := ReplaceKeeps(log, snapshot, full, prevLogIndex, entries, newLogIndex);
      var at := ToLogIndex(prevLogIndex + newLogIndex + 1);
      log := log[..at] + entries[newLogIndex..];
      full := newFull;
      assert log == newLog;
    }

    /** What follows a successful check and scan. */
    method TakeEntries(req: AppendEntriesReq, newLogIndex: nat)
      requires Valid() && Max(SnapIndexOf(snapshot), 0) <= req.prevLogIndex < |full|
      requires newLogIndex == MatchCount(full, req.prevLogIndex, req.entries)
      modifies this`log, this`full, this`snapshot, this`commitIndex, stateMachine, storage
      ensures Shaped() && View() == Model.TakeEntries(old(View()), req)
      ensures req.entries == [] || old(commitIndex) <= req.prevLogIndex + newLogIndex ==> Valid()
    {
      hide Represents, MatchCount, Replay;
      if |req.entries| != 0 {
        ghost var before := full;
        ReplaceSuffix(req.prevLogIndex, req.entries, newLogIndex);
        if commitIndex <= req.prevLogIndex + newLogIndex {
          assert full[..commitIndex + 1] == before[..commitIndex + 1];
          assert forall k | 0 <= k <= commitIndex + 1 :: full[..k] == full[..commitIndex + 1][..k] == before[..k];
          assert Applied();
        }
      }
      UpdateCommitIndex(req.leaderCommit);
      SaveToPersistentStorage();
    }

    /** The whole handler. Its effect on the log, the indices and the disk is the model's in every
        case; the ledger stays the fold of the log unless committed entries were overridden, which
        RunLaws.CommittedNeverOverridden excludes. */
    method HandleAppendEntries(req: AppendEntriesReq) returns (r: Outcome<AppendEntriesRes>)
      requires Valid()
      modifies this, stateMachine, storage
      ensures Shaped() && (View(), r) == Model.HandleAppendEntries(old(View()), req)
      ensures !ReportsOverride(old(View()), req) ==> Valid()
    {
      hide Represents, AppliedUpTo, Accurate, SnapshotAccurate, MatchCount, Model.TakeEntries;
      var consistent := ConsistencyCheck(req);
      match consistent {
        case OutOfRange => return OutOfRange;
        case Fatal => return Fatal;
        case Replied(ok) =>
          if !ok {
            return Replied(AppendEntriesRes(currentTerm, false));
          }
      }
      var newLogIndex := 0;
      if |req.entries| != 0 {
        var n := Scan(req.prevLogIndex, req.entries);
        if n == None {
          return OutOfRange;
        }
        newLogIndex := n.value;
      }
      TakeEntries(req, newLogIndex);
      r := Replied(AppendEntriesRes(currentTerm, true));
    }

    // ----- leader side of replication (raft/append_entry.go:93-253)

    /** A client's command, up to waiting for its majority: the index it waits for. */
    method AppendClientEntry(cmd: Option<Ledger.Action>) returns (pending: Option<int>)
      requires Valid()
      modifies this`log, this`full, this`channels, storage
      ensures Valid()
      ensures state != Leader ==> pending == None && View() == old(View())
      ensures state == Leader ==>
        pending == Some(|old(full)|) && View() == ClientAppend(old(View()), LogEntry(cmd, currentTerm))
    {
      hide Represents, Accurate, AppliedUpTo, SnapshotAccurate;
      if state != Leader {
        return None;
      }
      AppendEntry(LogEntry(cmd, currentTerm));
      SaveToPersistentStorage();
      LastInRange();
      var newLogIndex := LogLen() - 1;
      OpenChannel(newLogIndex);
      pending := Some(newLogIndex);
    }

    method OpenChannel(newLogIndex: int)
      requires Valid()
      modifies this`channels
      ensures Valid() && View() == old(View()).(channels := old(channels)[newLogIndex := [id]])
    {
      hide Represents, Accurate, AppliedUpTo, SnapshotAccurate;
      channels := channels[newLogIndex := [id]];
    }

    method AppendEntry(e: LogEntry)
      requires Valid()
      modifies this`log, this`full
      ensures Represents(log, snapshot, full) && full == old(full) + [e] && Applied()
    {
      hide Replay, Accurate;
      ghost var before := full;
      log := log + [e];
      full := full + [e];
      assert forall k | 0 <= k <= |before| :: full[..k] == before[..k];
    }

    /** The waiter of a pending index, given the messages its channel has received. */
    method AwaitMajority(newLogIndex: int, term: nat, received: seq<NodeID>)
      requires Valid()
      modifies this`log, this`snapshot, this`commitIndex, this`channels, stateMachine, storage
      ensures Valid()
      ensures View() == if 2 * |received| > |others| + 1 && state == Leader && term == currentTerm
                        then CommitPending(old(View()), newLogIndex) else old(View())
    {
      hide Represents, AppliedUpTo, Accurate, SnapshotAccurate, Model.UpdateCommitIndex;
      var count := 0;
      while count < |received|
        invariant count <= |received| && 2 * count <= GetTotalPeers()
      {
        count := count + 1;
        if 2 * count > GetTotalPeers() {
          if state == Leader && term == currentTerm {
            CommitAndSave(newLogIndex);
            channels := channels - {newLogIndex};
          }
          return;
        }
      }
    }

    method CommitAndSave(idx: int)
      requires Valid()
      modifies this`log, this`snapshot, this`commitIndex, stateMachine, storage
      ensures Valid() && View() == Save(Model.UpdateCommitIndex(old(View()), idx))
    {
      hide Represents, AppliedUpTo, Accurate, SnapshotAccurate, Model.UpdateCommitIndex;
      UpdateCommitIndex(idx);
      SaveToPersistentStorage();
    }

    /** What the replication loop sends next to a target. */
    method NextCall(target: NodeID) returns (call: Call)
      requires Valid() && target in others
      ensures state != Leader <==> call.NotLeading?
      ensures call.SendEntries? ==> CanSend(View(), target) && call.appendReq == AppendRequest(View(), target)
      ensures call.SendSnapshot? ==>
        && 0 <= SnapIndexOf(snapshot) && nextIndex[target] <= SnapIndexOf(snapshot)
        && call.snapshotReq == SnapshotRequest(View())
      ensures state == Leader ==>
        (call.SliceOutOfRange? <==> nextIndex[target] > |full|) &&
        (call.NextIndexOutOfRange? <==> nextIndex[target] <= 0 && snapshot == None)
    {
      hide Represents, Accurate, AppliedUpTo, SnapshotRequest, AppendRequest, Replay;
      if state != Leader {
        return NotLeading;
      }
      var next := nextIndex[target];
      SnapshotInView();
      if ToLogIndex(next) < 0 && snapshot != None {
        return SendSnapshot(InstallSnapshotReq(currentTerm, id, snapshot.value));
      }
      if next <= 0 {
        return NextIndexOutOfRange;
      }
      TermInRange(next - 1);
      if !HasTerm(next - 1) {
        return SliceOutOfRange;
      }
      var req := MakeAppendRequest(target);
      call := SendEntries(req);
    }

    lemma SnapshotInView()
      requires Valid()
      ensures -1 <= SnapIndexOf(snapshot) < |full|
      ensures snapshot != None ==> 0 <= SnapIndexOf(snapshot) &&
                                   InstallSnapshotReq(currentTerm, id, snapshot.value) == SnapshotRequest(View())
    {
      hide Replay;
    }

    method MakeAppendRequest(target: NodeID) returns (req: AppendEntriesReq)
      requires Represents(log, snapshot, full) && CanSend(View(), target)
      ensures req == AppendRequest(View(), target)
    {
      var next := nextIndex[target];
      TermInRange(next - 1);
      var entries := log[ToLogIndex(next)..];
      assert entries == full[next..];
      req := AppendEntriesReq(currentTerm, id, next - 1, GetLogTermByIndex(next - 1), commitIndex, entries);
    }

    method HandleAppendReply(target: NodeID, req: AppendEntriesReq, res: AppendEntriesRes)
      requires Valid() && target in others
      modifies this, storage
      ensures Valid()
      ensures View() == if old(state) == Leader then Model.HandleAppendReply(old(View()), target, req, res)
                        else old(View())
    {
      hide Represents, Accurate, AppliedUpTo, SnapshotAccurate, Signal;
      if state != Leader {
        return;
      }
      if !res.success {
        var raised := StepDown(res.term);
        if !raised {
          nextIndex := nextIndex[target := nextIndex[target] - 1];
        }
        return;
      }
      Acknowledge(target, req.End());
    }

    /** A target's acknowledgement up to an index, passed on to the waiters it concerns. */
    method Acknowledge(target: NodeID, end: int)
      requires Valid() && state == Leader && target in others
      modifies this`nextIndex, this`matchIndex, this`channels
      ensures Valid()
      ensures View() == old(View()).(
        nextIndex := old(nextIndex)[target := end + 1], matchIndex := old(matchIndex)[target := end],
        channels := Signal(old(channels), target, Max(commitIndex, old(matchIndex)[target]), end))
    {
      hide Represents, Accurate, AppliedUpTo, SnapshotAccurate, Signal;
      nextIndex := nextIndex[target := end + 1];
      SendSignals(target, Max(commitIndex, matchIndex[target]), end);
      matchIndex := matchIndex[target := end];
    }

    /** A later term found in a reply is saved at once. */
    method StepDown(term: nat) returns (raised: bool)
      requires Valid()
      modifies this, storage
      ensures Valid() && snapshot == old(snapshot)
      ensures raised <==> term > old(currentTerm)
      ensures View() == if raised then Save(BecomeFollower(Model.UpdateTerm(old(View()), term))) else old(View())
    {
      hide Represents, Accurate, AppliedUpTo;
      raised := Observe(term);
      if raised {
        SaveToPersistentStorage();
      }
    }

    method SendSignals(target: NodeID, from: int, end: int)
      modifies this`channels
      ensures channels == Signal(old(channels), target, from, end)
    {
      ghost var before := channels;
      var i := from + 1;
      while i <= end
        invariant from < i && (i <= end + 1 || i == from + 1)
        invariant channels == Signal(before, target, from, i - 1)
        modifies this`channels
      {
        if i in channels {
          channels := channels[i := channels[i] + [target]];
        }
        i := i + 1;
      }
    }

    // ----- snapshots from the leader (raft/snapshot.go:43-86)

    /** A snapshot of the log prefix given: the peer keeps its role and term, takes the prefix for its
        log's beginning, and its ledger is the prefix's. */
    method HandleInstallSnapshot(req: InstallSnapshotReq, ghost prefix: seq<LogEntry>)
      returns (r: Outcome<InstallSnapshotRes>)
      requires Valid()
      requires |prefix| == req.snapshot.lastIncludedIndex + 1 && prefix != []
      requires prefix[|prefix| - 1].term == req.snapshot.lastIncludedTerm && req.snapshot.machine == Replay(prefix)
      modifies this, stateMachine, storage
      ensures Valid() && (View(), r) == Model.HandleInstallSnapshot(old(View()), req, prefix)
    {
      hide Represents, Accurate, AppliedUpTo, SnapshotAccurate, Replay, LogAfterSnapshot;
      var res := InstallSnapshotRes(currentTerm);
      if req.term < currentTerm {
        return Replied(res);
      }
      var _ := Observe(res.term);
      TermInRange(req.snapshot.lastIncludedIndex);
      if req.snapshot.lastIncludedIndex < LogLen() - 1 && !HasTerm(req.snapshot.lastIncludedIndex) {
        return OutOfRange;
      }
      TakeSnapshot(req.snapshot, prefix);
      r := Replied(res);
    }

    method TakeSnapshot(s: Snapshot, ghost prefix: seq<LogEntry>)
      requires Valid() && |prefix| == s.lastIncludedIndex + 1 && prefix != []
      requires prefix[|prefix| - 1].term == s.lastIncludedTerm && s.machine == Replay(prefix)
      requires s.lastIncludedIndex < LogLen() - 1 ==> HasTerm(s.lastIncludedIndex)
      modifies this, stateMachine, storage
      ensures Valid()
      ensures View() == Save(old(View()).(
        log := LogAfterSnapshot(old(full), s.lastIncludedIndex, s.lastIncludedTerm, prefix),
        commitIndex := s.lastIncludedIndex, snapIndex := s.lastIncludedIndex))
    {
      hide Represents, Accurate, AppliedUpTo, SnapshotAccurate, Replay, LogAfterSnapshot;
      KeepSuffix(s.lastIncludedIndex, s.lastIncludedTerm, prefix);
      Install(s, prefix);
    }

    /** The log after a snapshot of the prefix: what follows it, if the terms agree at its end. */
    method KeepSuffix(lastIncludedIndex: int, lastIncludedTerm: nat, ghost prefix: seq<LogEntry>)
      requires Represents(log, snapshot, full) && |prefix| == lastIncludedIndex + 1 && prefix != []
      requires lastIncludedIndex < LogLen() - 1 ==> HasTerm(lastIncludedIndex)
      modifies this`log, this`full
      ensures prefix <= full && log == full[|prefix|..]
      ensures full == LogAfterSnapshot(old(full), lastIncludedIndex, lastIncludedTerm, prefix)
    {
      var myLastRecordedIndex := LogLen() - 1;
      if lastIncludedIndex < myLastRecordedIndex && GetLogTermByIndex(lastIncludedIndex) == lastIncludedTerm {
        log := log[ToLogIndex(lastIncludedIndex + 1)..];
        full := prefix + full[lastIncludedIndex + 1..];
      } else {
        log := [];
        full := prefix;
      }
    }

    method Install(s: Snapshot, ghost prefix: seq<LogEntry>)
      requires |prefix| == s.lastIncludedIndex + 1 && prefix != [] && prefix <= full && log == full[|prefix|..]
      requires prefix[|prefix| - 1].term == s.lastIncludedTerm && s.machine == Replay(prefix)
      requires storage.Sound() && (state == Leader ==> nextIndex.Keys == matchIndex.Keys == others)
      modifies this`commitIndex, this`snapshot, stateMachine, storage
      ensures Valid()
      ensures View() == Save(old(View()).(commitIndex := s.lastIncludedIndex, snapIndex := s.lastIncludedIndex))
    {
      hide Replay;
      commitIndex := s.lastIncludedIndex;
      snapshot := Some(s);
      stateMachine.ResetWithSnapshot(s.machine);
      assert full[..commitIndex + 1] == prefix;
      assert Applied();
      hide Represents, SnapshotAccurate, AppliedUpTo;
      SaveToPersistentStorage();
    }

    method HandleInstallSnapshotRes(target: NodeID, res: InstallSnapshotRes)
      requires Valid() && target in others && (state == Leader ==> snapshot.Some?)
      modifies this, storage
      ensures Valid()
      ensures View() ==
        if old(state) == Leader then Model.HandleInstallSnapshotRes(old(View()), target, res)
        else if res.term > old(currentTerm) then Save(BecomeFollower(Model.UpdateTerm(old(View()), res.term)))
        else old(View())
    {
      hide Represents, Accurate, AppliedUpTo;
      var _ := StepDown(res.term);
      if state == Leader {
        nextIndex := nextIndex[target := snapshot.value.lastIncludedIndex + 1];
      }
    }
  }

  lemma MatchCountStep(log: seq<LogEntry>, prev: int, entries: seq<LogEntry>, n: nat)
    requires 0 <= prev && n <= |entries|
    ensures MatchCount(log, prev + n, entries[n..]) ==
      if n < |entries| && prev + n + 1 < |log| && log[prev + n + 1].term == entries[n].term
      then 1 + MatchCount(log, prev + n + 1, entries[n + 1..]) else 0
  {
    if n < |entries| {
      assert entries[n..][1..] == entries[n + 1..];
    }
  }

  lemma ReplaceKeeps(log: seq<LogEntry>, snapshot: Option<Snapshot>, full: seq<LogEntry>,
                     prev: int, entries: seq<LogEntry>, n: nat)
    returns (newLog: seq<LogEntry>, newFull: seq<LogEntry>)
    requires Represents(log, snapshot, full) && Max(SnapIndexOf(snapshot), 0) <= prev < |full|
    requires n == MatchCount(full, prev, entries)
    ensures n <= |entries| && 0 <= prev + n - SnapIndexOf(snapshot) <= |log|
    ensures newLog == log[..prev + n - SnapIndexOf(snapshot)] + entries[n..]
    ensures newFull == Merge(full, prev, entries) && Represents(newLog, snapshot, newFull)
  {
    hide Represents;
    MergeIsSplice(full, prev, entries);
    SpliceKeeps(log, snapshot, full, prev + n + 1, entries[n..]);
    newLog, newFull := log[..prev + n - SnapIndexOf(snapshot)] + entries[n..], full[..prev + n + 1] + entries[n..];
  }

  lemma MergeIsSplice(full: seq<LogEntry>, prev: int, entries: seq<LogEntry>)
    requires 0 <= prev < |full|
    ensures var n := MatchCount(full, prev, entries);
      prev + n < |full| && Merge(full, prev, entries) == full[..prev + n + 1] + entries[n..]
  {
    hide MatchCount;
  }

  /** Cutting the compacted log and appending to it does the same to the whole one. */
  lemma SpliceKeeps(log: seq<LogEntry>, snapshot: Option<Snapshot>, full: seq<LogEntry>, cut: nat, tail: seq<LogEntry>)
    requires Represents(log, snapshot, full) && Max(SnapIndexOf(snapshot), 0) < cut <= |full|
    ensures 0 <= cut - SnapIndexOf(snapshot) - 1 <= |log|
    ensures Represents(log[..cut - SnapIndexOf(snapshot) - 1] + tail, snapshot, full[..cut] + tail)
  {
    var from := SnapIndexOf(snapshot) + 1;
    assert full[from..][..cut - from] + tail == (full[..cut] + tail)[from..];
  }

  lemma ReplaySentinel()
    ensures Replay([SENTINEL]) == Ledger.EMPTY_STATE
  {
    assert [SENTINEL][..0] == [];
    assert Replay([SENTINEL]) == ApplyEntry(Replay([]), SENTINEL);
  }

  lemma ReplayNext(log: seq<LogEntry>, i: nat)
    requires i < |log|
    ensures Replay(log[..i + 1]) == ApplyEntry(Replay(log[..i]), log[i])
  {
    assert log[..i + 1][..i] == log[..i];
  }
}
