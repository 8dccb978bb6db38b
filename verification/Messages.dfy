/** Log entries and the shapes of the RPCs (raft/peer.go, raft/rpc.go). */
module Messages {
  import opened Wrappers
  import Ledger

  type NodeID = string

  /** cmd is None for the nil command: the sentinel at index 0 and a new leader's no-op. */
  datatype LogEntry = LogEntry(cmd: Option<Ledger.Action>, term: nat)

  const SENTINEL := LogEntry(None, 0)

  datatype RequestVoteReq = RequestVoteReq(term: nat, candidateID: NodeID, lastLogIndex: int, lastLogTerm: nat)

  datatype RequestVoteRes = RequestVoteRes(term: nat, voteGranted: bool)

  datatype AppendEntriesReq = AppendEntriesReq(
    term: nat, leaderID: NodeID, prevLogIndex: int, prevLogTerm: nat, leaderCommit: int, entries: seq<LogEntry>)
  {
    /** The last index the request covers. */
    function End(): int {
      prevLogIndex + |entries|
    }
  }

  datatype AppendEntriesRes = AppendEntriesRes(term: nat, success: bool)

  datatype Snapshot = Snapshot(lastIncludedIndex: int, lastIncludedTerm: nat, machine: Ledger.State)

  datatype InstallSnapshotReq = InstallSnapshotReq(term: nat, leaderID: NodeID, snapshot: Snapshot)

  datatype InstallSnapshotRes = InstallSnapshotRes(term: nat)

  function Max(a: int, b: int): int {
    if a < b then b else a
  }

  function Min(a: int, b: int): int {
    if a < b then a else b
  }

  /** The state machine after applying a log from its beginning: nil commands change nothing. */
  function Replay(log: seq<LogEntry>): Ledger.State {
    if log == [] then Ledger.EMPTY_STATE
    else ApplyEntry(Replay(log[..|log| - 1]), log[|log| - 1])
  }

  function ApplyEntry(s: Ledger.State, e: LogEntry): Ledger.State {
    match e.cmd
    case None => s
    case Some(a) => Ledger.Apply(s, a)
  }

  /** The actions of a log, nil commands left out. */
  function Actions(log: seq<LogEntry>): seq<Ledger.Action> {
    if log == [] then []
    else
      var front := Actions(log[..|log| - 1]);
      match log[|log| - 1].cmd
      case None => front
      case Some(a) => front + [a]
  }

  /** So every law about runs of the ledger holds of replicated logs. */
  lemma {:induction false} ReplayRunsActions(log: seq<LogEntry>)
    ensures Replay(log) == Ledger.Run(Actions(log))
  {
    if log != [] {
      ReplayRunsActions(log[..|log| - 1]);
      if log[|log| - 1].cmd.Some? {
        var front := Actions(log[..|log| - 1]);
        var all := Actions(log);
        assert all[..|all| - 1] == front;
      }
    }
  }
}
