/** callAppendEntryRPC on two peer objects: the back-off over nextIndex, with a snapshot where the leader's
    log has been compacted too far, while messages get lost and the leader goes on taking and committing
    commands. It ends, and how. */
module ReplicationLoop {
  import opened Wrappers
  import Ledger
  import opened Messages
  import opened Model = PeerModel
  import opened PeerLaws
  import opened PeerNode
  import opened Replication

  // ----- on two peer objects

  /** Two peers that share nothing, each with its representation intact. */
  ghost predicate Apart(leader: Node, follower: Node)
    reads leader, leader.stateMachine, leader.storage, follower, follower.stateMachine, follower.storage
  {
    && leader != follower && leader.storage != follower.storage && leader.stateMachine != follower.stateMachine
    && follower.id in leader.others && leader.Valid() && follower.Valid()
  }

  /** The follower answers a request made by the leader as l0, and the leader hears of it. */
  method AnswerAppend(leader: Node, follower: Node, req: AppendEntriesReq, ghost l0: Peer) returns (success: bool)
    requires Apart(leader, follower) && Ready(l0, follower.View()) && Later(l0, leader.View(), follower.id)
    requires CanSend(l0, follower.id) && req == AppendRequest(l0, follower.id)
    modifies leader, leader.storage, follower, follower.storage, follower.stateMachine
    ensures Apart(leader, follower) && Ready(leader.View(), follower.View())
    ensures old(SamePlan(l0, follower.View()) && SamePlan(leader.View(), follower.View())) ==>
      SamePlan(leader.View(), follower.View())
    ensures SameLeader(old(leader.View()), leader.View())
    ensures Answered(l0, old(follower.View()), follower.View(), success)
    ensures success <==> old(AgreeAtNext(l0, follower.View()))
    ensures if success then leader.nextIndex[follower.id] == |l0.log| && leader.matchIndex[follower.id] == |l0.log| - 1
            else leader.nextIndex[follower.id] == old(leader.nextIndex[follower.id]) - 1
  {
    hide Node.Valid, Compatible, Outruns, OnPlan, HandleAppendEntries, ReportsOverride, Model.HandleAppendReply;
    hide AppendRequest, CanSend, Answered, Installed, AgreeAtNext;
    Answer(l0, follower.View());
    ReplyLater(l0, leader.View(), follower.View());
    var r := follower.HandleAppendEntries(req);
    success := r.res.success;
    leader.HandleAppendReply(follower.id, req, r.res);
  }

  /** The follower answers, and the leader does not hear of it. */
  method LoseAnswer(leader: Node, follower: Node, req: AppendEntriesReq, ghost l0: Peer) returns (success: bool)
    requires Apart(leader, follower) && Ready(l0, follower.View()) && Later(l0, leader.View(), follower.id)
    requires CanSend(l0, follower.id) && req == AppendRequest(l0, follower.id) && SamePlan(l0, follower.View())
    modifies follower, follower.storage, follower.stateMachine
    ensures Apart(leader, follower) && Ready(leader.View(), follower.View())
    ensures old(SamePlan(leader.View(), follower.View())) ==> SamePlan(leader.View(), follower.View())
    ensures Answered(l0, old(follower.View()), follower.View(), success)
    ensures success <==> old(AgreeAtNext(l0, follower.View()))
  {
    hide Node.Valid, Compatible, Outruns, OnPlan, HandleAppendEntries, ReportsOverride;
    hide AppendRequest, CanSend, Answered, Installed, AgreeAtNext, Ready, Later;
    Answer(l0, follower.View());
    Unanswered(l0, follower.View());
    LaterReady(l0, leader.View(), HandleAppendEntries(follower.View(), req).0);
    var r := follower.HandleAppendEntries(req);
    success := r.res.success;
  }

  method AnswerSnapshot(leader: Node, follower: Node, req: InstallSnapshotReq, heard: bool, ghost l0: Peer)
    requires Apart(leader, follower) && Ready(l0, follower.View()) && Later(l0, leader.View(), follower.id)
    requires l0.nextIndex[follower.id] <= l0.snapIndex && req == SnapshotRequest(l0)
    modifies leader, leader.storage, follower, follower.storage, follower.stateMachine
    ensures Apart(leader, follower) && Ready(leader.View(), follower.View())
    ensures old(SamePlan(l0, follower.View()) && SamePlan(leader.View(), follower.View())) ==>
      SamePlan(leader.View(), follower.View())
    ensures SameLeader(old(leader.View()), leader.View()) && (!heard ==> leader.View() == old(leader.View()))
    ensures heard ==> leader.nextIndex[follower.id] == leader.View().snapIndex + 1
    ensures heard && leader.View().snapIndex == l0.snapIndex ==> Installed(leader.View(), follower.View())
  {
    hide Node.Valid, Compatible, Outruns, OnPlan, HandleInstallSnapshot, Model.HandleInstallSnapshotRes;
    ghost var prefix := l0.log[..l0.snapIndex + 1];
    assert prefix[|prefix| - 1] == l0.log[|prefix| - 1];
    InstallLater(l0, leader.View(), follower.View());
    var r := follower.HandleInstallSnapshot(req, prefix);
    if heard {
      leader.HandleInstallSnapshotRes(follower.id, r.res);
    }
  }

  // ----- what happens to the loop

  /** What happens, in order, to a loop that sends calls: the leader takes a client's command or a waiter
      of its commits; a call is sent (which Sends says only where something happens before its fate);
      and the call is answered or one of its two messages is lost. */
  datatype Turn =
    | Sends
    | Smooth
    | RequestLost
    | ReplyLost
    | ClientRequests(cmd: Option<Ledger.Action>)
    | WaiterCommits(idx: int, term: nat, received: seq<NodeID>)
  {
    predicate Interrupts() {
      ClientRequests? || WaiterCommits?
    }
  }

  method LeaderActs(leader: Node, follower: Node, now: Turn)
    requires Apart(leader, follower) && Leading(leader.View(), follower.id) && now.Interrupts()
    modifies leader, leader.storage, leader.stateMachine
    ensures Apart(leader, follower) && follower.View() == old(follower.View())
    ensures Acts(old(leader.View()), leader.View(), follower.id, now)
    ensures old(OnPlan(leader.View())) ==> OnPlan(leader.View())
  {
    hide Node.Valid, CompactAfter;
    if now.ClientRequests? {
      AppendIsLater(leader.View(), follower.id, LogEntry(now.cmd, leader.currentTerm));
      var _ := leader.AppendClientEntry(now.cmd);
    } else {
      CommitIsLater(leader.View(), follower.id, now.idx);
      CommitKeepsLog(leader.View(), now.idx);
      hide CommitPending;
      leader.AwaitMajority(now.idx, now.term, now.received);
    }
  }

  lemma CommitKeepsLog(l: Peer, idx: int)
    requires l.role == Leader
    ensures CommitPending(l, idx).log == l.log
  {
  }

  // ----- how the loop can end

  datatype Ending = Complete | HeartbeatLost | SnapshotOvertaken

  /** The same leadership, with no less in the log and no less committed. */
  predicate Continues(l: Peer, l': Peer) {
    && l'.role == Leader && l'.id == l.id && l'.currentTerm == l.currentTerm && l'.votedFor == l.votedFor
    && l.log <= l'.log && l.commitIndex <= l'.commitIndex
  }

  /** What the loop has achieved when it ends completely. */
  ghost predicate Replicated(start: Peer, l: Peer, f: Peer)
    requires Leading(l, f.id)
  {
    && l.log <= f.log && start.commitIndex <= f.commitIndex && l.nextIndex[f.id] == |l.log|
    && (l.matchIndex[f.id] == |l.log| - 1 || l.commitIndex == |l.log| - 1)
  }

  /** Whether a loop that begins with nothing to send but a heartbeat loses it: the first call meets a
      loss, and no command comes before the loop looks again. */
  function LosesHeartbeat(turns: seq<Turn>, lost: bool): bool {
    if turns == [] then lost
    else
      match turns[0]
      case WaiterCommits(_, _, _) => LosesHeartbeat(turns[1..], lost)
      case ClientRequests(_) => false
      case Sends => lost || LosesHeartbeat(turns[1..], false)
      case Smooth => lost
      case _ => lost || LosesHeartbeat(turns[1..], true)
  }

  /** Whether a commit can fall between a call and its answer. */
  predicate CommitsDuringCall(turns: seq<Turn>) {
    Sends in turns && exists i :: 0 <= i < |turns| && turns[i].WaiterCommits?
  }

  // ----- where the loop stands

  /** Of the heartbeat a loop may begin with: nothing lost yet, lost, or lost no more. */
  datatype Heartbeat = Undecided | Lost | Past

  /** What the proof of the loop remembers. sent is the leader as of the call under way, or as it is;
      first says whether no entries had been asked for before that call; stage 2 is the search, 1 follows
      a snapshot, 0 is when the follower has it all; since the call the leader may have acted (stale) and
      taken a command (grown). */
  datatype Progress = Progress(
    sent: Peer, first: bool, stage: nat, ending: Ending, heartbeat: Heartbeat, stale: bool, grown: bool)

  predicate Level(l: Peer, target: NodeID)
    requires target in l.nextIndex
  {
    l.nextIndex[target] == |l.log|
  }

  ghost predicate Stands(start: Peer, f: Peer, g: Progress)
    requires Leading(g.sent, f.id) && Leading(start, f.id)
  {
    var l := g.sent;
    && (g.ending != Complete ==> g.stage == 2 && Level(l, f.id))
    && (g.ending == HeartbeatLost <==> g.heartbeat == Lost)
    && (g.heartbeat == Lost ==> !g.first)
    && (g.heartbeat == Undecided ==>
          g.first && g.stage == 2 && g.ending == Complete && Level(l, f.id) && !g.grown)
    && match g.stage
       case 2 => !Level(l, f.id) || g.ending != Complete || g.heartbeat == Undecided || g.grown
       case 1 => Installed(l, f)
       case 0 => !g.first && l.log <= f.log && start.commitIndex <= f.commitIndex &&
                 Level(l, f.id) && l.matchIndex[f.id] == |l.log| - 1
       case _ => false
  }

  /** The call is the one the leader made as l0. */
  predicate Calls(call: Call, l0: Peer, target: NodeID, first: bool)
    requires Leading(l0, target)
  {
    match call
    case SendSnapshot(req) => l0.nextIndex[target] <= l0.snapIndex && req == SnapshotRequest(l0)
    case SendEntries(req) => CanSend(l0, target) && req == AppendRequest(l0, target) && (Level(l0, target) ==> first)
    case _ => false
  }

  /** The two peers and the call between them. */
  ghost predicate Going(start: Peer, l: Peer, f: Peer, call: Option<Call>, g: Progress) {
    && Leading(start, f.id) && Later(g.sent, l, f.id) && Continues(start, g.sent) && Ready(g.sent, f)
    && Stands(start, f, g)
    && (g.grown <==> |g.sent.log| < |l.log|) && (!g.stale ==> g.sent == l)
    && (call == None ==> !g.stale)
    && (call.Some? ==> Calls(call.value, g.sent, f.id, g.first))
  }

  ghost predicate Planned(turns: seq<Turn>, l: Peer, f: Peer, g: Progress) {
    ReplyLost in turns ==> SamePlan(g.sent, f) && SamePlan(l, f)
  }

  predicate StillLoses(rest: seq<Turn>, heartbeat: Heartbeat) {
    match heartbeat
    case Undecided => LosesHeartbeat(rest, false)
    case Lost => LosesHeartbeat(rest, true)
    case Past => false
  }

  /** What has happened accounts for how the loop may end. */
  ghost predicate Accounts(level: bool, turns: seq<Turn>, turn: nat, l: Peer, call: Option<Call>, g: Progress) {
    && turn <= |turns|
    && (call.Some? ==> Sends in turns || turn == |turns| || !turns[turn].Interrupts())
    && (l.snapIndex != g.sent.snapIndex || g.ending == SnapshotOvertaken ==> CommitsDuringCall(turns))
    && (!level ==> g.heartbeat == Past)
    && (level ==> (LosesHeartbeat(turns, false) <==> StillLoses(turns[turn..], g.heartbeat)))
  }

  // ----- the leader acts

  ghost function AfterAct(l': Peer, call: Option<Call>, g: Progress, now: Turn, still: bool): Progress {
    if call.Some? then
      g.(stale := true, grown := g.grown || now.ClientRequests?,
         heartbeat := if now.ClientRequests? && g.heartbeat == Undecided then Past else g.heartbeat)
    else if now.ClientRequests? then
      g.(sent := l', stage := 2, ending := Complete, heartbeat := Past)
    else
      g.(sent := l', stage := if g.stage == 1 && !still then 2 else g.stage)
  }

  /** What LeaderActs does. */
  predicate Acts(l: Peer, l': Peer, target: NodeID, now: Turn) {
    && Later(l, l', target)
    && (now.ClientRequests? ==> |l.log| < |l'.log| && l'.snapIndex == l.snapIndex)
    && (now.WaiterCommits? ==> l'.log == l.log)
  }

  lemma ActGoes(start: Peer, l: Peer, l': Peer, f: Peer, call: Option<Call>, g: Progress, now: Turn, still: bool)
    requires Going(start, l, f, call, g) && Acts(l, l', f.id, now) && now.Interrupts()
    requires still <==> Leading(l', f.id) && Installed(l', f)
    ensures Going(start, l', f, call, AfterAct(l', call, g, now, still))
  {
    hide Compatible, Outruns, CanSend, AppendRequest, SnapshotRequest;
    LaterOn(g.sent, l, l', f.id);
    LaterReady(l, l', f) by {
      LaterReady(g.sent, l, f);
    }
    if call.Some? {
      NoneInFlight(start, l, f, call, g);
    }
  }

  /** With a call under way the heartbeat is not lost yet. */
  lemma NoneInFlight(start: Peer, l: Peer, f: Peer, call: Option<Call>, g: Progress)
    requires Going(start, l, f, call, g) && call.Some?
    ensures g.heartbeat != Lost
  {
  }

  // ----- the call meets its fate

  ghost function AfterAppend(l': Peer, g: Progress, heard: bool, success: bool, target: NodeID): Progress
    requires target in g.sent.nextIndex
  {
    var g' := g.(sent := l', first := false, stage := 2, ending := Complete, heartbeat := Past,
                 stale := false, grown := false);
    if heard then
      if success && !g.grown then g'.(stage := 0) else g'
    else if !Level(g.sent, target) || g.grown then g'
    else if g.stage == 1 then g'.(stage := 1)
    else if g.ending == SnapshotOvertaken then g'.(ending := SnapshotOvertaken)
    else g'.(ending := HeartbeatLost, heartbeat := Lost)
  }

  lemma AppendHeard(start: Peer, l: Peer, f: Peer, l': Peer, f': Peer, call: Call, g: Progress, success: bool)
    requires Going(start, l, f, Some(call), g) && call.SendEntries?
    requires SameLeader(l, l') && Ready(l', f') && Answered(g.sent, f, f', success)
    requires success <==> AgreeAtNext(g.sent, f)
    requires if success then l'.nextIndex[f.id] == |g.sent.log| && l'.matchIndex[f.id] == |g.sent.log| - 1
             else l'.nextIndex[f.id] == l.nextIndex[f.id] - 1
    ensures var g' := AfterAppend(l', g, true, success, f.id);
      Going(start, l', f', None, g') && (!g.stale ==> Progresses(l, l', f.id, g, g'))
  {
    hide Compatible, Outruns, CanSend, AppendRequest, CompactAfter;
    InstalledAgrees(g.sent, f);
    SentPrefix(g.sent, l);
  }

  lemma SentPrefix(l0: Peer, l: Peer)
    requires l0.log <= l.log
    ensures |l0.log| == |l.log| ==> l0.log == l.log
  {
  }

  lemma InstalledAgrees(l: Peer, f: Peer)
    requires Ready(l, f)
    ensures Installed(l, f) ==> AgreeAtNext(l, f)
  {
    var next := l.nextIndex[f.id];
    if Installed(l, f) {
      assert f.log[..next][next - 1] == l.log[next - 1];
    }
  }

  lemma AppendLost(start: Peer, l: Peer, f: Peer, f': Peer, call: Call, g: Progress, success: bool)
    requires Going(start, l, f, Some(call), g) && call.SendEntries?
    requires Ready(l, f') && (f' == f || (Answered(g.sent, f, f', success) && (success <==> AgreeAtNext(g.sent, f))))
    ensures Going(start, l, f', None, AfterAppend(l, g, false, success, f.id))
  {
    hide Compatible, Outruns, CanSend, AppendRequest, CompactAfter;
    InstalledAgrees(g.sent, f);
    SentPrefix(g.sent, l);
  }

  ghost function AfterSnapshot(l: Peer, l': Peer, g: Progress, heard: bool, target: NodeID): Progress
    requires target in l'.nextIndex
  {
    var g' := g.(sent := l', stage := 2, ending := Complete, stale := false, grown := false);
    if heard && l.snapIndex == g.sent.snapIndex then g'.(stage := 1)
    else if heard && Level(l', target) then g'.(ending := SnapshotOvertaken)
    else g'
  }

  lemma SnapshotHeard(start: Peer, l: Peer, f: Peer, l': Peer, f': Peer, call: Call, g: Progress)
    requires Going(start, l, f, Some(call), g) && call.SendSnapshot?
    requires SameLeader(l, l') && f'.id == f.id && Ready(l', f') && l'.nextIndex[f.id] == l.snapIndex + 1
    requires l.snapIndex == g.sent.snapIndex ==> Installed(l', f')
    ensures var g' := AfterSnapshot(l, l', g, true, f.id);
      Going(start, l', f', None, g') && (!g.stale ==> Progresses(l, l', f.id, g, g'))
  {
    hide Compatible, Outruns, SnapshotRequest;
  }

  lemma SnapshotLost(start: Peer, l: Peer, f: Peer, f': Peer, call: Call, g: Progress)
    requires Going(start, l, f, Some(call), g) && call.SendSnapshot?
    requires f'.id == f.id && Ready(l, f')
    ensures Going(start, l, f', None, AfterSnapshot(l, l, g, false, f.id))
  {
    hide Compatible, Outruns, SnapshotRequest;
  }

  /** How far the fate of a call that nothing came between moves the loop on. */
  predicate Progresses(l: Peer, l': Peer, target: NodeID, g: Progress, g': Progress)
    requires target in l.nextIndex && target in l'.nextIndex
  {
    g'.stage < g.stage || (g'.stage == g.stage && l'.nextIndex[target] < l.nextIndex[target])
  }

  ghost function AfterFate(l: Peer, l': Peer, call: Call, g: Progress, heard: bool, success: bool, target: NodeID)
    : Progress
    requires target in g.sent.nextIndex && target in l'.nextIndex
  {
    if call.SendSnapshot? then AfterSnapshot(l, l', g, heard, target) else AfterAppend(l', g, heard, success, target)
  }

  /** The call under way is answered, or one of its messages is lost. */
  method MeetFate(leader: Node, follower: Node, call: Call, now: Turn, ghost start: Peer, ghost g: Progress)
    returns (ghost g': Progress, ghost success: bool)
    requires Apart(leader, follower) && Going(start, leader.View(), follower.View(), Some(call), g)
    requires now == Smooth || now == RequestLost || now == ReplyLost
    requires now == ReplyLost ==> SamePlan(g.sent, follower.View())
    modifies leader, leader.storage, follower, follower.storage, follower.stateMachine
    ensures Apart(leader, follower) && Going(start, leader.View(), follower.View(), None, g')
    ensures g' == AfterFate(old(leader.View()), leader.View(), call, g, now == Smooth, success, follower.id)
    ensures SameLeader(old(leader.View()), leader.View())
    ensures old(SamePlan(g.sent, follower.View()) && SamePlan(leader.View(), follower.View())) ==>
      SamePlan(leader.View(), follower.View())
    ensures now == Smooth && !g.stale ==> Progresses(old(leader.View()), leader.View(), follower.id, g, g')
    ensures Level(g.sent, follower.id) ==> follower.full == old(follower.full)
  {
    hide Node.Valid, Compatible, Outruns, OnPlan, Stands, Installed, Answered, AgreeAtNext;
    hide AfterAppend, AfterSnapshot, CanSend, AppendRequest, SnapshotRequest, Progresses;
    ghost var l, f := leader.View(), follower.View();
    success := false;
    match call {
      case SendSnapshot(req) =>
        if now == RequestLost {
          LaterReady(g.sent, l, f);
          SnapshotLost(start, l, f, f, call, g);
        } else {
          AnswerSnapshot(leader, follower, req, now == Smooth, g.sent);
          if now == Smooth {
            SnapshotHeard(start, l, f, leader.View(), follower.View(), call, g);
          } else {
            SnapshotLost(start, l, f, follower.View(), call, g);
          }
        }
        g' := AfterSnapshot(l, leader.View(), g, now == Smooth, follower.id);
      case SendEntries(req) =>
        if now == RequestLost {
          LaterReady(g.sent, l, f);
          AppendLost(start, l, f, f, call, g, false);
        } else {
          if now == Smooth {
            success := AnswerAppend(leader, follower, req, g.sent);
            AppendHeard(start, l, f, leader.View(), follower.View(), call, g, success);
          } else {
            success := LoseAnswer(leader, follower, req, g.sent);
            AppendLost(start, l, f, follower.View(), call, g, success);
          }
          AnsweredKeepsLevel(g.sent, f, follower.View(), success);
        }
        g' := AfterAppend(leader.View(), g, now == Smooth, success, follower.id);
    }
  }

  /** A heartbeat changes nothing in the log. */
  lemma AnsweredKeepsLevel(l: Peer, f: Peer, f': Peer, success: bool)
    requires Leading(l, f.id) && Answered(l, f, f', success)
    ensures Level(l, f.id) ==> f'.log == f.log
  {
  }

  // ----- accounting for how the loop ends

  lemma Consume(turns: seq<Turn>, turn: nat)
    requires turn < |turns|
    ensures turns[turn..] != [] && turns[turn..][0] == turns[turn] && turns[turn..][1..] == turns[turn + 1..]
  {
  }

  lemma ActAccounts(level: bool, turns: seq<Turn>, turn: nat, l: Peer, l': Peer, target: NodeID, call: Option<Call>,
                    g: Progress, still: bool)
    requires Accounts(level, turns, turn, l, call, g) && turn < |turns| && turns[turn].Interrupts()
    requires Acts(l, l', target, turns[turn]) && (call == None ==> g.sent == l)
    requires call.Some? ==> g.heartbeat != Lost
    ensures Accounts(level, turns, turn + 1, l', call, AfterAct(l', call, g, turns[turn], still))
  {
    Consume(turns, turn);
    if turns[turn].WaiterCommits? && call.Some? {
      assert CommitsDuringCall(turns);
    }
  }

  /** A call goes out, after a Sends if one comes next. */
  lemma SendAccounts(level: bool, turns: seq<Turn>, turn: nat, l: Peer, call: Call, g: Progress)
    requires Accounts(level, turns, turn, l, None, g) && g.sent == l && g.heartbeat != Lost
    requires turn < |turns| ==> !turns[turn].Interrupts()
    ensures Accounts(level, turns, if turn < |turns| && turns[turn] == Sends then turn + 1 else turn, l, Some(call), g)
  {
    if turn < |turns| {
      Consume(turns, turn);
    }
  }

  lemma SkipAccounts(level: bool, turns: seq<Turn>, turn: nat, l: Peer, call: Call, g: Progress)
    requires Accounts(level, turns, turn, l, Some(call), g) && turn < |turns| && turns[turn] == Sends
    requires g.heartbeat != Lost
    ensures Accounts(level, turns, turn + 1, l, Some(call), g)
  {
    Consume(turns, turn);
  }

  lemma FateAccounts(level: bool, turns: seq<Turn>, turn: nat, now: Turn, l: Peer, l': Peer, f: Peer, call: Call,
                     start: Peer, g: Progress, success: bool)
    requires Accounts(level, turns, turn, l, Some(call), g) && Going(start, l, f, Some(call), g)
    requires now == if turn < |turns| then turns[turn] else Smooth
    requires now == Smooth || now == RequestLost || now == ReplyLost
    requires f.id in l'.nextIndex && SameLeader(l, l')
    ensures Accounts(level, turns, if turn < |turns| then turn + 1 else turn, l', None,
                     AfterFate(l, l', call, g, now == Smooth, success, f.id))
    ensures var g' := AfterFate(l, l', call, g, now == Smooth, success, f.id);
      && g'.sent == l' && g'.first == (g.first && call.SendSnapshot?)
      && (g'.heartbeat != Past ==> g.heartbeat != Past && Level(g.sent, f.id))
  {
    hide Compatible, Outruns, Installed, CanSend, AppendRequest, SnapshotRequest, CommitsDuringCall;
    if turn < |turns| {
      Consume(turns, turn);
    }
  }

  /** The loop ends where nothing is left to send: how, the turns tell. */
  lemma EndAccounts(level: bool, turns: seq<Turn>, turn: nat, l: Peer, g: Progress)
    requires Accounts(level, turns, turn, l, None, g) && g.heartbeat != Undecided
    requires turn < |turns| ==> !turns[turn].Interrupts()
    ensures g.heartbeat == Lost <==> level && LosesHeartbeat(turns, false)
    ensures g.ending == SnapshotOvertaken ==> CommitsDuringCall(turns)
  {
    if turn < |turns| {
      Consume(turns, turn);
    }
  }

  lemma Starts(start: Peer, f: Peer, turns: seq<Turn>) returns (g: Progress)
    requires Ready(start, f)
    ensures Going(start, start, f, None, g) && Accounts(Level(start, f.id), turns, 0, start, None, g)
    ensures g.first && (ReplyLost in turns ==> SamePlan(start, f) ==> Planned(turns, start, f, g))
    ensures g.sent == start
  {
    hide Compatible, Outruns;
    var heartbeat := if Level(start, f.id) then Undecided else Past;
    g := Progress(start, true, 2, Complete, heartbeat, false, false);
    assert turns[0..] == turns;
  }

  lemma Ends(start: Peer, l: Peer, f: Peer, g: Progress)
    requires Going(start, l, f, None, g) && Level(l, f.id) && !g.first && Continues(start, l)
    ensures g.ending == Complete ==> Replicated(start, l, f)
    ensures g.heartbeat != Undecided && (g.ending == HeartbeatLost <==> g.heartbeat == Lost)
  {
    hide Compatible, Outruns;
  }

  lemma Goes(start: Peer, l: Peer, f: Peer, call: Option<Call>, g: Progress)
    requires Going(start, l, f, call, g)
    ensures Leading(l, f.id) && Leading(start, f.id) && Leading(g.sent, f.id) && Ready(g.sent, f) && Ready(l, f)
    ensures Continues(start, l) && Later(g.sent, l, f.id) && (call == None ==> g.sent == l && !g.stale)
    ensures call.Some? ==> g.heartbeat != Lost
    ensures call.Some? ==> Calls(call.value, g.sent, f.id, g.first)
  {
    hide Compatible, Outruns;
    LaterReady(g.sent, l, f);
    if call.Some? {
      NoneInFlight(start, l, f, call, g);
    }
  }

  // ----- the loop's steps, all of that together

  ghost predicate Loops(start: Peer, log: seq<LogEntry>, turns: seq<Turn>, turn: nat, l: Peer, f: Peer,
                        call: Option<Call>, g: Progress)
  {
    && Going(start, l, f, call, g) && Planned(turns, l, f, g)
    && f.id in start.nextIndex && Accounts(Level(start, f.id), turns, turn, l, call, g)
    && (g.heartbeat != Past ==> f.log == log)
  }

  lemma LoopStarts(start: Peer, f: Peer, turns: seq<Turn>) returns (g: Progress)
    requires Ready(start, f) && (ReplyLost in turns ==> SamePlan(start, f))
    ensures Loops(start, f.log, turns, 0, start, f, None, g) && g.first
  {
    hide Going, Accounts;
    g := Starts(start, f, turns);
  }

  lemma LoopKnows(start: Peer, log: seq<LogEntry>, turns: seq<Turn>, turn: nat, l: Peer, f: Peer,
                  call: Option<Call>, g: Progress)
    requires Loops(start, log, turns, turn, l, f, call, g)
    ensures turn <= |turns| && Leading(l, f.id) && Leading(start, f.id) && Leading(g.sent, f.id) && Continues(start, l)
    ensures Going(start, l, f, call, g) && (ReplyLost in turns ==> SamePlan(g.sent, f))
    ensures (call == None ==> g.sent == l && !g.stale && Ready(l, f))
    ensures call.Some? ==> call.value.SendEntries? || call.value.SendSnapshot?
  {
    hide Going;
    Goes(start, l, f, call, g);
  }

  lemma LoopActs(start: Peer, log: seq<LogEntry>, turns: seq<Turn>, turn: nat, l: Peer, l': Peer, f: Peer,
                 call: Option<Call>, g: Progress) returns (g': Progress)
    requires Loops(start, log, turns, turn, l, f, call, g) && turn < |turns| && turns[turn].Interrupts()
    requires Acts(l, l', f.id, turns[turn]) && (OnPlan(l) ==> OnPlan(l'))
    ensures Loops(start, log, turns, turn + 1, l', f, call, g') && g'.first == g.first
  {
    hide Going, Accounts, Planned, AfterAct, Acts;
    var still := Leading(l', f.id) && Installed(l', f);
    Goes(start, l, f, call, g);
    ActGoes(start, l, l', f, call, g, turns[turn], still);
    ActAccounts(Level(start, f.id), turns, turn, l, l', f.id, call, g, still);
    ActSent(l', call, g, turns[turn], still);
    g' := AfterAct(l', call, g, turns[turn], still);
    ActPlanned(turns, l, l', f, f.id, turns[turn], call, g, g');
  }

  lemma LoopSends(start: Peer, log: seq<LogEntry>, turns: seq<Turn>, turn: nat, l: Peer, f: Peer, call: Call,
                  g: Progress)
    requires Loops(start, log, turns, turn, l, f, None, g) && (turn < |turns| ==> !turns[turn].Interrupts())
    requires Leading(l, f.id) && Calls(call, l, f.id, call.SendEntries? && Level(l, f.id))
    requires call.SendEntries? && Level(l, f.id) ==> g.first
    ensures var turn' := if turn < |turns| && turns[turn] == Sends then turn + 1 else turn;
      Loops(start, log, turns, turn', l, f, Some(call), g)
  {
    hide Going, Accounts, Calls;
    Goes(start, l, f, None, g);
    SendGoes(start, l, f, call, g);
    SendAccounts(Level(start, f.id), turns, turn, l, call, g);
  }

  lemma LoopSkips(start: Peer, log: seq<LogEntry>, turns: seq<Turn>, turn: nat, l: Peer, f: Peer, call: Call,
                  g: Progress)
    requires Loops(start, log, turns, turn, l, f, Some(call), g) && turn < |turns| && turns[turn] == Sends
    ensures Loops(start, log, turns, turn + 1, l, f, Some(call), g)
  {
    hide Going, Accounts;
    Goes(start, l, f, Some(call), g);
    SkipAccounts(Level(start, f.id), turns, turn, l, call, g);
  }

  lemma LoopMeets(start: Peer, log: seq<LogEntry>, turns: seq<Turn>, turn: nat, now: Turn, l: Peer, f: Peer,
                  l': Peer, f': Peer, call: Call, g: Progress, g': Progress, success: bool)
    requires Loops(start, log, turns, turn, l, f, Some(call), g)
    requires now == if turn < |turns| then turns[turn] else Smooth
    requires now == Smooth || now == RequestLost || now == ReplyLost
    requires Going(start, l', f', None, g') && f'.id == f.id && SameLeader(l, l')
    requires Leading(g.sent, f.id) && f.id in l'.nextIndex
    requires g' == AfterFate(l, l', call, g, now == Smooth, success, f.id)
    requires SamePlan(g.sent, f) && SamePlan(l, f) ==> SamePlan(l', f')
    requires Level(g.sent, f.id) ==> f'.log == f.log
    ensures Loops(start, log, turns, if turn < |turns| then turn + 1 else turn, l', f', None, g')
    ensures !g'.stale && g'.first == (g.first && call.SendSnapshot?)
  {
    hide Going, Accounts, AfterFate;
    FateAccounts(Level(start, f.id), turns, turn, now, l, l', f, call, start, g, success);
    Goes(start, l', f', None, g');
  }

  /** Nothing is left to send. */
  lemma LoopEnds(start: Peer, log: seq<LogEntry>, turns: seq<Turn>, turn: nat, l: Peer, f: Peer, g: Progress)
    requires Loops(start, log, turns, turn, l, f, None, g) && (turn < |turns| ==> !turns[turn].Interrupts())
    requires Leading(l, f.id) && Level(l, f.id) && !g.first
    ensures g.ending == Complete ==> Replicated(start, l, f)
    ensures g.ending == HeartbeatLost <==> f.id in start.nextIndex && Level(start, f.id) && LosesHeartbeat(turns, false)
    ensures g.ending == HeartbeatLost ==> f.log == log
    ensures g.ending == SnapshotOvertaken ==> CommitsDuringCall(turns)
  {
    hide Going, Accounts;
    Goes(start, l, f, None, g);
    Ends(start, l, f, g);
    EndAccounts(Level(start, f.id), turns, turn, l, g);
  }

  lemma ActSent(l': Peer, call: Option<Call>, g: Progress, now: Turn, still: bool)
    ensures var g' := AfterAct(l', call, g, now, still);
      && g'.sent == (if call == None then l' else g.sent) && g'.first == g.first
      && (g'.heartbeat != Past ==> g.heartbeat != Past)
  {
  }

  lemma ActPlanned(turns: seq<Turn>, l: Peer, l': Peer, f: Peer, target: NodeID, now: Turn, call: Option<Call>,
                   g: Progress, g': Progress)
    requires Planned(turns, l, f, g) && (call == None ==> g.sent == l)
    requires OnPlan(l) ==> OnPlan(l')
    requires Acts(l, l', target, now) && g'.sent == if call == None then l' else g.sent
    ensures Planned(turns, l', f, g')
  {
    hide OnPlan;
  }

  /** The call NextCall makes for a leader that is ready. */
  lemma CallIs(l: Peer, target: NodeID, call: Call)
    requires Leading(l, target) && (call.SendEntries? || call.SendSnapshot?)
    requires call.SendEntries? ==> CanSend(l, target) && call.appendReq == AppendRequest(l, target)
    requires call.SendSnapshot? ==>
      0 <= l.snapIndex && l.nextIndex[target] <= l.snapIndex && call.snapshotReq == SnapshotRequest(l)
    ensures call.SendEntries? ==> (call.appendReq.entries == [] <==> Level(l, target))
    ensures Calls(call, l, target, call.SendEntries? && Level(l, target))
  {
  }

  lemma SendGoes(start: Peer, l: Peer, f: Peer, call: Call, g: Progress)
    requires Going(start, l, f, None, g) && Leading(l, f.id)
    requires Calls(call, l, f.id, call.SendEntries? && Level(l, f.id))
    requires call.SendEntries? && Level(l, f.id) ==> g.first
    ensures Going(start, l, f, Some(call), g) && g.heartbeat != Lost
  {
    hide Compatible, Outruns;
  }

  /** The loop ends, overrides nothing committed and leaves no index out of range, whatever finitely many
      things happen to it; replies may get lost if both peers compact at the same indices. Then the
      follower has the leader's log and all the leader had committed at the start, and matchIndex covers
      every entry not yet committed, but for two endings: a heartbeat the loop began with was lost, which
      the turns decide; or the leader compacted its whole log while its snapshot was under way. */
  method CallAppendEntryRPC(leader: Node, follower: Node, turns: seq<Turn>) returns (ghost ending: Ending)
    requires Apart(leader, follower) && Ready(leader.View(), follower.View())
    requires ReplyLost in turns ==> SamePlan(leader.View(), follower.View())
    modifies leader, leader.storage, leader.stateMachine, follower, follower.storage, follower.stateMachine
    ensures Apart(leader, follower) && Continues(old(leader.View()), leader.View())
    ensures Leading(leader.View(), follower.id)
    ensures ending == Complete ==> Replicated(old(leader.View()), leader.View(), follower.View())
    ensures ending == HeartbeatLost <==> old(Level(leader.View(), follower.id)) && LosesHeartbeat(turns, false)
    ensures ending == HeartbeatLost ==> follower.full == old(follower.full)
    ensures ending == SnapshotOvertaken ==> CommitsDuringCall(turns)
  {
    hide Node.Valid, Compatible, Outruns, OnPlan, Loops, Going, Replicated, SameLeader, Continues, Acts, Later;
    hide AfterFate, Stands, Installed, Calls, CanSend, AppendRequest, SnapshotRequest;
    hide LosesHeartbeat, CommitsDuringCall;
    ghost var start, log := leader.View(), follower.full;
    ghost var g := LoopStarts(start, follower.View(), turns);
    LoopKnows(start, log, turns, 0, start, follower.View(), None, g);
    var isFirstTime := true;
    var call: Option<Call> := None;
    var turn := 0;
    while true
      invariant turn <= |turns| && Apart(leader, follower) && Leading(leader.View(), follower.id)
      invariant Loops(start, log, turns, turn, leader.View(), follower.View(), call, g)
      invariant isFirstTime == (g.first && (call == None || call.value.SendSnapshot?))
      decreases |turns| - turn, if g.stale then 1 else 0, g.stage, leader.nextIndex[follower.id],
                if call == None then 1 else 0
    {
      ghost var l, f := leader.View(), follower.View();
      LoopKnows(start, log, turns, turn, l, f, call, g);
      var now := if turn < |turns| then turns[turn] else Smooth;
      if now.Interrupts() {
        LeaderActs(leader, follower, now);
        g := LoopActs(start, log, turns, turn, l, leader.View(), f, call, g);
        turn := turn + 1;
      } else if call == None {
        var c := leader.NextCall(follower.id);
        assert c.SendEntries? || c.SendSnapshot?;
        CallIs(l, follower.id, c);
        if c.SendEntries? && c.appendReq.entries == [] && !isFirstTime {
          LoopEnds(start, log, turns, turn, l, f, g);
          return g.ending;
        }
        LoopSends(start, log, turns, turn, l, f, c, g);
        isFirstTime := isFirstTime && c.SendSnapshot?;
        turn := if turn < |turns| && now == Sends then turn + 1 else turn;
        call := Some(c);
      } else if now == Sends {
        LoopSkips(start, log, turns, turn, l, f, call.value, g);
        turn := turn + 1;
      } else {
        ghost var success;
        ghost var g';
        g', success := MeetFate(leader, follower, call.value, now, start, g);
        Goes(start, leader.View(), follower.View(), None, g');
        LoopMeets(start, log, turns, turn, now, l, f, leader.View(), follower.View(), call.value, g, g', success);
        turn := if turn < |turns| then turn + 1 else turn;
        g, call := g', None;
      }
      LoopKnows(start, log, turns, turn, leader.View(), follower.View(), call, g);
    }
  }
}
