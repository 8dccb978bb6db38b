/** Runs of three peers, thresholds apart the same, that end in what the program does wrong: a follower
    dies of a request that was overtaken, or of one repeated after its reply was lost; a snapshot that
    arrives twice takes back a commit; and one overtaken by compaction ends the replication loop. */
module Scenario {
  import opened Wrappers
  import opened Messages
  import opened PeerModel
  import opened PeerLaws
  import opened Cluster
  import opened Replication

  const A: NodeID := "a"
  const B: NodeID := "b"
  const C: NodeID := "c"
  const NODES: set<NodeID> := {A, B, C}
  const NOOP := LogEntry(None, 1)
  const ASKED := RequestVoteReq(1, A, 0, 0)
  const VOTE := VoteReply(C, A, RequestVoteRes(1, true))

  /** Peer a, leading in term 1 with the vote of c, and what it was before. */
  function Elected(threshold: int): Peer {
    Peer(A, {B, C}, threshold, Leader, 1, Some(A), 2, [SENTINEL], 0, -1, map[B := 1, C := 1], map[B := 0, C := 0],
         map[], Saved(1, Some(A), 2, [SENTINEL], 0, -1))
  }

  function Standing(threshold: int): Peer {
    Peer(A, {B, C}, threshold, Candidate, 1, Some(A), 1, [SENTINEL], 0, -1, map[], map[], map[],
         Saved(1, Some(A), 1, [SENTINEL], 0, -1))
  }

  /** Peer b, untouched, and peer c, having voted. */
  function NewB(threshold: int): Peer {
    NewPeer(B, {A, C}, threshold)
  }

  const NEW_C := NewPeer(C, {A, B}, 9)
  const VOTER_C := NEW_C.(currentTerm := 1, votedFor := Some(A), disk := Saved(1, Some(A), 0, [SENTINEL], 0, -1))

  // ----- runs and their last states

  ghost predicate Ends(r: Run, a: Peer, b: Peer, c: Peer) {
    IsRun(r) && Three(Last(r), a, b, c)
  }

  ghost function Last(r: Run): Cluster
    requires IsRun(r)
  {
    r.states[|r.events|]
  }

  lemma Extend(r: Run, e: Event) returns (r': Run)
    requires IsRun(r) && Enabled(Last(r), e)
    ensures IsRun(r') && Last(r') == Next(Last(r), e) && Follows(r, r')
  {
    hide Enabled, Next, Init;
    r' := r.(states := r.states + [Next(Last(r), e)], events := r.events + [e]);
  }

  /** The later run begins with the earlier one. */
  predicate Follows(r: Run, r': Run) {
    r'.nodes == r.nodes && r'.thresholds == r.thresholds && r.states <= r'.states && r.events <= r'.events
  }

  predicate Three(s: Cluster, a: Peer, b: Peer, c: Peer) {
    s.peers == map[A := a, B := b, C := c] && a.log != [] && b.log != [] && c.log != []
  }

  lemma Moves(s: Cluster, a: Peer, b: Peer, c: Peer, v: NodeID, p: Peer)
    requires Three(s, a, b, c) && (v == A || v == B || v == C)
    ensures s.peers[v := p] ==
      map[A := if v == A then p else a, B := if v == B then p else b, C := if v == C then p else c]
    ensures LogsNotEmpty(s)
  {
  }

  lemma ClientNext(s: Cluster, a: Peer, b: Peer, c: Peer)
    requires Three(s, a, b, c) && a.role == Leader
    ensures Enabled(s, ClientRequest(A, None)) && Next(s, ClientRequest(A, None)) ==
      s.(peers := map[A := ClientAppend(a, LogEntry(None, a.currentTerm)), B := b, C := c])
  {
    Moves(s, a, b, c, A, ClientAppend(a, LogEntry(None, a.currentTerm)));
    hide ClientAppend, LogsNotEmpty;
  }

  lemma DoClient(r: Run, a: Peer, b: Peer, c: Peer) returns (r': Run)
    requires Ends(r, a, b, c) && a.role == Leader
    ensures Ends(r', ClientAppend(a, LogEntry(None, a.currentTerm)), b, c) && Follows(r, r')
    ensures Last(r') == Last(r).(peers := Last(r').peers)
  {
    hide IsRun, Enabled, Next;
    ClientNext(Last(r), a, b, c);
    r' := Extend(r, ClientRequest(A, None));
  }

  lemma SendNext(s: Cluster, a: Peer, b: Peer, c: Peer, target: NodeID)
    requires Three(s, a, b, c) && a.role == Leader && CanSend(a, target)
    ensures var req := AppendRequest(a, target);
      Enabled(s, SendAppend(A, target)) && Next(s, SendAppend(A, target)) ==
        s.(appendRequests := s.appendRequests + {req}, calls := s.calls[(A, target) := req])
  {
    Moves(s, a, b, c, A, a);
    hide CanSend, AppendRequest, LogsNotEmpty;
  }

  lemma DoSend(r: Run, a: Peer, b: Peer, c: Peer, target: NodeID) returns (r': Run)
    requires Ends(r, a, b, c) && a.role == Leader && CanSend(a, target)
    ensures Ends(r', a, b, c) && Follows(r, r')
    ensures var req := AppendRequest(a, target);
      Last(r') == Last(r).(appendRequests := Last(r).appendRequests + {req}, calls := Last(r).calls[(A, target) := req])
  {
    hide CanSend, AppendRequest, IsRun, Enabled, Next;
    SendNext(Last(r), a, b, c, target);
    r' := Extend(r, SendAppend(A, target));
  }

  lemma ReceiveNext(s: Cluster, a: Peer, b: Peer, c: Peer, v: NodeID, req: AppendEntriesReq)
    requires Three(s, a, b, c) && (v == B || v == C) && req in s.appendRequests && req.leaderID == A
    requires HandleAppendEntries(if v == B then b else c, req).1.Replied?
    ensures var (q, out) := HandleAppendEntries(if v == B then b else c, req);
      Enabled(s, ReceiveAppend(v, req)) && Next(s, ReceiveAppend(v, req)) ==
        s.(peers := map[A := a, B := if v == B then q else b, C := if v == C then q else c],
           appendReplies := s.appendReplies + {AppendReply(v, req, out.res)})
  {
    var q := HandleAppendEntries(if v == B then b else c, req).0;
    Moves(s, a, b, c, v, q);
    hide HandleAppendEntries, LogsNotEmpty;
  }

  lemma DoReceive(r: Run, a: Peer, b: Peer, c: Peer, v: NodeID, req: AppendEntriesReq) returns (r': Run)
    requires Ends(r, a, b, c) && (v == B || v == C) && req in Last(r).appendRequests && req.leaderID == A
    requires var (q, out) := HandleAppendEntries(if v == B then b else c, req); out.Replied? && q.log != []
    ensures var (q, out) := HandleAppendEntries(if v == B then b else c, req);
      && Ends(r', a, if v == B then q else b, if v == C then q else c) && Follows(r, r')
      && Last(r') == Last(r).(peers := Last(r').peers,
                              appendReplies := Last(r).appendReplies + {AppendReply(v, req, out.res)})
  {
    hide HandleAppendEntries, IsRun, Enabled, Next;
    ReceiveNext(Last(r), a, b, c, v, req);
    r' := Extend(r, ReceiveAppend(v, req));
  }

  lemma ReplyNext(s: Cluster, a: Peer, b: Peer, c: Peer, reply: AppendReply)
    requires Three(s, a, b, c) && reply in s.appendReplies && reply.req.term == a.currentTerm
    requires a.role == Leader && reply.from in a.nextIndex && reply.from in a.matchIndex
    requires (A, reply.from) in s.calls && s.calls[(A, reply.from)] == reply.req
    ensures Enabled(s, ReceiveAppendReply(A, reply)) && Next(s, ReceiveAppendReply(A, reply)) ==
      s.(peers := map[A := HandleAppendReply(a, reply.from, reply.req, reply.res), B := b, C := c],
         calls := s.calls - {(A, reply.from)})
  {
    Moves(s, a, b, c, A, HandleAppendReply(a, reply.from, reply.req, reply.res));
    hide HandleAppendReply, LogsNotEmpty;
  }

  lemma DoReply(r: Run, a: Peer, b: Peer, c: Peer, reply: AppendReply) returns (r': Run)
    requires Ends(r, a, b, c) && reply in Last(r).appendReplies && reply.req.term == a.currentTerm
    requires a.role == Leader && reply.from in a.nextIndex && reply.from in a.matchIndex
    requires (A, reply.from) in Last(r).calls && Last(r).calls[(A, reply.from)] == reply.req
    requires HandleAppendReply(a, reply.from, reply.req, reply.res).log != []
    ensures Ends(r', HandleAppendReply(a, reply.from, reply.req, reply.res), b, c) && Follows(r, r')
  {
    hide HandleAppendReply, IsRun, Enabled, Next;
    ReplyNext(Last(r), a, b, c, reply);
    r' := Extend(r, ReceiveAppendReply(A, reply));
  }

  lemma CommitNext(s: Cluster, a: Peer, b: Peer, c: Peer, idx: int)
    requires Three(s, a, b, c) && a.role == Leader && idx in a.channels && 2 * |a.channels[idx]| > a.TotalPeers()
    ensures Enabled(s, Commit(A, idx)) && Next(s, Commit(A, idx)) ==
      s.(peers := map[A := CommitPending(a, idx), B := b, C := c])
  {
    Moves(s, a, b, c, A, CommitPending(a, idx));
    hide CommitPending, LogsNotEmpty;
  }

  lemma DoCommit(r: Run, a: Peer, b: Peer, c: Peer, idx: int) returns (r': Run)
    requires Ends(r, a, b, c) && a.role == Leader && idx in a.channels && 2 * |a.channels[idx]| > a.TotalPeers()
    requires CommitPending(a, idx).log != []
    ensures Ends(r', CommitPending(a, idx), b, c) && Follows(r, r')
  {
    hide CommitPending, IsRun, Enabled, Next;
    CommitNext(Last(r), a, b, c, idx);
    r' := Extend(r, Commit(A, idx));
  }

  // ----- the election

  lemma Begin(ta: int, tb: int) returns (r: Run)
    ensures Ends(r, NewPeer(A, {B, C}, ta), NewB(tb), NEW_C)
    ensures Last(r) == Cluster(Last(r).peers, {}, {}, {}, {}, map[])
  {
    var thresholds := map[A := ta, B := tb, C := 9];
    assert NODES - {A} == {B, C} && NODES - {B} == {A, C} && NODES - {C} == {A, B};
    r := Run(NODES, thresholds, [Init(NODES, thresholds)], []);
    assert Last(r).peers == map[A := NewPeer(A, {B, C}, ta), B := NewB(tb), C := NEW_C];
  }

  lemma Candidacy(threshold: int)
    ensures StartElection(NewPeer(A, {B, C}, threshold)) == Standing(threshold)
    ensures VoteRequest(Standing(threshold)) == ASKED
  {
  }

  lemma Voting()
    ensures HandleRequestVote(NEW_C, ASKED) == (VOTER_C, RequestVoteRes(1, true))
  {
  }

  lemma Winning(threshold: int)
    ensures HandleRequestVoteRespond(Standing(threshold), VOTE.res) == Elected(threshold)
  {
    var q := Standing(threshold).(voteCount := 2);
    assert q.TotalPeers() == 3;
    assert BecomeLeader(q).nextIndex == map[B := 1, C := 1] && BecomeLeader(q).matchIndex == map[B := 0, C := 0];
  }

  lemma Election(ta: int, tb: int) returns (r: Run)
    ensures Ends(r, Elected(ta), NewB(tb), VOTER_C) && Last(r).appendRequests == {} && Last(r).calls == map[]
  {
    hide StartElection, HandleRequestVote, HandleRequestVoteRespond, IsRun;
    Candidacy(ta);
    Voting();
    Winning(ta);
    r := Begin(ta, tb);
    r := Stand(r, ta, tb);
    r := Vote(r, ta, tb);
    r := Count(r, ta, tb);
  }

  lemma Stand(r: Run, ta: int, tb: int) returns (r': Run)
    requires Ends(r, NewPeer(A, {B, C}, ta), NewB(tb), NEW_C)
    ensures Ends(r', Standing(ta), NewB(tb), NEW_C)
    ensures Last(r') == Last(r).(peers := Last(r').peers, voteRequests := Last(r).voteRequests + {ASKED})
  {
    hide StartElection, IsRun;
    Candidacy(ta);
    r' := Extend(r, Timeout(A));
  }

  lemma Vote(r: Run, ta: int, tb: int) returns (r': Run)
    requires Ends(r, Standing(ta), NewB(tb), NEW_C) && ASKED in Last(r).voteRequests
    ensures Ends(r', Standing(ta), NewB(tb), VOTER_C)
    ensures Last(r') == Last(r).(peers := Last(r').peers, voteReplies := Last(r).voteReplies + {VOTE})
  {
    hide HandleRequestVote, IsRun;
    Voting();
    r' := Extend(r, ReceiveVoteRequest(C, ASKED));
  }

  lemma CountNext(s: Cluster, ta: int, b: Peer, c: Peer)
    requires Three(s, Standing(ta), b, c) && VOTE in s.voteReplies
    ensures Enabled(s, ReceiveVoteReply(VOTE)) && Next(s, ReceiveVoteReply(VOTE)) ==
      s.(peers := map[A := Elected(ta), B := b, C := c], voteReplies := s.voteReplies - {VOTE})
  {
    Winning(ta);
    Moves(s, Standing(ta), b, c, A, Elected(ta));
    hide HandleRequestVoteRespond, LogsNotEmpty, Standing, Elected;
  }

  lemma Count(r: Run, ta: int, tb: int) returns (r': Run)
    requires Ends(r, Standing(ta), NewB(tb), VOTER_C) && VOTE in Last(r).voteReplies
    ensures Ends(r', Elected(ta), NewB(tb), VOTER_C)
    ensures Last(r') == Last(r).(peers := Last(r').peers, voteReplies := Last(r).voteReplies - {VOTE})
  {
    hide IsRun, Enabled, Next;
    CountNext(Last(r), ta, NewB(tb), VOTER_C);
    r' := Extend(r, ReceiveVoteReply(VOTE));
  }

  // ----- a command committed with c, while b hears nothing

  predicate UpToDateLeader(a: Peer) {
    && a.id == A && a.others == {B, C} && a.currentTerm == 1 && a.channels == map[] && Leading(a, C)
    && a.nextIndex[C] == |a.log| && a.matchIndex[C] < |a.log| && a.commitIndex == |a.log| - 1
  }

  /** Everything is committed and c has it. */
  ghost predicate UpToDate(a: Peer, c: Peer) {
    UpToDateLeader(a) && c.id == C && Ready(a, c) && AgreeAtNext(a, c)
  }

  lemma Round(r: Run, a: Peer, b: Peer, c: Peer) returns (r': Run, a': Peer, c': Peer)
    requires Ends(r, a, b, c) && UpToDate(a, c)
    ensures Ends(r', a', b, c') && UpToDate(a', c') && Follows(r, r') && Commits(a, a')
  {
    hide Ends, IsRun, HandleAppendEntries, HandleAppendReply, CommitPending, ClientAppend, UpToDate;
    hide Compatible, Outruns, CanSend, AppendRequest, Commits;
    Taken(a, c);
    var n, a1 := |a.log|, ClientAppend(a, NOOP);
    r' := DoClient(r, a, b, c);
    var req := AppendRequest(a1, C);
    r' := DoSend(r', a1, b, c, C);
    var (q, out) := HandleAppendEntries(c, req);
    r' := DoReceive(r', a1, b, c, C, req);
    var a2 := HandleAppendReply(a1, C, req, out.res);
    r' := DoReply(r', a1, b, q, AppendReply(C, req, out.res));
    a' := CommitPending(a2, n);
    c' := q;
    r' := DoCommit(r', a2, b, q, n);
  }

  /** The leader one command further. */
  predicate Commits(a: Peer, a': Peer) {
    && a'.log == a.log + [NOOP] && a'.threshold == a.threshold
    && a'.snapIndex == CompactAfter(a.snapIndex, a.commitIndex, a.commitIndex + 1, a.threshold)
    && (B in a.nextIndex ==> B in a'.nextIndex && a'.nextIndex[B] == a.nextIndex[B])
    && (B in a.matchIndex ==> B in a'.matchIndex && a'.matchIndex[B] == a.matchIndex[B])
  }

  /** The leader and c through a round: the command sent, taken, acknowledged and committed. */
  lemma Taken(a: Peer, c: Peer)
    requires UpToDate(a, c)
    ensures a.role == Leader && a.currentTerm == 1
    ensures var a1 := ClientAppend(a, NOOP); CanSend(a1, C) && a1.role == Leader && a1.currentTerm == 1
    ensures var a1 := ClientAppend(a, NOOP);
      var req := AppendRequest(a1, C);
      var (q, out) := HandleAppendEntries(c, req);
      && req.leaderID == A && req.term == 1 && out.Replied? && q.log != []
      && C in a1.nextIndex && C in a1.matchIndex
      && var a2 := HandleAppendReply(a1, C, req, out.res);
      && a2.role == Leader && a2.log != [] && a2.TotalPeers() == 3
      && |a.log| in a2.channels && |a2.channels[|a.log|]| == 2
      && var a3 := CommitPending(a2, |a.log|); a3.log != [] && UpToDate(a3, q) && Commits(a, a3)
  {
    hide HandleAppendEntries, HandleAppendReply, ClientAppend, AppendRequest, CanSend, UpToDate, Commits, CommitPending;
    Sent(a, c);
    LeaderHalf(a, c);
    var a1 := ClientAppend(a, NOOP);
    var req := AppendRequest(a1, C);
    var (q, out) := HandleAppendEntries(c, req);
    Committed(a, HandleAppendReply(a1, C, req, out.res), q);
  }

  lemma LeaderHalf(a: Peer, c: Peer)
    requires UpToDate(a, c)
    ensures UpToDateLeader(a)
  {
  }

  /** c has just acknowledged the leader's next command. */
  ghost predicate Acknowledged(a: Peer, a2: Peer, q: Peer) {
    && a2 == a.(log := a.log + [NOOP], nextIndex := a.nextIndex[C := |a.log| + 1],
                matchIndex := a.matchIndex[C := |a.log|], channels := map[|a.log| := [A] + [C]], disk := a2.disk)
    && q.id == C && q.log == a2.log && Ready(a2, q)
  }

  lemma Sent(a: Peer, c: Peer)
    requires UpToDate(a, c)
    ensures a.role == Leader && a.currentTerm == 1
    ensures var a1 := ClientAppend(a, NOOP); CanSend(a1, C) && a1.role == Leader && a1.currentTerm == 1
    ensures var a1 := ClientAppend(a, NOOP);
      var req := AppendRequest(a1, C);
      var (q, out) := HandleAppendEntries(c, req);
      && req.leaderID == A && req.term == 1 && out.Replied? && q.log != []
      && C in a1.nextIndex && C in a1.matchIndex
      && Acknowledged(a, HandleAppendReply(a1, C, req, out.res), q)
  {
    hide HandleAppendEntries, ReportsOverride, Compatible, Outruns, CompactAfter, Installed;
    var a1 := ClientAppend(a, NOOP);
    AppendIsLater(a, C, NOOP);
    LaterReady(a, a1, c);
    Answer(a1, c);
    Exchange(a1, c);
    RequestEnd(a1, C);
    var req := AppendRequest(a1, C);
    var out := HandleAppendEntries(c, req).1;
    assert HandleAppendReply(a1, C, req, out.res).channels == map[|a.log| := [A] + [C]];
  }

  lemma Committed(a: Peer, a2: Peer, q: Peer)
    requires a.others == {B, C} && UpToDateLeader(a) && Acknowledged(a, a2, q)
    ensures a2.role == Leader && a2.log != [] && a2.TotalPeers() == 3
    ensures |a.log| in a2.channels && |a2.channels[|a.log|]| == 2
    ensures var a3 := CommitPending(a2, |a.log|); a3.log != [] && UpToDate(a3, q) && Commits(a, a3)
  {
    hide Compatible, Outruns, CompactAfter;
    CommitIsLater(a2, C, |a.log|);
    LaterReady(a2, CommitPending(a2, |a.log|), q);
    CommitMoves(a2, |a.log|);
  }

  lemma Led(ta: int, tb: int) returns (r: Run)
    ensures Ends(r, Elected(ta), NewB(tb), VOTER_C) && UpToDate(Elected(ta), VOTER_C)
    ensures Last(r).appendRequests == {} && Last(r).calls == map[]
  {
    r := Election(ta, tb);
    assert [SENTINEL][..1] == [SENTINEL];
  }

  // ----- a request overtaken by a later one

  const FIRST := AppendEntriesReq(1, A, 0, 0, 0, [NOOP])
  const BOTH := AppendEntriesReq(1, A, 0, 0, 0, [NOOP, NOOP])

  /** The first entry is sent to b, then both; the later request arrives first, and the other kills. */
  lemma OvertakenRequestKills() returns (r: Run, a: Peer, b: Peer, c: Peer)
    ensures Ends(r, a, b, c) && FIRST in Last(r).appendRequests && HandleAppendEntries(b, FIRST).1 == OutOfRange
  {
    hide HandleAppendEntries, AppendRequest, CanSend, ClientAppend, IsRun, Ends, Elected, NewB;
    r := Led(9, 9);
    a, b, c := Elected(9), NewB(9), VOTER_C;
    SendsBoth();
    TakesBoth();
    r := DoClient(r, a, b, c);
    a := ClientAppend(a, NOOP);
    r := DoSend(r, a, b, c, B);
    r := DoClient(r, a, b, c);
    a := ClientAppend(a, NOOP);
    r := DoSend(r, a, b, c, B);
    r := DoReceive(r, a, b, c, B, BOTH);
    b := HandleAppendEntries(b, BOTH).0;
  }

  lemma SendsBoth()
    ensures var a := Elected(9); a.role == Leader && a.currentTerm == 1
    ensures var a := ClientAppend(Elected(9), NOOP);
      a.role == Leader && a.currentTerm == 1 && CanSend(a, B) && AppendRequest(a, B) == FIRST
    ensures var a := ClientAppend(ClientAppend(Elected(9), NOOP), NOOP);
      a.role == Leader && CanSend(a, B) && AppendRequest(a, B) == BOTH
  {
    assert ([SENTINEL] + [NOOP])[1..] == [NOOP] && ([SENTINEL] + [NOOP] + [NOOP])[1..] == [NOOP, NOOP];
  }

  lemma TakesBoth()
    ensures var (b, out) := HandleAppendEntries(NewB(9), BOTH);
      out.Replied? && b.log != [] && HandleAppendEntries(b, FIRST).1 == OutOfRange
  {
    var log := [SENTINEL, NOOP, NOOP];
    assert Merge([SENTINEL], 0, BOTH.entries) == log;
    assert MatchCount(log, 1, FIRST.entries[1..]) == 0;
    assert MatchCount(log, 0, FIRST.entries) == 1;
  }

  // ----- a request repeated after its reply was lost

  /** With thresholds 9 and 2: b takes a committed entry and compacts it; its answer is lost, and the
      request that the leader, which has compacted nothing, makes again kills b. */
  lemma LostReplyKills() returns (r: Run, a: Peer, b: Peer, c: Peer, req: AppendEntriesReq)
    ensures Ends(r, a, b, c) && a.role == Leader && CanSend(a, B) && req == AppendRequest(a, B)
    ensures AppendReply(B, req, AppendEntriesRes(1, true)) in Last(r).appendReplies && req in Last(r).appendRequests
    ensures (A, B) in Last(r).calls && Last(r).calls[(A, B)] == req
    ensures HandleAppendEntries(b, req).1 == OutOfRange
  {
    hide HandleAppendEntries, IsRun, Ends, Elected, NewB, UpToDate, CompactAfter;
    r := Led(9, 2);
    r, a, c := Round(r, Elected(9), NewB(2), VOTER_C);
    OneCommitted(a, c);
    req := AppendRequest(a, B);
    TakesAndCompacts(req);
    r := DoSend(r, a, NewB(2), c, B);
    b := HandleAppendEntries(NewB(2), req).0;
    r := DoReceive(r, a, NewB(2), c, B, req);
  }

  lemma OneCommitted(a: Peer, c: Peer)
    requires UpToDate(a, c) && Commits(Elected(9), a)
    ensures a.role == Leader && CanSend(a, B) && AppendRequest(a, B) == AppendEntriesReq(1, A, 0, 0, 1, [NOOP])
  {
    assert CompactAfter(-1, 0, 1, 9) == CompactAfter(-1, 1, 1, 9) == -1;
    assert a.log == [SENTINEL, NOOP] && a.log[1..] == [NOOP];
    assert a.commitIndex == 1;
    hide Ready;
  }

  lemma TakesAndCompacts(req: AppendEntriesReq)
    requires req == AppendEntriesReq(1, A, 0, 0, 1, [NOOP])
    ensures var (b, out) := HandleAppendEntries(NewB(2), req);
      && out == Replied(AppendEntriesRes(1, true)) && b.log != []
      && HandleAppendEntries(b, req).1 == OutOfRange
  {
    assert Merge([SENTINEL], 0, [NOOP]) == [SENTINEL, NOOP];
    assert CompactAfter(-1, 0, 1, 2) == CompactAfter(1, 1, 1, 2) == 1;
  }

  // ----- a snapshot that arrives twice

  /** The leader has committed two entries and compacted the first while b heard nothing: b gets the
      snapshot, then the entry after it; when a second copy of the snapshot arrives, b goes back. */
  lemma LateSnapshotLowersCommit() returns (r: Run, l: Peer, f: Peer, c: Peer)
    ensures Ends(r, l, f, c) && l.role == Leader && B in l.nextIndex && l.nextIndex[B] <= l.snapIndex == 1 < |l.log|
    ensures var snapshot := SnapshotRequest(l);
      var first := HandleInstallSnapshot(f, snapshot, l.log[..2]);
      && first.1.Replied? && first.0.commitIndex == 1
      && var l' := HandleInstallSnapshotRes(l, B, first.1.res);
      && CanSend(l', B)
      && var next := HandleAppendEntries(first.0, AppendRequest(l', B));
      && next.1 == Replied(AppendEntriesRes(1, true)) && next.0.commitIndex == 2
      && var again := HandleInstallSnapshot(next.0, snapshot, l.log[..2]);
      && again.1.Replied? && again.0.commitIndex == 1 && again.0.log == next.0.log
  {
    hide IsRun, Ends, UpToDate, Commits, HandleInstallSnapshot, HandleAppendEntries;
    r := Led(2, 2);
    var a1, c1;
    r, a1, c1 := Round(r, Elected(2), NewB(2), VOTER_C);
    r, l, c := Round(r, a1, NewB(2), c1);
    f := NewB(2);
    TwoCommitted(a1, l, c1, c);
    Unsettles(l);
  }

  ghost predicate Compacted(l: Peer) {
    && l.role == Leader && l.id == A && l.currentTerm == 1 && B in l.nextIndex && l.nextIndex[B] == 1
    && l.log == [SENTINEL, NOOP, NOOP] && l.commitIndex == 2 && l.snapIndex == 1 && l.threshold == 2
  }

  lemma TwoCommitted(a: Peer, l: Peer, c1: Peer, c: Peer)
    requires UpToDate(a, c1) && Commits(Elected(2), a) && UpToDate(l, c) && Commits(a, l)
    ensures Compacted(l)
  {
    assert CompactAfter(-1, 0, 1, 2) == CompactAfter(1, 1, 1, 2) == 1;
    assert CompactAfter(1, 1, 2, 2) == CompactAfter(1, 2, 2, 2) == 1;
    assert a.commitIndex == 1;
    hide Compatible;
  }

  lemma Unsettles(l: Peer)
    requires Compacted(l)
    ensures var snapshot := SnapshotRequest(l);
      var first := HandleInstallSnapshot(NewB(2), snapshot, l.log[..2]);
      && first.1.Replied? && first.0.commitIndex == 1
      && var l' := HandleInstallSnapshotRes(l, B, first.1.res);
      && CanSend(l', B)
      && var next := HandleAppendEntries(first.0, AppendRequest(l', B));
      && next.1 == Replied(AppendEntriesRes(1, true)) && next.0.commitIndex == 2
      && var again := HandleInstallSnapshot(next.0, snapshot, l.log[..2]);
      && again.1.Replied? && again.0.commitIndex == 1 && again.0.log == next.0.log
  {
    var snapshot := SnapshotRequest(l);
    var first := HandleInstallSnapshot(NewB(2), snapshot, l.log[..2]);
    assert first.0.log == [SENTINEL, NOOP];
    var req := AppendRequest(HandleInstallSnapshotRes(l, B, first.1.res), B);
    assert req == AppendEntriesReq(1, A, 1, 1, 2, [NOOP]);
    assert MatchCount(first.0.log, 1, [NOOP]) == 0;
    assert Merge(first.0.log, 1, [NOOP]) == [SENTINEL, NOOP, NOOP];
    assert CompactAfter(1, 1, 2, 2) == CompactAfter(1, 2, 2, 2);
    var next := HandleAppendEntries(first.0, req).0;
    assert l.log[..2] + next.log[2..] == next.log;
  }

  // ----- a snapshot overtaken by compaction

  /** While its snapshot is under way the leader commits a third entry and compacts all: the answer sets
      nextIndex past the log's end, so nothing seems left to send to a follower that has half of it. */
  lemma OvertakenSnapshotSkips() returns (r: Run, l: Peer, f: Peer, c: Peer, r': Run, l': Peer, c': Peer)
    ensures Ends(r, l, f, c) && Ends(r', l', f, c') && Follows(r, r') && l.role == l'.role == Leader
    ensures B in l.nextIndex && l.nextIndex[B] <= l.snapIndex == 1 < |l.log| && B in l'.nextIndex
    ensures var (f', out) := HandleInstallSnapshot(f, SnapshotRequest(l), l.log[..2]);
      && out.Replied? && |f'.log| == 2 < |l'.log|
      && var next := HandleInstallSnapshotRes(l', B, out.res).nextIndex; B in next && next[B] == |l'.log|
  {
    hide IsRun, Ends, UpToDate, Commits;
    r := Led(2, 2);
    var a1, c1;
    r, a1, c1 := Round(r, Elected(2), NewB(2), VOTER_C);
    r, l, c := Round(r, a1, NewB(2), c1);
    r', l', c' := Round(r, l, NewB(2), c);
    f := NewB(2);
    TwoCommitted(a1, l, c1, c);
    AllCompacted(l, l', c');
  }

  lemma AllCompacted(l: Peer, l': Peer, c': Peer)
    requires Compacted(l) && Commits(l, l') && UpToDate(l', c')
    ensures l'.role == Leader && l'.currentTerm == 1 && B in l'.nextIndex && l'.snapIndex == 3 && |l'.log| == 4
  {
    assert CompactAfter(1, 2, 3, 2) == CompactAfter(3, 3, 3, 2) == 3;
    hide Compatible;
  }
}
