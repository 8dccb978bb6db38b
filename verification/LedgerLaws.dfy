/** What the ledger of sm/transaction.go promises over whole logs: exact arithmetic in spite of
    wrapping, conservation of the total, and each request taking effect once. */
module LedgerLaws {
  import opened Wrappers
  import opened Ledger

  // ----- arithmetic

  ghost predicate NonNegative(data: map<string, Int64>) {
    forall k | k in data :: 0 <= data[k]
  }

  predicate InRange(x: int) {
    0 <= x < TWO_TO_THE_63
  }

  /** The sign test after a wrapping addition accepts exactly the sums that fit. */
  lemma SignTestIsExact(v: int, x: int)
    requires InRange(v) && -TWO_TO_THE_63 <= x <= TWO_TO_THE_63
    ensures Wrap64(v + x) >= 0 <==> InRange(v + x)
    ensures InRange(v + x) ==> Wrap64(v + x) == v + x
  {
    if v + x >= TWO_TO_THE_63 {
      assert (v + x + TWO_TO_THE_63) % TWO_TO_THE_64 == v + x - TWO_TO_THE_63;
    } else {
      assert (v + x + TWO_TO_THE_63) % TWO_TO_THE_64 == v + x + TWO_TO_THE_63;
    }
  }

  /** When a fresh action is accepted, stated over unbounded integers. */
  predicate Acceptable(data: map<string, Int64>, a: Action) {
    match a.kind
    case Set => InRange(a.value)
    case Incr => a.target in data && InRange(data[a.target] + a.value)
    case Move =>
      && a.source in data && a.target in data && a.source != a.target
      && InRange(data[a.source] - a.value) && InRange(data[a.target] + a.value)
    case Unknown(_) => false
  }

  /** The balances an accepted action stands for, with no wrapping anywhere. */
  function Intended(data: map<string, Int64>, a: Action): map<string, Int64>
    requires Acceptable(data, a)
  {
    match a.kind
    case Set => data[a.target := a.value]
    case Incr => data[a.target := data[a.target] + a.value]
    case Move => data[a.source := data[a.source] - a.value][a.target := data[a.target] + a.value]
    case Unknown(_) => data
  }

  lemma ExecuteIsExact(data: map<string, Int64>, a: Action)
    requires NonNegative(data)
    ensures Execute(data, a).1 == None <==> Acceptable(data, a)
    ensures Execute(data, a).0 == if Acceptable(data, a) then Intended(data, a) else data
    ensures NonNegative(Execute(data, a).0)
  {
    if a.target in data {
      SignTestIsExact(data[a.target], a.value);
    }
    if a.source in data {
      var taken: int := a.value;
      SignTestIsExact(data[a.source], -taken);
    }
  }

  /** So is what a request does to the whole ledger: a repeated one nothing, a fresh one to the balances
      what it means, and to the client's record, and only to that, its number and result. */
  lemma ApplyIsExact(s: State, a: Action)
    requires NonNegative(s.data)
    ensures Apply(s, a).data == if IsDuplicate(s, a) || !Acceptable(s.data, a) then s.data else Intended(s.data, a)
    ensures IsDuplicate(s, a) ==> Apply(s, a) == s
    ensures !IsDuplicate(s, a) ==>
      && Apply(s, a).latest.Keys == s.latest.Keys + {a.clientID}
      && (forall c | c in s.latest && c != a.clientID :: Apply(s, a).latest[c] == s.latest[c])
      && Apply(s, a).latest[a.clientID].requestID == a.requestID
      && Apply(s, a).latest[a.clientID].err == ErrorOf(s.data, a)
      && (ErrorOf(s.data, a) == None <==> Acceptable(s.data, a))
  {
    ExecuteIsExact(s.data, a);
    ErrorIsExact(s.data, a);
  }

  /** Over any log. */
  lemma RunIsExact(log: seq<Action>, a: Action)
    ensures NonNegative(Run(log).data)
    ensures Run(log + [a]).data ==
      if LastRequest(log, a.clientID) == Some(a.requestID) || !Acceptable(Run(log).data, a) then Run(log).data
      else Intended(Run(log).data, a)
    ensures var s, s' := Run(log), Run(log + [a]);
      LastRequest(log, a.clientID) != Some(a.requestID) ==>
        && s'.latest.Keys == s.latest.Keys + {a.clientID}
        && (forall c | c in s.latest && c != a.clientID :: s'.latest[c] == s.latest[c])
        && s'.latest[a.clientID] == RequestInfo(a.requestID, ErrorOf(s.data, a))
  {
    OneMore(log, a);
    BalancesStayInRange(log);
    ApplyIsExact(Run(log), a);
    DuplicateMeansLastRequest(log, a);
  }

  /** Why a fresh action is rejected, over unbounded integers: the first of its faults. */
  function ErrorOf(data: map<string, Int64>, a: Action): Option<ActionError> {
    var amount: int := a.value;
    match a.kind
    case Set => if amount < 0 then Some(NegativeValue) else None
    case Incr =>
      if a.target !in data then Some(InvalidKey(a.target)) else Unfit(data, a.target, amount)
    case Move =>
      if a.source !in data then Some(InvalidSource(a.source))
      else if a.target !in data then Some(InvalidTarget(a.target))
      else if a.source == a.target then Some(SameKeys)
      else if Unfit(data, a.source, -amount) != None then Unfit(data, a.source, -amount)
      else Unfit(data, a.target, amount)
    case Unknown(_) => Some(InvalidRequest)
  }

  /** The balance of a key would leave the range. */
  function Unfit(data: map<string, Int64>, key: string, change: int): Option<ActionError>
    requires key in data
  {
    if InRange(data[key] + change) then None else Some(WouldBeNegative(data[key], key))
  }

  lemma ErrorIsExact(data: map<string, Int64>, a: Action)
    requires NonNegative(data)
    ensures Execute(data, a).1 == ErrorOf(data, a)
  {
    if a.target in data {
      SignTestIsExact(data[a.target], a.value);
    }
    if a.source in data {
      var taken: int := a.value;
      SignTestIsExact(data[a.source], -taken);
    }
  }

  lemma {:induction false} BalancesStayInRange(log: seq<Action>)
    ensures NonNegative(Run(log).data)
  {
    if log != [] {
      BalancesStayInRange(log[..|log| - 1]);
      ExecuteIsExact(Run(log[..|log| - 1]).data, log[|log| - 1]);
    }
  }

  // ----- conservation

  ghost function Total(data: map<string, Int64>): int {
    if data == map[] then 0
    else
      var k :| k in data;
      data[k] + Total(data - {k})
  }

  lemma {:induction false} TotalSplit(data: map<string, Int64>, k: string)
    requires k in data
    ensures Total(data) == data[k] + Total(data - {k})
    decreases |data|
  {
    var c :| c in data && Total(data) == data[c] + Total(data - {c});
    if c != k {
      TotalSplit(data - {c}, k);
      TotalSplit(data - {k}, c);
      assert data - {c} - {k} == data - {k} - {c};
    }
  }

  lemma TotalUpdate(data: map<string, Int64>, k: string, v: Int64)
    ensures Total(data[k := v]) == Total(data) - (if k in data then data[k] else 0) + v
  {
    var data' := data[k := v];
    TotalSplit(data', k);
    assert data' - {k} == data - {k};
    if k in data {
      TotalSplit(data, k);
    } else {
      assert data - {k} == data;
    }
  }

  /** How much money an action creates: only an accepted, fresh Set or Incr creates any. */
  function Created(s: State, a: Action): int {
    if IsDuplicate(s, a) || !Acceptable(s.data, a) then 0
    else
      match a.kind
      case Set => a.value - (if a.target in s.data then s.data[a.target] else 0)
      case Incr => a.value
      case _ => 0
  }

  lemma ApplyAccountsForTotal(s: State, a: Action)
    requires NonNegative(s.data)
    ensures Total(Apply(s, a).data) == Total(s.data) + Created(s, a)
  {
    ExecuteIsExact(s.data, a);
    if Acceptable(s.data, a) {
      match a.kind
      case Set => TotalUpdate(s.data, a.target, a.value);
      case Incr => TotalUpdate(s.data, a.target, s.data[a.target] + a.value);
      case Move =>
        TotalUpdate(s.data, a.source, s.data[a.source] - a.value);
        TotalUpdate(s.data[a.source := s.data[a.source] - a.value], a.target, s.data[a.target] + a.value);
    }
  }

  function CreatedBy(log: seq<Action>): int {
    if log == [] then 0
    else CreatedBy(log[..|log| - 1]) + Created(Run(log[..|log| - 1]), log[|log| - 1])
  }

  /** Over any log the total is what the accepted Set and Incr actions put in, to the unit. */
  lemma {:induction false} TotalIsAccountedFor(log: seq<Action>)
    ensures Total(Run(log).data) == CreatedBy(log)
  {
    if log != [] {
      TotalIsAccountedFor(log[..|log| - 1]);
      BalancesStayInRange(log[..|log| - 1]);
      ApplyAccountsForTotal(Run(log[..|log| - 1]), log[|log| - 1]);
    }
  }

  /** Moves, accepted or not, and every rejected or repeated request conserve the total. */
  lemma {:induction false} MovesConserveTotal(log: seq<Action>, moves: seq<Action>)
    requires forall i | 0 <= i < |moves| ::
      var s := Run(log + moves[..i]);
      moves[i].kind.Move? || IsDuplicate(s, moves[i]) || Execute(s.data, moves[i]).1 != None
    ensures Total(Run(log + moves).data) == Total(Run(log).data)
  {
    if moves == [] {
      assert log + moves == log;
    } else {
      var n := |moves| - 1;
      var all, front := log + moves, log + moves[..n];
      assert all[..|all| - 1] == front && all[|all| - 1] == moves[n];
      forall i | 0 <= i < n
        ensures log + moves[..n][..i] == log + moves[..i]
      {
        assert moves[..n][..i] == moves[..i];
      }
      MovesConserveTotal(log, moves[..n]);
      BalancesStayInRange(front);
      ExecuteIsExact(Run(front).data, moves[n]);
      ApplyAccountsForTotal(Run(front), moves[n]);
    }
  }

  // ----- exactly-once application

  /** The request a client made last. */
  function LastRequest(log: seq<Action>, client: string): Option<Uint32> {
    if log == [] then None
    else if log[|log| - 1].clientID == client then Some(log[|log| - 1].requestID)
    else LastRequest(log[..|log| - 1], client)
  }

  predicate SameRequest(a: Action, b: Action) {
    a.clientID == b.clientID && a.requestID == b.requestID
  }

  ghost predicate AppearsIn(log: seq<Action>, a: Action) {
    exists i | 0 <= i < |log| :: SameRequest(log[i], a)
  }

  /** The log with every copy of a request but the first removed. */
  ghost function FirstCopies(log: seq<Action>): seq<Action> {
    if log == [] then []
    else
      var front, last := log[..|log| - 1], log[|log| - 1];
      if AppearsIn(front, last) then FirstCopies(front) else FirstCopies(front) + [last]
  }

  /** A client finishes one request before it starts the next: in its own subsequence of the
      log the copies of a request are contiguous. Clients interleave freely. */
  ghost predicate OneAtATime(log: seq<Action>) {
    forall i, j, k | 0 <= i < j < k < |log| && SameRequest(log[i], log[k]) && log[j].clientID == log[i].clientID ::
      log[j].requestID == log[i].requestID
  }

  lemma {:induction false} DuplicateMeansLastRequest(log: seq<Action>, a: Action)
    ensures IsDuplicate(Run(log), a) <==> LastRequest(log, a.clientID) == Some(a.requestID)
    ensures a.clientID in Run(log).latest <==> LastRequest(log, a.clientID) != None
  {
    if log != [] {
      var front, last := log[..|log| - 1], log[|log| - 1];
      DuplicateMeansLastRequest(front, a);
      DuplicateMeansLastRequest(front, last);
    }
  }

  /** The client's last request is at index p. */
  ghost predicate LastAt(log: seq<Action>, client: string, p: int) {
    0 <= p < |log| && log[p].clientID == client && forall i | p < i < |log| :: log[i].clientID != client
  }

  lemma {:induction false} LastRequestPosition(log: seq<Action>, client: string)
    ensures LastRequest(log, client) == None ==> forall i | 0 <= i < |log| :: log[i].clientID != client
    ensures LastRequest(log, client) != None ==>
      exists p :: LastAt(log, client, p) && Some(log[p].requestID) == LastRequest(log, client)
  {
    if log != [] {
      var front := log[..|log| - 1];
      if log[|log| - 1].clientID == client {
        assert LastAt(log, client, |log| - 1);
      } else {
        LastRequestPosition(front, client);
        if LastRequest(front, client) != None {
          var p :| LastAt(front, client, p) && Some(front[p].requestID) == LastRequest(front, client);
          assert LastAt(log, client, p);
        }
      }
    }
  }

  /** For one-at-a-time clients the duplicate test recognises exactly the later copies. */
  lemma DuplicateMeansCopy(log: seq<Action>, a: Action)
    requires OneAtATime(log + [a])
    ensures IsDuplicate(Run(log), a) <==> AppearsIn(log, a)
  {
    hide LastRequest, Run, IsDuplicate;
    DuplicateMeansLastRequest(log, a);
    LastRequestPosition(log, a.clientID);
    if AppearsIn(log, a) {
      var i :| 0 <= i < |log| && SameRequest(log[i], a);
      var p :| LastAt(log, a.clientID, p) && Some(log[p].requestID) == LastRequest(log, a.clientID);
      var all := log + [a];
      assert all[i] == log[i] && all[p] == log[p] && all[|log|] == a;
      assert i <= p && SameRequest(all[i], all[|log|]) && all[p].clientID == all[i].clientID;
    }
  }

  /** Whenever a request is applied, the duplicate test tells whether it was applied before. */
  ghost predicate DetectsCopies(log: seq<Action>) {
    forall k {:trigger log[k]} | 0 <= k < |log| :: IsDuplicate(Run(log[..k]), log[k]) <==> AppearsIn(log[..k], log[k])
  }

  /** And that discipline is exactly what the test, which remembers one request a client, needs. */
  lemma CopiesDetectedExactly(log: seq<Action>)
    ensures DetectsCopies(log) <==> OneAtATime(log)
  {
    if OneAtATime(log) {
      forall k | 0 <= k < |log| ensures IsDuplicate(Run(log[..k]), log[k]) <==> AppearsIn(log[..k], log[k]) {
        assert OneAtATime(log[..k] + [log[k]]) by {
          assert log[..k] + [log[k]] == log[..k + 1];
        }
        DuplicateMeansCopy(log[..k], log[k]);
      }
    }
    if DetectsCopies(log) {
      forall i, j, k | 0 <= i < j < k < |log| && SameRequest(log[i], log[k]) && log[j].clientID == log[i].clientID
        ensures log[j].requestID == log[i].requestID
      {
        DetectedCopiesAreContiguous(log, i, j, k);
      }
    }
  }

  lemma {:induction false} DetectedCopiesAreContiguous(log: seq<Action>, i: nat, j: nat, k: nat)
    requires DetectsCopies(log) && i < j < k < |log|
    requires SameRequest(log[i], log[k]) && log[j].clientID == log[i].clientID
    ensures log[j].requestID == log[i].requestID
    decreases k
  {
    hide LastRequest, Run, IsDuplicate;
    var before, client := log[..k], log[i].clientID;
    assert before[i] == log[i] && before[j] == log[j] && AppearsIn(before, log[k]);
    DuplicateMeansLastRequest(before, log[k]);
    LastRequestPosition(before, client);
    var p: nat :| LastAt(before, client, p) && Some(before[p].requestID) == LastRequest(before, client);
    assert before[p] == log[p] && j <= p;
    if j < p {
      DetectedCopiesAreContiguous(log, i, j, p);
    }
  }

  lemma OneAtATimeBefore(front: seq<Action>, last: Action)
    requires OneAtATime(front + [last])
    ensures OneAtATime(front)
  {
    assert forall i | 0 <= i < |front| :: front[i] == (front + [last])[i];
  }

  lemma OneMore(log: seq<Action>, a: Action)
    ensures Run(log + [a]) == Apply(Run(log), a)
    ensures FirstCopies(log + [a]) == if AppearsIn(log, a) then FirstCopies(log) else FirstCopies(log) + [a]
  {
    assert (log + [a])[..|log|] == log;
  }

  /** Retried requests take effect once: balances, recorded results and all. */
  lemma {:induction false} ExactlyOnce(log: seq<Action>)
    requires OneAtATime(log)
    ensures Run(log) == Run(FirstCopies(log))
  {
    if log != [] {
      var front, last := log[..|log| - 1], log[|log| - 1];
      assert log == front + [last];
      OneAtATimeBefore(front, last);
      hide OneAtATime, AppearsIn, Run, FirstCopies;
      ExactlyOnce(front);
      DuplicateMeansCopy(front, last);
      OneMore(front, last);
      OneMore(FirstCopies(front), last);
    }
  }

  /** Without that discipline a late copy of an older request is executed again. */
  lemma LateCopyRunsTwice()
    ensures
      var set1 := Action(Set, "k", "", 1, "c", 7);
      var set2 := Action(Set, "k", "", 2, "c", 8);
      var log := [set1, set2, set1];
      Run(log) != Run(FirstCopies(log))
  {
    var set1 := Action(Set, "k", "", 1, "c", 7);
    var set2 := Action(Set, "k", "", 2, "c", 8);
    var log := [set1, set2];
    TwoApplied(set1, set2);
    TwoKept(set1, set2);
    assert (log + [set1])[..2] == log && log + [set1] == [set1, set2, set1];
    hide Run, FirstCopies;
    OneMore(log, set1);
    assert SameRequest(log[0], set1);
  }

  lemma TwoApplied(a: Action, b: Action)
    ensures Run([a, b]) == Apply(Apply(EMPTY_STATE, a), b)
  {
    assert [] + [a] == [a] && [a] + [b] == [a, b];
    OneMore([], a);
    OneMore([a], b);
    hide Apply;
  }

  lemma TwoKept(a: Action, b: Action)
    requires !SameRequest(a, b)
    ensures FirstCopies([a, b]) == [a, b]
  {
    assert [] + [a] == [a] && [a] + [b] == [a, b];
    OneMore([], a);
    OneMore([a], b);
  }

  /** A builder's ids count up by one and start again after the last of 32 bits. */
  lemma IdsCountUp(start: Uint32, n: nat)
    ensures IdAfter(start, 0) == start
    ensures IdAfter(start, n + 1) == if IdAfter(start, n) == TWO_TO_THE_32 - 1 then 0 else IdAfter(start, n) + 1
  {
    var q := (start + n) / TWO_TO_THE_32;
    assert start + n == q * TWO_TO_THE_32 + IdAfter(start, n);
  }

  /** A builder's ids repeat only after 2^32 requests, so distinct requests of a one-at-a-time
      client are never mistaken for copies of each other within that window. */
  lemma IdsAreDistinct(start: Uint32, m: nat, n: nat)
    requires m < n < m + TWO_TO_THE_32
    ensures IdAfter(start, m) != IdAfter(start, n)
    ensures IdAfter(start, m + TWO_TO_THE_32) == IdAfter(start, m)
  {
    var q := (start + n) / TWO_TO_THE_32 - (start + m) / TWO_TO_THE_32;
    assert n - m == q * TWO_TO_THE_32 + IdAfter(start, n) - IdAfter(start, m);
  }

  /** A log whose actions carry their builders' numbers, every client repeating at most its latest. */
  ghost predicate Numbered(log: seq<Action>, start: map<string, Uint32>, number: seq<nat>) {
    && |number| == |log|
    && (forall i | 0 <= i < |log| ::
          log[i].clientID in start && log[i].requestID == IdAfter(start[log[i].clientID], number[i]))
    && (forall i, j | 0 <= i < j < |log| && log[i].clientID == log[j].clientID ::
          number[i] <= number[j] < number[i] + TWO_TO_THE_32)
  }

  /** So clients that use a builder and retry only their latest action get exactly-once application. */
  lemma BuildersAreOneAtATime(log: seq<Action>, start: map<string, Uint32>, number: seq<nat>)
    requires Numbered(log, start, number)
    ensures OneAtATime(log) && DetectsCopies(log) && Run(log) == Run(FirstCopies(log))
  {
    hide IdAfter, Run, FirstCopies, DetectsCopies;
    forall i, j, k | 0 <= i < j < k < |log| && SameRequest(log[i], log[k]) && log[j].clientID == log[i].clientID
      ensures log[j].requestID == log[i].requestID
    {
      if number[i] < number[k] {
        IdsAreDistinct(start[log[i].clientID], number[i], number[k]);
      }
    }
    CopiesDetectedExactly(log);
    ExactlyOnce(log);
  }
}
