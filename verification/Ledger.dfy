/** The replicated bank ledger of sm/transaction.go: a deterministic function on values,
    and the class that executes it in place. */
module Ledger {
  import opened Wrappers

  const TWO_TO_THE_32: int := 0x1_0000_0000
  const TWO_TO_THE_63: int := 0x8000_0000_0000_0000
  const TWO_TO_THE_64: int := 0x1_0000_0000_0000_0000

  type Int64 = x: int | -TWO_TO_THE_63 <= x < TWO_TO_THE_63
  type Uint32 = x: int | 0 <= x < TWO_TO_THE_32

  /** Go's 64-bit addition and subtraction: the true result, wrapped into the signed range. */
  function Wrap64(x: int): (r: Int64)
    ensures (r - x) % TWO_TO_THE_64 == 0
  {
    var r := (x + TWO_TO_THE_63) % TWO_TO_THE_64 - TWO_TO_THE_63;
    assert r - x == -((x + TWO_TO_THE_63) / TWO_TO_THE_64) * TWO_TO_THE_64;
    r
  }

  datatype ActionType = Set | Incr | Move | Unknown(code: int)

  datatype Action = Action(
    kind: ActionType, target: string, source: string, value: Int64,
    clientID: string, requestID: Uint32)

  datatype ActionError =
    | NegativeValue
    | InvalidKey(key: string)
    | WouldBeNegative(balance: Int64, key: string)
    | InvalidSource(key: string)
    | InvalidTarget(key: string)
    | SameKeys
    | InvalidRequest

  datatype RequestInfo = RequestInfo(requestID: Uint32, err: Option<ActionError>)

  /** The content of a TSM: what TakeSnapshot encodes and TSMIsSnapshotEqual compares. */
  datatype State = State(data: map<string, Int64>, latest: map<string, RequestInfo>)

  const EMPTY_STATE := State(map[], map[])

  /** The balances and the error a fresh (not repeated) action leaves behind. */
  function Execute(data: map<string, Int64>, a: Action): (map<string, Int64>, Option<ActionError>) {
    match a.kind
    case Set =>
      if a.value < 0 then (data, Some(NegativeValue))
      else (data[a.target := a.value], None)
    case Incr =>
      if a.target !in data then (data, Some(InvalidKey(a.target)))
      else if Wrap64(data[a.target] + a.value) < 0 then
        (data, Some(WouldBeNegative(data[a.target], a.target)))
      else (data[a.target := Wrap64(data[a.target] + a.value)], None)
    case Move =>
      if a.source !in data then (data, Some(InvalidSource(a.source)))
      else if a.target !in data then (data, Some(InvalidTarget(a.target)))
      else if a.source == a.target then (data, Some(SameKeys))
      else if Wrap64(data[a.source] - a.value) < 0 then
        (data, Some(WouldBeNegative(data[a.source], a.source)))
      else if Wrap64(data[a.target] + a.value) < 0 then
        (data, Some(WouldBeNegative(data[a.target], a.target)))
      else
        (data[a.source := Wrap64(data[a.source] - a.value)]
             [a.target := Wrap64(data[a.target] + a.value)], None)
    case Unknown(_) => (data, Some(InvalidRequest))
  }

  predicate IsDuplicate(s: State, a: Action) {
    a.clientID in s.latest && s.latest[a.clientID].requestID == a.requestID
  }

  function Apply(s: State, a: Action): State {
    if IsDuplicate(s, a) then s
    else
      var (data, err) := Execute(s.data, a);
      State(data, s.latest[a.clientID := RequestInfo(a.requestID, err)])
  }

  /** The ledger after a sequence of actions, oldest first. */
  function Run(actions: seq<Action>): State {
    if actions == [] then EMPTY_STATE
    else Apply(Run(actions[..|actions| - 1]), actions[|actions| - 1])
  }

  class TSM {
    var data: map<string, Int64>
    var latestRequestInfo: map<string, RequestInfo>

    ghost function Value(): State
      reads this
    {
      State(data, latestRequestInfo)
    }

    constructor ()
      ensures Value() == EMPTY_STATE
    {
      data := map[];
      latestRequestInfo := map[];
    }

    method Reset()
      modifies this
      ensures Value() == EMPTY_STATE
    {
      data := map[];
      latestRequestInfo := map[];
    }

    /** The returned error is the one recorded for the request; a repeated request reports none. */
    method ApplyAction(a: Action) returns (err: Option<ActionError>)
      modifies this
      ensures Value() == Apply(old(Value()), a)
      ensures IsDuplicate(old(Value()), a) ==> err == None
      ensures !IsDuplicate(old(Value()), a) ==> Value().latest[a.clientID] == RequestInfo(a.requestID, err)
    {
      if a.clientID in latestRequestInfo && latestRequestInfo[a.clientID].requestID == a.requestID {
        return None;
      }
      err := None;
      match a.kind {
        case Set =>
          if a.value < 0 {
            err := Some(NegativeValue);
          } else {
            data := data[a.target := a.value];
          }
        case Incr =>
          if a.target !in data {
            err := Some(InvalidKey(a.target));
          } else {
            var v := data[a.target];
            if Wrap64(v + a.value) < 0 {
              err := Some(WouldBeNegative(v, a.target));
            } else {
              data := data[a.target := Wrap64(v + a.value)];
            }
          }
        case Move =>
          if a.source !in data {
            err := Some(InvalidSource(a.source));
          } else if a.target !in data {
            err := Some(InvalidTarget(a.target));
          } else if a.source == a.target {
            err := Some(SameKeys);
          } else {
            var sv, tv := data[a.source], data[a.target];
            if Wrap64(sv - a.value) < 0 {
              err := Some(WouldBeNegative(sv, a.source));
            } else if Wrap64(tv + a.value) < 0 {
              err := Some(WouldBeNegative(tv, a.target));
            } else {
              data := data[a.source := Wrap64(sv - a.value)];
              data := data[a.target := Wrap64(tv + a.value)];
            }
          }
        case Unknown(_) =>
          err := Some(InvalidRequest);
      }
      latestRequestInfo := latestRequestInfo[a.clientID := RequestInfo(a.requestID, err)];
    }

    method TakeSnapshot() returns (s: State)
      ensures s == Value()
    {
      s := State(data, latestRequestInfo);
    }

    method ResetWithSnapshot(s: State)
      modifies this
      ensures Value() == s
    {
      data := s.data;
      latestRequestInfo := s.latest;
    }
  }

  /** Hands out one client's actions, numbering them with a wrapping 32-bit counter. */
  class ActionBuilder {
    const clientID: string
    var lastRequestID: Uint32

    constructor (clientID: string, start: Uint32)
      ensures this.clientID == clientID && lastRequestID == start
    {
      this.clientID := clientID;
      lastRequestID := start;
    }

    method NewRequestID() returns (id: Uint32)
      modifies this
      ensures id == lastRequestID == IdAfter(old(lastRequestID), 1)
      ensures id != old(lastRequestID)
    {
      lastRequestID := (lastRequestID + 1) % TWO_TO_THE_32;
      id := lastRequestID;
    }

    method SetValue(key: string, value: Int64) returns (a: Action)
      modifies this
      ensures lastRequestID == IdAfter(old(lastRequestID), 1)
      ensures a == Action(Set, key, "", value, clientID, lastRequestID)
    {
      var id := NewRequestID();
      a := Action(Set, key, "", value, clientID, id);
    }

    method IncrValue(key: string, value: Int64) returns (a: Action)
      modifies this
      ensures lastRequestID == IdAfter(old(lastRequestID), 1)
      ensures a == Action(Incr, key, "", value, clientID, lastRequestID)
    {
      var id := NewRequestID();
      a := Action(Incr, key, "", value, clientID, id);
    }

    method MoveValue(source: string, target: string, value: Int64) returns (a: Action)
      modifies this
      ensures lastRequestID == IdAfter(old(lastRequestID), 1)
      ensures a == Action(Move, target, source, value, clientID, lastRequestID)
    {
      var id := NewRequestID();
      a := Action(Move, target, source, value, clientID, id);
    }
  }

  /** The counter after n more requests. */
  function IdAfter(start: Uint32, n: nat): Uint32 {
    (start + n) % TWO_TO_THE_32
  }
}
