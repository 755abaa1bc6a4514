/**
 * packages/client/src/client.ts: request ids, the table of pending requests and the ways a request settles.
 * The connection is reduced to its state; losing it rejects whatever is pending.
 */
module ClientRequests {
  import opened Basics

  datatype ConnectionState = Disconnected | Connecting | Connected

  type CommandName = string

  datatype Pending = Pending(id: nat, command: CommandName)

  /** What settled a request. Only OkResponse resolves it; everything else rejects it. */
  datatype Cause =
    | OkResponse(responseId: nat, resultCommand: CommandName)
    | ErrorResponse(responseId: nat)
    | MismatchedResponse(responseId: nat, resultCommand: CommandName)
    | EncodingFailed
    | ConnectionLost
    | ClientDisposed

  datatype Outcome = Outcome(id: nat, command: CommandName, cause: Cause)

  /** `pending` is in insertion order, as a JavaScript Map is. */
  datatype State = State(
    connection: ConnectionState, disposed: bool, sequence: nat, pending: seq<Pending>, settled: seq<Outcome>)

  const INITIAL := State(Disconnected, false, 0, [], [])

  datatype Event =
    | ConnectStarts
    | HandshakeDone
    | ConnectionEnds
    | Request(command: CommandName, encodes: bool, sends: bool)
    | Response(id: nat, ok: bool, resultCommand: CommandName)
    | Dispose

  function Reject(pending: seq<Pending>, cause: Cause): (outcomes: seq<Outcome>)
    ensures |outcomes| == |pending|
    ensures forall k :: 0 <= k < |pending| ==> outcomes[k] == Outcome(pending[k].id, pending[k].command, cause)
  {
    seq(|pending|, k requires 0 <= k < |pending| => Outcome(pending[k].id, pending[k].command, cause))
  }

  function RejectPending(s: State, cause: Cause): State {
    s.(pending := [], settled := s.settled + Reject(s.pending, cause))
  }

  /** The connection goes down: `#handleConnectionStateChange`. */
  function Lose(s: State): State {
    if s.connection.Disconnected? then s else RejectPending(s.(connection := Disconnected), ConnectionLost)
  }

  function IndexOf(pending: seq<Pending>, id: nat): (k: int)
    ensures -1 <= k < |pending|
    ensures k >= 0 ==> pending[k].id == id
    ensures k < 0 ==> forall p :: p in pending ==> p.id != id
  {
    if pending == [] then -1
    else if pending[0].id == id then 0
    else var k := IndexOf(pending[1..], id); if k < 0 then -1 else k + 1
  }

  /** `#takePendingRequest` followed by settling it. */
  function Settle(s: State, k: nat, cause: Cause): State
    requires k < |s.pending|
  {
    s.(pending := s.pending[..k] + s.pending[k + 1..],
       settled := s.settled + [Outcome(s.pending[k].id, s.pending[k].command, cause)])
  }

  predicate Enabled(s: State, e: Event) {
    match e
    case ConnectStarts => s.connection.Disconnected? && !s.disposed
    case HandshakeDone => s.connection.Connecting?
    case Response(_, _, _) => s.connection.Connected?
    case _ => true
  }

  /** The id of the request made by this call, or nothing if it is rejected at once. */
  function Enqueued(s: State, command: CommandName): State {
    s.(sequence := s.sequence + 1, pending := s.pending + [Pending(s.sequence + 1, command)])
  }

  function RequestStep(s: State, command: CommandName, encodes: bool, sends: bool): (State, Option<nat>) {
    if s.disposed || !s.connection.Connected? then (s, None)
    else
      var id := s.sequence + 1;
      var t := Enqueued(s, command);
      if !encodes then (Settle(t, |s.pending|, EncodingFailed), Some(id))
      else if !sends then (Lose(t), Some(id))
      else (t, Some(id))
  }

  function ResponseStep(s: State, id: nat, ok: bool, resultCommand: CommandName): State {
    var k := IndexOf(s.pending, id);
    if k < 0 then Lose(s)
    else if !ok then Settle(s, k, ErrorResponse(id))
    else if resultCommand != s.pending[k].command then Lose(Settle(s, k, MismatchedResponse(id, resultCommand)))
    else Settle(s, k, OkResponse(id, resultCommand))
  }

  function DisposeStep(s: State): State {
    if s.disposed then s else Lose(RejectPending(s.(disposed := true), ClientDisposed))
  }

  function Step(s: State, e: Event): State
    requires Enabled(s, e)
  {
    match e
    case ConnectStarts => s.(connection := Connecting)
    case HandshakeDone => s.(connection := Connected)
    case ConnectionEnds => Lose(s)
    case Request(command, encodes, sends) => RequestStep(s, command, encodes, sends).0
    case Response(id, ok, resultCommand) => ResponseStep(s, id, ok, resultCommand)
    case Dispose => DisposeStep(s)
  }

  class Requests {
    var connection: ConnectionState
    var disposed: bool
    var requestSequence: nat
    var pendingRequests: seq<Pending>
    ghost var settled: seq<Outcome>

    ghost function Value(): State
      reads this
    {
      State(connection, disposed, requestSequence, pendingRequests, settled)
    }

    constructor ()
      ensures Value() == INITIAL
    {
      connection, disposed, requestSequence, pendingRequests, settled := Disconnected, false, 0, [], [];
    }

    method RejectPendingRequests(cause: Cause)
      modifies this`pendingRequests, this`settled
      ensures Value() == RejectPending(old(Value()), cause)
    {
      var requests := pendingRequests;
      pendingRequests := [];
      ghost var before := settled;
      for k := 0 to |requests|
        invariant settled == before + Reject(requests, cause)[..k]
      {
        settled := settled + [Outcome(requests[k].id, requests[k].command, cause)];
      }
      assert Reject(requests, cause)[..|requests|] == Reject(requests, cause);
    }

    method LoseConnection()
      modifies this
      ensures Value() == Lose(old(Value()))
    {
      if connection.Disconnected? { return; }
      connection := Disconnected;
      RejectPendingRequests(ConnectionLost);
    }

    method TakePendingRequest(id: nat) returns (request: Option<Pending>)
      modifies this`pendingRequests
      ensures var k := IndexOf(old(pendingRequests), id);
        && (k < 0 ==> request == None && pendingRequests == old(pendingRequests))
        && (k >= 0 ==> request == Some(old(pendingRequests)[k])
                       && pendingRequests == old(pendingRequests)[..k] + old(pendingRequests)[k + 1..])
    {
      var k := IndexOf(pendingRequests, id);
      if k < 0 { return None; }
      request := Some(pendingRequests[k]);
      pendingRequests := pendingRequests[..k] + pendingRequests[k + 1..];
    }

    method SendRequest(command: CommandName, encodes: bool, sends: bool) returns (id: Option<nat>)
      modifies this
      ensures (Value(), id) == RequestStep(old(Value()), command, encodes, sends)
    {
      if disposed || !connection.Connected? { return None; }
      requestSequence := requestSequence + 1;
      id := Some(requestSequence);
      pendingRequests := pendingRequests + [Pending(requestSequence, command)];
      if !encodes {
        var k := |pendingRequests| - 1;
        settled := settled + [Outcome(requestSequence, command, EncodingFailed)];
        assert pendingRequests[..k] + pendingRequests[k + 1..] == pendingRequests[..k];
        pendingRequests := pendingRequests[..k];
      } else if !sends {
        LoseConnection();
      }
    }

    method HandleResponse(id: nat, ok: bool, resultCommand: CommandName)
      modifies this
      ensures Value() == ResponseStep(old(Value()), id, ok, resultCommand)
    {
      var pending := TakePendingRequest(id);
      if pending.None? {
        LoseConnection();
        return;
      }
      var p := pending.value;
      if !ok {
        settled := settled + [Outcome(p.id, p.command, ErrorResponse(id))];
        return;
      }
      if resultCommand != p.command {
        settled := settled + [Outcome(p.id, p.command, MismatchedResponse(id, resultCommand))];
        LoseConnection();
        return;
      }
      settled := settled + [Outcome(p.id, p.command, OkResponse(id, resultCommand))];
    }

    method DisposeClient()
      modifies this
      ensures Value() == DisposeStep(old(Value()))
    {
      if disposed { return; }
      disposed := true;
      RejectPendingRequests(ClientDisposed);
      LoseConnection();
    }
  }

  // ---------------------------------------------------------------- what every run keeps

  ghost predicate IsPending(s: State, id: nat) { exists k :: 0 <= k < |s.pending| && s.pending[k].id == id }

  ghost predicate IsSettled(s: State, id: nat) { exists k :: 0 <= k < |s.settled| && s.settled[k].id == id }

  /** Pending ids first, then settled ids: each id is handed out once and lives in one place. */
  ghost predicate Inv(s: State) {
    && (!s.connection.Connected? ==> s.pending == [])
    && (forall j, k :: 0 <= j < k < |s.pending| ==> s.pending[j].id < s.pending[k].id)
    && (forall k :: 0 <= k < |s.pending| ==> 1 <= s.pending[k].id <= s.sequence)
    && (forall k :: 0 <= k < |s.settled| ==> 1 <= s.settled[k].id <= s.sequence)
    && (forall j, k :: 0 <= j < k < |s.settled| ==> s.settled[j].id != s.settled[k].id)
    && (forall j, k :: 0 <= j < |s.pending| && 0 <= k < |s.settled| ==> s.pending[j].id != s.settled[k].id)
    && (forall k :: 0 <= k < |s.settled| ==> CauseValid(s.settled[k]))
    && (forall id :: 1 <= id <= s.sequence ==> IsPending(s, id) || IsSettled(s, id))
  }

  /** A request resolves only by an ok response with its own id and command name. */
  predicate CauseValid(o: Outcome) {
    o.cause.OkResponse? ==> o.cause.responseId == o.id && o.cause.resultCommand == o.command
  }

  lemma SettleKeepsInv(s: State, k: nat, cause: Cause)
    requires Inv(s) && k < |s.pending|
    requires CauseValid(Outcome(s.pending[k].id, s.pending[k].command, cause))
    ensures Inv(Settle(s, k, cause))
  {
    var t := Settle(s, k, cause);
    assert t.settled[|s.settled|].id == s.pending[k].id;
    NoneIsLost(s, k, cause);
  }

  lemma NoneIsLost(s: State, k: nat, cause: Cause)
    requires k < |s.pending| && (forall id :: 1 <= id <= s.sequence ==> IsPending(s, id) || IsSettled(s, id))
    ensures forall id :: 1 <= id <= s.sequence ==>
      IsPending(Settle(s, k, cause), id) || IsSettled(Settle(s, k, cause), id)
  {
    var t := Settle(s, k, cause);
    assert t.settled[|s.settled|].id == s.pending[k].id;
    forall id | 1 <= id <= s.sequence ensures IsPending(t, id) || IsSettled(t, id) {
      if IsPending(s, id) {
        var j :| 0 <= j < |s.pending| && s.pending[j].id == id;
        if j < k { assert t.pending[j].id == id; }
        if j > k { assert t.pending[j - 1].id == id; }
      } else {
        var j :| 0 <= j < |s.settled| && s.settled[j].id == id;
        assert t.settled[j].id == id;
      }
    }
  }

  lemma RejectPendingKeepsInv(s: State, cause: Cause)
    requires Inv(s) && !cause.OkResponse?
    ensures Inv(RejectPending(s, cause))
  {
    RejectedAreNew(s, cause);
    RejectedAreSettled(s, cause);
  }

  /** The ids of the settled requests stay distinct and in range. */
  lemma RejectedAreNew(s: State, cause: Cause)
    requires Inv(s) && !cause.OkResponse?
    ensures var t := RejectPending(s, cause);
      && t.pending == []
      && (forall k :: 0 <= k < |t.settled| ==> 1 <= t.settled[k].id <= s.sequence && CauseValid(t.settled[k]))
      && (forall j, k :: 0 <= j < k < |t.settled| ==> t.settled[j].id != t.settled[k].id)
  {
    var t := RejectPending(s, cause);
    var n := |s.settled|;
    assert forall k :: n <= k < |t.settled| ==> t.settled[k].id == s.pending[k - n].id && t.settled[k].cause == cause;
    assert forall k :: 0 <= k < n ==> t.settled[k] == s.settled[k];
  }

  lemma RejectedAreSettled(s: State, cause: Cause)
    requires Inv(s)
    ensures forall id :: 1 <= id <= s.sequence ==> IsSettled(RejectPending(s, cause), id)
  {
    var t := RejectPending(s, cause);
    forall id | 1 <= id <= s.sequence ensures IsSettled(t, id) {
      if IsPending(s, id) {
        var j :| 0 <= j < |s.pending| && s.pending[j].id == id;
        assert t.settled[|s.settled| + j].id == id;
      } else {
        var j :| 0 <= j < |s.settled| && s.settled[j].id == id;
        assert t.settled[j].id == id;
      }
    }
  }

  lemma LoseKeepsInv(s: State)
    requires Inv(s)
    ensures Inv(Lose(s))
  {
    RejectPendingKeepsInv(s, ConnectionLost);
    var t := RejectPending(s, ConnectionLost);
    if !s.connection.Disconnected? {
      assert Lose(s) == t.(connection := Disconnected);
      SamePlaces(t, Lose(s));
    }
  }

  lemma SamePlaces(s: State, t: State)
    requires Inv(s) && t.pending == s.pending && t.settled == s.settled && t.sequence == s.sequence
    requires !t.connection.Connected? ==> t.pending == []
    ensures Inv(t)
  {
    forall id | 1 <= id <= t.sequence ensures IsPending(t, id) || IsSettled(t, id) {
      assert IsPending(s, id) || IsSettled(s, id);
    }
  }

  lemma EnqueueKeepsInv(s: State, command: CommandName)
    requires Inv(s) && s.connection.Connected?
    ensures Inv(Enqueued(s, command))
  {
    var t := Enqueued(s, command);
    assert t.pending[|s.pending|].id == t.sequence;
    forall id | 1 <= id <= t.sequence ensures IsPending(t, id) || IsSettled(t, id) {
      if id <= s.sequence {
        if IsPending(s, id) {
          var j :| 0 <= j < |s.pending| && s.pending[j].id == id;
          assert t.pending[j].id == id;
        } else {
          assert IsSettled(s, id);
        }
      }
    }
  }

  lemma StepKeepsInv(s: State, e: Event)
    requires Inv(s) && Enabled(s, e)
    ensures Inv(Step(s, e))
  {
    match e {
      case ConnectStarts => SamePlaces(s, Step(s, e));
      case HandshakeDone => SamePlaces(s, Step(s, e));
      case ConnectionEnds => LoseKeepsInv(s);
      case Request(command, encodes, sends) => RequestKeepsInv(s, command, encodes, sends);
      case Response(id, ok, resultCommand) => ResponseKeepsInv(s, id, ok, resultCommand);
      case Dispose => DisposeKeepsInv(s);
    }
  }

  lemma EnqueuedKeepsInv(t: State, k: nat)
    requires Inv(t) && k < |t.pending|
    ensures Inv(Settle(t, k, EncodingFailed)) && Inv(Lose(t))
  {
    SettleKeepsInv(t, k, EncodingFailed);
    LoseKeepsInv(t);
  }

  lemma RequestKeepsInv(s: State, command: CommandName, encodes: bool, sends: bool)
    requires Inv(s)
    ensures Inv(RequestStep(s, command, encodes, sends).0)
  {
    if !s.disposed && s.connection.Connected? {
      EnqueueKeepsInv(s, command);
      EnqueuedKeepsInv(Enqueued(s, command), |s.pending|);
      assert RequestStep(s, command, encodes, sends).0
          == if !encodes then Settle(Enqueued(s, command), |s.pending|, EncodingFailed)
             else if !sends then Lose(Enqueued(s, command)) else Enqueued(s, command);
    }
  }

  lemma DisposeKeepsInv(s: State)
    requires Inv(s)
    ensures Inv(DisposeStep(s))
  {
    if !s.disposed {
      SamePlaces(s, s.(disposed := true));
      RejectPendingKeepsInv(s.(disposed := true), ClientDisposed);
      LoseKeepsInv(RejectPending(s.(disposed := true), ClientDisposed));
    }
  }

  lemma ResponseKeepsInv(s: State, id: nat, ok: bool, resultCommand: CommandName)
    requires Inv(s)
    ensures Inv(ResponseStep(s, id, ok, resultCommand))
  {
    var k := IndexOf(s.pending, id);
    if k < 0 {
      LoseKeepsInv(s);
    } else {
      var cause := if !ok then ErrorResponse(id)
                   else if resultCommand != s.pending[k].command then MismatchedResponse(id, resultCommand)
                   else OkResponse(id, resultCommand);
      SettleKeepsInv(s, k, cause);
      LoseKeepsInv(Settle(s, k, cause));
    }
  }

  /** Ids and outcomes are only ever added. */
  ghost predicate Extends(s: State, t: State) {
    s.sequence <= t.sequence && s.settled <= t.settled
  }

  lemma StepExtends(s: State, e: Event)
    requires Enabled(s, e)
    ensures Extends(s, Step(s, e))
  {
  }

  ghost predicate IsRun(s: State, events: seq<Event>)
    decreases |events|
  {
    events != [] ==> Enabled(s, events[0]) && IsRun(Step(s, events[0]), events[1..])
  }

  ghost function Run(s: State, events: seq<Event>): State
    requires IsRun(s, events)
    decreases |events|
  {
    if events == [] then s else Run(Step(s, events[0]), events[1..])
  }

  lemma {:induction false} RunKeepsInv(s: State, events: seq<Event>)
    requires Inv(s) && IsRun(s, events)
    ensures Inv(Run(s, events)) && Extends(s, Run(s, events))
    decreases |events|
  {
    if events != [] {
      StepKeepsInv(s, events[0]);
      StepExtends(s, events[0]);
      RunKeepsInv(Step(s, events[0]), events[1..]);
    }
  }

  /** What the invariant says about one state. */
  ghost predicate Correlated(s: State) {
    && (!s.connection.Connected? ==> s.pending == [])
    && (forall j, k :: 0 <= j < k < |s.settled| ==> s.settled[j].id != s.settled[k].id)
    && (forall id :: 1 <= id <= s.sequence ==> (IsSettled(s, id) <==> !IsPending(s, id)))
    && (forall k :: 0 <= k < |s.settled| && s.settled[k].cause.OkResponse? ==>
          s.settled[k].cause == OkResponse(s.settled[k].id, s.settled[k].command))
  }

  lemma InvIsCorrelated(s: State)
    requires Inv(s)
    ensures Correlated(s)
    ensures forall id: nat :: IsPending(s, id) || IsSettled(s, id) ==> 1 <= id <= s.sequence
  {
    forall k | 0 <= k < |s.settled| && s.settled[k].cause.OkResponse?
      ensures s.settled[k].cause == OkResponse(s.settled[k].id, s.settled[k].command)
    {
      assert CauseValid(s.settled[k]);
    }
  }

  lemma NextIdIsNew(s: State, command: CommandName, encodes: bool, sends: bool)
    requires forall id: nat :: IsPending(s, id) || IsSettled(s, id) ==> 1 <= id <= s.sequence
    ensures var id := RequestStep(s, command, encodes, sends).1;
      id.Some? ==> !IsPending(s, id.value) && !IsSettled(s, id.value) && id.value > s.sequence
  {
  }

  /**
   * In every run, across any number of reconnects: nothing is pending unless connected; every id handed out
   * is pending or settled, never both, and settles once, for good; a request resolves only by an ok response
   * with its id and command; and an id handed out later is new.
   */
  lemma RequestCorrelation(before: seq<Event>, after: seq<Event>, command: CommandName, encodes: bool, sends: bool)
    requires IsRun(INITIAL, before) && IsRun(Run(INITIAL, before), after)
    ensures var s, t := Run(INITIAL, before), Run(Run(INITIAL, before), after);
      && Correlated(t)
      && Extends(s, t)
      && (var id := RequestStep(t, command, encodes, sends).1;
          id.Some? ==> !IsPending(t, id.value) && !IsSettled(t, id.value) && id.value > s.sequence)
  {
    assert Inv(INITIAL);
    RunKeepsInv(INITIAL, before);
    RunKeepsInv(Run(INITIAL, before), after);
    InvIsCorrelated(Run(Run(INITIAL, before), after));
    NextIdIsNew(Run(Run(INITIAL, before), after), command, encodes, sends);
  }

  // ---------------------------------------------------------------- what each call and response comes to

  ghost predicate HasOutcome(s: State, id: nat, cause: Cause) {
    exists i :: 0 <= i < |s.settled| && s.settled[i].id == id && s.settled[i].cause == cause
  }

  ghost predicate Resolved(s: State, id: nat) {
    exists i :: 0 <= i < |s.settled| && s.settled[i].id == id && s.settled[i].cause.OkResponse?
  }

  /** The request has left the table, and every other one is still in it. */
  ghost predicate OnlyTaken(s: State, t: State, id: nat) {
    && t.connection == s.connection && t.sequence == s.sequence
    && forall p :: p in t.pending <==> p in s.pending && p.id != id
  }

  /** Every request that was pending is rejected for the reason given, and the connection is gone. */
  ghost predicate AllRejected(s: State, t: State, except: Option<nat>, cause: Cause) {
    && t.connection.Disconnected? && t.pending == []
    && forall p :: p in s.pending && Some(p.id) != except ==> HasOutcome(t, p.id, cause)
  }

  lemma SettledHasOutcome(s: State, k: nat, cause: Cause)
    requires k < |s.pending|
    ensures HasOutcome(Settle(s, k, cause), s.pending[k].id, cause)
  {
    assert Settle(s, k, cause).settled[|s.settled|].cause == cause;
  }

  lemma SettleTakesOne(s: State, k: nat, cause: Cause)
    requires Inv(s) && k < |s.pending|
    ensures OnlyTaken(s, Settle(s, k, cause), s.pending[k].id)
  {
    TakenOut(s.pending, k);
  }

  lemma TakenOut(pending: seq<Pending>, k: nat)
    requires k < |pending| && forall i, j :: 0 <= i < j < |pending| ==> pending[i].id < pending[j].id
    ensures forall p :: p in pending[..k] + pending[k + 1..] <==> p in pending && p.id != pending[k].id
  {
    assert pending == pending[..k] + [pending[k]] + pending[k + 1..];
  }

  lemma LosingRejectsAll(s: State)
    requires !s.connection.Disconnected?
    ensures AllRejected(s, Lose(s), None, ConnectionLost)
    ensures s.settled <= Lose(s).settled && Lose(s).sequence == s.sequence
  {
    var t := Lose(s);
    forall p | p in s.pending ensures HasOutcome(t, p.id, ConnectionLost) {
      var j :| 0 <= j < |s.pending| && s.pending[j] == p;
      assert t.settled[|s.settled| + j] == Outcome(p.id, p.command, ConnectionLost);
    }
  }

  /**
   * A response to a pending request resolves it if and only if it is an ok response that names its command. That,
   * or an error response, takes this request out of the table and leaves everything else; a mismatched one also
   * ends the connection.
   */
  lemma ResponseSettlesExactly(s: State, k: nat, ok: bool, resultCommand: CommandName)
    requires Inv(s) && s.connection.Connected? && k < |s.pending|
    ensures var p, t := s.pending[k], ResponseStep(s, s.pending[k].id, ok, resultCommand);
      && (Resolved(t, p.id) <==> ok && resultCommand == p.command)
      && (ok && resultCommand == p.command ==> OnlyTaken(s, t, p.id))
      && (!ok ==> OnlyTaken(s, t, p.id) && HasOutcome(t, p.id, ErrorResponse(p.id)))
      && (ok && resultCommand != p.command ==>
            && HasOutcome(t, p.id, MismatchedResponse(p.id, resultCommand))
            && AllRejected(s, t, Some(p.id), ConnectionLost))
  {
    var p, t := s.pending[k], ResponseStep(s, s.pending[k].id, ok, resultCommand);
    assert IndexOf(s.pending, p.id) == k;
    ResponseKeepsInv(s, p.id, ok, resultCommand);
    if !ok {
      SettlesOnly(s, k, ErrorResponse(p.id));
      NotResolvedBy(t, p.id, ErrorResponse(p.id));
    } else if resultCommand == p.command {
      SettlesOnly(s, k, OkResponse(p.id, resultCommand));
    } else {
      MismatchLoses(s, k, resultCommand);
      NotResolvedBy(t, p.id, MismatchedResponse(p.id, resultCommand));
    }
  }

  lemma SettlesOnly(s: State, k: nat, cause: Cause)
    requires Inv(s) && k < |s.pending|
    ensures OnlyTaken(s, Settle(s, k, cause), s.pending[k].id)
    ensures HasOutcome(Settle(s, k, cause), s.pending[k].id, cause)
  {
    SettleTakesOne(s, k, cause);
    SettledHasOutcome(s, k, cause);
  }

  lemma NotResolvedBy(s: State, id: nat, cause: Cause)
    requires Inv(s) && HasOutcome(s, id, cause) && !cause.OkResponse?
    ensures !Resolved(s, id)
  {
  }

  lemma MismatchLoses(s: State, k: nat, resultCommand: CommandName)
    requires Inv(s) && s.connection.Connected? && k < |s.pending|
    ensures var cause := MismatchedResponse(s.pending[k].id, resultCommand); var t := Lose(Settle(s, k, cause));
      HasOutcome(t, s.pending[k].id, cause) && AllRejected(s, t, Some(s.pending[k].id), ConnectionLost)
  {
    var cause := MismatchedResponse(s.pending[k].id, resultCommand);
    var u := Settle(s, k, cause);
    SettlesOnly(s, k, cause);
    LosingRejectsAll(u);
    var i :| 0 <= i < |u.settled| && u.settled[i].id == s.pending[k].id && u.settled[i].cause == cause;
    assert Lose(u).settled[i] == u.settled[i];
  }

  /** A response that matches nothing ends the connection and rejects every pending request. */
  lemma UnmatchedResponseLoses(s: State, id: nat, ok: bool, resultCommand: CommandName)
    requires s.connection.Connected? && !IsPending(s, id)
    ensures AllRejected(s, ResponseStep(s, id, ok, resultCommand), None, ConnectionLost)
  {
    assert forall k :: 0 <= k < |s.pending| ==> s.pending[k].id != id;
    LosingRejectsAll(s);
  }

  /**
   * A call made while connected gets the next number. It is pending exactly if it was encoded and sent; one that
   * cannot be encoded fails alone, and one that cannot be sent takes the connection and all others with it.
   */
  lemma CallComesTo(s: State, command: CommandName, encodes: bool, sends: bool)
    requires Inv(s)
    ensures var (t, id) := RequestStep(s, command, encodes, sends);
      && (id.Some? <==> s.connection.Connected? && !s.disposed) && (id.None? ==> t == s)
      && (id.Some? ==>
            && id.value == s.sequence + 1 == t.sequence && t.disposed == s.disposed
            && (IsPending(t, id.value) <==> encodes && sends)
            && (encodes && sends ==> t.connection == s.connection && t.settled == s.settled
                                     && t.pending == s.pending + [Pending(id.value, command)])
            && (!encodes ==> t.connection == s.connection && t.pending == s.pending
                             && HasOutcome(t, id.value, EncodingFailed))
            && (encodes && !sends ==>
                  AllRejected(s, t, None, ConnectionLost) && HasOutcome(t, id.value, ConnectionLost)))
  {
    if !s.disposed && s.connection.Connected? {
      var u := Enqueued(s, command);
      assert u.pending[|s.pending|] == Pending(s.sequence + 1, command);
      if !encodes {
        SettledHasOutcome(u, |s.pending|, EncodingFailed);
        assert u.pending[..|s.pending|] + u.pending[|s.pending| + 1..] == s.pending;
      } else if !sends {
        LosingRejectsAll(u);
        forall p | p in s.pending ensures HasOutcome(Lose(u), p.id, ConnectionLost) { assert p in u.pending; }
        assert Pending(s.sequence + 1, command) in u.pending;
      }
    }
  }

  /** Disposing rejects every pending request as disposed and disconnects; a second disposal does nothing. */
  lemma DisposalRejectsAll(s: State)
    requires Inv(s)
    ensures var t := DisposeStep(s);
      && t.disposed && (s.disposed ==> t == s)
      && (!s.disposed ==> AllRejected(s, t, None, ClientDisposed))
  {
    if !s.disposed {
      var u := RejectPending(s.(disposed := true), ClientDisposed);
      var t := DisposeStep(s);
      forall p | p in s.pending ensures HasOutcome(t, p.id, ClientDisposed) {
        var j :| 0 <= j < |s.pending| && s.pending[j] == p;
        assert u.settled[|s.settled| + j] == Outcome(p.id, p.command, ClientDisposed);
        assert u.settled <= t.settled;
      }
    }
  }

  /** Requests are settled by the connection exactly when it goes down, and then all of them. */
  lemma ConnectionMovesExactly(s: State, e: Event)
    requires Inv(s) && Enabled(s, e) && (e.ConnectStarts? || e.HandshakeDone? || e.ConnectionEnds?)
    ensures var t := Step(s, e);
      && t.sequence == s.sequence && t.disposed == s.disposed
      && (e.ConnectStarts? ==> t.connection.Connecting?) && (e.HandshakeDone? ==> t.connection.Connected?)
      && (!e.ConnectionEnds? ==> t.pending == s.pending && t.settled == s.settled)
      && (e.ConnectionEnds? ==> if s.connection.Disconnected? then t == s
                                else AllRejected(s, t, None, ConnectionLost))
  {
    if e.ConnectionEnds? && !s.connection.Disconnected? { LosingRejectsAll(s); }
  }

  // ---------------------------------------------------------------- which requests resolve

  /** The event is an ok response to the request, which is pending then and whose command it names. */
  ghost predicate AnswersNow(s: State, e: Event, id: nat) {
    exists p :: p in s.pending && p.id == id && e == Response(id, true, p.command)
  }

  /** Some event of the run is. */
  ghost predicate Answered(s: State, events: seq<Event>, id: nat)
    requires IsRun(s, events)
    decreases |events|
  {
    events != [] && (AnswersNow(s, events[0], id) || Answered(Step(s, events[0]), events[1..], id))
  }

  /** What one step resolves. */
  lemma StepResolvesExactly(s: State, e: Event, id: nat)
    requires Inv(s) && Enabled(s, e)
    ensures Resolved(Step(s, e), id) <==>
      Resolved(s, id) || AnswersNow(s, e, id)
  {
    StepExtends(s, e);
    if Resolved(s, id) {
      var i :| 0 <= i < |s.settled| && s.settled[i].id == id && s.settled[i].cause.OkResponse?;
      assert Step(s, e).settled[i] == s.settled[i];
    }
    match e {
      case Response(r, ok, resultCommand) => ResponseResolves(s, r, ok, resultCommand, id);
      case Request(command, encodes, sends) => RequestResolvesNothing(s, command, encodes, sends, id);
      case ConnectionEnds => RejectingResolvesNothing(s, ConnectionLost, id);
      case Dispose =>
        RejectingResolvesNothing(s.(disposed := true), ClientDisposed, id);
        RejectingResolvesNothing(RejectPending(s.(disposed := true), ClientDisposed), ConnectionLost, id);
      case _ => assert Step(s, e).settled == s.settled;
    }
  }

  lemma RejectingResolvesNothing(s: State, cause: Cause, id: nat)
    requires !cause.OkResponse?
    ensures Resolved(RejectPending(s, cause), id) <==> Resolved(s, id)
    ensures !cause.ConnectionLost? || (Resolved(Lose(s), id) <==> Resolved(s, id))
  {
    var t := RejectPending(s, cause);
    if Resolved(s, id) {
      var i :| 0 <= i < |s.settled| && s.settled[i].id == id && s.settled[i].cause.OkResponse?;
      assert t.settled[i] == s.settled[i];
    }
    assert cause.ConnectionLost? && !s.connection.Disconnected? ==> Lose(s).settled == t.settled;
  }

  lemma SettlingResolves(s: State, k: nat, cause: Cause, id: nat)
    requires k < |s.pending|
    ensures Resolved(Settle(s, k, cause), id) <==> Resolved(s, id) || (s.pending[k].id == id && cause.OkResponse?)
  {
    var t := Settle(s, k, cause);
    assert t.settled[|s.settled|] == Outcome(s.pending[k].id, s.pending[k].command, cause);
    if Resolved(s, id) {
      var i :| 0 <= i < |s.settled| && s.settled[i].id == id && s.settled[i].cause.OkResponse?;
      assert t.settled[i] == s.settled[i];
    }
  }

  lemma RequestResolvesNothing(s: State, command: CommandName, encodes: bool, sends: bool, id: nat)
    requires Inv(s)
    ensures Resolved(RequestStep(s, command, encodes, sends).0, id) <==> Resolved(s, id)
  {
    var u := Enqueued(s, command);
    SettlingResolves(u, |s.pending|, EncodingFailed, id);
    RejectingResolvesNothing(u, ConnectionLost, id);
    assert u.settled == s.settled;
  }

  lemma ResponseResolves(s: State, r: nat, ok: bool, resultCommand: CommandName, id: nat)
    requires Inv(s) && s.connection.Connected?
    ensures Resolved(ResponseStep(s, r, ok, resultCommand), id) <==>
      Resolved(s, id) || exists p :: p in s.pending && p.id == id && r == id && ok && resultCommand == p.command
  {
    var k := IndexOf(s.pending, r);
    if k < 0 {
      RejectingResolvesNothing(s, ConnectionLost, id);
    } else {
      var p := s.pending[k];
      assert forall q :: q in s.pending && q.id == p.id ==> q == p;
      var cause := if !ok then ErrorResponse(r)
                   else if resultCommand != p.command then MismatchedResponse(r, resultCommand)
                   else OkResponse(r, resultCommand);
      SettlingResolves(s, k, cause, id);
      RejectingResolvesNothing(Settle(s, k, cause), ConnectionLost, id);
    }
  }

  lemma {:induction false} RunResolvesExactly(s: State, events: seq<Event>, id: nat)
    requires Inv(s) && IsRun(s, events)
    ensures Resolved(Run(s, events), id) <==> Resolved(s, id) || Answered(s, events, id)
    decreases |events|
  {
    if events != [] {
      StepResolvesExactly(s, events[0], id);
      StepKeepsInv(s, events[0]);
      RunResolvesExactly(Step(s, events[0]), events[1..], id);
    }
  }

  /**
   * In every run, across any number of reconnects, a request is resolved if and only if an ok response with its
   * number and its command arrived while it was pending.
   */
  lemma ResolvedExactly(events: seq<Event>, id: nat)
    requires IsRun(INITIAL, events)
    ensures Resolved(Run(INITIAL, events), id) <==> Answered(INITIAL, events, id)
  {
    assert Inv(INITIAL);
    RunResolvesExactly(INITIAL, events, id);
  }
}
