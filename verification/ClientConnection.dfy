/**
 * packages/client/src/connection.ts: the lifecycle of the client's connection attempts. Every callback
 * may call back into the connection, so the state holds a stack of what remains to be done when the
 * callbacks now running return. Asynchronous results arrive only when that stack is empty.
 */
module ClientConnection {
  import opened Basics

  /** `#lifecycle`. `ref` is the identity of the record, which the code compares after its callbacks. */
  datatype Lifecycle =
    | Disconnected
    | Connecting(id: nat, obtained: Option<nat>)
    | Connected(id: nat, transport: nat, handshaking: bool, ref: nat)

  /** A transport handed out by the factory for attempt `owner`. */
  datatype Transport = Transport(owner: nat, closed: bool, selfClosed: bool)

  /** The number tells the other messages apart. */
  datatype Message = Hello | HelloError | Other(number: nat)

  /** What is left to do when a callback returns. */
  datatype Frame =
    | OpenTransport(id: nat)                      // connect, after onStateChange(connecting)
    | CloseTransport(id: nat, transport: Option<nat>)  // #failAndClose, after onStateChange(disconnected)
    | AfterHandshake(id: nat, ref: nat)           // #handleMessage, after onHandshake
    | AfterConnected(id: nat, ref: nat)           // #handleMessage, after onStateChange(connected)
    | DataLoop(id: nat, rest: seq<Message>)       // #handleData, between two messages of one chunk

  datatype Settlement = Settlement(id: nat, resolved: bool)

  /** A call of onMessage: the attempt whose chunk held the message, the attempt that was current, the message. */
  datatype Handed = Handed(source: nat, current: nat, number: nat)

  datatype State = State(
    lifecycle: Lifecycle, sequence: nat, refs: nat,
    frames: seq<Frame>,              // the innermost callback's continuation is last
    opening: set<nat>,               // attempts whose transport factory has not answered
    transports: seq<Transport>,
    settlements: seq<Settlement>,    // handshake promises settled, in order
    hellos: set<nat>,                // attempts that accepted a server hello
    handed: seq<Handed>)

  const INITIAL := State(Disconnected, 0, 0, [], {}, [], [], {}, [])

  datatype Event =
    | Connect
    | DisconnectOrFail               // disconnect(), fail(), and send() when the transport throws
    | Return                         // the innermost callback returns
    | HandshakeThrows                // onHandshake throws
    | Data(id: nat, messages: Option<seq<Message>>)   // onData; None when the decoder rejects the chunk
    | Closed(id: nat)                // onClose
    | Errored(id: nat)               // onError
    | FactoryResolves(id: nat)
    | FactoryRejects(id: nat)
    | HelloSendRejects(id: nat)
    | SendRejects(transport: nat)

  function CurrentId(l: Lifecycle): Option<nat> {
    match l
    case Disconnected => None
    case Connecting(id, _) => Some(id)
    case Connected(id, _, _, _) => Some(id)
  }

  function CurrentTransport(l: Lifecycle): Option<nat> {
    match l
    case Disconnected => None
    case Connecting(_, obtained) => obtained
    case Connected(_, transport, _, _) => Some(transport)
  }

  predicate Pending(l: Lifecycle) { l.Connecting? || (l.Connected? && l.handshaking) }

  function Push(s: State, f: Frame): State { s.(frames := s.frames + [f]) }

  /** `#fail`, with the transport that `#failAndClose` closes afterwards. */
  function FailedThen(s: State, close: Option<nat>): State {
    if s.lifecycle.Disconnected? then s
    else
      var id := s.lifecycle.id;
      var t := s.(lifecycle := Disconnected,
                  settlements :=
                    if Pending(s.lifecycle) then s.settlements + [Settlement(id, false)] else s.settlements);
      Push(t, CloseTransport(id, close))
  }

  function FailedAndClosed(s: State): State { FailedThen(s, CurrentTransport(s.lifecycle)) }

  function Handled(s: State, source: nat, m: Message): State {
    match s.lifecycle
    case Disconnected => s
    case Connecting(id, obtained) =>
      if m != Hello || obtained.None? then FailedAndClosed(s)
      else
        var accepted := Connected(id, obtained.value, true, s.refs);
        Push(s.(lifecycle := accepted, refs := s.refs + 1, hellos := s.hellos + {id}), AfterHandshake(id, s.refs))
    case Connected(id, _, _, _) =>
      if !m.Other? then FailedAndClosed(s) else s.(handed := s.handed + [Handed(source, id, m.number)])
  }

  /** The rest of the loop over one chunk. It stops when disconnected; it does not look at the attempt id again. */
  function Loop(s: State, id: nat, messages: seq<Message>): State {
    if messages == [] || s.lifecycle.Disconnected? then s
    else Handled(Push(s, DataLoop(id, messages[1..])), id, messages[0])
  }

  function CloseOf(s: State, t: nat): State {
    if t < |s.transports| then s.(transports := s.transports[t := s.transports[t].(closed := true)]) else s
  }

  predicate IsRecord(l: Lifecycle, ref: nat) { l.Connected? && l.ref == ref }

  function Resume(s: State, f: Frame): State {
    match f
    case OpenTransport(id) => s.(opening := s.opening + {id})
    case CloseTransport(_, transport) => if transport.Some? then CloseOf(s, transport.value) else s
    case AfterHandshake(id, ref) => if IsRecord(s.lifecycle, ref) then Push(s, AfterConnected(id, ref)) else s
    case AfterConnected(id, ref) =>
      if IsRecord(s.lifecycle, ref) then
        s.(lifecycle := s.lifecycle.(handshaking := false, ref := s.refs), refs := s.refs + 1,
           settlements := s.settlements + [Settlement(id, true)])
      else s
    case DataLoop(id, rest) => Loop(s, id, rest)
  }

  predicate Enabled(s: State, e: Event) {
    match e
    case Return => s.frames != []
    case HandshakeThrows => s.frames != [] && s.frames[|s.frames| - 1].AfterHandshake?
    case FactoryResolves(id) => s.frames == [] && id in s.opening
    case FactoryRejects(id) => id in s.opening  // it may throw at once, inside connect() and any callback
    case HelloSendRejects(id) => s.frames == []
    case SendRejects(_) => s.frames == []
    case _ => true
  }

  function Pop(s: State): State
    requires s.frames != []
  {
    s.(frames := s.frames[..|s.frames| - 1])
  }

  function Step(s: State, e: Event): State
    requires Enabled(s, e)
  {
    match e
    case Connect =>
      if !s.lifecycle.Disconnected? then s
      else
        var id := s.sequence + 1;
        Push(s.(sequence := id, lifecycle := Connecting(id, None)), OpenTransport(id))
    case DisconnectOrFail => FailedAndClosed(s)
    case Return => Resume(Pop(s), s.frames[|s.frames| - 1])
    case HandshakeThrows =>
      if IsRecord(s.lifecycle, s.frames[|s.frames| - 1].ref) then FailedAndClosed(Pop(s)) else Pop(s)
    case Data(id, messages) =>
      if CurrentId(s.lifecycle) != Some(id) then s
      else if s.lifecycle.Connecting? && s.lifecycle.obtained.None? then FailedAndClosed(s)
      else if messages.None? then FailedAndClosed(s)
      else Loop(s, id, messages.value)
    case Closed(id) =>
      if CurrentId(s.lifecycle) != Some(id) then s
      else FailedThen(SelfClosed(s, CurrentTransport(s.lifecycle)), None)
    case Errored(id) => if CurrentId(s.lifecycle) != Some(id) then s else FailedAndClosed(s)
    case FactoryResolves(id) =>
      var t := s.(opening := s.opening - {id});
      if s.lifecycle.Connecting? && s.lifecycle.id == id then
        t.(transports := s.transports + [Transport(id, false, false)],
           lifecycle := s.lifecycle.(obtained := Some(|s.transports|)))
      else
        t.(transports := s.transports + [Transport(id, true, false)])
    case FactoryRejects(id) =>
      var t := s.(opening := s.opening - {id});
      if CurrentId(s.lifecycle) == Some(id) then FailedThen(t, None) else t
    case HelloSendRejects(id) => if CurrentId(s.lifecycle) == Some(id) then FailedAndClosed(s) else s
    case SendRejects(transport) =>
      if CurrentTransport(s.lifecycle) == Some(transport) then FailedAndClosed(s) else s
  }

  function SelfClosed(s: State, t: Option<nat>): State {
    if t.Some? && t.value < |s.transports| then
      s.(transports := s.transports[t.value := s.transports[t.value].(selfClosed := true)])
    else s
  }

  /** The object itself: each method is one synchronous stretch, up to the callback it ends with. */
  class Connection {
    var lifecycle: Lifecycle
    var sequence: nat
    var refs: nat
    var frames: seq<Frame>
    var opening: set<nat>
    var transports: seq<Transport>
    var settlements: seq<Settlement>
    var hellos: set<nat>
    var handed: seq<Handed>

    function Value(): State
      reads this
    {
      State(lifecycle, sequence, refs, frames, opening, transports, settlements, hellos, handed)
    }

    constructor ()
      ensures Value() == INITIAL
    {
      lifecycle, sequence, refs, frames := Disconnected, 0, 0, [];
      opening, transports, settlements, hellos, handed := {}, [], [], {}, [];
    }

    method Connect() returns (accepted: bool)
      modifies this
      ensures Value() == Step(old(Value()), Event.Connect)
      ensures accepted <==> old(lifecycle).Disconnected?
    {
      if !lifecycle.Disconnected? { return false; }
      sequence := sequence + 1;
      lifecycle := Connecting(sequence, None);
      frames := frames + [OpenTransport(sequence)];
      return true;
    }

    method Fail(close: Option<nat>)
      modifies this
      ensures Value() == FailedThen(old(Value()), close)
    {
      if lifecycle.Disconnected? { return; }
      var id := lifecycle.id;
      if Pending(lifecycle) {
        settlements := settlements + [Settlement(id, false)];
      }
      lifecycle := Disconnected;
      frames := frames + [CloseTransport(id, close)];
    }

    method FailAndClose()
      modifies this
      ensures Value() == FailedAndClosed(old(Value()))
    {
      Fail(CurrentTransport(lifecycle));
    }

    method HandleMessage(source: nat, m: Message)
      modifies this
      ensures Value() == Handled(old(Value()), source, m)
    {
      match lifecycle {
        case Disconnected =>
        case Connecting(id, obtained) =>
          if m != Hello || obtained.None? {
            FailAndClose();
            return;
          }
          lifecycle := Connected(id, obtained.value, true, refs);
          frames := frames + [AfterHandshake(id, refs)];
          refs := refs + 1;
          hellos := hellos + {id};
        case Connected(id, _, _, _) =>
          if !m.Other? {
            FailAndClose();
            return;
          }
          handed := handed + [Handed(source, id, m.number)];
      }
    }

    method HandleData(id: nat, messages: Option<seq<Message>>)
      modifies this
      ensures Value() == Step(old(Value()), Data(id, messages))
    {
      if CurrentId(lifecycle) != Some(id) { return; }
      if lifecycle.Connecting? && lifecycle.obtained.None? {
        FailAndClose();
      } else if messages.None? {
        FailAndClose();
      } else {
        NextMessage(id, messages.value);
      }
    }

    /** One round of the loop over a chunk; the next round runs when the callbacks of this one return. */
    method NextMessage(id: nat, messages: seq<Message>)
      modifies this
      ensures Value() == Loop(old(Value()), id, messages)
    {
      if messages == [] || lifecycle.Disconnected? { return; }
      frames := frames + [DataLoop(id, messages[1..])];
      HandleMessage(id, messages[0]);
    }

    /** The part of `#openTransport` after the factory has resolved. */
    method TransportObtained(id: nat)
      requires frames == [] && id in opening
      modifies this
      ensures Value() == Step(old(Value()), FactoryResolves(id))
    {
      opening := opening - {id};
      if lifecycle.Connecting? && lifecycle.id == id {
        lifecycle := Connecting(id, Some(|transports|));
        transports := transports + [Transport(id, false, false)];
      } else {
        transports := transports + [Transport(id, true, false)];
      }
    }
  }

  // ---------------------------------------------------------------- what every step keeps

  ghost predicate LifecycleValid(s: State) {
    && (CurrentId(s.lifecycle).Some? ==> s.sequence >= 1 && CurrentId(s.lifecycle).value == s.sequence)
    && (s.lifecycle.Connected? ==> s.lifecycle.id in s.hellos && s.lifecycle.ref < s.refs)
    && (CurrentTransport(s.lifecycle).Some? ==>
          && CurrentTransport(s.lifecycle).value < |s.transports|
          && s.transports[CurrentTransport(s.lifecycle).value].owner == s.sequence)
  }

  /** Every attempt so far has settled its handshake exactly once, except the current one while it is pending. */
  ghost predicate SettlementsValid(s: State) {
    && (forall i, j :: 0 <= i < j < |s.settlements| ==> s.settlements[i].id != s.settlements[j].id)
    && (forall i :: 0 <= i < |s.settlements| ==> 1 <= s.settlements[i].id <= s.sequence)
    && (forall id :: 1 <= id <= s.sequence ==>
          (Settled(s.settlements, id) <==> !(Pending(s.lifecycle) && s.lifecycle.id == id)))
  }

  ghost predicate Settled(settlements: seq<Settlement>, id: nat) {
    exists i :: 0 <= i < |settlements| && settlements[i].id == id
  }

  /** Some frame on the stack will close transport `t`. */
  ghost predicate WillClose(frames: seq<Frame>, t: nat) {
    exists k :: 0 <= k < |frames| && Closes(frames[k], t)
  }

  predicate Closes(f: Frame, t: nat) { f.CloseTransport? && f.transport == Some(t) }

  ghost predicate TransportsValid(s: State) {
    && (forall t :: 0 <= t < |s.transports| ==>
          || CurrentTransport(s.lifecycle) == Some(t)
          || s.transports[t].closed || s.transports[t].selfClosed || WillClose(s.frames, t))
    && (forall k :: 0 <= k < |s.frames| && s.frames[k].CloseTransport? && s.frames[k].transport.Some? ==>
          s.frames[k].transport.value < |s.transports| && s.frames[k].transport != CurrentTransport(s.lifecycle))
  }

  /**
   * While the continuation of an older attempt is on the stack, the current attempt has no transport yet,
   * because transports arrive only when the stack is empty.
   */
  predicate Untransported(l: Lifecycle, id: nat) {
    CurrentId(l) == Some(id) ==> l == Connecting(id, None)
  }

  /** An attempt whose factory has not answered has no transport. */
  ghost predicate OpeningValid(s: State) {
    forall id :: id in s.opening ==> id <= s.sequence && Untransported(s.lifecycle, id)
  }

  ghost predicate FrameValid(s: State, f: Frame) {
    && f.id <= s.sequence
    && (f.AfterHandshake? || f.AfterConnected? || f.DataLoop? ==>
          || s.lifecycle.Disconnected?
          || s.lifecycle.id == f.id
          || (s.lifecycle.Connecting? && s.lifecycle.obtained.None?))
    && (f.OpenTransport? ==> Untransported(s.lifecycle, f.id))
    && (f.AfterHandshake? || f.AfterConnected? ==>
          f.ref < s.refs && (IsRecord(s.lifecycle, f.ref) ==> s.lifecycle.handshaking && s.lifecycle.id == f.id))
  }

  ghost predicate FramesValid(s: State) {
    forall k :: 0 <= k < |s.frames| ==> FrameValid(s, s.frames[k])
  }

  /** onMessage only ever sees messages of the current attempt, after that attempt's hello. */
  ghost predicate HandedValid(s: State) {
    forall k :: 0 <= k < |s.handed| ==> s.handed[k].source == s.handed[k].current && s.handed[k].current in s.hellos
  }

  ghost predicate Inv(s: State) {
    && LifecycleValid(s)
    && SettlementsValid(s)
    && TransportsValid(s)
    && OpeningValid(s)
    && FramesValid(s)
    && HandedValid(s)
  }

  lemma FailKeepsInv(s: State, close: Option<nat>)
    requires Inv(s)
    requires close == CurrentTransport(s.lifecycle)
          || (close == None && (CurrentTransport(s.lifecycle).Some? ==>
                var t := s.transports[CurrentTransport(s.lifecycle).value]; t.closed || t.selfClosed))
    ensures Inv(FailedThen(s, close))
  {
    var t := FailedThen(s, close);
    if !s.lifecycle.Disconnected? {
      forall k | 0 <= k < |t.frames| ensures FrameValid(t, t.frames[k]) {
        if k < |s.frames| { assert FrameValid(s, s.frames[k]); }
      }
      SettleKeepsSettlements(s, t);
      forall u | 0 <= u < |t.transports| && !t.transports[u].closed && !t.transports[u].selfClosed
        ensures WillClose(t.frames, u)
      {
        if CurrentTransport(s.lifecycle) == Some(u) {
          assert Closes(t.frames[|s.frames|], u);
        } else {
          WillCloseStays(s.frames, t.frames, u);
        }
      }
    }
  }

  lemma WillCloseStays(frames: seq<Frame>, more: seq<Frame>, t: nat)
    requires frames <= more && WillClose(frames, t)
    ensures WillClose(more, t)
  {
    var k :| 0 <= k < |frames| && Closes(frames[k], t);
    assert Closes(more[k], t);
  }

  /** Settling the current attempt's handshake, once, while or by leaving the pending state. */
  lemma SettleKeepsSettlements(s: State, t: State)
    requires SettlementsValid(s) && LifecycleValid(s) && t.sequence == s.sequence
    requires t.settlements == s.settlements ||
      (Pending(s.lifecycle) && exists ok :: t.settlements == s.settlements + [Settlement(s.lifecycle.id, ok)])
    requires Pending(s.lifecycle) ==>
      (t.settlements == s.settlements <==> Pending(t.lifecycle) && t.lifecycle.id == s.lifecycle.id)
    requires Pending(t.lifecycle) ==> Pending(s.lifecycle) && s.lifecycle.id == t.lifecycle.id
    ensures SettlementsValid(t)
  {
    if t.settlements != s.settlements {
      var ok :| t.settlements == s.settlements + [Settlement(s.lifecycle.id, ok)];
      var me := s.lifecycle.id;
      assert !Settled(s.settlements, me);
      forall id | 1 <= id <= s.sequence ensures Settled(t.settlements, id) <==> Settled(s.settlements, id) || id == me {
        if Settled(s.settlements, id) {
          var i :| 0 <= i < |s.settlements| && s.settlements[i].id == id;
          assert t.settlements[i].id == id;
        }
        assert t.settlements[|s.settlements|].id == me;
      }
    }
  }

  lemma PushKeepsInv(s: State, f: Frame)
    requires Inv(s) && FrameValid(s, f) && !f.CloseTransport?
    ensures Inv(Push(s, f))
  {
    var t := Push(s, f);
    forall k | 0 <= k < |t.frames| ensures FrameValid(t, t.frames[k]) {
      if k < |s.frames| { assert FrameValid(s, s.frames[k]); } else { assert FrameValid(s, f); }
    }
    forall u: nat | WillClose(s.frames, u) ensures WillClose(t.frames, u) { WillCloseStays(s.frames, t.frames, u); }
  }

  /** Popping a frame, and closing its transport if that is what it was for. */
  function Popped(s: State): State
    requires s.frames != []
  {
    var f := s.frames[|s.frames| - 1];
    if f.CloseTransport? then Resume(Pop(s), f) else Pop(s)
  }

  lemma PopKeepsInv(s: State)
    requires Inv(s) && s.frames != []
    ensures Inv(Popped(s))
  {
    var t := Popped(s);
    forall k | 0 <= k < |t.frames| ensures FrameValid(t, t.frames[k]) {
      assert FrameValid(s, s.frames[k]);
    }
    PopKeepsTransports(s);
  }

  lemma PopKeepsTransports(s: State)
    requires TransportsValid(s) && s.frames != []
    ensures TransportsValid(Popped(s))
  {
    var t := Popped(s);
    forall u | 0 <= u < |t.transports| && !t.transports[u].closed && !t.transports[u].selfClosed
               && CurrentTransport(t.lifecycle) != Some(u)
      ensures WillClose(t.frames, u)
    {
      var k :| 0 <= k < |s.frames| && Closes(s.frames[k], u);
      assert Closes(t.frames[k], u);
    }
  }

  lemma HandleMessageKeepsInv(s: State, source: nat, m: Message)
    requires Inv(s) && FrameValid(s, DataLoop(source, []))
    ensures Inv(Handled(s, source, m))
  {
    FailKeepsInv(s, CurrentTransport(s.lifecycle));
    if s.lifecycle.Connecting? && m == Hello && s.lifecycle.obtained.Some? {
      AcceptKeepsInv(s);
      PushKeepsInv(Accepted(s), AfterHandshake(s.lifecycle.id, s.refs));
    } else if s.lifecycle.Connected? && m.Other? {
      HandingOnKeepsInv(s, source, m.number);
    }
  }

  /** The lifecycle after a server hello, before onHandshake is called. */
  function Accepted(s: State): State
    requires s.lifecycle.Connecting? && s.lifecycle.obtained.Some?
  {
    s.(lifecycle := Connected(s.lifecycle.id, s.lifecycle.obtained.value, true, s.refs), refs := s.refs + 1,
       hellos := s.hellos + {s.lifecycle.id})
  }

  lemma AcceptKeepsInv(s: State)
    requires Inv(s) && s.lifecycle.Connecting? && s.lifecycle.obtained.Some?
    ensures Inv(Accepted(s)) && FrameValid(Accepted(s), AfterHandshake(s.lifecycle.id, s.refs))
  {
    var t := Accepted(s);
    forall k | 0 <= k < |t.frames| ensures FrameValid(t, t.frames[k]) {
      assert FrameValid(s, s.frames[k]);
    }
    assert SettlementsValid(t) && TransportsValid(t);
  }

  lemma HandingOnKeepsInv(s: State, source: nat, number: nat)
    requires Inv(s) && s.lifecycle.Connected? && source == s.lifecycle.id
    ensures Inv(s.(handed := s.handed + [Handed(source, s.lifecycle.id, number)]))
  {
    var t := s.(handed := s.handed + [Handed(source, s.lifecycle.id, number)]);
    forall k | 0 <= k < |t.frames| ensures FrameValid(t, t.frames[k]) {
      assert FrameValid(s, s.frames[k]);
    }
  }

  lemma LoopKeepsInv(s: State, id: nat, messages: seq<Message>)
    requires Inv(s) && FrameValid(s, DataLoop(id, []))
    ensures Inv(Loop(s, id, messages))
  {
    if messages != [] && !s.lifecycle.Disconnected? {
      var f := DataLoop(id, messages[1..]);
      PushKeepsInv(s, f);
      HandleMessageKeepsInv(Push(s, f), id, messages[0]);
    }
  }

  lemma OpeningKeepsInv(s: State, id: nat)
    requires Inv(s) && FrameValid(s, OpenTransport(id))
    ensures Inv(s.(opening := s.opening + {id}))
  {
    var t := s.(opening := s.opening + {id});
    forall k | 0 <= k < |t.frames| ensures FrameValid(t, t.frames[k]) { assert FrameValid(s, s.frames[k]); }
  }

  lemma ResolveKeepsInv(s: State, id: nat, ref: nat)
    requires Inv(s) && FrameValid(s, AfterConnected(id, ref)) && IsRecord(s.lifecycle, ref)
    ensures Inv(Resume(s, AfterConnected(id, ref)))
  {
    var t := Resume(s, AfterConnected(id, ref));
    assert t.settlements == s.settlements + [Settlement(s.lifecycle.id, true)];
    SettleKeepsSettlements(s, t);
    forall k | 0 <= k < |t.frames| ensures FrameValid(t, t.frames[k]) { assert FrameValid(s, s.frames[k]); }
  }

  lemma ReturnKeepsInv(s: State)
    requires Inv(s) && s.frames != []
    ensures Inv(Step(s, Return))
  {
    var f := s.frames[|s.frames| - 1];
    assert FrameValid(s, f);
    PopKeepsInv(s);
    if !f.CloseTransport? { ResumeKeepsInv(Pop(s), f); }
  }

  lemma ResumeKeepsInv(p: State, f: Frame)
    requires Inv(p) && FrameValid(p, f) && !f.CloseTransport?
    ensures Inv(Resume(p, f))
  {
    match f {
      case OpenTransport(id) => OpeningKeepsInv(p, id);
      case AfterHandshake(id, ref) =>
        if IsRecord(p.lifecycle, ref) { PushKeepsInv(p, AfterConnected(id, ref)); }
      case AfterConnected(id, ref) =>
        if IsRecord(p.lifecycle, ref) { ResolveKeepsInv(p, id, ref); }
      case DataLoop(id, rest) => LoopKeepsInv(p, id, rest);
    }
  }

  lemma ConnectKeepsInv(s: State)
    requires Inv(s)
    ensures Inv(Step(s, Connect))
  {
    if s.lifecycle.Disconnected? {
      var id := s.sequence + 1;
      AttemptKeepsInv(s);
      PushKeepsInv(s.(sequence := id, lifecycle := Connecting(id, None)), OpenTransport(id));
    }
  }

  lemma AttemptKeepsInv(s: State)
    requires Inv(s) && s.lifecycle.Disconnected?
    ensures Inv(s.(sequence := s.sequence + 1, lifecycle := Connecting(s.sequence + 1, None)))
  {
    var t := s.(sequence := s.sequence + 1, lifecycle := Connecting(s.sequence + 1, None));
    forall k | 0 <= k < |t.frames| ensures FrameValid(t, t.frames[k]) {
      assert FrameValid(s, s.frames[k]);
    }
    assert SettlementsValid(t);
  }

  lemma FactoryKeepsInv(s: State, id: nat)
    requires Inv(s) && Enabled(s, FactoryResolves(id))
    ensures Inv(Step(s, FactoryResolves(id)))
  {
    var t := Step(s, FactoryResolves(id));
    assert t.settlements == s.settlements;
    assert forall u :: 0 <= u < |s.transports| ==> t.transports[u] == s.transports[u];
  }

  lemma SelfClosedKeepsInv(s: State, t: Option<nat>)
    requires Inv(s)
    ensures Inv(SelfClosed(s, t))
  {
    var u := SelfClosed(s, t);
    forall k | 0 <= k < |u.frames| ensures FrameValid(u, u.frames[k]) { assert FrameValid(s, s.frames[k]); }
  }

  lemma StepKeepsInv(s: State, e: Event)
    requires Inv(s) && Enabled(s, e)
    ensures Inv(Step(s, e))
  {
    match e {
      case Connect => ConnectKeepsInv(s);
      case Return => ReturnKeepsInv(s);
      case HandshakeThrows =>
        PopKeepsInv(s);
        FailKeepsInv(Pop(s), CurrentTransport(s.lifecycle));
      case Data(id, messages) => DataKeepsInv(s, id, messages);
      case Closed(id) =>
        SelfClosedKeepsInv(s, CurrentTransport(s.lifecycle));
        FailKeepsInv(SelfClosed(s, CurrentTransport(s.lifecycle)), None);
      case FactoryResolves(id) => FactoryKeepsInv(s, id);
      case FactoryRejects(id) => RejectKeepsInv(s, id);
      case _ => FailKeepsInv(s, CurrentTransport(s.lifecycle));
    }
  }

  lemma DataKeepsInv(s: State, id: nat, messages: Option<seq<Message>>)
    requires Inv(s)
    ensures Inv(Step(s, Data(id, messages)))
  {
    FailKeepsInv(s, CurrentTransport(s.lifecycle));
    if CurrentId(s.lifecycle) == Some(id) && messages.Some? { LoopKeepsInv(s, id, messages.value); }
  }

  /** The factory rejects only while its attempt has no transport. */
  lemma RejectKeepsInv(s: State, id: nat)
    requires Inv(s) && Enabled(s, FactoryRejects(id))
    ensures Inv(Step(s, FactoryRejects(id)))
  {
    var t := s.(opening := s.opening - {id});
    forall k | 0 <= k < |t.frames| ensures FrameValid(t, t.frames[k]) { assert FrameValid(s, s.frames[k]); }
    if CurrentId(s.lifecycle) == Some(id) { FailKeepsInv(t, None); }
  }

  // ---------------------------------------------------------------- callbacks of old attempts

  function Top(s: State): Frame
    requires s.frames != []
  {
    s.frames[|s.frames| - 1]
  }

  /** The attempt on whose behalf an event acts, if it is a callback or a continuation of one. */
  function AttemptOf(s: State, e: Event): Option<nat>
    requires Enabled(s, e)
  {
    match e
    case Connect => None
    case DisconnectOrFail => None
    case Return => Some(Top(s).id)
    case HandshakeThrows => Some(Top(s).id)
    case Data(id, _) => Some(id)
    case Closed(id) => Some(id)
    case Errored(id) => Some(id)
    case FactoryResolves(id) => Some(id)
    case FactoryRejects(id) => Some(id)
    case HelloSendRejects(id) => Some(id)
    case SendRejects(t) => if t < |s.transports| then Some(s.transports[t].owner) else None
  }

  /** The loop over one chunk goes on with its next message. */
  predicate ChunkContinues(s: State, e: Event) {
    e == Return && s.frames != [] && Top(s).DataLoop? && Top(s).rest != []
  }

  /**
   * A callback of an older attempt leaves the current attempt alone, with one exception: the loop over a
   * chunk of the older attempt that still has messages. That one always ends the current attempt, whose
   * handshake is rejected.
   */
  lemma OldAttemptIsInertExactly(s: State, e: Event)
    requires Inv(s) && Enabled(s, e)
    requires AttemptOf(s, e).Some? && CurrentId(s.lifecycle).Some? && AttemptOf(s, e) != CurrentId(s.lifecycle)
    ensures Step(s, e).lifecycle == s.lifecycle <==> !ChunkContinues(s, e)
    ensures ChunkContinues(s, e) ==>
      && Step(s, e).lifecycle == Disconnected
      && Step(s, e).settlements == s.settlements + [Settlement(CurrentId(s.lifecycle).value, false)]
  {
    if s.frames != [] { assert FrameValid(s, Top(s)); }
  }

  /** Every chunk with messages left belongs to the current attempt. */
  ghost predicate ChunksCurrent(s: State) {
    forall k :: 0 <= k < |s.frames| && s.frames[k].DataLoop? && s.frames[k].rest != [] ==>
      s.lifecycle.Disconnected? || s.lifecycle.id == s.frames[k].id
  }

  /** No callback reconnects while a chunk being handled has messages left. */
  ghost predicate ReconnectsOutsideChunks(s: State, e: Event) {
    e == Connect && s.lifecycle.Disconnected? ==>
      forall k :: 0 <= k < |s.frames| && s.frames[k].DataLoop? ==> s.frames[k].rest == []
  }

  /** Then the exception never arises. */
  lemma DisciplinedStep(s: State, e: Event)
    requires Inv(s) && Enabled(s, e) && ChunksCurrent(s) && ReconnectsOutsideChunks(s, e)
    ensures ChunksCurrent(Step(s, e))
    ensures AttemptOf(s, e).Some? && CurrentId(s.lifecycle).Some? && AttemptOf(s, e) != CurrentId(s.lifecycle)
        ==> Step(s, e).lifecycle == s.lifecycle
  {
    StepKeepsChunksCurrent(s, e);
    if AttemptOf(s, e).Some? && CurrentId(s.lifecycle).Some? && AttemptOf(s, e) != CurrentId(s.lifecycle) {
      OldAttemptIsInertExactly(s, e);
    }
  }

  lemma StepKeepsChunksCurrent(s: State, e: Event)
    requires Inv(s) && Enabled(s, e) && ChunksCurrent(s) && ReconnectsOutsideChunks(s, e)
    ensures ChunksCurrent(Step(s, e))
  {
    match e {
      case Return => ReturnKeepsChunksCurrent(s);
      case Data(id, messages) =>
        if CurrentId(s.lifecycle) == Some(id) && messages.Some? { LoopKeepsChunksCurrent(s, id, messages.value); }
      case _ =>
    }
  }

  lemma LoopKeepsChunksCurrent(s: State, id: nat, messages: seq<Message>)
    requires ChunksCurrent(s) && (s.lifecycle.Disconnected? || messages == [] || s.lifecycle.id == id)
    ensures ChunksCurrent(Loop(s, id, messages))
  {
  }

  lemma ReturnKeepsChunksCurrent(s: State)
    requires Inv(s) && s.frames != [] && ChunksCurrent(s)
    ensures ChunksCurrent(Step(s, Return))
  {
    var f := Top(s);
    assert ChunksCurrent(Pop(s));
    if f.DataLoop? { LoopKeepsChunksCurrent(Pop(s), f.id, f.rest); }
  }

  // ---------------------------------------------------------------- every run

  ghost predicate IsRun(s: State, events: seq<Event>)
    decreases |events|
  {
    events != [] ==> Enabled(s, events[0]) && IsRun(Step(s, events[0]), events[1..])
  }

  ghost function Run(s: State, events: seq<Event>): State
    requires IsRun(s, events)
    decreases |events|
  {
    if events == [] then s else Run(Step(s, events[0]), events[1..])
  }

  lemma {:induction false} RunKeepsInv(s: State, events: seq<Event>)
    requires Inv(s) && IsRun(s, events)
    ensures Inv(Run(s, events))
    decreases |events|
  {
    if events != [] {
      StepKeepsInv(s, events[0]);
      RunKeepsInv(Step(s, events[0]), events[1..]);
    }
  }

  /**
   * In every run, however callbacks re-enter: each attempt settles its handshake at most once, and exactly
   * once when it is over; messages reach onMessage only for the current attempt after its hello; and once
   * no callback is running, every transport ever obtained is the current one, was closed, or closed itself.
   */
  lemma AttemptsInEveryRun(events: seq<Event>)
    requires IsRun(INITIAL, events)
    ensures var s := Run(INITIAL, events);
      && (forall i, j :: 0 <= i < j < |s.settlements| ==> s.settlements[i].id != s.settlements[j].id)
      && (forall id :: 1 <= id <= s.sequence && CurrentId(s.lifecycle) != Some(id) ==> Settled(s.settlements, id))
      && (forall k :: 0 <= k < |s.handed| ==>
            s.handed[k].source == s.handed[k].current && s.handed[k].current in s.hellos)
      && (s.frames == [] ==> forall t :: 0 <= t < |s.transports| ==>
            CurrentTransport(s.lifecycle) == Some(t) || s.transports[t].closed || s.transports[t].selfClosed)
  {
    assert Inv(INITIAL);
    RunKeepsInv(INITIAL, events);
  }

  ghost predicate Disciplined(s: State, events: seq<Event>)
    requires IsRun(s, events)
    decreases |events|
  {
    events != [] ==> ReconnectsOutsideChunks(s, events[0]) && Disciplined(Step(s, events[0]), events[1..])
  }

  lemma {:induction false} DisciplinedRun(s: State, events: seq<Event>)
    requires Inv(s) && ChunksCurrent(s) && IsRun(s, events) && Disciplined(s, events)
    ensures Inv(Run(s, events)) && ChunksCurrent(Run(s, events))
    decreases |events|
  {
    if events != [] {
      StepKeepsInv(s, events[0]);
      DisciplinedStep(s, events[0]);
      DisciplinedRun(Step(s, events[0]), events[1..]);
    }
  }

  /** In a disciplined run no callback of an old attempt ever changes the current one. */
  lemma OldAttemptsAreInert(events: seq<Event>, e: Event)
    requires IsRun(INITIAL, events) && Disciplined(INITIAL, events)
    requires var s := Run(INITIAL, events);
      && Enabled(s, e) && AttemptOf(s, e).Some? && CurrentId(s.lifecycle).Some?
      && AttemptOf(s, e) != CurrentId(s.lifecycle)
    ensures Step(Run(INITIAL, events), e).lifecycle == Run(INITIAL, events).lifecycle
  {
    assert Inv(INITIAL);
    DisciplinedRun(INITIAL, events);
    DisciplinedStep(Run(INITIAL, events), e);
  }

  /** A chunk with a hello and another message, whose first callback disconnects and reconnects. */
  const FIRST_CHUNK := [Connect, Return, FactoryResolves(1), Data(1, Some([Hello, Other(0)]))]
  const RECONNECT := [DisconnectOrFail, Return, Connect, Return, Return]

  ghost const IN_CALLBACK := State(
    Connected(1, 0, true, 0), 1, 1, [DataLoop(1, [Other(0)]), AfterHandshake(1, 0)], {},
    [Transport(1, false, false)], [], {1}, [])

  lemma FirstChunkRun()
    ensures IsRun(INITIAL, FIRST_CHUNK) && Run(INITIAL, FIRST_CHUNK) == IN_CALLBACK
  {
    var s1 := Step(INITIAL, Connect);
    var s2 := Step(s1, Return);
    var s3 := Step(s2, FactoryResolves(1));
    RunCons(s3, Data(1, Some([Hello, Other(0)])), []);
    RunCons(s2, FactoryResolves(1), [Data(1, Some([Hello, Other(0)]))]);
    RunCons(s1, Return, [FactoryResolves(1), Data(1, Some([Hello, Other(0)]))]);
    RunCons(INITIAL, Connect, [Return, FactoryResolves(1), Data(1, Some([Hello, Other(0)]))]);
  }

  lemma ReconnectRun() returns (t: State)
    ensures IsRun(IN_CALLBACK, RECONNECT) && Run(IN_CALLBACK, RECONNECT) == t
    ensures CurrentId(t.lifecycle) == Some(2)
    ensures Enabled(t, Return) && AttemptOf(t, Return) == Some(1) && Step(t, Return).lifecycle == Disconnected
  {
    var s5 := Step(IN_CALLBACK, DisconnectOrFail);
    var s6 := Step(s5, Return);
    t := ConnectRun(s6);
    RunCons(s5, Return, [Connect, Return, Return]);
    RunCons(IN_CALLBACK, DisconnectOrFail, [Return, Connect, Return, Return]);
  }

  lemma ConnectRun(s6: State) returns (t: State)
    requires s6 == State(Disconnected, 1, 1, [DataLoop(1, [Other(0)]), AfterHandshake(1, 0)], {},
                         [Transport(1, true, false)], [Settlement(1, false)], {1}, [])
    ensures IsRun(s6, [Connect, Return, Return]) && Run(s6, [Connect, Return, Return]) == t
    ensures CurrentId(t.lifecycle) == Some(2)
    ensures Enabled(t, Return) && AttemptOf(t, Return) == Some(1) && Step(t, Return).lifecycle == Disconnected
  {
    var s7 := Step(s6, Connect);
    var s8 := Step(s7, Return);
    t := Step(s8, Return);
    RunCons(s8, Return, []);
    RunCons(s7, Return, [Return]);
    RunCons(s6, Connect, [Return, Return]);
  }

  /** Without the discipline it fails: the second message of the old chunk then ends the new attempt. */
  lemma StaleChunkEndsNewAttempt() returns (events: seq<Event>)
    ensures events == FIRST_CHUNK + RECONNECT && IsRun(INITIAL, events)
    ensures var s := Run(INITIAL, events);
      && CurrentId(s.lifecycle) == Some(2)
      && Enabled(s, Return) && AttemptOf(s, Return) == Some(1)
      && Step(s, Return).lifecycle == Disconnected
  {
    FirstChunkRun();
    var t := ReconnectRun();
    events := Join(INITIAL, FIRST_CHUNK, IN_CALLBACK, RECONNECT, t);
  }

  lemma Join(s: State, before: seq<Event>, t: State, after: seq<Event>, u: State) returns (events: seq<Event>)
    requires IsRun(s, before) && Run(s, before) == t && IsRun(t, after) && Run(t, after) == u
    ensures events == before + after && IsRun(s, events) && Run(s, events) == u
  {
    events := before + after;
    RunAppend(s, before, after);
  }

  lemma {:induction false} RunAppend(s: State, before: seq<Event>, after: seq<Event>)
    requires IsRun(s, before) && IsRun(Run(s, before), after)
    ensures IsRun(s, before + after) && Run(s, before + after) == Run(Run(s, before), after)
    decreases |before|
  {
    if before == [] {
      assert before + after == after;
    } else {
      assert (before + after)[1..] == before[1..] + after;
      RunAppend(Step(s, before[0]), before[1..], after);
    }
  }

  lemma RunCons(s: State, e: Event, rest: seq<Event>)
    requires Enabled(s, e) && IsRun(Step(s, e), rest)
    ensures IsRun(s, [e] + rest) && Run(s, [e] + rest) == Run(Step(s, e), rest)
  {
    assert ([e] + rest)[1..] == rest;
  }
}
