/**
 * packages/client/src/connection.ts: what becomes of the messages of each chunk, and when an attempt connects and
 * ends, in terms of the events and the lifecycle.
 */
module ClientMessages {
  import opened Basics
  import opened ClientConnection

  // ---------------------------------------------------------------- the messages a chunk's loop reaches

  datatype Reached = Reached(source: nat, message: Message)

  /** The chunk is taken in: it belongs to the current attempt, which has its transport, and it can be decoded. */
  predicate TakesIn(s: State, id: nat, messages: Option<seq<Message>>) {
    && messages.Some? && CurrentId(s.lifecycle) == Some(id)
    && (s.lifecycle.Connecting? ==> s.lifecycle.obtained.Some?)
  }

  /** The message a step reaches: the first of a chunk taken in, or the next one of a chunk whose callback returns. */
  function ReachedBy(s: State, e: Event): Option<Reached>
    requires Enabled(s, e)
  {
    match e
    case Data(id, messages) =>
      if TakesIn(s, id, messages) && messages.value != [] then Some(Reached(id, messages.value[0])) else None
    case Return =>
      if Top(s).DataLoop? && Top(s).rest != [] && !s.lifecycle.Disconnected?
      then Some(Reached(Top(s).id, Top(s).rest[0])) else None
    case _ => None
  }

  /** What has to be handed on for it: every message but a handshake one that is reached while connected. */
  function DueFor(l: Lifecycle, reached: Option<Reached>): seq<Handed> {
    match reached
    case Some(Reached(source, Other(number))) => if l.Connected? then [Handed(source, l.id, number)] else []
    case _ => []
  }

  lemma StepHandsOnExactly(s: State, e: Event)
    requires Enabled(s, e)
    ensures Step(s, e).handed == s.handed + DueFor(s.lifecycle, ReachedBy(s, e))
  {
    assert s.handed + [] == s.handed;
  }

  /** What the steps of a run have to hand on, in order. */
  ghost function Due(s: State, events: seq<Event>): seq<Handed>
    requires IsRun(s, events)
    decreases |events|
  {
    if events == [] then []
    else DueFor(s.lifecycle, ReachedBy(s, events[0])) + Due(Step(s, events[0]), events[1..])
  }

  lemma {:induction false} RunHandsOnExactly(s: State, events: seq<Event>)
    requires IsRun(s, events)
    ensures Run(s, events).handed == s.handed + Due(s, events)
    decreases |events|
  {
    if events == [] {
      assert s.handed + [] == s.handed;
    } else {
      StepHandsOnExactly(s, events[0]);
      RunHandsOnExactly(Step(s, events[0]), events[1..]);
      assert s.handed + Due(s, events)
          == s.handed + DueFor(s.lifecycle, ReachedBy(s, events[0])) + Due(Step(s, events[0]), events[1..]);
    }
  }

  /**
   * In every run, however callbacks re-enter, onMessage has been called exactly for the messages other than
   * handshake ones that a chunk's loop reached while connected, once each and in that order.
   */
  lemma HandedExactly(events: seq<Event>)
    requires IsRun(INITIAL, events)
    ensures Run(INITIAL, events).handed == Due(INITIAL, events)
  {
    RunHandsOnExactly(INITIAL, events);
  }

  // ---------------------------------------------------------------- every chunk is read in order

  datatype Unread = Unread(id: nat, rest: seq<Message>)

  /** The chunks whose loops are suspended, the outermost first, with what each has still to read. */
  function UnreadIn(frames: seq<Frame>): seq<Unread> {
    if frames == [] then []
    else
      var f := frames[|frames| - 1];
      UnreadIn(frames[..|frames| - 1]) + if f.DataLoop? then [Unread(f.id, f.rest)] else []
  }

  lemma UnreadSnoc(frames: seq<Frame>, f: Frame)
    ensures UnreadIn(frames + [f]) == UnreadIn(frames) + if f.DataLoop? then [Unread(f.id, f.rest)] else []
  {
    assert (frames + [f])[..|frames|] == frames;
  }

  /** What a step makes of the suspended chunks. */
  function UnreadAfter(s: State, e: Event): seq<Unread>
    requires Enabled(s, e)
  {
    var unread := UnreadIn(s.frames);
    match e
    case Data(id, messages) =>
      if TakesIn(s, id, messages) && messages.value != [] then unread + [Unread(id, messages.value[1..])] else unread
    case Return =>
      var f := Top(s);
      if !f.DataLoop? then unread
      else if ReachedBy(s, e).Some? then UnreadIn(Pop(s).frames) + [Unread(f.id, f.rest[1..])]
      else UnreadIn(Pop(s).frames)
    case _ => unread
  }

  /** A chunk's loop reads on by one message at a time, and is given up only when it is over or disconnected. */
  lemma ChunksAreReadInOrder(s: State, e: Event)
    requires Enabled(s, e)
    ensures UnreadIn(Step(s, e).frames) == UnreadAfter(s, e)
  {
    match e {
      case Data(id, messages) =>
        if TakesIn(s, id, messages) { LoopReads(s, id, messages.value); } else { OthersReadNothing(s, e); }
      case Return => ReturnReads(s);
      case HandshakeThrows => ThrowReadsNothing(s);
      case _ => OthersReadNothing(s, e);
    }
  }

  lemma TopUnread(s: State)
    requires s.frames != []
    ensures UnreadIn(s.frames) ==
      UnreadIn(Pop(s).frames) + if Top(s).DataLoop? then [Unread(Top(s).id, Top(s).rest)] else []
  {
  }

  lemma ReturnReads(s: State)
    requires s.frames != []
    ensures UnreadIn(Step(s, Return).frames) == UnreadAfter(s, Return)
  {
    var p, f := Pop(s), Top(s);
    TopUnread(s);
    if f.DataLoop? {
      LoopReads(p, f.id, f.rest);
    } else {
      ResumePushesNoChunk(p, f);
      PushesNoChunk(p, Resume(p, f));
    }
  }

  lemma ResumePushesNoChunk(p: State, f: Frame)
    requires !f.DataLoop?
    ensures PushedNoChunk(p.frames, Resume(p, f).frames)
  {
  }

  lemma ThrowReadsNothing(s: State)
    requires Enabled(s, HandshakeThrows)
    ensures UnreadIn(Step(s, HandshakeThrows).frames) == UnreadIn(s.frames)
  {
    TopUnread(s);
    assert UnreadIn(Pop(s).frames) + [] == UnreadIn(Pop(s).frames);
    assert PushedNoChunk(Pop(s).frames, Step(s, HandshakeThrows).frames);
    PushesNoChunk(Pop(s), Step(s, HandshakeThrows));
  }

  lemma OthersReadNothing(s: State, e: Event)
    requires Enabled(s, e) && e != Return && e != HandshakeThrows
    requires e.Data? ==> !TakesIn(s, e.id, e.messages)
    ensures UnreadIn(Step(s, e).frames) == UnreadIn(s.frames)
  {
    assert PushedNoChunk(s.frames, Step(s, e).frames);
    PushesNoChunk(s, Step(s, e));
  }

  predicate PushedNoChunk(before: seq<Frame>, after: seq<Frame>) {
    after == before
    || (|after| == |before| + 1 && after[..|before|] == before && !after[|before|].DataLoop?)
  }

  lemma PushesNoChunk(s: State, t: State)
    requires PushedNoChunk(s.frames, t.frames)
    ensures UnreadIn(t.frames) == UnreadIn(s.frames)
  {
    if t.frames != s.frames { assert UnreadIn(s.frames) + [] == UnreadIn(s.frames); }
  }

  lemma LoopReads(s: State, id: nat, messages: seq<Message>)
    ensures UnreadIn(Loop(s, id, messages).frames) ==
      if messages == [] || s.lifecycle.Disconnected? then UnreadIn(s.frames)
      else UnreadIn(s.frames) + [Unread(id, messages[1..])]
  {
    if messages != [] && !s.lifecycle.Disconnected? {
      var pushed := Push(s, DataLoop(id, messages[1..]));
      UnreadSnoc(s.frames, DataLoop(id, messages[1..]));
      assert PushedNoChunk(pushed.frames, Handled(pushed, id, messages[0]).frames);
      PushesNoChunk(pushed, Handled(pushed, id, messages[0]));
    }
  }

  /** What the loop of the chunk at this depth of the stack reaches, as long as it is there. */
  ghost function ReadAt(s: State, events: seq<Event>, depth: nat): seq<Message>
    requires IsRun(s, events)
    decreases |events|
  {
    if events == [] then [] else ReadNow(s, events[0], depth) + ReadAt(Step(s, events[0]), events[1..], depth)
  }

  /** The chunk stays on the stack throughout. */
  ghost predicate StaysOn(s: State, events: seq<Event>, depth: nat)
    requires IsRun(s, events)
    decreases |events|
  {
    |UnreadIn(s.frames)| > depth && (events != [] ==> StaysOn(Step(s, events[0]), events[1..], depth))
  }

  /**
   * As long as a chunk is not given up, what its loop has reached and what it has still to read are, in order, what
   * it had to read.
   */
  lemma {:induction false} ChunkConserved(s: State, events: seq<Event>, depth: nat)
    requires IsRun(s, events) && StaysOn(s, events, depth)
    ensures depth < |UnreadIn(s.frames)| && depth < |UnreadIn(Run(s, events).frames)|
    ensures UnreadIn(Run(s, events).frames)[depth].id == UnreadIn(s.frames)[depth].id
    ensures UnreadIn(s.frames)[depth].rest == ReadAt(s, events, depth) + UnreadIn(Run(s, events).frames)[depth].rest
    decreases |events|
  {
    if events != [] {
      var e, t := events[0], Step(s, events[0]);
      ChunkConserved(t, events[1..], depth);
      ChunkStep(s, e, depth);
      Regrouped(ReadNow(s, e, depth), ReadAt(t, events[1..], depth), UnreadIn(Run(t, events[1..]).frames)[depth].rest);
    }
  }

  lemma Regrouped(a: seq<Message>, b: seq<Message>, c: seq<Message>)
    ensures a + (b + c) == (a + b) + c
  {
  }

  /** The message that a step's loop reaches of the chunk at this depth. */
  function ReadNow(s: State, e: Event, depth: nat): seq<Message>
    requires Enabled(s, e)
  {
    if e == Return && ReachedBy(s, e).Some? && |UnreadIn(s.frames)| == depth + 1
    then [ReachedBy(s, e).value.message] else []
  }

  lemma ChunkStep(s: State, e: Event, depth: nat)
    requires Enabled(s, e) && depth < |UnreadIn(s.frames)| && depth < |UnreadIn(Step(s, e).frames)|
    ensures UnreadIn(Step(s, e).frames)[depth].id == UnreadIn(s.frames)[depth].id
    ensures UnreadIn(s.frames)[depth].rest == ReadNow(s, e, depth) + UnreadIn(Step(s, e).frames)[depth].rest
  {
    ChunksAreReadInOrder(s, e);
    if e == Return { TopUnread(s); }
  }

  // ---------------------------------------------------------------- when an attempt connects and ends

  /** The message breaks the protocol: anything but a hello before the hello, and any handshake message after it. */
  predicate Offends(l: Lifecycle, reached: Option<Reached>) {
    && reached.Some?
    && (l.Connecting? ==> reached.value.message != Hello || l.obtained.None?)
    && (l.Connected? ==> !reached.value.message.Other?)
  }

  /** What ends the current attempt. */
  predicate Ends(s: State, e: Event)
    requires Enabled(s, e)
  {
    match e
    case DisconnectOrFail => true
    case HandshakeThrows => IsRecord(s.lifecycle, Top(s).ref)
    case Data(id, messages) =>
      CurrentId(s.lifecycle) == Some(id) && (!TakesIn(s, id, messages) || Offends(s.lifecycle, ReachedBy(s, e)))
    case Return => Offends(s.lifecycle, ReachedBy(s, e))
    case Closed(id) => CurrentId(s.lifecycle) == Some(id)
    case Errored(id) => CurrentId(s.lifecycle) == Some(id)
    case FactoryRejects(id) => CurrentId(s.lifecycle) == Some(id)
    case HelloSendRejects(id) => CurrentId(s.lifecycle) == Some(id)
    case SendRejects(transport) => CurrentTransport(s.lifecycle) == Some(transport)
    case _ => false
  }

  predicate Begins(l: Lifecycle, e: Event) { l.Disconnected? && e == Connect }

  /** An attempt ends exactly so; its handshake is then rejected if it is pending, and nothing else is settled. */
  lemma EndsExactly(s: State, e: Event)
    requires Enabled(s, e) && !s.lifecycle.Disconnected?
    ensures Step(s, e).lifecycle.Disconnected? <==> Ends(s, e)
    ensures Ends(s, e) ==>
      Step(s, e).settlements ==
        s.settlements + (if Pending(s.lifecycle) then [Settlement(s.lifecycle.id, false)] else [])
    ensures Ends(s, e) && !e.FactoryRejects? && CurrentTransport(s.lifecycle).Some? && !e.Closed? ==>
      WillClose(Step(s, e).frames, CurrentTransport(s.lifecycle).value)
  {
    assert s.settlements + [] == s.settlements;
    if Ends(s, e) {
      var t := Step(s, e);
      assert t.frames != [] && t.frames[|t.frames| - 1].CloseTransport?;
    }
  }

  /** A new attempt begins exactly when one is asked for while disconnected, under the next number. */
  lemma BeginsExactly(s: State, e: Event)
    requires Enabled(s, e)
    ensures Step(s, e).sequence == s.sequence + if Begins(s.lifecycle, e) then 1 else 0
    ensures s.lifecycle.Disconnected? ==>
      Step(s, e).lifecycle == if e == Connect then Connecting(s.sequence + 1, None) else Disconnected
  {
  }

  /** An attempt connects exactly when its hello is reached and it has its transport, which it keeps. */
  lemma ConnectsExactly(s: State, e: Event)
    requires Enabled(s, e) && s.lifecycle.Connecting?
    ensures Step(s, e).lifecycle.Connected? <==>
      ReachedBy(s, e).Some? && ReachedBy(s, e).value.message == Hello && s.lifecycle.obtained.Some?
    ensures Step(s, e).lifecycle.Connected? ==>
      && Step(s, e).lifecycle.id == s.lifecycle.id && Step(s, e).lifecycle.handshaking
      && s.lifecycle.obtained == Some(Step(s, e).lifecycle.transport)
    ensures Step(s, e).lifecycle.Connecting? ==>
      && Step(s, e).lifecycle.id == s.lifecycle.id
      && Step(s, e).lifecycle.obtained ==
           if e == FactoryResolves(s.lifecycle.id) then Some(|s.transports|) else s.lifecycle.obtained
  {
  }

  /**
   * When the hello is the first message of a chunk and the two callbacks it leads to return, the handshake is
   * resolved, and the connection goes on to the chunk's other messages.
   */
  lemma HandshakeSucceeds(s: State, rest: seq<Message>)
    requires s.lifecycle.Connecting? && s.lifecycle.obtained.Some?
    ensures var events := [Data(s.lifecycle.id, Some([Hello] + rest)), Return, Return];
      && IsRun(s, events)
      && var t := Run(s, events);
      && t.lifecycle.Connected? && !t.lifecycle.handshaking && t.lifecycle.id == s.lifecycle.id
      && t.settlements == s.settlements + [Settlement(s.lifecycle.id, true)]
      && t.frames == s.frames + [DataLoop(s.lifecycle.id, rest)] && t.handed == s.handed
  {
    var id, chunk := s.lifecycle.id, [Hello] + rest;
    assert chunk[0] == Hello && chunk[1..] == rest;
    var s1 := Step(s, Data(id, Some(chunk)));
    assert s1.frames == s.frames + [DataLoop(id, rest)] + [AfterHandshake(id, s.refs)];
    TwoReturns(s1, s.frames + [DataLoop(id, rest)], id, s.refs);
    RunCons(s, Data(id, Some(chunk)), [Return, Return]);
    assert [Data(id, Some(chunk))] + [Return, Return] == [Data(id, Some(chunk)), Return, Return];
  }

  lemma TwoReturns(s: State, frames: seq<Frame>, id: nat, ref: nat)
    requires s.frames == frames + [AfterHandshake(id, ref)] && IsRecord(s.lifecycle, ref) && s.lifecycle.id == id
    ensures IsRun(s, [Return, Return])
    ensures var t := Run(s, [Return, Return]);
      && t.lifecycle.Connected? && !t.lifecycle.handshaking && t.lifecycle.id == s.lifecycle.id
      && t.settlements == s.settlements + [Settlement(s.lifecycle.id, true)]
      && t.frames == frames && t.handed == s.handed
  {
    var s1 := Step(s, Return);
    assert Pop(s).frames == frames;
    assert s1 == Push(Pop(s), AfterConnected(id, ref));
    var s2 := Step(s1, Return);
    assert Pop(s1).frames == frames;
    RunCons(s1, Return, []);
    RunCons(s, Return, [Return]);
    assert [Return] + [Return] == [Return, Return] && [Return] + [] == [Return];
  }

  /** A handshake is resolved only by the return of the second callback, when nothing has intervened. */
  lemma ResolvesExactly(s: State, e: Event)
    requires Enabled(s, e)
    ensures Step(s, e).settlements == s.settlements
      || (!s.lifecycle.Disconnected? && Step(s, e).settlements == s.settlements + [Settlement(s.lifecycle.id, false)])
      || (e == Return && s.lifecycle.Connected? && Top(s) == AfterConnected(Top(s).id, s.lifecycle.ref)
          && Step(s, e).settlements == s.settlements + [Settlement(Top(s).id, true)])
  {
  }
}
