/**
 * packages/protocol/src/codec.ts: the validated message decoder over the frame decoder.
 * CBOR and schema checking are one partial function `parse` from payloads to messages.
 */
module Codec {
  import opened Basics
  import opened Wire
  import opened Framing

  /** The wire decoder's state, or the latch that an earlier error has set. */
  datatype CodecState = Live(frames: DecoderState) | Dead

  datatype CodecError = Latched | BadFraming(error: Error) | BadMessage
  datatype CodecResult<+T> = Messages(messages: seq<T>) | Rejected(reason: CodecError)

  function ParseAll<T>(frames: seq<Bytes>, parse: Bytes -> Option<T>): (r: Option<seq<T>>)
    ensures r.Some? ==> |r.value| == |frames|
  {
    if frames == [] then Some([])
    else
      match (parse(frames[0]), ParseAll(frames[1..], parse))
      case (Some(m), Some(more)) => Some([m] + more)
      case _ => None
  }

  /** The messages before the first payload that does not parse. */
  function GoodPrefix<T>(frames: seq<Bytes>, parse: Bytes -> Option<T>): seq<T> {
    if frames == [] then []
    else
      match parse(frames[0])
      case Some(m) => [m] + GoodPrefix(frames[1..], parse)
      case None => []
  }

  function PushMessages<T>(s: CodecState, chunk: Bytes, max: nat, parse: Bytes -> Option<T>)
    : (CodecState, CodecResult<T>)
  {
    match s
    case Dead => (Dead, Rejected(Latched))
    case Live(d) =>
      var (t, r) := PushSpec(d, chunk, max);
      match r
      case Err(e) => (Dead, Rejected(BadFraming(e)))
      case Ok(frames) =>
        match ParseAll(frames, parse)
        case Some(ms) => (Live(t), Messages(ms))
        case None => (Dead, Rejected(BadMessage))
  }

  function EndMessages(s: CodecState): (CodecState, Option<CodecError>) {
    match s
    case Dead => (Dead, Some(Latched))
    case Live(d) =>
      var (t, r) := EndSpec(d);
      match r
      case Ok(_) => (Live(t), None)
      case Err(e) => (Dead, Some(BadFraming(e)))
  }

  function Delivered<T>(r: CodecResult<T>): seq<T> {
    match r
    case Messages(ms) => ms
    case Rejected(_) => []
  }

  function RunMessages<T>(s: CodecState, chunks: seq<Bytes>, max: nat, parse: Bytes -> Option<T>)
    : (CodecState, seq<T>)
    decreases |chunks|
  {
    if chunks == [] then (s, [])
    else
      var (t, r) := PushMessages(s, chunks[0], max, parse);
      var (u, more) := RunMessages(t, chunks[1..], max, parse);
      (u, Delivered(r) + more)
  }

  class MessageDecoder<T> {
    var failed: bool
    const frames: FrameDecoder
    const parse: Bytes -> Option<T>

    ghost predicate Valid()
      reads this, frames, frames.Repr
    {
      this !in frames.Repr && frames.Valid()
    }

    ghost function State(): CodecState
      requires Valid()
      reads this, frames, frames.Repr
    {
      if failed then Dead else Live(frames.State())
    }

    constructor (max: nat, parse: Bytes -> Option<T>)
      ensures Valid() && fresh(this) && fresh(frames) && fresh(frames.Repr)
      ensures State() == Live(Open([])) && frames.maxFrameLength == max && this.parse == parse
    {
      failed := false;
      frames := new FrameDecoder(max);
      this.parse := parse;
    }

    method Push(chunk: array<byte>) returns (r: CodecResult<T>)
      requires Valid() && chunk !in frames.Repr
      modifies this, frames.Repr
      ensures Valid() && fresh(frames.Repr - old(frames.Repr))
      ensures (State(), r) == PushMessages(old(State()), old(chunk[..]), frames.maxFrameLength, parse)
    {
      if failed { return Rejected(Latched); }
      var pushed := frames.Push(chunk);
      if pushed.Err? {
        failed := true;
        return Rejected(BadFraming(pushed.error));
      }
      var messages := ParseFrames(pushed.value, parse);
      if messages.None? {
        failed := true;
        return Rejected(BadMessage);
      }
      return Messages(messages.value);
    }

    method End() returns (r: Option<CodecError>)
      requires Valid()
      modifies this, frames
      ensures Valid() && frames.Repr == old(frames.Repr)
      ensures (State(), r) == EndMessages(old(State()))
    {
      if failed { return Some(Latched); }
      var ended := frames.End();
      if ended.Err? {
        failed := true;
        return Some(BadFraming(ended.error));
      }
      return None;
    }
  }

  lemma ParseOne<T>(payload: Bytes, parse: Bytes -> Option<T>)
    ensures parse(payload).Some? ==> ParseAll([payload], parse) == Some([parse(payload).value])
  {
    assert [payload][1..] == [];
    var none: seq<T> := [];
    assert ParseAll([payload][1..], parse) == Some(none);
    if parse(payload).Some? {
      assert [parse(payload).value] + none == [parse(payload).value];
    }
  }

  lemma ParseNext<T>(payloads: seq<Bytes>, i: nat, parse: Bytes -> Option<T>)
    requires i < |payloads| && ParseAll(payloads[..i], parse).Some?
    ensures match parse(payloads[i])
      case None => ParseAll(payloads, parse) == None
      case Some(m) => ParseAll(payloads[..i + 1], parse) == Some(ParseAll(payloads[..i], parse).value + [m])
  {
    ParseAllAppend(payloads[..i], payloads[i..], parse);
    assert payloads == payloads[..i] + payloads[i..];
    ParseAllAppend(payloads[..i], [payloads[i]], parse);
    assert payloads[..i + 1] == payloads[..i] + [payloads[i]];
    ParseOne(payloads[i], parse);
  }

  /** The loop of `push` over the frames of one chunk; it stops at the first payload that does not parse. */
  method ParseFrames<T>(frames: seq<array<byte>>, parse: Bytes -> Option<T>) returns (r: Option<seq<T>>)
    ensures r == ParseAll(Contents(frames), parse)
  {
    var messages: seq<T> := [];
    ghost var payloads := Contents(frames);
    for i := 0 to |frames|
      invariant ParseAll(payloads[..i], parse) == Some(messages)
    {
      ParseNext(payloads, i, parse);
      match parse(frames[i][..]) {
        case None => return None;
        case Some(m) => messages := messages + [m];
      }
    }
    assert payloads[..|frames|] == payloads;
    return Some(messages);
  }

  // ---------------------------------------------------------------- any chunking

  lemma {:induction false} ParseAllAppend<T>(a: seq<Bytes>, b: seq<Bytes>, parse: Bytes -> Option<T>)
    ensures ParseAll(a + b, parse) == match (ParseAll(a, parse), ParseAll(b, parse))
                                      case (Some(x), Some(y)) => Some(x + y)
                                      case _ => None
    ensures ParseAll(a, parse).Some? ==> GoodPrefix(a + b, parse) == ParseAll(a, parse).value + GoodPrefix(b, parse)
    ensures ParseAll(a, parse).None? ==> GoodPrefix(a + b, parse) == GoodPrefix(a, parse)
    decreases |a|
  {
    if a == [] {
      assert a + b == b;
      if ParseAll(b, parse).Some? { assert [] + ParseAll(b, parse).value == ParseAll(b, parse).value; }
      assert [] + GoodPrefix(b, parse) == GoodPrefix(b, parse);
    } else {
      assert (a + b)[1..] == a[1..] + b;
      ParseAllAppend(a[1..], b, parse);
      match (parse(a[0]), ParseAll(a[1..], parse)) {
        case (Some(m), Some(x)) =>
          assert [m] + (x + GoodPrefix(b, parse)) == ([m] + x) + GoodPrefix(b, parse);
          if ParseAll(b, parse).Some? {
            assert [m] + (x + ParseAll(b, parse).value) == ([m] + x) + ParseAll(b, parse).value;
          }
        case _ =>
      }
    }
  }

  lemma {:induction false} DeadStays<T>(chunks: seq<Bytes>, max: nat, parse: Bytes -> Option<T>)
    ensures RunMessages(Dead, chunks, max, parse) == (Dead, [])
    decreases |chunks|
  {
    if chunks != [] {
      DeadStays(chunks[1..], max, parse);
      var (t, r) := PushMessages(Dead, chunks[0], max, parse);
      assert Delivered(r) + RunMessages(t, chunks[1..], max, parse).1 == [];
    }
  }

  /**
   * However the bytes are chunked, the decoder ends dead exactly when the whole byte string contains a
   * bad frame or a frame that does not parse; otherwise it has delivered every message. The messages it
   * delivered are always a prefix of those before the first bad frame.
   */
  lemma {:induction false} MessagesAgreeWithSplit<T>(
      buffered: Bytes, chunks: seq<Bytes>, max: nat, parse: Bytes -> Option<T>)
    requires Split(buffered, max) == Parsed([], buffered, false)
    ensures var whole := Split(buffered + Concat(chunks), max);
      var all := ParseAll(whole.frames, parse);
      var (end, delivered) := RunMessages(Live(Open(buffered)), chunks, max, parse);
      && end == (if whole.failed || all.None? then Dead else Live(Open(whole.rest)))
      && delivered <= GoodPrefix(whole.frames, parse)
      && (end.Live? ==> delivered == all.value)
    decreases |chunks|
  {
    if chunks == [] {
      assert buffered + Concat(chunks) == buffered;
    } else {
      var input := buffered + chunks[0];
      var first := Split(input, max);
      var later := Concat(chunks[1..]);
      assert buffered + Concat(chunks) == input + later;
      SplitAppend(input, later, max);
      var whole := Split(input + later, max);
      if first.failed {
        DeadStays(chunks[1..], max, parse);
      } else {
        var tail := Split(first.rest + later, max);
        ParseAllAppend(first.frames, tail.frames, parse);
        if ParseAll(first.frames, parse).None? {
          DeadStays(chunks[1..], max, parse);
        } else {
          SplitRestIsIncomplete(input, max);
          MessagesAgreeWithSplit(first.rest, chunks[1..], max, parse);
        }
      }
    }
  }

  /** The final state is a function of the bytes alone; so are the messages, unless the stream was bad. */
  lemma MessageChunkIndependence<T>(one: seq<Bytes>, two: seq<Bytes>, max: nat, parse: Bytes -> Option<T>)
    requires Concat(one) == Concat(two)
    ensures var (s, f) := RunMessages(Live(Open([])), one, max, parse);
      var (t, g) := RunMessages(Live(Open([])), two, max, parse);
      s == t && (s.Live? ==> f == g)
  {
    MessagesAgreeWithSplit([], one, max, parse);
    MessagesAgreeWithSplit([], two, max, parse);
  }

  function EncodeAll<T>(ms: seq<T>, encode: T -> Bytes): (ps: seq<Bytes>)
    ensures |ps| == |ms|
  {
    if ms == [] then [] else [encode(ms[0])] + EncodeAll(ms[1..], encode)
  }

  lemma {:induction false} ParseEncoded<T(!new)>(ms: seq<T>, max: nat, encode: T -> Bytes, parse: Bytes -> Option<T>)
    requires forall m: T :: parse(encode(m)) == Some(m)
    requires forall m :: m in ms ==> |encode(m)| <= max
    ensures ParseAll(EncodeAll(ms, encode), parse) == Some(ms)
    ensures AllWithin(EncodeAll(ms, encode), max)
  {
    if ms != [] {
      ParseEncoded(ms[1..], max, encode, parse);
      assert ms == [ms[0]] + ms[1..];
      assert EncodeAll(ms, encode)[1..] == EncodeAll(ms[1..], encode);
    }
  }

  /** Messages survive encoding, any fragmentation or coalescing, and decoding. */
  lemma MessageRoundTrip<T(!new)>(
      ms: seq<T>, chunks: seq<Bytes>, max: nat, encode: T -> Bytes, parse: Bytes -> Option<T>)
    requires max <= MAX_UINT32
    requires forall m: T :: parse(encode(m)) == Some(m)
    requires forall m :: m in ms ==> |encode(m)| <= max
    requires AllWithin(EncodeAll(ms, encode), MAX_UINT32) && Concat(chunks) == FrameAll(EncodeAll(ms, encode))
    ensures RunMessages(Live(Open([])), chunks, max, parse) == (Live(Open([])), ms)
    ensures EndMessages(RunMessages(Live(Open([])), chunks, max, parse).0).1 == None
  {
    ParseEncoded(ms, max, encode, parse);
    RoundTrip(EncodeAll(ms, encode), max);
    MessagesAgreeWithSplit([], chunks, max, parse);
    assert [] + Concat(chunks) == FrameAll(EncodeAll(ms, encode));
  }
}
