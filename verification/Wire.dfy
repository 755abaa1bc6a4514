/**
 * The meaning of the length-prefixed byte stream of packages/protocol/src/framing.ts:
 * what one frame looks like, how a byte string splits into frames, and what a decoder
 * that sees the bytes in arbitrary chunks must answer.
 */
module Wire {
  newtype byte = x: int | 0 <= x < 0x100
  type Bytes = seq<byte>

  const FRAME_HEADER_LENGTH: nat := 4
  const MAX_UINT32: nat := 0xffff_ffff
  const PAYLOAD_BLOCK_SIZE: nat := 64 * 1024

  /** The unsigned 32-bit big-endian length prefix. */
  function Header(length: nat): (h: Bytes)
    requires length <= MAX_UINT32
    ensures |h| == FRAME_HEADER_LENGTH
  {
    [(length / 0x100_0000) as byte, (length / 0x1_0000 % 0x100) as byte,
     (length / 0x100 % 0x100) as byte, (length % 0x100) as byte]
  }

  function HeaderValue(h: Bytes): (length: nat)
    requires |h| == FRAME_HEADER_LENGTH
    ensures length <= MAX_UINT32
  {
    h[0] as nat * 0x100_0000 + h[1] as nat * 0x1_0000 + h[2] as nat * 0x100 + h[3] as nat
  }

  function Frame(payload: Bytes): Bytes
    requires |payload| <= MAX_UINT32
  {
    Header(|payload|) + payload
  }

  ghost predicate AllWithin(payloads: seq<Bytes>, max: nat) {
    forall p :: p in payloads ==> |p| <= max
  }

  /** The wire form of a list of payloads, one frame after the other. */
  function FrameAll(payloads: seq<Bytes>): Bytes
    requires AllWithin(payloads, MAX_UINT32)
  {
    if payloads == [] then [] else Frame(payloads[0]) + FrameAll(payloads[1..])
  }

  /** The complete frames at the front of a byte string, and what is left after them. */
  datatype Parsed = Parsed(frames: seq<Bytes>, rest: Bytes, failed: bool) {
    function Prepend(more: seq<Bytes>): Parsed {
      this.(frames := more + frames)
    }

    lemma PrependNone()
      ensures Prepend([]) == this
    {
      assert [] + frames == frames;
    }

    lemma PrependTwice(a: seq<Bytes>, b: seq<Bytes>)
      ensures Prepend(b).Prepend(a) == Prepend(a + b)
    {
      assert a + (b + frames) == (a + b) + frames;
    }
  }

  function Split(bytes: Bytes, max: nat): Parsed
    decreases |bytes|
  {
    if |bytes| < FRAME_HEADER_LENGTH then Parsed([], bytes, false)
    else
      var length := HeaderValue(bytes[..FRAME_HEADER_LENGTH]);
      if length > max then Parsed([], [], true)
      else if |bytes| < FRAME_HEADER_LENGTH + length then Parsed([], bytes, false)
      else
        Split(bytes[FRAME_HEADER_LENGTH + length..], max)
        .Prepend([bytes[FRAME_HEADER_LENGTH..FRAME_HEADER_LENGTH + length]])
  }

  // ---------------------------------------------------------------- header and frame

  lemma HeaderRoundTrip(length: nat)
    requires length <= MAX_UINT32
    ensures HeaderValue(Header(length)) == length
  {
    var a, b, c := length / 0x100_0000, length / 0x1_0000, length / 0x100;
    assert length == 0x100 * c + length % 0x100;
    assert c == 0x100 * (c / 0x100) + c % 0x100;
    assert c / 0x100 == b;
    assert b == 0x100 * (b / 0x100) + b % 0x100;
    assert b / 0x100 == a;
  }

  lemma HeaderUnique(h: Bytes)
    requires |h| == FRAME_HEADER_LENGTH
    ensures Header(HeaderValue(h)) == h
  {
    var n := HeaderValue(h);
    var c := h[0] as nat * 0x1_0000 + h[1] as nat * 0x100 + h[2] as nat;
    assert n == 0x100 * c + h[3] as nat;
    assert n / 0x100 == c && n % 0x100 == h[3] as nat;
    var b := h[0] as nat * 0x100 + h[1] as nat;
    assert c == 0x100 * b + h[2] as nat;
    assert n / 0x1_0000 == c / 0x100 == b;
    assert n / 0x100_0000 == b / 0x100 == h[0] as nat;
    assert c % 0x100 == h[2] as nat && b % 0x100 == h[1] as nat;
  }

  lemma SplitFrame(payload: Bytes, tail: Bytes, max: nat)
    requires |payload| <= max <= MAX_UINT32
    ensures Split(Frame(payload) + tail, max) == Split(tail, max).Prepend([payload])
  {
    HeaderRoundTrip(|payload|);
    var bytes := Frame(payload) + tail;
    assert bytes[..FRAME_HEADER_LENGTH] == Header(|payload|);
    assert bytes[FRAME_HEADER_LENGTH..FRAME_HEADER_LENGTH + |payload|] == payload;
    assert bytes[FRAME_HEADER_LENGTH + |payload|..] == tail;
  }

  /** Encoding then splitting gives the payloads back, with nothing left over. */
  lemma {:induction false} RoundTrip(payloads: seq<Bytes>, max: nat)
    requires max <= MAX_UINT32 && AllWithin(payloads, max)
    ensures Split(FrameAll(payloads), max) == Parsed(payloads, [], false)
  {
    if payloads != [] {
      assert payloads[0] in payloads;
      RoundTrip(payloads[1..], max);
      SplitFrame(payloads[0], FrameAll(payloads[1..]), max);
      assert payloads == [payloads[0]] + payloads[1..];
    }
  }

  /**
   * Splitting loses and invents nothing: unless it fails, the input is exactly the frames found
   * followed by the rest, and the rest holds no complete frame. So `FrameAll` is the only
   * byte string that splits cleanly into given payloads.
   */
  lemma {:induction false} SplitConserves(bytes: Bytes, max: nat)
    requires max <= MAX_UINT32
    ensures var s := Split(bytes, max);
      && AllWithin(s.frames, max)
      && (s.failed ==> s.rest == [])
      && (!s.failed ==> bytes == FrameAll(s.frames) + s.rest && Split(s.rest, max) == Parsed([], s.rest, false))
    decreases |bytes|
  {
    if |bytes| >= FRAME_HEADER_LENGTH {
      var head := bytes[..FRAME_HEADER_LENGTH];
      var length := HeaderValue(head);
      if length <= max && |bytes| >= FRAME_HEADER_LENGTH + length {
        var payload := bytes[FRAME_HEADER_LENGTH..FRAME_HEADER_LENGTH + length];
        var tail := bytes[FRAME_HEADER_LENGTH + length..];
        SplitConserves(tail, max);
        HeaderUnique(head);
        assert bytes == head + payload + tail;
        PrependConserves(payload, tail, Split(tail, max));
      }
    }
  }

  lemma PrependConserves(payload: Bytes, tail: Bytes, t: Parsed)
    requires |payload| <= MAX_UINT32 && AllWithin(t.frames, MAX_UINT32)
    requires !t.failed ==> tail == FrameAll(t.frames) + t.rest
    ensures AllWithin(t.Prepend([payload]).frames, MAX_UINT32)
    ensures !t.failed ==> Frame(payload) + tail == FrameAll(t.Prepend([payload]).frames) + t.rest
  {
    assert ([payload] + t.frames)[1..] == t.frames;
    if !t.failed {
      assert Frame(payload) + (FrameAll(t.frames) + t.rest) == (Frame(payload) + FrameAll(t.frames)) + t.rest;
    }
  }

  /** Splitting may stop anywhere and go on later from the rest. */
  lemma {:induction false} SplitAppend(a: Bytes, b: Bytes, max: nat)
    ensures var s := Split(a, max);
      Split(a + b, max) == if s.failed then s else Split(s.rest + b, max).Prepend(s.frames)
    decreases |a|, 1
  {
    if |a| < FRAME_HEADER_LENGTH {
      Split(a + b, max).PrependNone();
    } else {
      assert (a + b)[..FRAME_HEADER_LENGTH] == a[..FRAME_HEADER_LENGTH];
      var length := HeaderValue(a[..FRAME_HEADER_LENGTH]);
      if length > max {
      } else if |a| < FRAME_HEADER_LENGTH + length {
        Split(a + b, max).PrependNone();
      } else {
        SplitAppendComplete(a, b, length, max);
      }
    }
  }

  lemma {:induction false} SplitAppendComplete(a: Bytes, b: Bytes, length: nat, max: nat)
    requires |a| >= FRAME_HEADER_LENGTH + length && length <= max
    requires length == HeaderValue(a[..FRAME_HEADER_LENGTH])
    ensures var s := Split(a, max);
      Split(a + b, max) == if s.failed then s else Split(s.rest + b, max).Prepend(s.frames)
    decreases |a|, 0
  {
    var cut := FRAME_HEADER_LENGTH + length;
    var tail, payload := a[cut..], a[FRAME_HEADER_LENGTH..cut];
    TakesFirst(a, length, max);
    assert Split(a + b, max) == Split(tail + b, max).Prepend([payload]) by {
      assert (a + b)[..FRAME_HEADER_LENGTH] == a[..FRAME_HEADER_LENGTH];
      assert (a + b)[cut..] == tail + b;
      assert (a + b)[FRAME_HEADER_LENGTH..cut] == payload;
      TakesFirst(a + b, length, max);
    }
    SplitAppend(tail, b, max);
    AfterFirst(Split(a + b, max), Split(a, max), Split(tail, max), payload, b, max);
  }

  lemma TakesFirst(bytes: Bytes, length: nat, max: nat)
    requires |bytes| >= FRAME_HEADER_LENGTH + length && length <= max
    requires length == HeaderValue(bytes[..FRAME_HEADER_LENGTH])
    ensures var cut := FRAME_HEADER_LENGTH + length;
      Split(bytes, max) == Split(bytes[cut..], max).Prepend([bytes[FRAME_HEADER_LENGTH..cut]])
  {
  }

  lemma AfterFirst(whole: Parsed, first: Parsed, tail: Parsed, payload: Bytes, b: Bytes, max: nat)
    requires first == tail.Prepend([payload])
    requires whole == (if tail.failed then tail else Split(tail.rest + b, max).Prepend(tail.frames)).Prepend([payload])
    ensures whole == if first.failed then first else Split(first.rest + b, max).Prepend(first.frames)
  {
    if !tail.failed {
      Split(tail.rest + b, max).PrependTwice([payload], tail.frames);
    }
  }

  // ---------------------------------------------------------------- what a decoder must answer

  /** The abstract value of a decoder: the bytes of the unfinished frame, or a terminal state. */
  datatype DecoderState = Open(buffered: Bytes) | Ended | Failed

  datatype Error = DecoderEnded | DecoderFailed | FrameTooLong | Truncated | IncompletePrefix | NotOneFrame
  datatype Result<+T> = Ok(value: T) | Err(error: Error)

  function PushSpec(s: DecoderState, chunk: Bytes, max: nat): (DecoderState, Result<seq<Bytes>>) {
    match s
    case Ended => (Ended, Err(DecoderEnded))
    case Failed => (Failed, Err(DecoderFailed))
    case Open(buffered) =>
      var p := Split(buffered + chunk, max);
      if p.failed then (Failed, Err(FrameTooLong)) else (Open(p.rest), Ok(p.frames))
  }

  function EndSpec(s: DecoderState): (DecoderState, Result<()>) {
    match s
    case Ended => (Ended, Err(DecoderEnded))
    case Failed => (Failed, Err(DecoderFailed))
    case Open(buffered) => if buffered == [] then (Ended, Ok(())) else (Failed, Err(Truncated))
  }

  function FramesOf(r: Result<seq<Bytes>>): seq<Bytes> {
    match r
    case Ok(frames) => frames
    case Err(_) => []
  }

  /** The state after pushing chunks one by one, and the frames of every push that did not throw. */
  function PushAll(s: DecoderState, chunks: seq<Bytes>, max: nat): (DecoderState, seq<Bytes>)
    decreases |chunks|
  {
    if chunks == [] then (s, [])
    else
      var (t, r) := PushSpec(s, chunks[0], max);
      var (u, more) := PushAll(t, chunks[1..], max);
      (u, FramesOf(r) + more)
  }

  function Concat(chunks: seq<Bytes>): Bytes {
    if chunks == [] then [] else chunks[0] + Concat(chunks[1..])
  }

  lemma {:induction false} TerminalStays(s: DecoderState, chunks: seq<Bytes>, max: nat)
    requires !s.Open?
    ensures PushAll(s, chunks, max) == (s, [])
  {
    if chunks != [] {
      TerminalStays(s, chunks[1..], max);
      var (t, r) := PushSpec(s, chunks[0], max);
      assert FramesOf(r) + PushAll(t, chunks[1..], max).1 == [];
    }
  }

  /**
   * However the bytes are cut into chunks, the decoder ends where one split of their concatenation
   * ends, and it has handed out that split's frames: all of them, or a prefix when it failed.
   */
  lemma {:induction false} ChunksAgreeWithSplit(buffered: Bytes, chunks: seq<Bytes>, max: nat)
    requires Split(buffered, max) == Parsed([], buffered, false)
    ensures var whole := Split(buffered + Concat(chunks), max);
      var (end, frames) := PushAll(Open(buffered), chunks, max);
      && end == (if whole.failed then Failed else Open(whole.rest))
      && (if whole.failed then frames <= whole.frames else frames == whole.frames)
    decreases |chunks|
  {
    if chunks == [] {
      assert buffered + Concat(chunks) == buffered;
    } else {
      var first := Split(buffered + chunks[0], max);
      assert buffered + Concat(chunks) == (buffered + chunks[0]) + Concat(chunks[1..]);
      SplitAppend(buffered + chunks[0], Concat(chunks[1..]), max);
      if first.failed {
        TerminalStays(Failed, chunks[1..], max);
      } else {
        SplitRestIsIncomplete(buffered + chunks[0], max);
        ChunksAgreeWithSplit(first.rest, chunks[1..], max);
      }
    }
  }

  lemma {:induction false} SplitRestIsIncomplete(bytes: Bytes, max: nat)
    ensures var s := Split(bytes, max); !s.failed ==> Split(s.rest, max) == Parsed([], s.rest, false)
    decreases |bytes|
  {
    if |bytes| >= FRAME_HEADER_LENGTH {
      var length := HeaderValue(bytes[..FRAME_HEADER_LENGTH]);
      if length <= max && |bytes| >= FRAME_HEADER_LENGTH + length {
        SplitRestIsIncomplete(bytes[FRAME_HEADER_LENGTH + length..], max);
      }
    }
  }

  /** Two ways of cutting the same bytes leave a fresh decoder in the same state. */
  lemma ChunkIndependence(one: seq<Bytes>, two: seq<Bytes>, max: nat)
    requires Concat(one) == Concat(two)
    ensures var (s, f) := PushAll(Open([]), one, max);
      var (t, g) := PushAll(Open([]), two, max);
      && s == t && EndSpec(s) == EndSpec(t)
      && (s.Failed? ==> f <= g || g <= f)
      && (!s.Failed? ==> f == g)
  {
    ChunksAgreeWithSplit([], one, max);
    ChunksAgreeWithSplit([], two, max);
  }

  /** Any payloads within the limit survive any chunking of their wire form, and the stream ends cleanly. */
  lemma StreamRoundTrip(payloads: seq<Bytes>, chunks: seq<Bytes>, max: nat)
    requires max <= MAX_UINT32 && AllWithin(payloads, max)
    requires Concat(chunks) == FrameAll(payloads)
    ensures PushAll(Open([]), chunks, max) == (Open([]), payloads)
    ensures EndSpec(PushAll(Open([]), chunks, max).0) == (Ended, Ok(()))
  {
    RoundTrip(payloads, max);
    ChunksAgreeWithSplit([], chunks, max);
    assert [] + Concat(chunks) == FrameAll(payloads);
  }

  // ---------------------------------------------------------------- one complete frame

  function CheckCompleteFrame(frame: Bytes, max: nat): Result<()> {
    if |frame| < FRAME_HEADER_LENGTH then Err(IncompletePrefix)
    else
      var length := HeaderValue(frame[..FRAME_HEADER_LENGTH]);
      if length > max then Err(FrameTooLong)
      else if |frame| != FRAME_HEADER_LENGTH + length then Err(NotOneFrame)
      else Ok(())
  }

  /** The one-shot check accepts exactly the wire forms of single payloads within the limit. */
  lemma CompleteFrameIffEncoded(frame: Bytes, max: nat)
    requires max <= MAX_UINT32
    ensures CheckCompleteFrame(frame, max).Ok? <==>
            exists payload: Bytes :: |payload| <= max && frame == Frame(payload)
  {
    if CheckCompleteFrame(frame, max).Ok? {
      HeaderUnique(frame[..FRAME_HEADER_LENGTH]);
      assert frame == Frame(frame[FRAME_HEADER_LENGTH..]);
    }
    forall payload: Bytes | |payload| <= max && frame == Frame(payload)
      ensures CheckCompleteFrame(frame, max).Ok?
    {
      HeaderRoundTrip(|payload|);
      assert frame[..FRAME_HEADER_LENGTH] == Header(|payload|);
    }
  }

  /** It also accepts exactly what a fresh decoder turns into one frame followed by a clean end. */
  lemma CompleteFrameIffDecoded(frame: Bytes, max: nat)
    requires max <= MAX_UINT32
    ensures CheckCompleteFrame(frame, max).Ok? <==>
            var (s, r) := PushSpec(Open([]), frame, max);
            r.Ok? && |r.value| == 1 && EndSpec(s).1.Ok?
  {
    assert [] + frame == frame;
    CompleteFrameIffEncoded(frame, max);
    var p := Split(frame, max);
    if CheckCompleteFrame(frame, max).Ok? {
      var payload: Bytes :| |payload| <= max && frame == Frame(payload);
      assert FrameAll([payload]) == Frame(payload) + FrameAll([]);
      RoundTrip([payload], max);
      assert FrameAll([payload]) == frame;
    }
    if !p.failed && |p.frames| == 1 && p.rest == [] {
      SoleFrame(frame, max);
    }
  }

  lemma SoleFrame(frame: Bytes, max: nat)
    requires max <= MAX_UINT32
    requires var p := Split(frame, max); !p.failed && |p.frames| == 1 && p.rest == []
    ensures var p := Split(frame, max); |p.frames[0]| <= max && frame == Frame(p.frames[0])
  {
    var p := Split(frame, max);
    SplitConserves(frame, max);
    assert p.frames[0] in p.frames;
    assert FrameAll(p.frames) == Frame(p.frames[0]) + FrameAll([]);
  }

  // ---------------------------------------------------------------- refusals

  /**
   * A decoder that has ended or failed refuses everything from then on and stays what it is; an open one fails with
   * the first frame over the limit, and with an end in the middle of a frame, and in no other way.
   */
  lemma RefusesExactly(s: DecoderState, chunk: Bytes, max: nat)
    ensures var (t, r) := PushSpec(s, chunk, max);
      && (s == Ended ==> t == s && r == Err(DecoderEnded)) && (s == Failed ==> t == s && r == Err(DecoderFailed))
      && (s.Open? ==> (t == Failed <==> r == Err(FrameTooLong)) && (r.Ok? <==> t.Open?)
                      && (r.Err? <==> Split(s.buffered + chunk, max).failed))
    ensures var (t, r) := EndSpec(s);
      && (s == Ended ==> t == s && r == Err(DecoderEnded)) && (s == Failed ==> t == s && r == Err(DecoderFailed))
      && (s.Open? ==> (r.Ok? <==> s.buffered == []) && (t == Ended <==> r.Ok?) && (r.Err? <==> r == Err(Truncated))
                      && !t.Open?)
  {
  }

  /** Whatever follows complete frames within the limit, a header over it fails the splitting there. */
  lemma OverLimitFails(payloads: seq<Bytes>, rest: Bytes, max: nat)
    requires max <= MAX_UINT32 && AllWithin(payloads, max)
    requires |rest| >= FRAME_HEADER_LENGTH && HeaderValue(rest[..FRAME_HEADER_LENGTH]) > max
    ensures Split(FrameAll(payloads) + rest, max) == Parsed(payloads, [], true)
  {
    RoundTrip(payloads, max);
    SplitAppend(FrameAll(payloads), rest, max);
    assert [] + rest == rest;
    assert Split(rest, max) == Parsed([], [], true);
    assert payloads + [] == payloads;
  }

  /** And splitting fails in no other way. */
  lemma {:induction false} FailureIsOverLimit(bytes: Bytes, max: nat) returns (rest: Bytes)
    requires max <= MAX_UINT32 && Split(bytes, max).failed
    ensures AllWithin(Split(bytes, max).frames, max) && bytes == FrameAll(Split(bytes, max).frames) + rest
    ensures |rest| >= FRAME_HEADER_LENGTH && HeaderValue(rest[..FRAME_HEADER_LENGTH]) > max
    decreases |bytes|
  {
    SplitConserves(bytes, max);
    var length := HeaderValue(bytes[..FRAME_HEADER_LENGTH]);
    if length > max {
      rest := bytes;
      assert FrameAll([]) + bytes == bytes;
    } else {
      var cut := FRAME_HEADER_LENGTH + length;
      rest := FailureIsOverLimit(bytes[cut..], max);
      TakesFirst(bytes, length, max);
      FirstFrame(bytes, length);
      OneFrameMore(bytes[FRAME_HEADER_LENGTH..cut], Split(bytes[cut..], max).frames, rest);
    }
  }

  lemma FirstFrame(bytes: Bytes, length: nat)
    requires |bytes| >= FRAME_HEADER_LENGTH + length && length == HeaderValue(bytes[..FRAME_HEADER_LENGTH])
    ensures var cut := FRAME_HEADER_LENGTH + length;
      bytes == Frame(bytes[FRAME_HEADER_LENGTH..cut]) + bytes[cut..]
  {
    HeaderUnique(bytes[..FRAME_HEADER_LENGTH]);
  }

  lemma OneFrameMore(payload: Bytes, frames: seq<Bytes>, rest: Bytes)
    requires |payload| <= MAX_UINT32 && AllWithin(frames, MAX_UINT32)
    ensures Frame(payload) + (FrameAll(frames) + rest) == FrameAll([payload] + frames) + rest
  {
    assert ([payload] + frames)[1..] == frames;
  }
}
