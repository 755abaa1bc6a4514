/**
 * packages/protocol/src/framing.ts: the buffers that implement the splitting of module Wire,
 * with the same fields, blocks and loops. Every method is proved against Wire's functions.
 */
module Framing {
  import opened Basics
  import opened Wire

  datatype Phase = PhaseOpen | PhaseEnded | PhaseFailed

  method EncodeFrame(payload: array<byte>) returns (r: Option<array<byte>>)
    ensures r.None? <==> payload.Length > MAX_UINT32
    ensures r.Some? ==> fresh(r.value) && r.value[..] == Frame(payload[..])
  {
    if payload.Length > MAX_UINT32 { return None; }
    var frame := new byte[FRAME_HEADER_LENGTH + payload.Length];
    var length := payload.Length;
    frame[0] := (length / 0x100_0000) as byte;
    frame[1] := (length / 0x1_0000 % 0x100) as byte;
    frame[2] := (length / 0x100 % 0x100) as byte;
    frame[3] := (length % 0x100) as byte;
    CopyInto(frame, FRAME_HEADER_LENGTH, payload, 0, payload.Length);
    assert frame[..] == frame[..4] + frame[4..];
    assert frame[..4] == Header(payload.Length);
    return Some(frame);
  }

  method AssertCompleteFrame(frame: array<byte>, max: nat) returns (r: Result<()>)
    ensures r == CheckCompleteFrame(frame[..], max)
  {
    if frame.Length < FRAME_HEADER_LENGTH { return Err(IncompletePrefix); }
    var length := frame[0] as nat * 0x100_0000 + frame[1] as nat * 0x1_0000 + frame[2] as nat * 0x100 + frame[3] as nat;
    assert frame[..][..4] == frame[..4];
    if length > max { return Err(FrameTooLong); }
    if frame.Length != FRAME_HEADER_LENGTH + length { return Err(NotOneFrame); }
    return Ok(());
  }

  /** `target.set(source.subarray(from, from + n), at)` */
  method CopyInto(target: array<byte>, at: nat, source: array<byte>, from: nat, n: nat)
    requires target != source
    requires at + n <= target.Length && from + n <= source.Length
    modifies target
    ensures target[..at] == old(target[..at])
    ensures target[at..at + n] == source[from..from + n]
    ensures target[at + n..] == old(target[at + n..])
  {
    forall i | 0 <= i < n {
      target[at + i] := source[from + i];
    }
  }

  ghost function Flatten(blocks: seq<array<byte>>): Bytes
    reads set b | b in blocks
  {
    if blocks == [] then [] else Flatten(blocks[..|blocks| - 1]) + blocks[|blocks| - 1][..]
  }

  ghost function Contents(frames: seq<array<byte>>): (c: seq<Bytes>)
    reads set f | f in frames
    ensures |c| == |frames|
  {
    seq(|frames|, i requires 0 <= i < |frames| reads set f | f in frames => frames[i][..])
  }

  class FrameDecoder {
    const header: array<byte>
    var headerLength: nat
    const maxFrameLength: nat
    var payloadBlocks: seq<array<byte>>
    var currentPayloadBlock: array?<byte>
    var currentPayloadBlockLength: nat
    var expectedPayloadLength: Option<nat>
    var payloadLength: nat
    var phase: Phase
    ghost var Repr: set<object>

    /** The blocks hold the first `payloadLength` payload bytes; all blocks but the current one are full. */
    ghost predicate BlocksValid(expected: nat)
      reads this, Repr
    {
      && (forall b :: b in payloadBlocks ==> b in Repr && b != header)
      && (if payloadBlocks == [] then
            currentPayloadBlock == null && payloadLength == 0
          else
            var last := |payloadBlocks| - 1;
            && currentPayloadBlock == payloadBlocks[last]
            && currentPayloadBlock !in payloadBlocks[..last]
            && currentPayloadBlockLength <= currentPayloadBlock.Length
            && |Flatten(payloadBlocks[..last])| + currentPayloadBlockLength == payloadLength
            && |Flatten(payloadBlocks[..last])| + currentPayloadBlock.Length <= expected)
    }

    /** The object invariant except for the bound on the payload, which a full payload reaches. */
    ghost predicate Layout()
      reads this, Repr
    {
      && this in Repr && header in Repr && header.Length == FRAME_HEADER_LENGTH
      && headerLength < FRAME_HEADER_LENGTH
      && (expectedPayloadLength.Some? ==>
            && headerLength == 0
            && 0 < expectedPayloadLength.value <= maxFrameLength
            && HeaderValue(header[..]) == expectedPayloadLength.value
            && payloadLength <= expectedPayloadLength.value
            && BlocksValid(expectedPayloadLength.value))
      && (phase.PhaseFailed? ==> headerLength == 0 && expectedPayloadLength.None?)
      && (phase.PhaseEnded? ==> headerLength == 0 && expectedPayloadLength.None?)
    }

    ghost predicate Valid()
      reads this, Repr
    {
      Layout() && (expectedPayloadLength.Some? ==> payloadLength < expectedPayloadLength.value)
    }

    ghost function Payload(): Bytes
      requires Layout() && expectedPayloadLength.Some?
      reads this, Repr
      ensures |Payload()| == payloadLength
    {
      if payloadBlocks == [] then []
      else Flatten(payloadBlocks[..|payloadBlocks| - 1]) + currentPayloadBlock[..currentPayloadBlockLength]
    }

    /** The bytes received since the last complete frame. */
    ghost function Buffered(): Bytes
      requires Layout()
      reads this, Repr
    {
      if expectedPayloadLength.Some? then header[..] + Payload() else header[..headerLength]
    }

    ghost function State(): DecoderState
      requires Layout()
      reads this, Repr
    {
      match phase
      case PhaseOpen => Open(Buffered())
      case PhaseEnded => Ended
      case PhaseFailed => Failed
    }

    constructor (max: nat)
      ensures Valid() && fresh(Repr)
      ensures State() == Open([]) && maxFrameLength == max
    {
      header := new byte[FRAME_HEADER_LENGTH];
      headerLength := 0;
      maxFrameLength := max;
      payloadBlocks := [];
      currentPayloadBlock := null;
      currentPayloadBlockLength := 0;
      expectedPayloadLength := None;
      payloadLength := 0;
      phase := PhaseOpen;
      new;
      Repr := {this, header};
    }

    method Push(chunk: array<byte>) returns (r: Result<seq<array<byte>>>)
      requires Valid() && chunk !in Repr
      modifies Repr
      ensures Valid() && fresh(Repr - old(Repr))
      ensures var (s, spec) := PushSpec(old(State()), old(chunk[..]), maxFrameLength);
        && State() == s
        && match (r, spec)
           case (Ok(frames), Ok(payloads)) => Contents(frames) == payloads
           case (Err(e), Err(f)) => e == f
           case _ => false
      ensures r.Ok? ==> forall f :: f in r.value ==> f != chunk && f !in Repr && (f in old(Repr) || fresh(f))
    {
      if phase == PhaseEnded { return Err(DecoderEnded); }
      if phase == PhaseFailed { return Err(DecoderFailed); }
      var frames, failed := ReadFrames(chunk);
      r := if failed then Err(FrameTooLong) else Ok(frames);
    }

    /** The loop of `push`. */
    method ReadFrames(chunk: array<byte>) returns (frames: seq<array<byte>>, failed: bool)
      requires Valid() && chunk !in Repr && phase == PhaseOpen
      modifies Repr
      ensures Valid() && fresh(Repr - old(Repr))
      ensures phase == if failed then PhaseFailed else PhaseOpen
      ensures var p := Split(old(Buffered()) + old(chunk[..]), maxFrameLength);
        && p.failed == failed && (!failed ==> p == Parsed(Contents(frames), Buffered(), false))
      ensures !failed ==> forall f :: f in frames ==> f != chunk && f !in Repr && (f in old(Repr) || fresh(f))
    {
      frames := [];
      var chunkOffset := 0;
      ghost var all, found := Buffered() + chunk[..], [];
      while chunkOffset < chunk.Length
        invariant 0 <= chunkOffset <= chunk.Length
        invariant Valid() && phase == PhaseOpen && fresh(Repr - old(Repr)) && chunk !in Repr
        invariant forall f :: f in frames ==> f != chunk && f !in Repr && (f in old(Repr) || fresh(f))
        invariant Contents(frames) == found
        invariant Split(all, maxFrameLength)
               == Split(Buffered() + chunk[chunkOffset..], maxFrameLength).Prepend(found)
      {
        chunkOffset, frames, failed, found := RoundOnto(chunk, chunkOffset, frames, found);
        if failed { return; }
      }
      assert Buffered() + chunk[chunkOffset..] == Buffered();
      BufferedIsIncomplete();
      failed := false;
    }

    /** One round, with its frame put behind those found before. */
    method RoundOnto(chunk: array<byte>, offset: nat, before: seq<array<byte>>, ghost had: seq<Bytes>)
      returns (next: nat, frames: seq<array<byte>>, failed: bool, ghost found: seq<Bytes>)
      requires Valid() && chunk !in Repr && phase == PhaseOpen && offset < chunk.Length
      requires Contents(before) == had && forall f :: f in before ==> f != chunk && f !in Repr
      modifies Repr
      ensures Valid() && fresh(Repr - old(Repr)) && chunk !in Repr
      ensures phase == if failed then PhaseFailed else PhaseOpen
      ensures offset < next <= chunk.Length
      ensures Contents(frames) == found
      ensures forall f :: f in frames ==> f != chunk && f !in Repr && (f in before || f in old(Repr) || fresh(f))
      ensures Split(old(Buffered()) + chunk[offset..], maxFrameLength).Prepend(had)
           == if failed then Parsed([], [], true).Prepend(had)
              else Split(Buffered() + chunk[next..], maxFrameLength).Prepend(found)
    {
      var frame;
      next, frame, failed := Round(chunk, offset);
      ghost var piece := if frame.Some? then [frame.value[..]] else [];
      assert Contents(before) == had;
      Split(Buffered() + chunk[next..], maxFrameLength).PrependTwice(had, piece);
      found := had + piece;
      frames := WithFrame(before, frame);
    }

    /** One round of the loop in `push`: finish the header if it is unfinished, then take payload bytes. */
    method Round(chunk: array<byte>, offset: nat) returns (next: nat, frame: Option<array<byte>>, failed: bool)
      requires Valid() && chunk !in Repr && phase == PhaseOpen && offset < chunk.Length
      modifies Repr
      ensures Valid() && fresh(Repr - old(Repr)) && chunk !in Repr
      ensures phase == if failed then PhaseFailed else PhaseOpen
      ensures offset < next <= chunk.Length
      ensures frame.Some? ==>
        frame.value != chunk && frame.value !in Repr && (frame.value in old(Repr) || fresh(frame.value))
      ensures Split(old(Buffered()) + chunk[offset..], maxFrameLength)
           == if failed then Parsed([], [], true)
              else Split(Buffered() + chunk[next..], maxFrameLength)
                   .Prepend(if frame.Some? then [frame.value[..]] else [])
    {
      if expectedPayloadLength.Some? {
        failed := false;
        next, frame := PayloadRound(chunk, offset);
      } else {
        next, frame, failed := HeaderRound(chunk, offset);
        if expectedPayloadLength.Some? {
          Split(Buffered() + chunk[next..], maxFrameLength).PrependNone();
          next, frame := PayloadRound(chunk, next);
        }
      }
    }

    method PayloadRound(chunk: array<byte>, offset: nat) returns (next: nat, frame: Option<array<byte>>)
      requires Valid() && chunk !in Repr && phase == PhaseOpen && offset <= chunk.Length
      requires expectedPayloadLength.Some?
      modifies Repr
      ensures Valid() && fresh(Repr - old(Repr)) && chunk !in Repr && phase == PhaseOpen
      ensures offset <= next <= chunk.Length && (offset < chunk.Length ==> offset < next)
      ensures frame.Some? ==>
        frame.value != chunk && frame.value !in Repr && (frame.value in old(Repr) || fresh(frame.value))
      ensures Split(old(Buffered()) + chunk[offset..], maxFrameLength)
           == Split(Buffered() + chunk[next..], maxFrameLength)
              .Prepend(if frame.Some? then [frame.value[..]] else [])
    {
      next := ReadPayload(chunk, offset);
      if payloadLength == expectedPayloadLength.value {
        FrameComplete(header[..], Payload(), chunk[next..], maxFrameLength);
        var taken := TakeFrame();
        frame := Some(taken);
        assert Buffered() + chunk[next..] == chunk[next..];
      } else {
        frame := None;
        Split(Buffered() + chunk[next..], maxFrameLength).PrependNone();
      }
    }

    /** An unfinished header or payload holds no complete frame. */
    lemma BufferedIsIncomplete()
      requires Valid()
      ensures Split(Buffered(), maxFrameLength) == Parsed([], Buffered(), false)
    {
      if expectedPayloadLength.Some? {
        assert Buffered()[..FRAME_HEADER_LENGTH] == header[..];
      }
    }

    /** The header part of one round: it ends the chunk, fails, yields an empty frame or starts a payload. */
    method HeaderRound(chunk: array<byte>, offset: nat) returns (next: nat, frame: Option<array<byte>>, failed: bool)
      requires Valid() && chunk !in Repr && phase == PhaseOpen && expectedPayloadLength.None?
      requires offset < chunk.Length
      modifies this, header
      ensures Valid() && Repr == old(Repr) && offset < next <= chunk.Length
      ensures phase == if failed then PhaseFailed else PhaseOpen
      ensures frame.Some? ==> fresh(frame.value) && frame.value !in Repr
      ensures expectedPayloadLength.Some? ==> frame.None? && !failed
      ensures Split(old(Buffered()) + chunk[offset..], maxFrameLength)
           == if failed then Parsed([], [], true)
              else Split(Buffered() + chunk[next..], maxFrameLength)
                   .Prepend(if frame.Some? then [frame.value[..]] else [])
    {
      frame, failed := None, false;
      ghost var input := Buffered() + chunk[offset..];
      next := CopyHeader(chunk, offset);
      if headerLength < FRAME_HEADER_LENGTH {
        assert header[..headerLength] + chunk[next..] == Buffered() + chunk[next..];
        Split(input, maxFrameLength).PrependNone();
        return;
      }
      ghost var unread := chunk[next..];
      assert input[..FRAME_HEADER_LENGTH] == header[..] && input[FRAME_HEADER_LENGTH..] == unread;
      var frameLength := header[0] as nat * 0x100_0000 + header[1] as nat * 0x1_0000
                         + header[2] as nat * 0x100 + header[3] as nat;
      headerLength := 0;
      SplitByHeader(input, frameLength, maxFrameLength);
      if frameLength > maxFrameLength {
        Fail();
        failed := true;
        return;
      }
      if frameLength == 0 {
        var empty := new byte[0];
        frame := Some(empty);
        assert empty[..] == [];
        assert Buffered() + chunk[next..] == unread;
        return;
      }
      StartPayload(frameLength);
      assert Buffered() + chunk[next..] == input;
      Split(input, maxFrameLength).PrependNone();
    }

    method StartPayload(frameLength: nat)
      requires Valid() && phase == PhaseOpen && expectedPayloadLength.None? && headerLength == 0
      requires 0 < frameLength <= maxFrameLength && HeaderValue(header[..]) == frameLength
      modifies this
      ensures Valid() && Repr == old(Repr) && phase == PhaseOpen && expectedPayloadLength == Some(frameLength)
      ensures Buffered() == header[..]
    {
      expectedPayloadLength := Some(frameLength);
      payloadBlocks := [];
      currentPayloadBlock := null;
      currentPayloadBlockLength := 0;
      payloadLength := 0;
    }

    method CopyHeader(chunk: array<byte>, offset: nat) returns (next: nat)
      requires header.Length == FRAME_HEADER_LENGTH && chunk != header && headerLength < FRAME_HEADER_LENGTH
      requires offset < chunk.Length
      modifies this`headerLength, header
      ensures offset < next <= chunk.Length && headerLength <= FRAME_HEADER_LENGTH
      ensures headerLength == FRAME_HEADER_LENGTH || next == chunk.Length
      ensures header[..headerLength] + chunk[next..] == old(header[..headerLength]) + chunk[offset..]
    {
      ghost var before := header[..headerLength];
      var headerBytes := Min(FRAME_HEADER_LENGTH - headerLength, chunk.Length - offset);
      CopyInto(header, headerLength, chunk, offset, headerBytes);
      headerLength := headerLength + headerBytes;
      next := offset + headerBytes;
      assert header[..headerLength] == before + chunk[offset..next];
      assert chunk[offset..] == chunk[offset..next] + chunk[next..];
    }

    /** The payload part of one round. */
    method ReadPayload(chunk: array<byte>, offset: nat) returns (next: nat)
      requires Valid() && chunk !in Repr && phase == PhaseOpen && expectedPayloadLength.Some?
      requires offset <= chunk.Length
      modifies Repr
      ensures Layout() && phase == PhaseOpen && expectedPayloadLength == old(expectedPayloadLength)
      ensures fresh(Repr - old(Repr)) && chunk !in Repr && old(Repr) <= Repr
      ensures offset <= next <= chunk.Length && (offset < chunk.Length ==> offset < next)
      ensures next == chunk.Length || payloadLength == expectedPayloadLength.value
      ensures Buffered() + chunk[next..] == old(Buffered()) + chunk[offset..]
    {
      ghost var h, payload := header[..], Payload();
      next := FillBlocks(chunk, offset);
      Regroup(h, payload, chunk[offset..], Payload(), chunk[next..]);
    }

    /** The block-filling loop of `push`. */
    method FillBlocks(chunk: array<byte>, offset: nat) returns (next: nat)
      requires Layout() && chunk !in Repr && phase == PhaseOpen && expectedPayloadLength.Some?
      requires offset <= chunk.Length
      modifies Repr
      ensures Layout() && phase == PhaseOpen && expectedPayloadLength == old(expectedPayloadLength)
      ensures fresh(Repr - old(Repr)) && chunk !in Repr && old(Repr) <= Repr
      ensures header[..] == old(header[..])
      ensures offset <= next <= chunk.Length
      ensures next == chunk.Length || payloadLength == expectedPayloadLength.value
      ensures next == offset ==> payloadLength == old(payloadLength)
      ensures Payload() + chunk[next..] == old(Payload()) + chunk[offset..]
    {
      next := offset;
      while next < chunk.Length && payloadLength < expectedPayloadLength.value
        invariant offset <= next <= chunk.Length
        invariant Layout() && phase == PhaseOpen && expectedPayloadLength == old(expectedPayloadLength)
        invariant fresh(Repr - old(Repr)) && chunk !in Repr && old(Repr) <= Repr
        invariant header[..] == old(header[..])
        invariant next == offset ==> payloadLength == old(payloadLength)
        invariant Payload() + chunk[next..] == old(Payload()) + chunk[offset..]
      {
        next := FillBlock(chunk, next);
      }
    }

    /** One round of the block-filling loop: open a new block if the current one is full, then copy. */
    method FillBlock(chunk: array<byte>, offset: nat) returns (next: nat)
      requires Layout() && chunk !in Repr && phase == PhaseOpen && expectedPayloadLength.Some?
      requires offset < chunk.Length && payloadLength < expectedPayloadLength.value
      modifies Repr
      ensures Layout() && phase == PhaseOpen && expectedPayloadLength == old(expectedPayloadLength)
      ensures fresh(Repr - old(Repr)) && chunk !in Repr && old(Repr) <= Repr
      ensures header[..] == old(header[..])
      ensures offset < next <= chunk.Length
      ensures Payload() + chunk[next..] == old(Payload()) + chunk[offset..]
    {
      ghost var before := Payload();
      if currentPayloadBlock == null || currentPayloadBlockLength == currentPayloadBlock.Length {
        OpenBlock();
      }
      next := AppendToBlock(chunk, offset);
      assert before + chunk[offset..next] + chunk[next..] == before + chunk[offset..];
    }

    method AppendToBlock(chunk: array<byte>, offset: nat) returns (next: nat)
      requires Layout() && chunk !in Repr && phase == PhaseOpen && expectedPayloadLength.Some?
      requires offset < chunk.Length
      requires payloadBlocks != [] && currentPayloadBlockLength < currentPayloadBlock.Length
      modifies this, currentPayloadBlock
      ensures Layout() && phase == PhaseOpen && expectedPayloadLength == old(expectedPayloadLength)
      ensures Repr == old(Repr) && header[..] == old(header[..])
      ensures offset < next <= chunk.Length
      ensures Payload() == old(Payload()) + chunk[offset..next]
    {
      ghost var prefix := Flatten(payloadBlocks[..|payloadBlocks| - 1]);
      ghost var had := currentPayloadBlock[..currentPayloadBlockLength];
      var payloadBytes := Min(currentPayloadBlock.Length - currentPayloadBlockLength, chunk.Length - offset);
      next := offset + payloadBytes;
      ghost var piece := chunk[offset..next];
      CopyToBlock(chunk, offset, payloadBytes);
      Advance(payloadBytes, prefix, had + piece);
      assert prefix + (had + piece) == (prefix + had) + piece;
    }

    /** Counts bytes that the current block has been given. */
    method Advance(n: nat, ghost full: Bytes, ghost current: Bytes)
      requires Layout() && phase == PhaseOpen && expectedPayloadLength.Some? && payloadBlocks != []
      requires currentPayloadBlockLength + n <= currentPayloadBlock.Length
      requires full == Flatten(payloadBlocks[..|payloadBlocks| - 1])
      requires current == currentPayloadBlock[..currentPayloadBlockLength + n]
      modifies `currentPayloadBlockLength, `payloadLength
      ensures Layout() && Payload() == full + current
    {
      currentPayloadBlockLength := currentPayloadBlockLength + n;
      payloadLength := payloadLength + n;
    }

    /** Copies bytes behind those the current block holds already; no other block changes. */
    method CopyToBlock(chunk: array<byte>, offset: nat, n: nat)
      requires Layout() && chunk !in Repr && phase == PhaseOpen && expectedPayloadLength.Some? && payloadBlocks != []
      requires offset + n <= chunk.Length && currentPayloadBlockLength + n <= currentPayloadBlock.Length
      modifies currentPayloadBlock
      ensures Layout() && header[..] == old(header[..]) && chunk[..] == old(chunk[..])
      ensures Flatten(payloadBlocks[..|payloadBlocks| - 1]) == old(Flatten(payloadBlocks[..|payloadBlocks| - 1]))
      ensures currentPayloadBlock[..currentPayloadBlockLength + n]
           == old(currentPayloadBlock[..currentPayloadBlockLength]) + chunk[offset..offset + n]
    {
      CopyInto(currentPayloadBlock, currentPayloadBlockLength, chunk, offset, n);
    }

    method OpenBlock()
      requires Layout() && phase == PhaseOpen && expectedPayloadLength.Some?
      requires payloadLength < expectedPayloadLength.value
      requires currentPayloadBlock == null || currentPayloadBlockLength == currentPayloadBlock.Length
      modifies this
      ensures Layout() && phase == PhaseOpen && expectedPayloadLength == old(expectedPayloadLength)
      ensures payloadLength == old(payloadLength)
      ensures fresh(Repr - old(Repr)) && old(Repr) <= Repr
      ensures Payload() == old(Payload())
      ensures payloadBlocks != [] && currentPayloadBlockLength < currentPayloadBlock.Length
    {
      ghost var before := Payload();
      ghost var was := payloadBlocks;
      BlocksAreFull();
      var block := new byte[Min(PAYLOAD_BLOCK_SIZE, expectedPayloadLength.value - payloadLength)];
      payloadBlocks, currentPayloadBlock, currentPayloadBlockLength := payloadBlocks + [block], block, 0;
      Repr := Repr + {block};
      assert payloadBlocks[..|payloadBlocks| - 1] == was;
      assert Flatten(was) == before;
      assert block[..0] == [];
      assert before + [] == before;
    }

    /** When the current block is full, the payload so far is all of all blocks. */
    lemma BlocksAreFull()
      requires Layout() && expectedPayloadLength.Some?
      requires currentPayloadBlock == null || currentPayloadBlockLength == currentPayloadBlock.Length
      ensures Flatten(payloadBlocks) == Payload()
    {
      if payloadBlocks != [] {
        assert currentPayloadBlock[..currentPayloadBlockLength] == payloadBlocks[|payloadBlocks| - 1][..];
      }
    }

    /** Hands out the completed payload: its only block, or the blocks copied into one array. */
    method TakeFrame() returns (frame: array<byte>)
      requires Layout() && phase == PhaseOpen && expectedPayloadLength.Some?
      requires payloadLength == expectedPayloadLength.value
      modifies this
      ensures Valid() && phase == PhaseOpen && Buffered() == []
      ensures Repr <= old(Repr) && frame !in Repr && (frame in old(Repr) || fresh(frame))
      ensures frame[..] == old(Payload())
    {
      ghost var payload := Payload();
      assert payloadBlocks != [];
      ghost var last := |payloadBlocks| - 1;
      assert Flatten(payloadBlocks) == payload by {
        assert currentPayloadBlock[..currentPayloadBlockLength] == payloadBlocks[last][..];
      }
      if |payloadBlocks| == 1 {
        frame := payloadBlocks[0];
        assert Flatten([]) + frame[..] == frame[..];
        assert payloadBlocks[..0] == [];
      } else {
        frame := JoinBlocks(payloadBlocks, expectedPayloadLength.value);
      }
      payloadBlocks := [];
      currentPayloadBlock := null;
      currentPayloadBlockLength := 0;
      expectedPayloadLength := None;
      payloadLength := 0;
      Repr := Repr - {frame};
    }

    method Fail()
      requires this in Repr && header in Repr && header.Length == FRAME_HEADER_LENGTH
      modifies this
      ensures Valid() && phase == PhaseFailed && Repr == old(Repr)
      ensures headerLength == 0 && expectedPayloadLength == None && payloadLength == 0
      ensures payloadBlocks == [] && currentPayloadBlock == null && currentPayloadBlockLength == 0
    {
      phase := PhaseFailed;
      headerLength := 0;
      payloadBlocks := [];
      currentPayloadBlock := null;
      currentPayloadBlockLength := 0;
      expectedPayloadLength := None;
      payloadLength := 0;
    }

    method End() returns (r: Result<()>)
      requires Valid()
      modifies this
      ensures Valid() && Repr == old(Repr)
      ensures (State(), r) == EndSpec(old(State()))
    {
      if phase == PhaseEnded { return Err(DecoderEnded); }
      if phase == PhaseFailed { return Err(DecoderFailed); }
      if headerLength != 0 || expectedPayloadLength.Some? {
        Fail();
        return Err(Truncated);
      }
      phase := PhaseEnded;
      return Ok(());
    }
  }

  method JoinBlocks(blocks: seq<array<byte>>, total: nat) returns (payload: array<byte>)
    requires |Flatten(blocks)| == total
    ensures fresh(payload) && payload[..] == Flatten(blocks)
  {
    payload := new byte[total];
    var offset, k := 0, 0;
    ghost var all, done := Flatten(blocks), [];
    while k < |blocks|
      invariant 0 <= k <= |blocks|
      invariant Flatten(blocks) == all && done == Flatten(blocks[..k]) && offset == |done| <= total
      invariant payload[..offset] == done
    {
      FlattenPrefix(blocks, k);
      done := done + blocks[k][..];
      AppendInto(payload, offset, blocks[k]);
      offset := offset + blocks[k].Length;
      k := k + 1;
    }
    assert blocks[..k] == blocks;
    assert payload[..offset] == payload[..];
  }

  function WithFrame(frames: seq<array<byte>>, frame: Option<array<byte>>): (r: seq<array<byte>>)
    reads set f | f in frames, if frame.Some? then {frame.value} else {}
    ensures Contents(r) == Contents(frames) + if frame.Some? then [frame.value[..]] else []
    ensures forall f :: f in r ==> f in frames || frame == Some(f)
  {
    if frame.Some? then frames + [frame.value] else frames
  }

  method AppendInto(payload: array<byte>, offset: nat, block: array<byte>)
    requires payload != block && offset + block.Length <= payload.Length
    modifies payload
    ensures payload[..offset + block.Length] == old(payload[..offset]) + old(block[..])
  {
    CopyInto(payload, offset, block, 0, block.Length);
    assert payload[..offset + block.Length] == payload[..offset] + payload[offset..offset + block.Length];
    assert block[0..block.Length] == block[..];
  }

  lemma {:induction false} FlattenPrefix(blocks: seq<array<byte>>, k: nat)
    requires k < |blocks|
    ensures Flatten(blocks[..k + 1]) == Flatten(blocks[..k]) + blocks[k][..]
    ensures |Flatten(blocks[..k + 1])| <= |Flatten(blocks)|
    decreases |blocks|
  {
    assert blocks[..k + 1][..k] == blocks[..k];
    if k + 1 < |blocks| {
      var front := blocks[..|blocks| - 1];
      FlattenPrefix(front, k);
      assert front[..k + 1] == blocks[..k + 1];
    } else {
      assert blocks[..k + 1] == blocks;
    }
  }

  lemma Regroup(header: Bytes, before: Bytes, unread: Bytes, after: Bytes, left: Bytes)
    requires after + left == before + unread
    ensures (header + after) + left == (header + before) + unread
  {
    assert (header + after) + left == header + (after + left);
  }

  /** A header that is over the limit, or announces nothing. */
  lemma SplitByHeader(bytes: Bytes, length: nat, max: nat)
    requires |bytes| >= FRAME_HEADER_LENGTH && length == HeaderValue(bytes[..FRAME_HEADER_LENGTH])
    ensures length > max ==> Split(bytes, max) == Parsed([], [], true)
    ensures length == 0 ==> Split(bytes, max) == Split(bytes[FRAME_HEADER_LENGTH..], max).Prepend([[]])
  {
    assert bytes[FRAME_HEADER_LENGTH..FRAME_HEADER_LENGTH] == [];
  }

  lemma FrameComplete(header: Bytes, payload: Bytes, rest: Bytes, max: nat)
    requires |header| == FRAME_HEADER_LENGTH && HeaderValue(header) == |payload| <= max
    ensures Split(header + payload + rest, max) == Split(rest, max).Prepend([payload])
  {
    var bytes := header + payload + rest;
    assert bytes[..FRAME_HEADER_LENGTH] == header;
    assert bytes[FRAME_HEADER_LENGTH..FRAME_HEADER_LENGTH + |payload|] == payload;
    assert bytes[FRAME_HEADER_LENGTH + |payload|..] == rest;
  }

  function Min(a: int, b: int): int { if a <= b then a else b }
}
