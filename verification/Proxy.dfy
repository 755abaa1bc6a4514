/**
 * packages/agent/src/proxy.ts: cutting the decoded response into lines and rebuilding the partial
 * assistant message from delta events that carry no partial of their own.
 */
module Proxy {
  import opened Basics

  type Arguments = int           // a parsed tool-call argument object
  const NO_ARGUMENTS: Arguments := 0  // `{}`

  datatype StopReason = Pending | Stop | Length | ToolUse | Deferred | Aborted | Failed

  datatype Block =
    | Text(text: string, textSignature: Option<string>)
    | Thinking(thinking: string, thinkingSignature: Option<string>)
    | ToolCall(id: string, name: string, arguments: Arguments, partialJson: Option<string>)

  datatype ProxyEvent =
    | Start
    | TextStart(index: nat)
    | TextDelta(index: nat, delta: string)
    | TextEnd(index: nat, signature: Option<string>)
    | ThinkingStart(index: nat)
    | ThinkingDelta(index: nat, delta: string)
    | ThinkingEnd(index: nat, signature: Option<string>)
    | ToolCallStart(index: nat, id: string, name: string)
    | ToolCallDelta(index: nat, delta: string)
    | ToolCallEnd(index: nat, id: string, name: string, arguments: Arguments)
    | Done(reason: StopReason)
    | Error(reason: StopReason)

  /** An event pushed to the consumer; `content` is the block text that the end events carry. */
  datatype Pushed = Pushed(event: ProxyEvent, content: string)

  /** `partial.content` is a JavaScript array that may have holes, hence a map. */
  datatype Partial = Partial(content: map<nat, Block>, stopReason: StopReason)

  const EMPTY := Partial(map[], Pending)

  datatype Outcome = Accept(partial: Partial, pushed: Option<Pushed>) | Throw

  /** The best-effort JSON parser of tool-call arguments: None stands for a falsy result. */
  type ArgumentParser = string -> Option<Arguments>

  function ProcessEvent(e: ProxyEvent, partial: Partial, parse: ArgumentParser): Outcome {
    var content := partial.content;
    match e
    case Start => Accept(partial, Some(Pushed(e, "")))
    case TextStart(i) => Accept(partial.(content := content[i := Text("", None)]), Some(Pushed(e, "")))
    case TextDelta(i, delta) =>
      if i in content && content[i].Text? then
        Accept(partial.(content := content[i := content[i].(text := content[i].text + delta)]), Some(Pushed(e, "")))
      else Throw
    case TextEnd(i, signature) =>
      if i in content && content[i].Text? then
        Accept(partial.(content := content[i := content[i].(textSignature := signature)]),
               Some(Pushed(e, content[i].text)))
      else Throw
    case ThinkingStart(i) => Accept(partial.(content := content[i := Thinking("", None)]), Some(Pushed(e, "")))
    case ThinkingDelta(i, delta) =>
      if i in content && content[i].Thinking? then
        Accept(partial.(content := content[i := content[i].(thinking := content[i].thinking + delta)]),
               Some(Pushed(e, "")))
      else Throw
    case ThinkingEnd(i, signature) =>
      if i in content && content[i].Thinking? then
        Accept(partial.(content := content[i := content[i].(thinkingSignature := signature)]),
               Some(Pushed(e, content[i].thinking)))
      else Throw
    case ToolCallStart(i, id, name) =>
      Accept(partial.(content := content[i := ToolCall(id, name, NO_ARGUMENTS, Some(""))]), Some(Pushed(e, "")))
    case ToolCallDelta(i, delta) =>
      if i in content && content[i].ToolCall? then
        // after toolcall_end the field is gone, and appending to it starts from the text "undefined"
        var json := (if content[i].partialJson.Some? then content[i].partialJson.value else "undefined") + delta;
        Accept(partial.(content := content[i := content[i].(
                 partialJson := Some(json), arguments := ParsedOr(parse, json))]), Some(Pushed(e, "")))
      else Throw
    case ToolCallEnd(i, id, name, arguments) =>
      if i in content && content[i].ToolCall? then
        Accept(partial.(content := content[i := ToolCall(id, name, arguments, None)]), Some(Pushed(e, "")))
      else Accept(partial, None)
    case Done(reason) => Accept(partial.(stopReason := reason), Some(Pushed(e, "")))
    case Error(reason) => Accept(partial.(stopReason := reason), Some(Pushed(e, "")))
  }

  /** The message after a sequence of events, or nothing if one of them is rejected. */
  function Rebuild(events: seq<ProxyEvent>, parse: ArgumentParser): Option<Partial> {
    if events == [] then Some(EMPTY)
    else
      match Rebuild(events[..|events| - 1], parse)
      case None => None
      case Some(partial) =>
        match ProcessEvent(events[|events| - 1], partial, parse)
        case Accept(next, _) => Some(next)
        case Throw => None
  }

  // ---------------------------------------------------------------- the reference: one block's own events

  predicate IsStart(e: ProxyEvent) { e.TextStart? || e.ThinkingStart? || e.ToolCallStart? }

  predicate IsDelta(e: ProxyEvent) { e.TextDelta? || e.ThinkingDelta? || e.ToolCallDelta? }

  predicate Concerns(e: ProxyEvent, i: nat) {
    !e.Start? && !e.Done? && !e.Error? && e.index == i
  }

  /** The events of block i, in order. */
  function Projection(events: seq<ProxyEvent>, i: nat): seq<ProxyEvent> {
    if events == [] then []
    else Projection(events[..|events| - 1], i)
         + if Concerns(events[|events| - 1], i) then [events[|events| - 1]] else []
  }

  /** The part of one block's events from its last start on. */
  function FromLastStart(mine: seq<ProxyEvent>): seq<ProxyEvent> {
    if mine == [] then []
    else if IsStart(mine[|mine| - 1]) then [mine[|mine| - 1]]
    else
      var earlier := FromLastStart(mine[..|mine| - 1]);
      if earlier == [] then [] else earlier + [mine[|mine| - 1]]
  }

  function Deltas(mine: seq<ProxyEvent>): string {
    if mine == [] then ""
    else Deltas(mine[..|mine| - 1]) + if IsDelta(mine[|mine| - 1]) then mine[|mine| - 1].delta else ""
  }

  function Segment(events: seq<ProxyEvent>, i: nat): seq<ProxyEvent> {
    FromLastStart(Projection(events, i))
  }

  function BlockAt(partial: Partial, i: nat): Option<Block> {
    if i in partial.content then Some(partial.content[i]) else None
  }

  /** A block against the events of its own since its last start: the first is the start, the rest follow it. */
  ghost predicate Matches(segment: seq<ProxyEvent>, block: Option<Block>, parse: ArgumentParser) {
    if segment == [] then block == None
    else
      && block.Some?
      && match segment[0]
         case TextStart(_) => block.value == Text(Deltas(segment), LastSignature(segment))
         case ThinkingStart(_) => block.value == Thinking(Deltas(segment), LastSignature(segment))
         case ToolCallStart(_, id, name) =>
           if LastEnd(segment) < 0 then
             block.value == ToolCall(id, name, ArgumentsOf(segment, NO_ARGUMENTS, "", parse), Some(Deltas(segment)))
           else
             Ended(segment, LastEnd(segment), block.value, parse)
         case _ => false
  }

  /**
   * A tool call after its last end event: what that event says, unless deltas have followed. They start from the
   * text "undefined".
   */
  ghost predicate Ended(segment: seq<ProxyEvent>, k: int, block: Block, parse: ArgumentParser)
    requires 0 <= k < |segment| && segment[k].ToolCallEnd?
  {
    var e, since := segment[k], segment[k..];
    block == ToolCall(e.id, e.name, ArgumentsOf(since, e.arguments, "undefined", parse),
                      if |since| == 1 then None else Some("undefined" + Deltas(since)))
  }

  /** The arguments as of the first of these events, or the parse of the deltas that have followed it. */
  function ArgumentsOf(
      since: seq<ProxyEvent>, first: Arguments, before: string, parse: ArgumentParser): Arguments
  {
    if |since| == 1 then first else ParsedOr(parse, before + Deltas(since))
  }

  /** Where the last end event of a tool call is, or -1. */
  function LastEnd(segment: seq<ProxyEvent>): (k: int)
    ensures -1 <= k < |segment| && (k >= 0 ==> segment[k].ToolCallEnd?)
    ensures forall j :: k < j < |segment| ==> !segment[j].ToolCallEnd?
  {
    if segment == [] then -1
    else if segment[|segment| - 1].ToolCallEnd? then |segment| - 1
    else
      var k := LastEnd(segment[..|segment| - 1]);
      assert forall j :: k < j < |segment| - 1 ==> segment[j] == segment[..|segment| - 1][j];
      k
  }

  /** The signature the last end event of a text or thinking block carries. */
  function LastSignature(segment: seq<ProxyEvent>): Option<string> {
    if segment == [] then None
    else
      match segment[|segment| - 1]
      case TextEnd(_, signature) => signature
      case ThinkingEnd(_, signature) => signature
      case _ => LastSignature(segment[..|segment| - 1])
  }

  function ParsedOr(parse: ArgumentParser, json: string): Arguments {
    if parse(json).Some? then parse(json).value else NO_ARGUMENTS
  }

  function NextSegment(was: seq<ProxyEvent>, e: ProxyEvent): seq<ProxyEvent> {
    if IsStart(e) then [e] else if was == [] then [] else was + [e]
  }

  lemma OtherBlocksUntouched(e: ProxyEvent, partial: Partial, parse: ArgumentParser, i: nat)
    requires !Concerns(e, i)
    ensures var r := ProcessEvent(e, partial, parse); r.Accept? ==> BlockAt(r.partial, i) == BlockAt(partial, i)
  {
  }

  lemma OwnEventKeepsMatch(was: seq<ProxyEvent>, e: ProxyEvent, partial: Partial, parse: ArgumentParser, i: nat)
    requires Concerns(e, i) && Matches(was, BlockAt(partial, i), parse)
    ensures var r := ProcessEvent(e, partial, parse);
      r.Accept? ==> Matches(NextSegment(was, e), BlockAt(r.partial, i), parse)
  {
    if IsStart(e) {
      StartedBlockMatches(e, partial, parse, i);
    } else if was != [] {
      SegmentGrows(was, e);
      ContinuedBlockMatches(was, e, partial, parse, i);
    }
  }

  lemma StartedBlockMatches(e: ProxyEvent, partial: Partial, parse: ArgumentParser, i: nat)
    requires Concerns(e, i) && IsStart(e)
    ensures var r := ProcessEvent(e, partial, parse); r.Accept? && Matches([e], BlockAt(r.partial, i), parse)
  {
    assert [e][..0] == [];
    assert Deltas([e][..0]) == "" && LastEnd([e][..0]) == -1 && LastSignature([e][..0]) == None;
    match e {
      case TextStart(_) =>
      case ThinkingStart(_) =>
      case ToolCallStart(_, _, _) =>
    }
  }

  /** What one more event of its own does to a block's segment. */
  lemma SegmentGrows(was: seq<ProxyEvent>, e: ProxyEvent)
    requires was != []
    ensures (was + [e])[0] == was[0] && |was + [e]| > 1
    ensures Grown(was, e)
  {
    var now := was + [e];
    assert now[..|was|] == was && now[|was|] == e;
    assert forall k :: 0 <= k < |was| ==> was[k] == now[k];
    var k := LastEnd(was);
    if k >= 0 {
      assert now[k..] == was[k..] + [e];
      assert (was[k..] + [e])[..|was[k..]|] == was[k..];
    }
  }

  ghost predicate Grown(was: seq<ProxyEvent>, e: ProxyEvent) {
    var now, k := was + [e], LastEnd(was);
    && Deltas(now) == Deltas(was) + (if IsDelta(e) then e.delta else "")
    && LastEnd(now) == (if e.ToolCallEnd? then |was| else k)
    && (k >= 0 ==> now[k..] == was[k..] + [e]
                   && Deltas(was[k..] + [e]) == Deltas(was[k..]) + (if IsDelta(e) then e.delta else ""))
    && LastSignature(now) ==
         match e
         case TextEnd(_, signature) => signature
         case ThinkingEnd(_, signature) => signature
         case _ => LastSignature(was)
  }

  lemma ContinuedBlockMatches(was: seq<ProxyEvent>, e: ProxyEvent, partial: Partial, parse: ArgumentParser, i: nat)
    requires Concerns(e, i) && !IsStart(e) && was != [] && Matches(was, BlockAt(partial, i), parse)
    requires var now := was + [e];
      |now| > 1 && now[0] == was[0] && Grown(was, e)
    ensures var r := ProcessEvent(e, partial, parse);
      r.Accept? ==> Matches(was + [e], BlockAt(r.partial, i), parse)
  {
    if !IsDelta(e) { assert Deltas(was) + "" == Deltas(was); }
    if was[0].ToolCallStart? { ContinuedCallMatches(was, e, partial, parse, i); }
  }

  lemma ContinuedCallMatches(was: seq<ProxyEvent>, e: ProxyEvent, partial: Partial, parse: ArgumentParser, i: nat)
    requires Concerns(e, i) && !IsStart(e) && was != [] && was[0].ToolCallStart?
    requires Matches(was, BlockAt(partial, i), parse) && (was + [e])[0] == was[0] && Grown(was, e)
    ensures var r := ProcessEvent(e, partial, parse);
      r.Accept? ==> Matches(was + [e], BlockAt(r.partial, i), parse)
  {
    var now, k := was + [e], LastEnd(was);
    if e.ToolCallEnd? {
      assert now[|was|..] == [e];
    } else if e.ToolCallDelta? && k >= 0 {
      var since := was[k..];
      assert ("undefined" + Deltas(since)) + e.delta == "undefined" + (Deltas(since) + e.delta);
      if |since| == 1 {
        assert since == [was[k]] && since[..0] == [] && Deltas(since) == "";
        assert Deltas(since) + e.delta == e.delta;
      }
      assert Deltas(now[k..]) == Deltas(since) + e.delta && now[k] == was[k];
      assert Ended(now, k, ProcessEvent(e, partial, parse).partial.content[i], parse);
    } else if e.ToolCallDelta? {
      assert "" + (Deltas(was) + e.delta) == Deltas(was) + e.delta;
    }
  }

  /**
   * After any accepted events, every text or thinking block is the concatenation of its own deltas since
   * its last start, and the arguments of an open tool call are the parse of its deltas, however the events
   * of other blocks interleave; and a block exists exactly when one was started.
   */
  lemma {:induction false} DeltaReconstruction(events: seq<ProxyEvent>, parse: ArgumentParser, i: nat)
    requires Rebuild(events, parse).Some?
    ensures Matches(Segment(events, i), BlockAt(Rebuild(events, parse).value, i), parse)
  {
    if events != [] {
      var before, e := events[..|events| - 1], events[|events| - 1];
      DeltaReconstruction(before, parse, i);
      SegmentSnoc(before, e, i);
      assert events == before + [e];
      var partial := Rebuild(before, parse).value;
      if Concerns(e, i) {
        OwnEventKeepsMatch(Segment(before, i), e, partial, parse, i);
      } else {
        OtherBlocksUntouched(e, partial, parse, i);
      }
    }
  }

  lemma SegmentSnoc(before: seq<ProxyEvent>, e: ProxyEvent, i: nat)
    ensures Segment(before + [e], i) ==
      if Concerns(e, i) then NextSegment(Segment(before, i), e) else Segment(before, i)
  {
    assert (before + [e])[..|before|] == before;
    var mine := Projection(before, i);
    if Concerns(e, i) {
      assert (mine + [e])[..|mine|] == mine;
    } else {
      assert mine + [] == mine;
    }
  }

  /** The text an end event carries to the consumer is the concatenation of the block's deltas. */
  lemma EndCarriesWholeText(events: seq<ProxyEvent>, e: ProxyEvent, parse: ArgumentParser)
    requires Rebuild(events, parse).Some? && (e.TextEnd? || e.ThinkingEnd?)
    requires ProcessEvent(e, Rebuild(events, parse).value, parse).Accept?
    ensures ProcessEvent(e, Rebuild(events, parse).value, parse).pushed
         == Some(Pushed(e, Deltas(Segment(events, e.index))))
  {
    DeltaReconstruction(events, parse, e.index);
  }

  predicate KindMatches(events: seq<ProxyEvent>, e: ProxyEvent) {
    match e
    case TextDelta(i, _) => Segment(events, i) != [] && Segment(events, i)[0].TextStart?
    case TextEnd(i, _) => Segment(events, i) != [] && Segment(events, i)[0].TextStart?
    case ThinkingDelta(i, _) => Segment(events, i) != [] && Segment(events, i)[0].ThinkingStart?
    case ThinkingEnd(i, _) => Segment(events, i) != [] && Segment(events, i)[0].ThinkingStart?
    case ToolCallDelta(i, _) => Segment(events, i) != [] && Segment(events, i)[0].ToolCallStart?
    case _ => true
  }

  /** A delta or end event is accepted exactly when its block was last started with the matching kind. */
  lemma AcceptedIffKindMatches(events: seq<ProxyEvent>, e: ProxyEvent, parse: ArgumentParser)
    requires Rebuild(events, parse).Some?
    ensures Rebuild(events + [e], parse).Some? <==> KindMatches(events, e)
  {
    assert (events + [e])[..|events|] == events;
    if IsDelta(e) || e.TextEnd? || e.ThinkingEnd? {
      DeltaReconstruction(events, parse, e.index);
    }
  }

  // ---------------------------------------------------------------- lines

  /** `text.split("\n")` */
  function SplitLines(text: string): (pieces: seq<string>)
    ensures |pieces| >= 1
  {
    if text == "" then [""]
    else if text[0] == '\n' then [""] + SplitLines(text[1..])
    else var more := SplitLines(text[1..]); [[text[0]] + more[0]] + more[1..]
  }

  /** The newline-terminated lines of a text, and the unfinished line after them. */
  function Lines(text: string): seq<string> { SplitLines(text)[..|SplitLines(text)| - 1] }

  function Unfinished(text: string): string { SplitLines(text)[|SplitLines(text)| - 1] }

  function Unlines(lines: seq<string>): string {
    if lines == [] then "" else lines[0] + "\n" + Unlines(lines[1..])
  }

  predicate WithoutNewlines(lines: seq<string>, rest: string) {
    '\n' !in rest && forall line :: line in lines ==> '\n' !in line
  }

  /** The split is the only way to write a text as newline-free lines and a newline-free rest. */
  lemma LinesCharacterised(text: string, lines: seq<string>, rest: string)
    ensures lines == Lines(text) && rest == Unfinished(text) <==>
      text == Unlines(lines) + rest && WithoutNewlines(lines, rest)
  {
    LinesConserve(text);
    if WithoutNewlines(lines, rest) { LinesAreUnique(lines, rest); }
  }

  lemma {:induction false} LinesAreUnique(lines: seq<string>, rest: string)
    requires WithoutNewlines(lines, rest)
    ensures Lines(Unlines(lines) + rest) == lines && Unfinished(Unlines(lines) + rest) == rest
  {
    if lines == [] {
      assert Unlines(lines) + rest == rest;
      RestIsUnfinished(rest);
    } else {
      LinesAreUnique(lines[1..], rest);
      FirstLine(lines[0], Unlines(lines[1..]) + rest);
      assert lines[0] + ("\n" + (Unlines(lines[1..]) + rest)) == Unlines(lines) + rest;
    }
  }

  lemma {:induction false} RestIsUnfinished(rest: string)
    requires '\n' !in rest
    ensures Lines(rest) == [] && Unfinished(rest) == rest
  {
    if rest != "" {
      RestIsUnfinished(rest[1..]);
      CharCons(rest[0], rest[1..]);
      assert rest == [rest[0]] + rest[1..];
    }
  }

  lemma {:induction false} FirstLine(line: string, text: string)
    requires '\n' !in line
    ensures Lines(line + ("\n" + text)) == [line] + Lines(text)
    ensures Unfinished(line + ("\n" + text)) == Unfinished(text)
  {
    if line == "" {
      LinesCons(text);
      assert line + ("\n" + text) == ['\n'] + text;
    } else {
      FirstLine(line[1..], text);
      CharCons(line[0], line[1..] + ("\n" + text));
      assert line + ("\n" + text) == [line[0]] + (line[1..] + ("\n" + text));
      assert line == [line[0]] + line[1..];
    }
  }

  lemma {:induction false} LinesConserve(text: string)
    ensures text == Unlines(Lines(text)) + Unfinished(text) && WithoutNewlines(Lines(text), Unfinished(text))
  {
    if text != "" {
      LinesConserve(text[1..]);
      var pieces, more := SplitLines(text), SplitLines(text[1..]);
      if text[0] == '\n' {
        assert Lines(text) == [""] + Lines(text[1..]);
        assert text == [text[0]] + text[1..];
      } else if |more| == 1 {
        assert Lines(text) == [] && Unfinished(text) == [text[0]] + more[0];
      } else {
        assert Lines(text[1..])[0] == more[0] && Lines(text[1..])[1..] == more[1..|more| - 1];
        assert Lines(text) == [[text[0]] + more[0]] + Lines(text[1..])[1..];
        assert text == [text[0]] + text[1..];
        assert Unlines(Lines(text)) == [text[0]] + Unlines(Lines(text[1..]));
      }
    }
  }

  lemma {:induction false} SplitAppend(a: string, b: string)
    ensures Lines(a + b) == Lines(a) + Lines(Unfinished(a) + b)
    ensures Unfinished(a + b) == Unfinished(Unfinished(a) + b)
  {
    if a == "" {
      assert a + b == b && Unfinished(a) + b == b && Lines(a) == [];
    } else {
      assert (a + b)[1..] == a[1..] + b;
      SplitAppend(a[1..], b);
      assert a == [a[0]] + a[1..] && a + b == [a[0]] + (a[1..] + b);
      if a[0] == '\n' { AppendAfterNewline(a[1..], b); } else { AppendAfterChar(a[0], a[1..], b); }
    }
  }

  lemma AppendAfterNewline(tail: string, b: string)
    requires Lines(tail + b) == Lines(tail) + Lines(Unfinished(tail) + b)
    requires Unfinished(tail + b) == Unfinished(Unfinished(tail) + b)
    ensures var a := ['\n'] + tail;
      && Lines(['\n'] + (tail + b)) == Lines(a) + Lines(Unfinished(a) + b)
      && Unfinished(['\n'] + (tail + b)) == Unfinished(Unfinished(a) + b)
  {
    LinesCons(tail);
    LinesCons(tail + b);
    assert [""] + (Lines(tail) + Lines(Unfinished(tail) + b)) == ([""] + Lines(tail)) + Lines(Unfinished(tail) + b);
  }

  lemma AppendAfterChar(c: char, tail: string, b: string)
    requires c != '\n' && Lines(tail + b) == Lines(tail) + Lines(Unfinished(tail) + b)
    requires Unfinished(tail + b) == Unfinished(Unfinished(tail) + b)
    ensures Lines([c] + (tail + b)) == Lines([c] + tail) + Lines(Unfinished([c] + tail) + b)
    ensures Unfinished([c] + (tail + b)) == Unfinished(Unfinished([c] + tail) + b)
  {
    CharCons(c, tail);
    CharCons(c, tail + b);
    if Lines(tail) == [] {
      AppendWithinLine(c, tail, b);
    } else {
      HeadOfSum(c, Lines(tail), Lines(Unfinished(tail) + b));
    }
  }

  lemma AppendWithinLine(c: char, tail: string, b: string)
    requires c != '\n' && Lines(tail) == [] && Lines(tail + b) == Lines(Unfinished(tail) + b)
    requires Unfinished(tail + b) == Unfinished(Unfinished(tail) + b)
    ensures Lines([c] + (tail + b)) == Lines([c] + tail) + Lines(Unfinished([c] + tail) + b)
    ensures Unfinished([c] + (tail + b)) == Unfinished(Unfinished([c] + tail) + b)
  {
    var u := Unfinished(tail);
    CharCons(c, tail);
    CharCons(c, tail + b);
    CharCons(c, u + b);
    assert Unfinished([c] + tail) + b == [c] + (u + b);
    assert Lines([c] + tail) == [];
  }

  lemma HeadOfSum(c: char, l: seq<string>, m: seq<string>)
    requires l != []
    ensures [[c] + (l + m)[0]] + (l + m)[1..] == ([[c] + l[0]] + l[1..]) + m
  {
    assert (l + m)[0] == l[0] && (l + m)[1..] == l[1..] + m;
  }

  lemma LinesCons(text: string)
    ensures Lines(['\n'] + text) == [""] + Lines(text) && Unfinished(['\n'] + text) == Unfinished(text)
  {
    assert (['\n'] + text)[1..] == text;
  }

  lemma CharCons(c: char, text: string)
    requires c != '\n'
    ensures Lines(text) == [] ==> Lines([c] + text) == [] && Unfinished([c] + text) == [c] + Unfinished(text)
    ensures Lines(text) != [] ==>
      Lines([c] + text) == [[c] + Lines(text)[0]] + Lines(text)[1..] && Unfinished([c] + text) == Unfinished(text)
  {
    assert ([c] + text)[1..] == text;
  }

  // ---------------------------------------------------------------- the read loop of streamProxy

  /** The characters that `trim` strips. */
  predicate IsSpace(c: char) {
    || c == ' ' || '\t' <= c <= '\r' || c == '\U{00A0}' || c == '\U{1680}' || '\U{2000}' <= c <= '\U{200A}'
    || c == '\U{2028}' || c == '\U{2029}' || c == '\U{202F}' || c == '\U{205F}' || c == '\U{3000}' || c == '\U{FEFF}'
  }

  function Trim(s: string): string {
    if s == "" then s
    else if IsSpace(s[0]) then Trim(s[1..])
    else if IsSpace(s[|s| - 1]) then Trim(s[..|s| - 1])
    else s
  }

  const DATA_PREFIX := "data: "

  /** The stream so far: the partial message, the events pushed, and whether an exception has ended it. */
  datatype Progress = Progress(partial: Partial, pushed: seq<Pushed>, thrown: bool)

  const NOTHING_READ := Progress(EMPTY, [], false)

  function ProcessLine(st: Progress, line: string,
      parseEvent: string -> Option<ProxyEvent>, parse: ArgumentParser): Progress
  {
    if !(DATA_PREFIX <= line) then st
    else
      var data := Trim(line[|DATA_PREFIX|..]);
      if data == "" then st
      else
        match parseEvent(data)
        case None => st.(thrown := true)
        case Some(e) =>
          match ProcessEvent(e, st.partial, parse)
          case Throw => st.(thrown := true)
          case Accept(next, None) => st.(partial := next)
          case Accept(next, Some(out)) => st.(partial := next, pushed := st.pushed + [out])
  }

  /** Lines in order, up to and including the first that throws. */
  function ProcessLines(st: Progress, lines: seq<string>,
      parseEvent: string -> Option<ProxyEvent>, parse: ArgumentParser): Progress
    decreases |lines|
  {
    if lines == [] || st.thrown then st
    else ProcessLines(ProcessLine(st, lines[0], parseEvent, parse), lines[1..], parseEvent, parse)
  }

  function Concat(chunks: seq<string>): string {
    if chunks == [] then "" else Concat(chunks[..|chunks| - 1]) + chunks[|chunks| - 1]
  }

  /** The catch block: the message is marked failed and an error event is pushed. */
  function Close(st: Progress): Progress {
    if st.thrown then
      st.(partial := st.partial.(stopReason := Failed), pushed := st.pushed + [Pushed(Error(Failed), "")])
    else st
  }

  /** However the text arrives in chunks, the result is that of its newline-terminated lines, in order. */
  method StreamProxy(chunks: seq<string>, parseEvent: string -> Option<ProxyEvent>, parse: ArgumentParser)
    returns (result: Progress)
    ensures result == Close(ProcessLines(NOTHING_READ, Lines(Concat(chunks)), parseEvent, parse))
  {
    var buffer := "";
    result := NOTHING_READ;
    for i := 0 to |chunks|
      invariant !result.thrown && buffer == Unfinished(Concat(chunks[..i]))
      invariant result == ProcessLines(NOTHING_READ, Lines(Concat(chunks[..i])), parseEvent, parse)
    {
      ghost var before := Concat(chunks[..i]);
      assert Concat(chunks[..i + 1]) == before + chunks[i] by { assert chunks[..i + 1][..i] == chunks[..i]; }
      SplitAppend(before, chunks[i]);
      buffer := buffer + chunks[i];
      var lines := SplitLines(buffer);
      buffer := lines[|lines| - 1];
      lines := lines[..|lines| - 1];
      ProcessLinesAppend(NOTHING_READ, Lines(before), lines, parseEvent, parse);
      result := ReadLines(result, lines, parseEvent, parse);
      if result.thrown {
        ThrownText(before + chunks[i], chunks, i + 1, parseEvent, parse);
        return Close(result);
      }
    }
    assert chunks[..|chunks|] == chunks;
    return Close(result);
  }

  /** The inner loop, which an exception leaves. */
  method ReadLines(start: Progress, lines: seq<string>, parseEvent: string -> Option<ProxyEvent>, parse: ArgumentParser)
    returns (result: Progress)
    requires !start.thrown
    ensures result == ProcessLines(start, lines, parseEvent, parse)
  {
    result := start;
    for k := 0 to |lines|
      invariant !result.thrown
      invariant ProcessLines(start, lines, parseEvent, parse) == ProcessLines(result, lines[k..], parseEvent, parse)
    {
      assert lines[k..][0] == lines[k] && lines[k..][1..] == lines[k + 1..];
      result := ProcessLine(result, lines[k], parseEvent, parse);
      if result.thrown { return; }
    }
  }

  lemma {:induction false} ProcessLinesAppend(st: Progress, a: seq<string>, b: seq<string>,
      parseEvent: string -> Option<ProxyEvent>, parse: ArgumentParser)
    ensures ProcessLines(st, a + b, parseEvent, parse)
         == ProcessLines(ProcessLines(st, a, parseEvent, parse), b, parseEvent, parse)
    decreases |a|
  {
    if a == [] {
      assert a + b == b;
    } else if !st.thrown {
      assert (a + b)[1..] == a[1..] + b;
      ProcessLinesAppend(ProcessLine(st, a[0], parseEvent, parse), a[1..], b, parseEvent, parse);
    }
  }

  /** Once a prefix of the text has thrown, the rest changes nothing. */
  lemma {:induction false} ThrownText(text: string, chunks: seq<string>, i: nat,
      parseEvent: string -> Option<ProxyEvent>, parse: ArgumentParser)
    requires i <= |chunks| && text == Concat(chunks[..i])
    requires ProcessLines(NOTHING_READ, Lines(text), parseEvent, parse).thrown
    ensures ProcessLines(NOTHING_READ, Lines(Concat(chunks)), parseEvent, parse)
         == ProcessLines(NOTHING_READ, Lines(text), parseEvent, parse)
    decreases |chunks| - i
  {
    if i == |chunks| {
      assert chunks[..i] == chunks;
    } else {
      assert chunks[..i + 1][..i] == chunks[..i];
      var more := text + chunks[i];
      SplitAppend(text, chunks[i]);
      ProcessLinesAppend(NOTHING_READ, Lines(text), Lines(Unfinished(text) + chunks[i]), parseEvent, parse);
      ThrownText(more, chunks, i + 1, parseEvent, parse);
    }
  }

  /** The event a line carries, if it is a data line with an event. */
  function EventIn(line: string, parseEvent: string -> Option<ProxyEvent>): seq<ProxyEvent> {
    if !(DATA_PREFIX <= line) then []
    else
      var data := Trim(line[|DATA_PREFIX|..]);
      if data == "" then []
      else
        match parseEvent(data)
        case None => []
        case Some(e) => [e]
  }

  function EventsOf(lines: seq<string>, parseEvent: string -> Option<ProxyEvent>): seq<ProxyEvent> {
    if lines == [] then [] else EventsOf(lines[..|lines| - 1], parseEvent) + EventIn(lines[|lines| - 1], parseEvent)
  }

  lemma LineRebuilds(st: Progress, line: string, events: seq<ProxyEvent>,
      parseEvent: string -> Option<ProxyEvent>, parse: ArgumentParser)
    requires !st.thrown && !ProcessLine(st, line, parseEvent, parse).thrown
    requires Rebuild(events, parse) == Some(st.partial)
    ensures Rebuild(events + EventIn(line, parseEvent), parse) == Some(ProcessLine(st, line, parseEvent, parse).partial)
  {
    var more := EventIn(line, parseEvent);
    if more == [] {
      assert events + more == events;
    } else {
      assert (events + more)[..|events|] == events && (events + more)[|events|] == more[0];
    }
  }

  lemma {:induction false} LastLine(st: Progress, lines: seq<string>,
      parseEvent: string -> Option<ProxyEvent>, parse: ArgumentParser)
    requires lines != []
    ensures var before := ProcessLines(st, lines[..|lines| - 1], parseEvent, parse);
      ProcessLines(st, lines, parseEvent, parse)
      == if before.thrown then before else ProcessLine(before, lines[|lines| - 1], parseEvent, parse)
  {
    var before, last := lines[..|lines| - 1], [lines[|lines| - 1]];
    assert lines == before + last && last[1..] == [];
    ProcessLinesAppend(st, before, last, parseEvent, parse);
  }

  /** The message a stream ends with, if nothing threw, is the one rebuilt from the events in its lines. */
  lemma {:induction false} StreamRebuilds(lines: seq<string>,
      parseEvent: string -> Option<ProxyEvent>, parse: ArgumentParser)
    requires !ProcessLines(NOTHING_READ, lines, parseEvent, parse).thrown
    ensures Rebuild(EventsOf(lines, parseEvent), parse)
         == Some(ProcessLines(NOTHING_READ, lines, parseEvent, parse).partial)
  {
    if lines != [] {
      var before := lines[..|lines| - 1];
      LastLine(NOTHING_READ, lines, parseEvent, parse);
      StreamRebuilds(before, parseEvent, parse);
      LineRebuilds(ProcessLines(NOTHING_READ, before, parseEvent, parse), lines[|lines| - 1],
                   EventsOf(before, parseEvent), parseEvent, parse);
    }
  }

  // ---------------------------------------------------------------- what is pushed, and which lines throw

  predicate IsCall(events: seq<ProxyEvent>, i: nat) {
    Segment(events, i) != [] && Segment(events, i)[0].ToolCallStart?
  }

  /** What the consumer is given for an event: the event, with the whole text where a text or thinking block ends. */
  function PushedFor(before: seq<ProxyEvent>, e: ProxyEvent): seq<Pushed> {
    match e
    case TextEnd(i, _) => [Pushed(e, Deltas(Segment(before, i)))]
    case ThinkingEnd(i, _) => [Pushed(e, Deltas(Segment(before, i)))]
    case ToolCallEnd(i, _, _, _) => if IsCall(before, i) then [Pushed(e, "")] else []
    case _ => [Pushed(e, "")]
  }

  function PushedOf(events: seq<ProxyEvent>): seq<Pushed> {
    if events == [] then []
    else PushedOf(events[..|events| - 1]) + PushedFor(events[..|events| - 1], events[|events| - 1])
  }

  lemma AcceptedIsPushed(events: seq<ProxyEvent>, e: ProxyEvent, parse: ArgumentParser)
    requires Rebuild(events, parse).Some? && ProcessEvent(e, Rebuild(events, parse).value, parse).Accept?
    ensures var pushed := ProcessEvent(e, Rebuild(events, parse).value, parse).pushed;
      PushedFor(events, e) == if pushed.Some? then [pushed.value] else []
  {
    if e.TextEnd? || e.ThinkingEnd? {
      EndCarriesWholeText(events, e, parse);
    } else if e.ToolCallEnd? {
      DeltaReconstruction(events, parse, e.index);
    }
  }

  /** The message has stopped for the reason that the last done or error event gives. */
  function LastReason(events: seq<ProxyEvent>): StopReason {
    if events == [] then Pending
    else
      match events[|events| - 1]
      case Done(reason) => reason
      case Error(reason) => reason
      case _ => LastReason(events[..|events| - 1])
  }

  lemma {:induction false} StopReasonIsLast(events: seq<ProxyEvent>, parse: ArgumentParser)
    requires Rebuild(events, parse).Some?
    ensures Rebuild(events, parse).value.stopReason == LastReason(events)
  {
    if events != [] { StopReasonIsLast(events[..|events| - 1], parse); }
  }

  function DataIn(line: string): Option<string> {
    if DATA_PREFIX <= line && Trim(line[|DATA_PREFIX|..]) != "" then Some(Trim(line[|DATA_PREFIX|..])) else None
  }

  /** A data line that holds no event, or one that does not fit the block it is about. */
  predicate IsBad(before: seq<ProxyEvent>, line: string, parseEvent: string -> Option<ProxyEvent>) {
    DataIn(line).Some? &&
      match parseEvent(DataIn(line).value)
      case None => true
      case Some(e) => !KindMatches(before, e)
  }

  lemma LineThrowsExactly(st: Progress, line: string, events: seq<ProxyEvent>,
      parseEvent: string -> Option<ProxyEvent>, parse: ArgumentParser)
    requires !st.thrown && Rebuild(events, parse) == Some(st.partial)
    ensures ProcessLine(st, line, parseEvent, parse).thrown <==> IsBad(events, line, parseEvent)
    ensures !IsBad(events, line, parseEvent) && DataIn(line).Some? ==>
      ProcessLine(st, line, parseEvent, parse).pushed ==
        st.pushed + PushedFor(events, parseEvent(DataIn(line).value).value)
    ensures DataIn(line).None? ==> ProcessLine(st, line, parseEvent, parse) == st
  {
    if DataIn(line).Some? && parseEvent(DataIn(line).value).Some? {
      var e := parseEvent(DataIn(line).value).value;
      AcceptedIffKindMatches(events, e, parse);
      assert (events + [e])[..|events|] == events;
      if KindMatches(events, e) { AcceptedIsPushed(events, e, parse); }
      assert st.pushed + [] == st.pushed;
    }
  }

  /** Line k is the first that throws. */
  predicate ThrowsAt(lines: seq<string>, k: int, parseEvent: string -> Option<ProxyEvent>) {
    0 <= k < |lines| && IsBad(EventsOf(lines[..k], parseEvent), lines[k], parseEvent)
  }

  /** A stream throws if and only if some data line is bad after the events before it. */
  lemma {:induction false} StreamThrowsExactly(lines: seq<string>,
      parseEvent: string -> Option<ProxyEvent>, parse: ArgumentParser)
    ensures ProcessLines(NOTHING_READ, lines, parseEvent, parse).thrown <==> exists k :: ThrowsAt(lines, k, parseEvent)
  {
    if lines == [] {
      assert forall k :: !ThrowsAt(lines, k, parseEvent);
    } else {
      var n := |lines| - 1;
      var before := lines[..n];
      StreamThrowsExactly(before, parseEvent, parse);
      LastLine(NOTHING_READ, lines, parseEvent, parse);
      ThrowsSnoc(before, lines[n], parseEvent);
      assert lines == before + [lines[n]];
      var st := ProcessLines(NOTHING_READ, before, parseEvent, parse);
      if !st.thrown {
        StreamRebuilds(before, parseEvent, parse);
        LineThrowsExactly(st, lines[n], EventsOf(before, parseEvent), parseEvent, parse);
      }
    }
  }

  lemma ThrowsSnoc(before: seq<string>, line: string, parseEvent: string -> Option<ProxyEvent>)
    ensures (exists k :: ThrowsAt(before + [line], k, parseEvent)) <==>
      (exists k :: ThrowsAt(before, k, parseEvent)) || IsBad(EventsOf(before, parseEvent), line, parseEvent)
  {
    var lines, n := before + [line], |before|;
    assert lines[..n] == before;
    forall k | 0 <= k < n ensures ThrowsAt(lines, k, parseEvent) <==> ThrowsAt(before, k, parseEvent) {
      assert lines[..k] == before[..k];
    }
    if k :| ThrowsAt(before, k, parseEvent) { assert ThrowsAt(lines, k, parseEvent); }
    assert ThrowsAt(lines, n, parseEvent) <==> IsBad(EventsOf(before, parseEvent), line, parseEvent);
  }

  /** A stream that does not throw has pushed, in order, what its events call for. */
  lemma {:induction false} StreamPushesExactly(lines: seq<string>,
      parseEvent: string -> Option<ProxyEvent>, parse: ArgumentParser)
    requires !ProcessLines(NOTHING_READ, lines, parseEvent, parse).thrown
    ensures ProcessLines(NOTHING_READ, lines, parseEvent, parse).pushed == PushedOf(EventsOf(lines, parseEvent))
  {
    if lines != [] {
      var n := |lines| - 1;
      var before := lines[..n];
      LastLine(NOTHING_READ, lines, parseEvent, parse);
      var st := ProcessLines(NOTHING_READ, before, parseEvent, parse);
      StreamPushesExactly(before, parseEvent, parse);
      StreamRebuilds(before, parseEvent, parse);
      var events := EventsOf(before, parseEvent);
      LineThrowsExactly(st, lines[n], events, parseEvent, parse);
      assert EventsOf(lines, parseEvent) == events + EventIn(lines[n], parseEvent);
      PushedSnoc(events, lines[n], parseEvent);
    }
  }

  lemma PushedSnoc(events: seq<ProxyEvent>, line: string, parseEvent: string -> Option<ProxyEvent>)
    ensures var more := EventIn(line, parseEvent);
      && (DataIn(line).None? ==> more == [] && PushedOf(events + more) == PushedOf(events))
      && (DataIn(line).Some? && parseEvent(DataIn(line).value).Some? ==>
            PushedOf(events + more) == PushedOf(events) + PushedFor(events, parseEvent(DataIn(line).value).value))
  {
    if DataIn(line).None? {
      assert events + [] == events;
    } else if parseEvent(DataIn(line).value).Some? {
      var e := parseEvent(DataIn(line).value).value;
      assert (events + [e])[..|events|] == events;
    }
  }

  /** All outside s[i..j] is white space, and s[i..j] neither begins nor ends with it. */
  ghost predicate IsCore(s: string, i: nat, j: nat) {
    && i <= j <= |s|
    && (forall k :: 0 <= k < |s| && !(i <= k < j) ==> IsSpace(s[k]))
    && (i < j ==> !IsSpace(s[i]) && !IsSpace(s[j - 1]))
  }

  lemma SpaceInFront(c: char, s: string, i: nat, j: nat)
    requires IsCore(s, i, j) && IsSpace(c)
    ensures IsCore([c] + s, i + 1, j + 1) && ([c] + s)[i + 1..j + 1] == s[i..j]
  {
  }

  lemma SpaceBehind(s: string, c: char, i: nat, j: nat)
    requires IsCore(s, i, j) && IsSpace(c)
    ensures IsCore(s + [c], i, j) && (s + [c])[i..j] == s[i..j]
  {
  }

  /** Trimming takes away white space at both ends, all of it, and nothing else. */
  lemma {:induction false} TrimExactly(s: string) returns (i: nat, j: nat)
    ensures IsCore(s, i, j) && Trim(s) == s[i..j]
    decreases |s|
  {
    i, j := 0, |s|;
    if s != "" && IsSpace(s[0]) {
      i, j := TrimExactly(s[1..]);
      SpaceInFront(s[0], s[1..], i, j);
      assert s == [s[0]] + s[1..];
      i, j := i + 1, j + 1;
    } else if s != "" && IsSpace(s[|s| - 1]) {
      i, j := TrimExactly(s[..|s| - 1]);
      SpaceBehind(s[..|s| - 1], s[|s| - 1], i, j);
      assert s == s[..|s| - 1] + [s[|s| - 1]];
    } else {
      assert s[0..|s|] == s;
    }
  }

  /** Whatever throws, the message is marked failed and one error event comes last; nothing else changes. */
  lemma ThrownStreamEndsInError(lines: seq<string>, parseEvent: string -> Option<ProxyEvent>, parse: ArgumentParser)
    ensures var st := ProcessLines(NOTHING_READ, lines, parseEvent, parse);
      && Close(st).thrown == st.thrown && Close(st).partial.content == st.partial.content
      && (st.thrown ==> Close(st).partial.stopReason == Failed && st.pushed <= Close(st).pushed
                        && Close(st).pushed[|st.pushed|..] == [Pushed(Error(Failed), "")])
      && (!st.thrown ==> Close(st).partial.stopReason == LastReason(EventsOf(lines, parseEvent))
                         && Close(st).pushed == PushedOf(EventsOf(lines, parseEvent)))
  {
    var st := ProcessLines(NOTHING_READ, lines, parseEvent, parse);
    if !st.thrown {
      StreamRebuilds(lines, parseEvent, parse);
      StopReasonIsLast(EventsOf(lines, parseEvent), parse);
      StreamPushesExactly(lines, parseEvent, parse);
    }
  }
}
