/**
 * The messages and events of packages/agent/src/types.ts, and the scripts that stand for everything the
 * agent loop awaits: reply streams, tools, hooks, aborts and messages queued by the user meanwhile.
 */
module AgentTypes {
  import opened Basics

  datatype StopReason = Pending | Stop | Length | ToolUse | Error | Aborted | Deferred

  datatype ToolCall = ToolCall(id: string, name: string, arguments: int)

  datatype Block = Prose(prose: string) | Call(call: ToolCall)

  datatype Message =
    | User(text: string)
    | Assistant(blocks: seq<Block>, stopReason: StopReason, errorMessage: Option<string>)
    | ToolResult(callId: string, name: string, content: int, isError: bool)
    | Custom(kind: string)

  /** The `index` of a tool event, its call's position in the message, is not part of the program's event. */
  datatype Event =
    | AgentStart
    | AgentEnd(messages: seq<Message>)
    | TurnStart
    | TurnEnd(message: Message, results: seq<Message>)
    | MessageStart(message: Message)
    | MessageUpdate(message: Message)
    | MessageEnd(message: Message)
    | ToolStart(index: nat, call: ToolCall)
    | ToolUpdate(index: nat, call: ToolCall, partialResult: int)
    | ToolEnd(index: nat, call: ToolCall, outcome: ToolOutcome)

  datatype QueueName = Steering | FollowUp

  /** What a run does that can be seen from outside: its events, and its other interactions in between. */
  datatype Entry =
    | Emit(event: Event)
    | ModelCall(context: seq<Message>)
    | Replied(reason: StopReason)
    | StopAsked(answer: bool)          // shouldStopAfterTurn
    | Injected(queue: QueueName, message: Message)
    | Replaced(messages: seq<Message>)  // prepareNextTurn returned a context

  function ToolCalls(blocks: seq<Block>): seq<ToolCall> {
    if blocks == [] then []
    else (if blocks[0].Call? then [blocks[0].call] else []) + ToolCalls(blocks[1..])
  }

  /** The calls of a message are those of its parts, in order. */
  lemma {:induction false} ToolCallsInOrder(a: seq<Block>, b: seq<Block>)
    ensures ToolCalls(a + b) == ToolCalls(a) + ToolCalls(b)
  {
    if a == [] {
      assert a + b == b;
    } else {
      assert (a + b)[1..] == a[1..] + b;
      ToolCallsInOrder(a[1..], b);
    }
  }

  lemma ToolCallsOfOne(block: Block)
    ensures ToolCalls([block]) == if block.Call? then [block.call] else []
  {
    assert [block][1..] == [];
  }

  // ---------------------------------------------------------------- scripts

  /** One event of a reply stream: `start`, one of the content events, or `done`/`error`. */
  datatype StreamEvent = StreamStart(partialMessage: Message) | StreamDelta(partialMessage: Message) | StreamEnd

  /** `final` is what `response.result()` resolves to. */
  datatype Reply = Reply(
    events: seq<StreamEvent>, blocks: seq<Block>, stopReason: StopReason, errorMessage: Option<string>)
  {
    function Final(): Message { Assistant(blocks, stopReason, errorMessage) }
  }

  /** A finalized tool result; `terminate` is whether the field is exactly true. */
  datatype ToolOutcome = ToolOutcome(content: int, terminate: bool, isError: bool)

  /** What one tool call came to: the partial results it reported, and its outcome. */
  datatype Ran = Ran(updates: seq<int>, outcome: ToolOutcome)

  /** `createErrorToolResult`; the text is represented by a number. */
  function ErrorOutcome(content: int): ToolOutcome { ToolOutcome(content, false, true) }

  datatype BeforeHook = NoBefore | BeforeThrows(error: int) | BeforeReturns(block: bool, reason: int, terminate: bool)

  datatype Execution = Returns(content: int, terminate: bool) | Throws(error: int)

  datatype AfterHook =
    | NoAfter
    | AfterThrows(error: int)
    | AfterReturns(content: Option<int>, terminate: Option<bool>, isError: Option<bool>)

  /**
   * What happens to one tool call. The signal may be aborted before the before hook has returned, or later but
   * before the loop looks at it again. `lateUpdates` are reported after the tool has settled. When tools run
   * concurrently, updates, execution and after hook are replaced by moves.
   */
  datatype CallScript = CallScript(
    found: bool, sequentialTool: bool, rejectsArguments: Option<int>, before: BeforeHook, abortsInPreparation: bool,
    updates: seq<int>, execution: Execution, lateUpdates: seq<int>, after: AfterHook, abortsAfterwards: bool)

  /** One scheduling step of the tools that run concurrently. */
  datatype Move =
    | Update(thread: nat, partialResult: int)
    | Settle(thread: nat, execution: Execution)
    | Finish(thread: nat, after: AfterHook)

  datatype Preparation = Immediate(outcome: ToolOutcome) | Ready

  const NOT_FOUND := 1
  const OPERATION_ABORTED := 2
  const TRUNCATED := 3

  /** `prepareToolCall`, with the state of the signal when the before hook has returned. */
  function Prepare(c: CallScript, aborted: bool): Preparation {
    if !c.found then Immediate(ErrorOutcome(NOT_FOUND))
    else if c.rejectsArguments.Some? then Immediate(ErrorOutcome(c.rejectsArguments.value))
    else
      match c.before
      case BeforeThrows(e) => Immediate(ErrorOutcome(e))
      case BeforeReturns(block, reason, terminate) =>
        if aborted then Immediate(ErrorOutcome(OPERATION_ABORTED))
        else if block then Immediate(ErrorOutcome(reason).(terminate := terminate))
        else Ready
      case NoBefore => if aborted then Immediate(ErrorOutcome(OPERATION_ABORTED)) else Ready
  }

  /** `executePreparedToolCall` and `finalizeExecutedToolCall`, apart from the updates. */
  function Finalize(e: Execution, after: AfterHook): ToolOutcome {
    var executed := match e
      case Returns(content, terminate) => ToolOutcome(content, terminate, false)
      case Throws(error) => ErrorOutcome(error);
    match after
    case NoAfter => executed
    case AfterThrows(error) => ErrorOutcome(error)
    case AfterReturns(content, terminate, isError) =>
      ToolOutcome(if content.Some? then content.value else executed.content,
                  if terminate.Some? then terminate.value else executed.terminate,
                  if isError.Some? then isError.value else executed.isError)
  }

  /** `createToolResultMessage` */
  function ResultMessage(call: ToolCall, o: ToolOutcome): Message {
    ToolResult(call.id, call.name, o.content, o.isError)
  }

  datatype ToolExecutionMode = Sequential | Parallel

  datatype UserAction = Steer(message: Message) | QueueFollowUp(message: Message)

  datatype TurnHook = NoUpdate | SwapContext(messages: seq<Message>)

  /** Everything the loop awaits from one turn's preparation to its end. */
  datatype TurnScript = TurnScript(
    prepare: TurnHook,                    // prepareNextTurn, when there was a turn before
    duringPreparation: seq<UserAction>,
    reply: Reply,
    calls: nat -> CallScript,
    moves: seq<Move>,
    duringTurn: seq<UserAction>,
    stop: bool,                           // shouldStopAfterTurn
    beforeFollowUpPoll: seq<UserAction>)
}
