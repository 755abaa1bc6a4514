/**
 * The nested loop of packages/agent/src/agent-loop.ts, which injects queued messages, streams a reply and runs
 * its tool calls, and the transcripts it keeps: the loop's context, newMessages, and the Agent's own messages.
 */
module AgentLoop {
  import opened Basics
  import opened AgentTypes
  import opened AgentTrace
  import opened AgentQueue
  import opened AgentState
  import opened AgentTools

  // ---------------------------------------------------------------- reply streams

  /** The latest partial message of each `start` of a stream. */
  function Partials(events: seq<StreamEvent>): seq<Message> {
    if events == [] then []
    else
      var before := Partials(events[..|events| - 1]);
      match events[|events| - 1]
      case StreamStart(p) => before + [p]
      case StreamDelta(p) => if before == [] then before else before[|before| - 1 := p]
      case StreamEnd => before
  }

  /** The events of a stream before its first end event. */
  function UpToEnd(events: seq<StreamEvent>): seq<StreamEvent> {
    if events == [] || events[0].StreamEnd? then [] else [events[0]] + UpToEnd(events[1..])
  }

  function AllButLast(ps: seq<Message>): seq<Message> { if ps == [] then [] else ps[..|ps| - 1] }

  /** What a stream leaves in the context before its final message: every partial but the last. */
  function Stale(reply: Reply): seq<Message> { AllButLast(Partials(UpToEnd(reply.events))) }

  function Starts(events: seq<StreamEvent>): nat {
    if events == [] then 0
    else Starts(events[..|events| - 1]) + if events[|events| - 1].StreamStart? then 1 else 0
  }

  lemma {:induction false} OnePartialPerStart(events: seq<StreamEvent>)
    ensures |Partials(events)| == Starts(events)
  {
    if events != [] { OnePartialPerStart(events[..|events| - 1]); }
  }

  /** A stream that has more than one `start` before its end. */
  predicate RestartsStream(turn: TurnScript) { Starts(UpToEnd(turn.reply.events)) > 1 }

  /** A stream leaves nothing behind exactly when it has at most one `start` before its end. */
  lemma NothingStaleExactly(turn: TurnScript)
    ensures Stale(turn.reply) == [] <==> !RestartsStream(turn)
  {
    OnePartialPerStart(UpToEnd(turn.reply.events));
  }

  lemma {:induction false} CutAtEnd(events: seq<StreamEvent>, i: nat)
    requires i <= |events| && (forall k :: 0 <= k < i ==> !events[k].StreamEnd?)
    requires i < |events| ==> events[i].StreamEnd?
    ensures UpToEnd(events) == events[..i]
  {
    if i > 0 {
      CutAtEnd(events[1..], i - 1);
      assert events[..i] == [events[0]] + events[1..][..i - 1];
    }
  }

  predicate Halting(reason: StopReason) { reason == Error || reason == Aborted }

  function SentBy(action: UserAction, q: QueueName): seq<Message> {
    match action
    case Steer(m) => if q == Steering then [m] else []
    case QueueFollowUp(m) => if q == FollowUp then [m] else []
  }

  function Sent(actions: seq<UserAction>, q: QueueName): seq<Message> {
    if actions == [] then []
    else Sent(actions[..|actions| - 1], q) + SentBy(actions[|actions| - 1], q)
  }

  lemma SentOneMore(actions: seq<UserAction>, i: nat)
    requires i < |actions|
    ensures forall q :: Sent(actions[..i + 1], q) == Sent(actions[..i], q) + SentBy(actions[i], q)
  {
    assert actions[..i + 1][..i] == actions[..i];
  }

  // ---------------------------------------------------------------- the account of the turns

  function ReplacementIn(turn: TurnScript): seq<seq<Message>> {
    match turn.prepare
    case NoUpdate => []
    case SwapContext(messages) => [messages]
  }

  /** The contexts that prepareNextTurn returned in the first turns; it is not asked before turn 0. */
  function Replacements(turns: seq<TurnScript>, used: nat): seq<seq<Message>>
    requires used <= |turns|
  {
    if used <= 1 then [] else Replacements(turns, used - 1) + ReplacementIn(turns[used - 1])
  }

  /** The last of the first turns whose preparation replaced the context, or turn 0. */
  function LastReplaced(turns: seq<TurnScript>, used: nat): (k: nat)
    requires used <= |turns|
    ensures k == 0 || k < used
  {
    if used <= 1 then 0
    else if turns[used - 1].prepare.SwapContext? then used - 1
    else LastReplaced(turns, used - 1)
  }

  /** How many partials the first turns' streams have left in the context they ended with. */
  function LeftIn(turns: seq<TurnScript>, used: nat): nat
    requires used <= |turns|
  {
    if used == 0 then 0
    else
      (if used > 1 && turns[used - 1].prepare.SwapContext? then 0 else LeftIn(turns, used - 1))
      + |Stale(turns[used - 1].reply)|
  }

  /** Whether one of the first replies had a second `start`. */
  predicate StaleIn(turns: seq<TurnScript>, used: nat)
    requires used <= |turns|
  {
    used > 0 && (StaleIn(turns, used - 1) || Stale(turns[used - 1].reply) != [])
  }

  /** prepareNextTurn returned no context in the first turns. */
  predicate NeverReplaced(turns: seq<TurnScript>, used: nat)
    requires used <= |turns|
  {
    forall k :: 0 < k < used ==> turns[k].prepare.NoUpdate?
  }

  lemma {:induction false} ReplacedExactly(turns: seq<TurnScript>, used: nat)
    requires used <= |turns|
    ensures Replacements(turns, used) == [] <==> NeverReplaced(turns, used)
  {
    if used > 1 {
      ReplacedExactly(turns, used - 1);
      assert NeverReplaced(turns, used) <==> NeverReplaced(turns, used - 1) && turns[used - 1].prepare.NoUpdate?;
    }
  }

  lemma {:induction false} LastReplacedExactly(turns: seq<TurnScript>, used: nat)
    requires used <= |turns|
    ensures LastReplaced(turns, used) == 0 <==> NeverReplaced(turns, used)
  {
    if used > 1 {
      LastReplacedExactly(turns, used - 1);
      assert NeverReplaced(turns, used) <==> NeverReplaced(turns, used - 1) && turns[used - 1].prepare.NoUpdate?;
    }
  }

  lemma {:induction false} LastReplacedIsLast(turns: seq<TurnScript>, used: nat, k: nat)
    requires used <= |turns| && LastReplaced(turns, used) < k < used
    ensures turns[k].prepare.NoUpdate?
  {
    if k < used - 1 { LastReplacedIsLast(turns, used - 1, k); }
  }

  /** None of these turns' streams was restarted. */
  predicate NoneRestarts(turns: seq<TurnScript>, from: nat, used: nat)
    requires used <= |turns|
  {
    forall k :: from <= k < used ==> !RestartsStream(turns[k])
  }

  /** Nothing is left exactly when no stream was restarted since the context was last replaced. */
  lemma {:induction false} LeftExactly(turns: seq<TurnScript>, used: nat)
    requires used <= |turns|
    ensures LeftIn(turns, used) == 0 <==> NoneRestarts(turns, LastReplaced(turns, used), used)
  {
    if used > 0 {
      NothingStaleExactly(turns[used - 1]);
      if used == 1 || turns[used - 1].prepare.NoUpdate? { LeftExactly(turns, used - 1); }
    }
  }

  lemma {:induction false} StaleExactly(turns: seq<TurnScript>, used: nat)
    requires used <= |turns|
    ensures StaleIn(turns, used) <==> !NoneRestarts(turns, 0, used)
  {
    if used > 0 {
      StaleExactly(turns, used - 1);
      NothingStaleExactly(turns[used - 1]);
    }
  }

  /** What a run's reading and signal say about its turns. */
  datatype Tally = Tally(
    endings: seq<Ending>, replacements: seq<seq<Message>>, left: nat, broken: bool, course: Course, aborted: bool)

  function TallyOf(r: Reading, aborted: bool): Tally {
    Tally(r.record.endings, r.record.replacements, r.leftover.left, r.brackets == Broken, r.record.course, aborted)
  }

  const NO_TURNS := Tally([], [], 0, false, NOTHING_YET, false)

  /** The tool calls of a turn, as `RansOf` says what they come to, answered by its results. */
  ghost predicate CallsAnswered(turn: TurnScript, mode: ToolExecutionMode, ending: Ending, before: bool, aborted: bool,
                                rans: seq<Ran>)
  {
    var calls := ToolCalls(turn.reply.blocks);
    && Answers(calls, rans, ending.results) && (|rans| == |calls| || aborted)
    && (calls != [] ==> RansOf(turn, mode, calls, before, aborted, rans))
    && (ending.course.more <==> calls != [] && !AllTerminate(rans))
  }

  /**
   * A finished turn: its reply, results that answer the reply's tool calls, all of them unless aborted, and whether
   * there were calls that do not all ask to stop. The signal is given as it was before the turn and is after it.
   */
  ghost predicate Records(turn: TurnScript, mode: ToolExecutionMode, ending: Ending, before: bool, aborted: bool) {
    && ending.reply == turn.reply.Final()
    && if Halting(turn.reply.stopReason) then ending.results == [] && !ending.course.more
       else exists rans: seq<Ran> :: CallsAnswered(turn, mode, ending, before, aborted, rans)
  }

  /** Why there is another turn: the one before wants a reply, or a queued message was injected. */
  ghost predicate Called(before: Tally, ending: Ending) {
    && before.endings != []
    && (before.endings[|before.endings| - 1].course.more || ending.course.injected != [])
  }

  ghost predicate Tallies(t: Tally, turns: seq<TurnScript>, used: nat) {
    && used == |t.endings| <= |turns|
    && t.replacements == Replacements(turns, used)
    && t.left == LeftIn(turns, used)
    && (t.broken <==> StaleIn(turns, used))
  }

  /** The tally after one more turn, which has an ending, and leaves no course, unless it is suspended. */
  function TallyAfter(
      t: Tally, turn: TurnScript, first: bool, ending: Option<Ending>, course: Course, aborted: bool): Tally
  {
    Tally(
      t.endings + (if ending.Some? then [ending.value] else []),
      t.replacements + (if first then [] else ReplacementIn(turn)),
      (if !first && turn.prepare.SwapContext? then 0 else t.left) + |Stale(turn.reply)|,
      t.broken || Stale(turn.reply) != [], if ending.Some? then NOTHING_YET else course, aborted)
  }

  /** One finished turn. */
  ghost predicate TurnStep(before: Tally, after: Tally, turn: TurnScript, first: bool, mode: ToolExecutionMode) {
    && after.endings != []
    && var ending := after.endings[|after.endings| - 1];
       && after == TallyAfter(before, turn, first, Some(ending), NOTHING_YET, after.aborted)
       && Records(turn, mode, ending, before.aborted, after.aborted) && (before.aborted ==> after.aborted)
       && (!first ==> Called(before, ending))
  }

  /** The tallies at the beginning of each turn, and after the last. */
  ghost predicate TurnHistory(turns: seq<TurnScript>, mode: ToolExecutionMode, tallies: seq<Tally>) {
    && 0 < |tallies| <= |turns| + 1 && tallies[0] == NO_TURNS.(aborted := tallies[0].aborted)
    && forall k :: 0 <= k < |tallies| - 1 ==> StepAt(turns, mode, tallies, k)
  }

  ghost predicate StepAt(turns: seq<TurnScript>, mode: ToolExecutionMode, tallies: seq<Tally>, k: int)
    requires 0 <= k < |tallies| - 1 <= |turns|
  {
    TurnStep(tallies[k], tallies[k + 1], turns[k], k == 0, mode)
  }

  predicate Continues(turn: TurnScript) { !Halting(turn.reply.stopReason) && !turn.stop }

  /** None of the first turns ended the run. */
  ghost predicate GoesOn(turns: seq<TurnScript>, t: nat) {
    t <= |turns| && forall k {:trigger turns[k]} :: 0 <= k < t ==> Continues(turns[k])
  }

  lemma OneMoreContinues(turns: seq<TurnScript>, t: nat)
    requires t < |turns| && GoesOn(turns, t) && Continues(turns[t])
    ensures GoesOn(turns, t + 1)
  {
  }

  lemma EndedStep(
      before: Tally, turn: TurnScript, first: bool, mode: ToolExecutionMode, ending: Ending, aborted: bool)
    requires Records(turn, mode, ending, before.aborted, aborted) && (before.aborted ==> aborted)
    requires !first ==> Called(before, ending)
    ensures TurnStep(before, TallyAfter(before, turn, first, Some(ending), NOTHING_YET, aborted), turn, first, mode)
  {
    var endings := before.endings + [ending];
    assert endings[|endings| - 1] == ending;
  }

  lemma OneMoreTurn(turns: seq<TurnScript>, mode: ToolExecutionMode, tallies: seq<Tally>, after: Tally)
    requires TurnHistory(turns, mode, tallies) && |tallies| <= |turns|
    requires TurnStep(tallies[|tallies| - 1], after, turns[|tallies| - 1], |tallies| == 1, mode)
    ensures TurnHistory(turns, mode, tallies + [after])
  {
    var more := tallies + [after];
    forall k | 0 <= k < |more| - 1 ensures StepAt(turns, mode, more, k) {
      if k < |tallies| - 1 { assert StepAt(turns, mode, tallies, k); }
    }
  }

  /** What a history of turns comes to. */
  lemma {:induction false} HistoryTallies(turns: seq<TurnScript>, mode: ToolExecutionMode, tallies: seq<Tally>, t: nat)
    requires TurnHistory(turns, mode, tallies) && t < |tallies|
    ensures Tallies(tallies[t], turns, t)
  {
    if t == 0 {
      NoTurnsTally(turns, tallies[0].aborted);
    } else {
      HistoryTallies(turns, mode, tallies, t - 1);
      StepOfHistory(turns, mode, tallies, t);
      StepTallies(turns, mode, tallies[t - 1], tallies[t], t);
    }
  }

  lemma NoTurnsTally(turns: seq<TurnScript>, aborted: bool)
    ensures Tallies(NO_TURNS.(aborted := aborted), turns, 0)
  {
  }

  lemma StepOfHistory(turns: seq<TurnScript>, mode: ToolExecutionMode, tallies: seq<Tally>, t: nat)
    requires TurnHistory(turns, mode, tallies) && 0 < t < |tallies|
    ensures TurnStep(tallies[t - 1], tallies[t], turns[t - 1], t == 1, mode)
  {
    assert StepAt(turns, mode, tallies, t - 1);
  }

  lemma StepTallies(turns: seq<TurnScript>, mode: ToolExecutionMode, before: Tally, after: Tally, t: nat)
    requires 0 < t <= |turns| && Tallies(before, turns, t - 1) && TurnStep(before, after, turns[t - 1], t == 1, mode)
    ensures Tallies(after, turns, t)
  {
    assert before.replacements + [] == before.replacements;
  }

  /** Later turns leave the endings of earlier ones as they are. */
  lemma {:induction false} EndingsGrow(
      turns: seq<TurnScript>, mode: ToolExecutionMode, tallies: seq<Tally>, j: nat, t: nat)
    requires TurnHistory(turns, mode, tallies) && j <= t < |tallies|
    ensures tallies[j].endings <= tallies[t].endings
    decreases t - j
  {
    if j < t {
      EndingsGrow(turns, mode, tallies, j, t - 1);
      StepOfHistory(turns, mode, tallies, t);
      LastEnding(tallies[t - 1], tallies[t], turns[t - 1], t == 1, mode);
    }
  }

  lemma {:induction false} TurnsAreCounted(turns: seq<TurnScript>, mode: ToolExecutionMode, tallies: seq<Tally>, t: nat)
    requires TurnHistory(turns, mode, tallies) && t < |tallies|
    ensures |tallies[t].endings| == t
  {
    if t > 0 {
      TurnsAreCounted(turns, mode, tallies, t - 1);
      StepOfHistory(turns, mode, tallies, t);
      LastEnding(tallies[t - 1], tallies[t], turns[t - 1], t == 1, mode);
    }
  }

  lemma LastEnding(before: Tally, after: Tally, turn: TurnScript, first: bool, mode: ToolExecutionMode)
    requires TurnStep(before, after, turn, first, mode)
    ensures after.endings == before.endings + [after.endings[|after.endings| - 1]]
  {
  }

  /** Each ending records its turn, and each turn after the first was called for. */
  lemma EveryEndingRecords(turns: seq<TurnScript>, mode: ToolExecutionMode, tallies: seq<Tally>, t: nat, k: nat)
    requires TurnHistory(turns, mode, tallies) && k < t < |tallies|
    ensures |tallies[t].endings| == t
    ensures Records(turns[k], mode, tallies[t].endings[k], tallies[k].aborted, tallies[k + 1].aborted)
    ensures k > 0 ==> tallies[t].endings[k - 1].course.more || tallies[t].endings[k].course.injected != []
  {
    TurnsAreCounted(turns, mode, tallies, k);
    TurnsAreCounted(turns, mode, tallies, k + 1);
    TurnsAreCounted(turns, mode, tallies, t);
    EndingsGrow(turns, mode, tallies, k, t);
    EndingsGrow(turns, mode, tallies, k + 1, t);
    StepOfHistory(turns, mode, tallies, k + 1);
    assert tallies[k + 1].endings[k] == tallies[t].endings[k];
    if k > 0 { assert tallies[k].endings[k - 1] == tallies[t].endings[k - 1]; }
  }

  lemma {:induction false} AbortsStay(
      turns: seq<TurnScript>, mode: ToolExecutionMode, tallies: seq<Tally>, j: nat, t: nat)
    requires TurnHistory(turns, mode, tallies) && j <= t < |tallies| && tallies[j].aborted
    ensures tallies[t].aborted
    decreases t - j
  {
    if j < t {
      AbortsStay(turns, mode, tallies, j, t - 1);
      StepOfHistory(turns, mode, tallies, t);
    }
  }

  // ---------------------------------------------------------------- the transcripts

  /** The context is what the model should be given, with the leftovers somewhere in it. */
  ghost predicate Fits(context: seq<Message>, r: Reading) {
    |context| == |r.given| + r.leftover.left && (r.leftover.left == 0 ==> context == r.given)
  }

  /**
   * The Agent's messages are those it started with followed by newMessages, and newMessages are the prompts,
   * what the run was told, and the messages of the turn in progress.
   */
  ghost predicate Transcribed(r: Reading, start: seq<Message>, prompts: seq<Message>, newMessages: seq<Message>,
                              inProgress: seq<Message>)
  {
    r.view.messages == start + newMessages && newMessages == prompts + r.record.told + inProgress
  }

  ghost predicate Sound(r: Reading, oneByOne: bool) {
    r.clean && r.sees && (oneByOne ==> r.pace.peak <= 1)
  }

  lemma Appended(a: seq<Message>, b: seq<Message>, m: seq<Message>)
    ensures (a + b) + m == a + (b + m)
  {
  }

  // ---------------------------------------------------------------- one run

  /** A run at one moment, as a value: its log and what the log says, its variables, and the account of its turns. */
  datatype RunTrace = RunTrace(
    start: View, log: seq<Entry>, reading: Reading, prompts: seq<Message>, context: seq<Message>,
    newMessages: seq<Message>, inProgress: seq<Message>, tallies: seq<Tally>, firstPoll: seq<Message>,
    mode: ToolExecutionMode, aborted: bool)

  /** The last of the first t turns wants a reply to the results of its calls. */
  ghost predicate WantsMore(tallies: seq<Tally>, t: nat) {
    0 < t < |tallies| && |tallies[t].endings| == t && tallies[t].endings[t - 1].course.more
  }

  /** The first turn has injected what the poll before it took. */
  ghost predicate OpenedWith(tallies: seq<Tally>, firstPoll: seq<Message>) {
    |tallies| > 1 ==> tallies[1].endings != [] && tallies[1].endings[0].course.injected == firstPoll
  }

  datatype TurnResult = Suspended | Halted | TurnEnded(hasMoreToolCalls: bool)

  datatype Status = Going | Complete | Halfway

  /** One run: the variables of runAgentLoop, runAgentLoopContinue and runLoop. */
  class LoopRun {
    const sink: Sink
    const signal: Signal
    var context: seq<Message>  // currentContext.messages
    var newMessages: seq<Message>
    var skipInitialSteeringPoll: bool
    ghost var inProgress: seq<Message>  // the reply and the results of the turn that has not ended
    ghost var tallies: seq<Tally>       // at the beginning of each turn, and after the last
    ghost var firstPoll: seq<Message>   // what the poll before the first turn has taken
    ghost const prompts: seq<Message>
    ghost const steeringBefore: seq<Message>
    ghost const followUpsBefore: seq<Message>

    ghost predicate OneByOne()
      reads sink.agent.steeringQueue, sink.agent.followUpQueue
    {
      sink.agent.steeringQueue.mode == OneAtATime && sink.agent.followUpQueue.mode == OneAtATime
    }

    ghost function Mode(): ToolExecutionMode { sink.agent.toolExecution }

    ghost function Trace(): RunTrace
      reads this, sink, signal
    {
      RunTrace(sink.start, sink.log, sink.reading, prompts, context, newMessages, inProgress, tallies, firstPoll,
               Mode(), signal.aborted)
    }

    ghost function Now(): Tally
      reads sink, signal
    {
      TallyOf(sink.reading, signal.aborted)
    }

    /** The three transcripts. */
    ghost predicate Valid()
      reads `context, `newMessages, `inProgress, sink, sink.agent, sink.agent.steeringQueue, sink.agent.followUpQueue
    {
      && sink.Synced() && sink.agent.Queued()
      && Fits(context, sink.reading)
      && Transcribed(sink.reading, sink.start.messages, prompts, newMessages, inProgress)
      && Sound(sink.reading, OneByOne())
    }

    /** What was taken from each queue has been injected, apart from what is pending. */
    ghost predicate Held(pending: seq<Message>, queue: QueueName)
      reads sink, sink.agent.steeringQueue, sink.agent.followUpQueue
    {
      && sink.agent.steeringQueue.drained ==
           steeringBefore + sink.reading.record.steering + (if queue == Steering then pending else [])
      && sink.agent.followUpQueue.drained ==
           followUpsBefore + sink.reading.record.followUps + (if queue == FollowUp then pending else [])
    }

    /** Between two statements of the loop, outside a tool batch. */
    ghost predicate At(turns: TurnPhase, pending: seq<Message>, queue: QueueName)
      reads `context, `newMessages, `inProgress, sink, sink.agent, sink.agent.steeringQueue, sink.agent.followUpQueue
    {
      && Valid() && Held(pending, queue)
      && Calm(sink.reading.(turns := InTurn(0, false))) && sink.reading.turns == turns
      && sink.reading.view.pendingToolCalls == {}
      && (!turns.InTurn? ==> inProgress == [])
      && (OneByOne() ==> |pending| <= 1)
    }

    constructor (sink: Sink, signal: Signal, context: seq<Message>, newMessages: seq<Message>, skip: bool)
      requires sink.agent.Queued()
      ensures this.sink == sink && this.signal == signal && this.context == context && this.newMessages == newMessages
      ensures prompts == newMessages && inProgress == [] && skipInitialSteeringPoll == skip
      ensures steeringBefore == sink.agent.steeringQueue.drained && followUpsBefore == sink.agent.followUpQueue.drained
    {
      this.sink, this.signal, this.context, this.newMessages := sink, signal, context, newMessages;
      prompts, inProgress, tallies, firstPoll, skipInitialSteeringPoll := newMessages, [], [], [], skip;
      steeringBefore, followUpsBefore := sink.agent.steeringQueue.drained, sink.agent.followUpQueue.drained;
    }

    // -------------------------------------------------------------- queues

    /** getSteeringMessages */
    method GetSteeringMessages(ghost turns: TurnPhase) returns (pending: seq<Message>)
      requires At(turns, [], Steering)
      modifies `skipInitialSteeringPoll, sink.agent.steeringQueue`messages, sink.agent.steeringQueue`drained
      ensures At(turns, pending, Steering)
      ensures !skipInitialSteeringPoll && (old(skipInitialSteeringPoll) ==> pending == [])
      ensures !old(skipInitialSteeringPoll) ==>
        && (pending == [] <==> old(sink.agent.steeringQueue.messages) == [])
        && old(sink.agent.steeringQueue.messages) == pending + sink.agent.steeringQueue.messages
    {
      if skipInitialSteeringPoll {
        skipInitialSteeringPoll := false;
        pending := [];
      } else {
        pending := sink.agent.steeringQueue.Drain();
        assert sink.agent.steeringQueue.drained == steeringBefore + sink.reading.record.steering + pending;
      }
    }

    /** getFollowUpMessages */
    method GetFollowUpMessages(ghost turns: TurnPhase) returns (pending: seq<Message>)
      requires At(turns, [], Steering)
      modifies sink.agent.followUpQueue`messages, sink.agent.followUpQueue`drained
      ensures At(turns, pending, FollowUp)
      ensures pending == [] <==> old(sink.agent.followUpQueue.messages) == []
      ensures old(sink.agent.followUpQueue.messages) == pending + sink.agent.followUpQueue.messages
    {
      pending := sink.agent.followUpQueue.Drain();
      assert sink.agent.followUpQueue.drained == followUpsBefore + sink.reading.record.followUps + pending;
    }

    /** steer and followUp */
    method ReceiveOne(action: UserAction, ghost turns: TurnPhase, ghost pending: seq<Message>, ghost queue: QueueName)
      requires At(turns, pending, queue)
      modifies sink.agent.steeringQueue`messages, sink.agent.steeringQueue`enqueued
      modifies sink.agent.followUpQueue`messages, sink.agent.followUpQueue`enqueued
      ensures At(turns, pending, queue)
      ensures sink.agent.steeringQueue.messages == old(sink.agent.steeringQueue.messages) + SentBy(action, Steering)
      ensures sink.agent.followUpQueue.messages == old(sink.agent.followUpQueue.messages) + SentBy(action, FollowUp)
    {
      match action {
        case Steer(m) => sink.agent.steeringQueue.Enqueue(m);
        case QueueFollowUp(m) => sink.agent.followUpQueue.Enqueue(m);
      }
    }

    /** What the user queues while the run awaits something. */
    method Receive(actions: seq<UserAction>,
                   ghost turns: TurnPhase, ghost pending: seq<Message>, ghost queue: QueueName)
      requires At(turns, pending, queue)
      modifies sink.agent.steeringQueue`messages, sink.agent.steeringQueue`enqueued
      modifies sink.agent.followUpQueue`messages, sink.agent.followUpQueue`enqueued
      ensures At(turns, pending, queue)
      ensures sink.agent.steeringQueue.messages == old(sink.agent.steeringQueue.messages) + Sent(actions, Steering)
      ensures sink.agent.followUpQueue.messages == old(sink.agent.followUpQueue.messages) + Sent(actions, FollowUp)
    {
      ghost var steered, followed := sink.agent.steeringQueue.messages, sink.agent.followUpQueue.messages;
      for i := 0 to |actions|
        invariant At(turns, pending, queue)
        invariant sink.agent.steeringQueue.messages == steered + Sent(actions[..i], Steering)
        invariant sink.agent.followUpQueue.messages == followed + Sent(actions[..i], FollowUp)
      {
        SentOneMore(actions, i);
        ReceiveOne(actions[i], turns, pending, queue);
      }
      assert actions[..|actions|] == actions;
    }

    // -------------------------------------------------------------- turns begin and end

    /** Emits turn_start or agent_end. */
    method EmitFrame(e: Event, ghost turns: TurnPhase, ghost pending: seq<Message>, ghost queue: QueueName)
      requires At(turns, pending, queue) && inProgress == [] && (e.TurnStart? || e.AgentEnd?)
      requires NextTurnPhase(turns, Entry.Emit(e)) != Wrong
      modifies sink, sink.agent
      ensures At(NextTurnPhase(turns, Entry.Emit(e)), pending, queue) && sink.log == old(sink.log) + [Entry.Emit(e)]
      ensures Now() == old(Now())
      ensures e == TurnStart ==> sink.reading.pace.inTurn == 0
    {
      sink.Emit(e);
    }

    /** Emits turn_end with the turn's reply and results. */
    method EmitTurnEnd(
        message: Message, results: seq<Message>, ghost n: nat, ghost halted: bool, ghost queue: QueueName)
      requires At(InTurn(n, halted), [], queue) && inProgress == [message] + results
      modifies `inProgress, sink, sink.agent
      ensures At(Gap(n + 1, halted), [], queue)
      ensures sink.log == old(sink.log) + [Entry.Emit(TurnEnd(message, results))]
      ensures Now() == Concluded(old(Now()), message, results)
    {
      Appended(prompts, sink.reading.record.told, inProgress);
      sink.Emit(TurnEnd(message, results));
      inProgress := [];
      assert newMessages == prompts + sink.reading.record.told + [];
    }

    /** What turn_end makes of a tally. */
    static function Concluded(t: Tally, message: Message, results: seq<Message>): Tally {
      t.(endings := t.endings + [Ending(message, results, t.course)], course := NOTHING_YET)
    }

    /** prepareNextTurn */
    method PrepareNextTurn(hook: TurnHook, ghost n: nat, ghost pending: seq<Message>, ghost queue: QueueName)
      requires At(Gap(n, false), pending, queue) && n > 0
      modifies `context, sink
      ensures At(Gap(n, false), pending, queue)
      ensures match hook
        case NoUpdate => context == old(context) && Now() == old(Now())
        case SwapContext(messages) =>
          context == messages && Now() == old(Now()).(
            replacements := old(sink.reading.record.replacements) + [messages], left := 0)
    {
      match hook {
        case NoUpdate =>
        case SwapContext(messages) =>
          context := messages;
          sink.Note(Replaced(messages));
      }
    }

    /** The first events: agent_start, turn_start, and the prompts. */
    method Begin(prompts: seq<Message>)
      requires this.prompts == prompts && inProgress == []
      requires sink.Synced() && sink.agent.Queued() && sink.reading == Unread(sink.start)
      requires sink.start.pendingToolCalls == {}
      requires newMessages == prompts && context == sink.start.messages + prompts
      requires steeringBefore == sink.agent.steeringQueue.drained && followUpsBefore == sink.agent.followUpQueue.drained
      modifies sink, sink.agent
      ensures At(InTurn(0, false), [], Steering) && sink.reading.pace.inTurn == 0
      ensures Now() == NO_TURNS.(aborted := signal.aborted)
    {
      sink.Emit(AgentStart);
      sink.Emit(TurnStart);
      EmitPrompts(prompts, sink.reading);
    }

    /** Before the first turn. */
    ghost method StartHistory()
      requires Now() == NO_TURNS.(aborted := signal.aborted)
      modifies `tallies
      ensures tallies == [Now()]
    {
      tallies := [Now()];
    }

    method EmitPrompts(prompts: seq<Message>, ghost before: Reading)
      requires sink.Synced() && sink.reading == before && Calm(before) && before.given == before.view.messages
      modifies sink, sink.agent
      ensures sink.Synced() && sink.reading == before.(view := sink.reading.view, given := sink.reading.given)
      ensures sink.reading.given == sink.reading.view.messages == before.given + prompts
      ensures sink.reading.view.pendingToolCalls == before.view.pendingToolCalls
    {
      for i := 0 to |prompts|
        invariant sink.Synced() && sink.reading == before.(view := sink.reading.view, given := sink.reading.given)
        invariant sink.reading.given == sink.reading.view.messages == before.given + prompts[..i]
        invariant sink.reading.view.pendingToolCalls == before.view.pendingToolCalls
      {
        assert prompts[..i + 1] == prompts[..i] + [prompts[i]];
        sink.EmitMessage(prompts[i]);
      }
      assert prompts[..|prompts|] == prompts;
    }

    // -------------------------------------------------------------- injection

    /** In a turn that has injected i messages, with the others still pending. */
    ghost predicate Injecting(n: nat, pending: seq<Message>, queue: QueueName, i: nat)
      reads `context, `newMessages, `inProgress, sink, sink.agent, sink.agent.steeringQueue, sink.agent.followUpQueue
    {
      && Valid() && Held(pending, queue) && inProgress == []
      && Calm(sink.reading) && sink.reading.turns == InTurn(n, false) && sink.reading.pace.inTurn == i
      && sink.reading.view.pendingToolCalls == {}
      && (OneByOne() ==> i + |pending| <= 1)
    }

    /** Takes the next pending message into the record; it is due to be announced. */
    ghost method TakeNext(m: Message, n: nat, rest: seq<Message>, queue: QueueName, i: nat)
      requires Injecting(n, [m] + rest, queue, i)
      modifies sink
      ensures sink.Synced() && sink.reading == NextReading(old(sink.reading), Injected(queue, m))
      ensures Held(rest, queue)
    {
      ghost var r := sink.reading.record;
      Appended(steeringBefore + r.steering, [m], rest);
      Appended(followUpsBefore + r.followUps, [m], rest);
      Appended(steeringBefore, r.steering, [m]);
      Appended(followUpsBefore, r.followUps, [m]);
      sink.Note(Injected(queue, m));
    }

    static function WithInjected(t: Tally, messages: seq<Message>): Tally {
      t.(course := t.course.(injected := t.course.injected + messages))
    }

    method InjectOne(m: Message, ghost n: nat, ghost rest: seq<Message>, ghost queue: QueueName, ghost i: nat)
      requires Injecting(n, [m] + rest, queue, i)
      modifies `context, `newMessages, sink, sink.agent
      ensures Injecting(n, rest, queue, i + 1)
      ensures newMessages == old(newMessages) + [m] && context == old(context) + [m]
      ensures Now() == WithInjected(old(Now()), [m])
      ensures newMessages + rest == old(newMessages) + ([m] + rest)
      ensures WithInjected(Now(), rest) == WithInjected(old(Now()), [m] + rest)
    {
      Appended(newMessages, [m], rest);
      Appended(Now().course.injected, [m], rest);
      ghost var before := sink.reading;
      TakeNext(m, n, rest, queue, i);
      sink.EmitMessage(m);
      InjectedFits(before, sink.reading, m, context, newMessages);
      context := context + [m];
      newMessages := newMessages + [m];
    }

    lemma InjectedFits(before: Reading, after: Reading, m: Message, was: seq<Message>, messages: seq<Message>)
      requires Fits(was, before) && Transcribed(before, sink.start.messages, prompts, messages, [])
      requires after.view.messages == before.view.messages + [m] && after.given == before.given + [m]
      requires after.record.told == before.record.told + [m] && after.leftover.left == before.leftover.left
      ensures Fits(was + [m], after) && Transcribed(after, sink.start.messages, prompts, messages + [m], [])
    {
      Appended(sink.start.messages, messages, [m]);
      Appended(prompts, before.record.told, [m]);
      assert prompts + before.record.told + [] == prompts + before.record.told;
    }

    /** Injects the pending messages before the next reply. */
    method Inject(pending: seq<Message>, ghost n: nat, ghost queue: QueueName)
      requires At(InTurn(n, false), pending, queue) && sink.reading.pace.inTurn == 0 && inProgress == []
      modifies `context, `newMessages, sink, sink.agent
      ensures At(InTurn(n, false), [], queue)
      ensures newMessages == old(newMessages) + pending
      ensures Now() == WithInjected(old(Now()), pending)
    {
      ghost var rest, total, tally := pending, newMessages + pending, WithInjected(Now(), pending);
      for i := 0 to |pending|
        invariant rest == pending[i..] && newMessages + rest == total
        invariant Injecting(n, rest, queue, i) && WithInjected(Now(), rest) == tally
      {
        ghost var later := pending[i + 1..];
        assert rest == [pending[i]] + later;
        InjectOne(pending[i], n, later, queue, i);
        rest := later;
      }
      assert newMessages + [] == newMessages && WithInjected(Now(), []) == Now();
    }

    // -------------------------------------------------------------- streaming

    static function BracketAfter(b: BracketPhase, starts: nat): BracketPhase {
      if starts == 0 then b else if b == Shut && starts == 1 then Open else Broken
    }

    static function LeftoverAfter(l: Leftover, starts: nat): Leftover {
      if starts == 0 then l else Leftover(true, l.left + starts - 1)
    }

    static function StreamingAfter(v: View, ps: seq<Message>): View {
      if ps == [] then v else v.(streaming := Some(ps[|ps| - 1]))
    }

    /** What the partials so far make of the reading the stream began with. */
    static function StreamReading(before: Reading, ps: seq<Message>): Reading {
      before.(brackets := BracketAfter(before.brackets, |ps|), leftover := LeftoverAfter(before.leftover, |ps|),
              view := StreamingAfter(before.view, ps))
    }

    /** While a reply streams: the context ends with the partials so far. */
    ghost predicate Streaming(before: Reading, base: seq<Message>, ps: seq<Message>)
      reads `context, sink, sink.agent
    {
      && sink.Synced() && Calm(before)
      && context == base + ps && sink.reading == StreamReading(before, ps)
    }

    static function PartialsAfter(ps: seq<Message>, event: StreamEvent): seq<Message> {
      match event
      case StreamStart(p) => ps + [p]
      case StreamDelta(p) => if ps == [] then ps else ps[|ps| - 1 := p]
      case StreamEnd => ps
    }

    /** A `start` or content event of the stream. */
    method StreamOne(event: StreamEvent, partialMessage: Option<Message>,
                     ghost before: Reading, ghost base: seq<Message>, ghost ps: seq<Message>)
      returns (partialMessage': Option<Message>)
      requires Streaming(before, base, ps) && !event.StreamEnd?
      requires partialMessage.Some? <==> ps != []
      modifies `context, sink, sink.agent
      ensures Streaming(before, base, PartialsAfter(ps, event))
      ensures partialMessage'.Some? <==> PartialsAfter(ps, event) != []
    {
      partialMessage' := partialMessage;
      match event {
        case StreamStart(p) =>
          partialMessage' := Some(p);
          context := context + [p];
          sink.Emit(MessageStart(p));
        case StreamDelta(p) =>
          if partialMessage.Some? {
            partialMessage' := Some(p);
            context := context[|context| - 1 := p];
            assert context == base + PartialsAfter(ps, event);
            sink.Emit(MessageUpdate(p));
          }
      }
    }

    /** The loop over the stream, up to its first end event. */
    method StreamEvents(reply: Reply, ghost before: Reading, ghost base: seq<Message>)
      returns (partialMessage: Option<Message>, ghost ps: seq<Message>)
      requires Streaming(before, base, [])
      modifies `context, sink, sink.agent
      ensures ps == Partials(UpToEnd(reply.events)) && (partialMessage.Some? <==> ps != [])
      ensures Streaming(before, base, ps)
    {
      partialMessage, ps := None, [];
      var i := 0;
      while i < |reply.events| && !reply.events[i].StreamEnd?
        invariant i <= |reply.events| && forall k :: 0 <= k < i ==> !reply.events[k].StreamEnd?
        invariant ps == Partials(reply.events[..i]) && (partialMessage.Some? <==> ps != [])
        invariant Streaming(before, base, ps)
      {
        assert reply.events[..i + 1][..i] == reply.events[..i];
        partialMessage := StreamOne(reply.events[i], partialMessage, before, base, ps);
        ps := PartialsAfter(ps, reply.events[i]);
        i := i + 1;
      }
      CutAtEnd(reply.events, i);
    }

    /** What a whole reply makes of a calm reading; `stale` are the partials it leaves behind. */
    static function ReplyReading(before: Reading, message: Message, stale: seq<Message>): Reading {
      WithMessage(before, message).(
        brackets := if stale == [] then before.brackets else Broken,
        leftover := Leftover(false, before.leftover.left + |stale|))
    }

    /** The final message replaces the last partial, or is new when no `start` came. */
    method FinishStream(message: Message, partialMessage: Option<Message>,
                        ghost before: Reading, ghost base: seq<Message>, ghost ps: seq<Message>)
      requires Streaming(before, base, ps)
      requires partialMessage.Some? <==> ps != []
      modifies `context, sink, sink.agent
      ensures context == base + AllButLast(ps) + [message]
      ensures sink.Synced() && sink.reading == ReplyReading(before, message, AllButLast(ps))
    {
      if partialMessage.Some? {
        context := context[|context| - 1 := message];
        assert context == base + AllButLast(ps) + [message];
        sink.Emit(MessageEnd(message));
      } else {
        assert base + [] == base;
        context := context + [message];
        sink.EmitMessage(message);
      }
    }

    method StreamAssistantResponse(reply: Reply, ghost n: nat) returns (message: Message)
      requires sink.Synced() && Calm(sink.reading) && sink.reading.turns == InTurn(n, false)
      requires Fits(context, sink.reading)
      modifies `context, sink, sink.agent
      ensures message == reply.Final() && context == old(context) + Stale(reply) + [message]
      ensures sink.Synced() && sink.reading ==
        ReplyReading(old(sink.reading), message, Stale(reply)).(turns := InTurn(n, Halting(reply.stopReason)))
    {
      ghost var base := context;
      sink.Note(ModelCall(context));
      ghost var before := sink.reading;
      assert base == base + [];
      var partialMessage, ps := StreamEvents(reply, before, base);
      message := reply.Final();
      FinishStream(message, partialMessage, before, base, ps);
      sink.Note(Replied(reply.stopReason));
    }

    lemma ReplyFits(before: Reading, message: Message, stale: seq<Message>, was: seq<Message>, messages: seq<Message>)
      requires Fits(was, before) && Transcribed(before, sink.start.messages, prompts, messages, [])
      ensures var after := ReplyReading(before, message, stale);
        && Fits(was + stale + [message], after)
        && Transcribed(after, sink.start.messages, prompts, messages + [message], [message])
    {
      Appended(sink.start.messages, messages, [message]);
      assert prompts + before.record.told + [] == prompts + before.record.told;
      if stale == [] { assert was + stale == was; }
    }

    // -------------------------------------------------------------- one turn

    /** streamAssistantResponse, and its message appended to newMessages. */
    method TakeReply(reply: Reply, ghost n: nat, ghost queue: QueueName) returns (message: Message)
      requires At(InTurn(n, false), [], queue) && inProgress == []
      modifies `context, `newMessages, `inProgress, sink, sink.agent
      ensures At(InTurn(n, Halting(reply.stopReason)), [], queue)
      ensures message == reply.Final() && newMessages == old(newMessages) + [message] && inProgress == [message]
      ensures Now() == AfterReply(old(Now()), reply)
    {
      ReplyFits(sink.reading, reply.Final(), Stale(reply), context, newMessages);
      message := StreamAssistantResponse(reply, n);
      newMessages := newMessages + [message];
      inProgress := [message];
    }

    /** Suspended inside a batch of concurrent tools. */
    ghost predicate Waiting(n: nat, queue: QueueName)
      reads `context, `newMessages, `inProgress, sink, sink.agent, sink.agent.steeringQueue, sink.agent.followUpQueue
    {
      Valid() && Held([], queue) && sink.reading.turns == InTurn(n, false)
    }

    /** Appends the results to context and newMessages, which have been behind the Agent's transcript. */
    method AppendResults(results: seq<Message>, ghost before: Reading, ghost after: Reading)
      requires Fits(context, before)
      requires Transcribed(before, sink.start.messages, prompts, newMessages, inProgress)
      requires after.view.messages == before.view.messages + results && after.given == before.given + results
      requires after.leftover == before.leftover && after.record.told == before.record.told
      modifies `context, `newMessages, `inProgress
      ensures newMessages == old(newMessages) + results && context == old(context) + results
      ensures inProgress == old(inProgress) + results
      ensures Fits(context, after) && Transcribed(after, sink.start.messages, prompts, newMessages, inProgress)
    {
      for i := 0 to |results|
        invariant newMessages == old(newMessages) + results[..i] && context == old(context) + results[..i]
        invariant inProgress == old(inProgress)
      {
        assert results[..i + 1] == results[..i] + [results[i]];
        context := context + [results[i]];
        newMessages := newMessages + [results[i]];
      }
      assert results[..|results|] == results;
      Appended(sink.start.messages, old(newMessages), results);
      Appended(prompts + before.record.told, old(inProgress), results);
      inProgress := inProgress + results;
    }

    /** What tool calls make of a tally. */
    static function AfterCalls(t: Tally, more: bool, aborted: bool): Tally {
      t.(course := t.course.(more := more), aborted := aborted)
    }

    /** Runs the tool calls of a reply and appends their results. */
    method RunToolCalls(turn: TurnScript, calls: seq<ToolCall>, ghost n: nat, ghost queue: QueueName)
      returns (finished: bool, batch: Batch, ghost rans: seq<Ran>)
      requires At(InTurn(n, false), [], queue)
      modifies `context, `newMessages, `inProgress, sink, sink.agent, signal
      ensures if finished then At(InTurn(n, false), [], queue) else Waiting(n, queue)
      ensures Now() == AfterCalls(old(Now()), Now().course.more, signal.aborted)
      ensures old(signal.aborted) ==> signal.aborted
      ensures finished ==>
        (Now().course.more <==> old(sink.reading.record.course.more) || (rans != [] && !AllTerminate(rans)))
      ensures finished ==> newMessages == old(newMessages) + batch.messages && context == old(context) + batch.messages
      ensures finished ==> inProgress == old(inProgress) + batch.messages
      ensures finished ==> Answers(calls, rans, batch.messages) && (|rans| < |calls| ==> signal.aborted)
      ensures finished ==> |old(sink.log)| <= |sink.log|
      ensures finished ==> Finished(sink.log[|old(sink.log)|..], calls, rans, batch.messages)
      ensures finished ==> (batch.terminate <==> AllTerminate(rans))
      ensures finished ==>
        RansOf(turn, sink.agent.toolExecution, calls, old(signal.aborted), signal.aborted, rans)
    {
      ghost var before := sink.reading;
      finished, batch, rans :=
        ExecuteToolCalls(sink, signal, turn.reply.stopReason == Length, calls, turn.calls, turn.moves);
      if finished {
        AppendResults(batch.messages, before, sink.reading);
      }
    }

    /** The tool calls of the turn's reply, if it has any; more is hasMoreToolCalls. */
    method AnswerToolCalls(turn: TurnScript, ghost n: nat, ghost queue: QueueName)
      returns (finished: bool, results: seq<Message>, more: bool, ghost rans: seq<Ran>)
      requires At(InTurn(n, false), [], queue)
      modifies `context, `newMessages, `inProgress, sink, sink.agent, signal
      ensures if finished then At(InTurn(n, false), [], queue) else Waiting(n, queue)
      ensures Now() == AfterCalls(old(Now()), Now().course.more, signal.aborted)
      ensures old(signal.aborted) ==> signal.aborted
      ensures finished ==> newMessages == old(newMessages) + results && inProgress == old(inProgress) + results
      ensures finished ==> (more <==> ToolCalls(turn.reply.blocks) != [] && !AllTerminate(rans))
      ensures finished ==> (Now().course.more <==> old(sink.reading.record.course.more) || more)
      ensures finished ==>
        CallsAnswered(turn, Mode(), Ending(turn.reply.Final(), results, Course([], more)),
                      old(signal.aborted), signal.aborted, rans)
    {
      var calls := ToolCalls(turn.reply.blocks);
      results, more, finished, rans := [], false, true, [];
      if |calls| > 0 {
        var batch;
        finished, batch, rans := RunToolCalls(turn, calls, n, queue);
        results, more := batch.messages, !batch.terminate;
      } else {
        assert newMessages + [] == newMessages && inProgress + [] == inProgress && ResultsOf(calls, []) == [];
      }
    }

    /** The rest of a turn whose calls have been answered. */
    method EndTurn(
        actions: seq<UserAction>, message: Message, results: seq<Message>, ghost n: nat, ghost queue: QueueName)
      requires At(InTurn(n, false), [], queue) && inProgress == [message] + results
      modifies `inProgress, sink, sink.agent
      modifies sink.agent.steeringQueue`messages, sink.agent.steeringQueue`enqueued
      modifies sink.agent.followUpQueue`messages, sink.agent.followUpQueue`enqueued
      ensures At(Gap(n + 1, false), [], queue)
      ensures sink.log == old(sink.log) + [Emit(TurnEnd(message, results))]
      ensures Now() == Concluded(old(Now()), message, results)
    {
      Receive(actions, InTurn(n, false), [], queue);
      EmitTurnEnd(message, results, n, false, queue);
    }

    /** After a reply that does not halt the run: its tool calls, and turn_end. */
    method CloseTurn(turn: TurnScript, message: Message, ghost n: nat, ghost queue: QueueName)
      returns (end: TurnResult, results: seq<Message>, ghost rans: seq<Ran>)
      requires At(InTurn(n, false), [], queue) && inProgress == [message] && message == turn.reply.Final()
      requires !Halting(turn.reply.stopReason) && !Now().course.more
      modifies `context, `newMessages, `inProgress, sink, sink.agent, signal
      modifies sink.agent.steeringQueue`messages, sink.agent.steeringQueue`enqueued
      modifies sink.agent.followUpQueue`messages, sink.agent.followUpQueue`enqueued
      ensures end != Halted && (old(signal.aborted) ==> signal.aborted)
      ensures end == Suspended ==>
        Waiting(n, queue) && Now() == AfterCalls(old(Now()), Now().course.more, signal.aborted)
      ensures end.TurnEnded? ==>
        && At(Gap(n + 1, false), [], queue)
        && newMessages == old(newMessages) + results
        && Now() == Concluded(AfterCalls(old(Now()), end.hasMoreToolCalls, signal.aborted), message, results)
        && CallsAnswered(turn, Mode(), Ending(message, results, old(Now()).course.(more := end.hasMoreToolCalls)),
                         old(signal.aborted), signal.aborted, rans)
    {
      var finished, more;
      finished, results, more, rans := AnswerToolCalls(turn, n, queue);
      if !finished { return Suspended, results, rans; }
      EndTurn(turn.duringTurn, message, results, n, queue);
      end := TurnEnded(more);
    }

    /** The pending messages and the reply. */
    method InjectAndReply(pending: seq<Message>, reply: Reply, ghost n: nat, ghost queue: QueueName)
      returns (message: Message)
      requires At(InTurn(n, false), pending, queue) && sink.reading.pace.inTurn == 0 && inProgress == []
      modifies `context, `newMessages, `inProgress, sink, sink.agent
      ensures At(InTurn(n, Halting(reply.stopReason)), [], queue) && inProgress == [message]
      ensures message == reply.Final() && newMessages == old(newMessages) + pending + [message]
      ensures Now() == AfterReply(WithInjected(old(Now()), pending), reply)
    {
      Inject(pending, n, queue);
      message := TakeReply(reply, n, queue);
    }

    /** A turn from its first injection to its turn_end; `ending` is what turn_end records of it. */
    method RunTurn(turn: TurnScript, pending: seq<Message>, ghost n: nat, ghost queue: QueueName)
      returns (end: TurnResult, results: seq<Message>, ghost rans: seq<Ran>, ghost ending: Ending)
      requires At(InTurn(n, false), pending, queue) && sink.reading.pace.inTurn == 0 && inProgress == []
      requires Now().course == NOTHING_YET
      modifies `context, `newMessages, `inProgress, sink, sink.agent, signal
      modifies sink.agent.steeringQueue`messages, sink.agent.steeringQueue`enqueued
      modifies sink.agent.followUpQueue`messages, sink.agent.followUpQueue`enqueued
      ensures if end == Suspended then Waiting(n, queue) else At(Gap(n + 1, end == Halted), [], queue)
      ensures (end == Halted <==> Halting(turn.reply.stopReason)) && (old(signal.aborted) ==> signal.aborted)
      ensures end != Suspended ==> newMessages == old(newMessages) + pending + [turn.reply.Final()] + results
      ensures end != Suspended ==> Records(turn, Mode(), ending, old(signal.aborted), signal.aborted)
      ensures end != Suspended ==> ending.results == results && ending.course.injected == pending
      ensures end.TurnEnded? ==>
        && CallsAnswered(turn, Mode(), ending, old(signal.aborted), signal.aborted, rans)
        && (end.hasMoreToolCalls <==> ending.course.more)
      ensures Now() == AfterTurn(old(Now()), turn, end != Suspended, ending, Now().course, signal.aborted)
    {
      ghost var tally := Now();
      var message := InjectAndReply(pending, turn.reply, n, queue);
      assert [] + pending == pending;
      if Halting(message.stopReason) {
        end, results, rans := Halted, [], [];
        assert newMessages + results == newMessages && [message] + results == [message];
        EmitTurnEnd(message, [], n, true, queue);
        ending := Ending(message, results, Course(pending, false));
        ConcludedTurn(tally, turn, pending, false, signal.aborted, results);
      } else {
        end, results, rans, ending := AnswerAndClose(turn, message, pending, n, queue, tally);
      }
    }

    /** CloseTurn, in terms of the tally at the beginning of the turn. */
    method AnswerAndClose(turn: TurnScript, message: Message, ghost pending: seq<Message>, ghost n: nat,
                          ghost queue: QueueName, ghost tally: Tally)
      returns (end: TurnResult, results: seq<Message>, ghost rans: seq<Ran>, ghost ending: Ending)
      requires At(InTurn(n, false), [], queue) && inProgress == [message] && message == turn.reply.Final()
      requires !Halting(turn.reply.stopReason) && tally.course == NOTHING_YET
      requires Now() == AfterReply(WithInjected(tally, pending), turn.reply)
      modifies `context, `newMessages, `inProgress, sink, sink.agent, signal
      modifies sink.agent.steeringQueue`messages, sink.agent.steeringQueue`enqueued
      modifies sink.agent.followUpQueue`messages, sink.agent.followUpQueue`enqueued
      ensures end != Halted && (old(signal.aborted) ==> signal.aborted)
      ensures if end == Suspended then Waiting(n, queue) else At(Gap(n + 1, false), [], queue)
      ensures end.TurnEnded? ==>
        && newMessages == old(newMessages) + results
        && CallsAnswered(turn, Mode(), ending, old(signal.aborted), signal.aborted, rans)
        && (end.hasMoreToolCalls <==> ending.course.more)
        && ending == Ending(message, results, Course(pending, ending.course.more))
      ensures Now() == AfterTurn(tally, turn, end != Suspended, ending, Now().course, signal.aborted)
    {
      assert [] + pending == pending;
      end, results, rans := CloseTurn(turn, message, n, queue);
      ghost var more := end.TurnEnded? && end.hasMoreToolCalls;
      ending := Ending(message, results, Course(pending, more));
      ConcludedTurn(tally, turn, pending, more, signal.aborted, results);
      SuspendedTurn(tally, turn, pending, ending, Now().course, signal.aborted);
    }

    lemma ConcludedTurn(
        t: Tally, turn: TurnScript, pending: seq<Message>, more: bool, aborted: bool, results: seq<Message>)
      requires t.course == NOTHING_YET
      ensures var replied := AfterReply(WithInjected(t, pending), turn.reply);
        && replied.course == Course(pending, false)
        && Concluded(AfterCalls(replied, more, aborted), turn.reply.Final(), results)
           == AfterTurn(t, turn, true, Ending(turn.reply.Final(), results, Course(pending, more)), NOTHING_YET, aborted)
    {
      assert [] + pending == pending;
    }

    lemma SuspendedTurn(
        t: Tally, turn: TurnScript, pending: seq<Message>, ending: Ending, course: Course, aborted: bool)
      ensures AfterCalls(AfterReply(WithInjected(t, pending), turn.reply), course.more, aborted).(course := course)
           == AfterTurn(t, turn, false, ending, course, aborted)
    {
    }

    /** What a turn makes of a tally, when it ends and when it is suspended. */
    static function AfterTurn(
        t: Tally, turn: TurnScript, ended: bool, ending: Ending, course: Course, aborted: bool): Tally
    {
      var replied := AfterReply(t, turn.reply).(aborted := aborted);
      if ended then replied.(endings := t.endings + [ending], course := NOTHING_YET) else replied.(course := course)
    }

    static function AfterReply(t: Tally, reply: Reply): Tally {
      t.(left := t.left + |Stale(reply)|, broken := t.broken || Stale(reply) != [])
    }

    // -------------------------------------------------------------- the loop

    /** shouldStopAfterTurn */
    method ShouldStopAfterTurn(answer: bool, ghost n: nat, ghost queue: QueueName) returns (stop: bool)
      requires At(Gap(n, false), [], queue) && n > 0
      modifies sink
      ensures At(Gap(n, answer), [], queue) && stop == answer
      ensures Now() == old(Now())
    {
      sink.Note(StopAsked(answer));
      stop := answer;
    }

    /** prepareNextTurn, and what the user queues meanwhile. */
    method PrepareAndReceive(turn: TurnScript, ghost n: nat, ghost pending: seq<Message>, ghost queue: QueueName)
      requires At(Gap(n, false), pending, queue) && n > 0
      modifies `context, sink
      modifies sink.agent.steeringQueue`messages, sink.agent.steeringQueue`enqueued
      modifies sink.agent.followUpQueue`messages, sink.agent.followUpQueue`enqueued
      ensures At(Gap(n, false), pending, queue)
      ensures context == match turn.prepare case NoUpdate => old(context) case SwapContext(messages) => messages
      ensures Now() == Prepared(old(Now()), turn.prepare)
    {
      PrepareNextTurn(turn.prepare, n, pending, queue);
      Receive(turn.duringPreparation, Gap(n, false), pending, queue);
    }

    /** Opens a turn that is not the first: prepareNextTurn, the second poll, turn_start. */
    method OpenTurn(turn: TurnScript, pending: seq<Message>, ghost n: nat, ghost queue: QueueName)
      returns (pending': seq<Message>, ghost queue': QueueName)
      requires At(Gap(n, false), pending, queue) && n > 0 && !skipInitialSteeringPoll
      modifies `context, `skipInitialSteeringPoll, sink, sink.agent
      modifies sink.agent.steeringQueue`messages, sink.agent.steeringQueue`enqueued, sink.agent.steeringQueue`drained
      modifies sink.agent.followUpQueue`messages, sink.agent.followUpQueue`enqueued
      ensures At(InTurn(n, false), pending', queue') && sink.reading.pace.inTurn == 0 && inProgress == []
      ensures pending != [] ==> pending' == pending && queue' == queue
      ensures pending' == [] ==> sink.agent.steeringQueue.messages == []
      ensures !skipInitialSteeringPoll && newMessages == old(newMessages)
      ensures context == match turn.prepare case NoUpdate => old(context) case SwapContext(messages) => messages
      ensures Now() == Prepared(old(Now()), turn.prepare)
    {
      pending', queue' := pending, queue;
      PrepareAndReceive(turn, n, pending, queue);
      if |pending| == 0 {
        pending' := GetSteeringMessages(Gap(n, false));
        queue' := Steering;
      }
      EmitFrame(TurnStart, Gap(n, false), pending', queue');
    }

    /** What prepareNextTurn makes of a tally. */
    static function Prepared(t: Tally, hook: TurnHook): Tally {
      match hook
      case NoUpdate => t
      case SwapContext(messages) => t.(replacements := t.replacements + [messages], left := 0)
    }

    static const NO_ENDING := Ending(User(""), [], NOTHING_YET)

    /** A turn, and the question whether to stop after it. */
    method RunTurnAndAsk(turn: TurnScript, pending: seq<Message>, ghost n: nat, ghost queue: QueueName)
      returns (end: TurnResult, stop: bool, ghost ending: Option<Ending>)
      requires At(InTurn(n, false), pending, queue) && sink.reading.pace.inTurn == 0 && inProgress == []
      requires Now().course == NOTHING_YET
      modifies `context, `newMessages, `inProgress, sink, sink.agent, signal
      modifies sink.agent.steeringQueue`messages, sink.agent.steeringQueue`enqueued
      modifies sink.agent.followUpQueue`messages, sink.agent.followUpQueue`enqueued
      ensures end == Suspended ==> Waiting(n, queue)
      ensures end == Halted ==> At(Gap(n + 1, true), [], queue)
      ensures end.TurnEnded? ==> At(Gap(n + 1, stop), [], queue) && stop == turn.stop
      ensures (end == Halted <==> Halting(turn.reply.stopReason)) && (old(signal.aborted) ==> signal.aborted)
      ensures (ending.None? <==> end == Suspended)
      ensures ending.Some? ==>
        && Records(turn, Mode(), ending.value, old(signal.aborted), signal.aborted)
        && ending.value.course.injected == pending
      ensures end.TurnEnded? ==> (end.hasMoreToolCalls <==> ending.value.course.more)
      ensures Now() ==
        AfterTurn(old(Now()), turn, ending.Some?, ending.GetOr(NO_ENDING), Now().course, signal.aborted)
    {
      var results;
      ghost var rans, recorded;
      end, results, rans, recorded := RunTurn(turn, pending, n, queue);
      ending := if end == Suspended then None else Some(recorded);
      stop := false;
      if end.TurnEnded? {
        stop := ShouldStopAfterTurn(turn.stop, n + 1, queue);
      }
    }

    /** One pass of the inner loop: opens the turn if it is not the first, runs it, and asks whether to stop. */
    method Iterate(turn: TurnScript, pending: seq<Message>, first: bool, ghost n: nat, ghost queue: QueueName)
      returns (end: TurnResult, stop: bool, ghost queue': QueueName, ghost ending: Option<Ending>)
      requires inProgress == [] && !skipInitialSteeringPoll && Now().course == NOTHING_YET
      requires first ==> At(InTurn(n, false), pending, queue) && sink.reading.pace.inTurn == 0
      requires !first ==> At(Gap(n, false), pending, queue) && n > 0
      modifies `context, `newMessages, `inProgress, `skipInitialSteeringPoll, sink, sink.agent, signal
      modifies sink.agent.steeringQueue`messages, sink.agent.steeringQueue`enqueued, sink.agent.steeringQueue`drained
      modifies sink.agent.followUpQueue`messages, sink.agent.followUpQueue`enqueued
      ensures !skipInitialSteeringPoll && (old(signal.aborted) ==> signal.aborted)
      ensures end == Suspended ==> Waiting(n, queue')
      ensures end == Halted ==> At(Gap(n + 1, true), [], queue')
      ensures end.TurnEnded? ==> At(Gap(n + 1, stop), [], queue') && stop == turn.stop
      ensures end == Halted <==> Halting(turn.reply.stopReason)
      ensures (ending.None? <==> end == Suspended)
      ensures ending.Some? ==> Records(turn, Mode(), ending.value, old(signal.aborted), signal.aborted)
      ensures ending.Some? && (first || pending != []) ==> ending.value.course.injected == pending
      ensures end.TurnEnded? ==> (end.hasMoreToolCalls <==> ending.value.course.more)
      ensures Now() == TallyAfter(old(Now()), turn, first, ending, Now().course, signal.aborted)
    {
      ghost var tally := Now();
      var injecting := pending;
      queue' := queue;
      if !first {
        injecting, queue' := OpenTurn(turn, pending, n, queue);
      }
      end, stop, ending := RunTurnAndAsk(turn, injecting, n, queue');
      PreparedThenRun(tally, turn, first, ending, Now().course, signal.aborted);
    }

    lemma PreparedThenRun(
        t: Tally, turn: TurnScript, first: bool, ending: Option<Ending>, course: Course, aborted: bool)
      ensures AfterTurn(if first then t else Prepared(t, turn.prepare), turn, ending.Some?, ending.GetOr(NO_ENDING),
                        course, aborted)
        == TallyAfter(t, turn, first, ending, course, aborted)
    {
      assert t.replacements + [] == t.replacements && t.endings + [] == t.endings;
    }

    /** agent_end, after which nothing is emitted. */
    method FinishLoop(ghost n: nat, ghost halted: bool, ghost queue: QueueName)
      requires At(Gap(n, halted), [], queue) && n > 0
      modifies sink, sink.agent
      ensures At(Over, [], Steering) && Now() == old(Now())
      ensures sink.log == old(sink.log) + [Emit(AgentEnd(newMessages))]
    {
      EmitFrame(AgentEnd(newMessages), Gap(n, halted), [], queue);
    }

    /** How a run ends: the turns it took, and what it still holds if it is suspended. */
    ghost predicate Ends(turns: seq<TurnScript>, used: nat, completed: bool, pending: seq<Message>, queue: QueueName)
      reads this, sink, sink.agent, sink.agent.steeringQueue, sink.agent.followUpQueue, signal
    {
      && TurnHistory(turns, Mode(), tallies) && used <= |turns|
      && (if completed then
            && used == |tallies| - 1 > 0 && Now() == tallies[used] && At(Over, [], Steering)
            && |sink.log| > 0 && sink.log[|sink.log| - 1] == Emit(AgentEnd(newMessages))
          else
            && |tallies| - 1 <= used <= |tallies|
            && Valid() && Held(pending, queue) && (sink.reading.turns.InTurn? || sink.reading.turns.Gap?))
      && (used > 0 ==> GoesOn(turns, used - 1)) && Opened()
      && (completed && Continues(turns[used - 1]) ==> Quiet(turns, used))
    }

    ghost predicate Opened()
      reads `tallies, `firstPoll
    {
      OpenedWith(tallies, firstPoll)
    }

    /**
     * Nothing called for another turn: the last one does not want a reply, the poll for steering messages after it
     * found none, so that only what was queued since then is there, and the poll for follow-ups found none.
     */
    ghost predicate Quiet(turns: seq<TurnScript>, used: nat)
      requires 0 < used <= |turns|
      reads `tallies, sink.agent.steeringQueue, sink.agent.followUpQueue
    {
      && used < |tallies| && |tallies[used].endings| == used && !WantsAnother(used)
      && sink.agent.steeringQueue.messages == Sent(turns[used - 1].beforeFollowUpPoll, Steering)
      && sink.agent.followUpQueue.messages == []
    }

    /** At the head of a loop, after t turns none of which ended the run. */
    ghost predicate Looping(turns: seq<TurnScript>, t: nat, pending: seq<Message>, queue: QueueName)
      reads this, sink, sink.agent, sink.agent.steeringQueue, sink.agent.followUpQueue, signal
    {
      && TurnHistory(turns, Mode(), tallies) && t == |tallies| - 1 && Now() == tallies[t]
      && |tallies[t].endings| == t && Now().course == NOTHING_YET
      && !skipInitialSteeringPoll && inProgress == [] && GoesOn(turns, t)
      && At(if t == 0 then InTurn(0, false) else Gap(t, false), pending, queue)
      && (t == 0 ==> sink.reading.pace.inTurn == 0 && pending == firstPoll) && Opened()
    }

    ghost predicate WantsAnother(t: nat)
      reads `tallies
    {
      WantsMore(tallies, t)
    }

    /** Another turn is called for, unless it is the first. */
    ghost predicate DueTurn(t: nat, pending: seq<Message>)
      reads `tallies
    {
      t == 0 || pending != [] || WantsAnother(t)
    }

    /** Iterate, with the account of the turns so far. */
    method IterateInRun(turns: seq<TurnScript>, t: nat, pending: seq<Message>, ghost queue: QueueName)
      returns (end: TurnResult, stop: bool, ghost queue': QueueName)
      requires Looping(turns, t, pending, queue) && t < |turns| && DueTurn(t, pending)
      modifies this, sink, sink.agent, signal
      modifies sink.agent.steeringQueue`messages, sink.agent.steeringQueue`enqueued, sink.agent.steeringQueue`drained
      modifies sink.agent.followUpQueue`messages, sink.agent.followUpQueue`enqueued
      ensures !skipInitialSteeringPoll && TurnHistory(turns, Mode(), tallies)
      ensures firstPoll == old(firstPoll) && Opened()
      ensures end == Suspended ==> Waiting(t, queue') && |tallies| == t + 1
      ensures end != Suspended ==>
        |tallies| == t + 2 && Now() == tallies[t + 1] && |Now().endings| == t + 1 && Now().course == NOTHING_YET
      ensures end.TurnEnded? ==> (end.hasMoreToolCalls <==> WantsAnother(t + 1))
      ensures end == Halted ==> At(Gap(t + 1, true), [], queue')
      ensures end.TurnEnded? ==> At(Gap(t + 1, stop), [], queue') && stop == turns[t].stop
      ensures end == Halted <==> Halting(turns[t].reply.stopReason)
    {
      ghost var ending;
      end, stop, queue', ending := Iterate(turns[t], pending, t == 0, t, queue);
      TallyTurn(turns, t, pending, ending);
    }

    /** Adds a finished turn to the history. */
    ghost method TallyTurn(turns: seq<TurnScript>, t: nat, pending: seq<Message>, ending: Option<Ending>)
      requires TurnHistory(turns, Mode(), tallies) && t == |tallies| - 1 < |turns| && |tallies[t].endings| == t
      requires DueTurn(t, pending) && Opened() && (t == 0 ==> pending == firstPoll)
      requires ending.Some? ==>
        && (t == 0 || pending != [] ==> ending.value.course.injected == pending)
        && Records(turns[t], Mode(), ending.value, tallies[t].aborted, signal.aborted)
      requires Now() == TallyAfter(tallies[t], turns[t], t == 0, ending, Now().course, signal.aborted)
      requires tallies[t].aborted ==> signal.aborted
      modifies `tallies
      ensures TurnHistory(turns, Mode(), tallies) && Opened() && (ending.None? ==> tallies == old(tallies))
      ensures ending.Some? ==>
        && |tallies| == t + 2 && tallies[t + 1] == Now() && |Now().endings| == t + 1 && Now().course == NOTHING_YET
        && (WantsAnother(t + 1) <==> ending.value.course.more)
    {
      if ending.Some? {
        EndedStep(tallies[t], turns[t], t == 0, Mode(), ending.value, signal.aborted);
        OneMoreTurn(turns, Mode(), tallies, Now());
        tallies := tallies + [Now()];
      }
    }

    /** The run ends after a turn that halts it. */
    method FinishAfter(turns: seq<TurnScript>, t: nat, ghost queue: QueueName)
      requires TurnHistory(turns, Mode(), tallies) && |tallies| == t + 2 && Now() == tallies[t + 1] && Opened()
      requires At(Gap(t + 1, true), [], queue) && GoesOn(turns, t) && !Continues(turns[t])
      modifies sink, sink.agent
      ensures Ends(turns, t + 1, true, [], queue)
    {
      FinishLoop(t + 1, true, queue);
    }

    /** One more turn, up to the end of the run when it ends there. */
    method IterateOrFinish(turns: seq<TurnScript>, t: nat, pending: seq<Message>, ghost queue: QueueName)
      returns (status: Status, hasMoreToolCalls: bool, ghost queue': QueueName)
      requires Looping(turns, t, pending, queue) && t < |turns| && DueTurn(t, pending)
      modifies this, sink, sink.agent, signal
      modifies sink.agent.steeringQueue`messages, sink.agent.steeringQueue`enqueued, sink.agent.steeringQueue`drained
      modifies sink.agent.followUpQueue`messages, sink.agent.followUpQueue`enqueued
      ensures firstPoll == old(firstPoll)
      ensures status == Going ==> Looping(turns, t + 1, [], queue')
      ensures status == Going ==> (hasMoreToolCalls <==> WantsAnother(t + 1))
      ensures status != Going ==> Ends(turns, t + 1, status == Complete, [], queue')
    {
      var end, stop;
      hasMoreToolCalls := false;
      end, stop, queue' := IterateInRun(turns, t, pending, queue);
      if end == Suspended {
        status := Halfway;
      } else if end == Halted || stop {
        FinishAfter(turns, t, queue');
        status := Complete;
      } else {
        OneMoreContinues(turns, t);
        status, hasMoreToolCalls := Going, end.hasMoreToolCalls;
      }
    }

    method PollSteering(turns: seq<TurnScript>, t: nat, ghost queue: QueueName) returns (pending: seq<Message>)
      requires Looping(turns, t, [], queue) && t > 0
      modifies `skipInitialSteeringPoll, sink.agent.steeringQueue`messages, sink.agent.steeringQueue`drained
      ensures Looping(turns, t, pending, Steering)
      ensures pending == [] <==> old(sink.agent.steeringQueue.messages) == []
      ensures pending == [] ==> sink.agent.steeringQueue.messages == []
    {
      pending := GetSteeringMessages(Gap(t, false));
    }

    method PollFollowUps(turns: seq<TurnScript>, t: nat) returns (pending: seq<Message>)
      requires Looping(turns, t, [], Steering) && t > 0
      requires !WantsAnother(t) && sink.agent.steeringQueue.messages == []
      modifies sink.agent.steeringQueue`messages, sink.agent.steeringQueue`enqueued
      modifies sink.agent.followUpQueue`messages, sink.agent.followUpQueue`enqueued, sink.agent.followUpQueue`drained
      ensures Looping(turns, t, pending, FollowUp)
      ensures pending == [] ==> Quiet(turns, t)
    {
      ReceiveInRun(turns, t, turns[t - 1].beforeFollowUpPoll);
      pending := GetFollowUpMessages(Gap(t, false));
    }

    method ReceiveInRun(turns: seq<TurnScript>, t: nat, actions: seq<UserAction>)
      requires Looping(turns, t, [], Steering) && t > 0
      modifies sink.agent.steeringQueue`messages, sink.agent.steeringQueue`enqueued
      modifies sink.agent.followUpQueue`messages, sink.agent.followUpQueue`enqueued
      ensures Looping(turns, t, [], Steering)
      ensures old(sink.agent.steeringQueue.messages) == [] ==>
        sink.agent.steeringQueue.messages == Sent(actions, Steering)
    {
      Receive(actions, Gap(t, false), [], Steering);
    }

    /** Nothing is left to do. */
    method FinishQuietly(turns: seq<TurnScript>, t: nat)
      requires Looping(turns, t, [], FollowUp) && t > 0 && Quiet(turns, t)
      modifies sink, sink.agent
      ensures Ends(turns, t, true, [], Steering)
    {
      FinishLoop(t, false, FollowUp);
    }

    /** One more turn, and then the next poll for steering messages. */
    method IterateAndPoll(turns: seq<TurnScript>, t: nat, pending: seq<Message>, ghost queue: QueueName)
      returns (status: Status, hasMoreToolCalls: bool, pending': seq<Message>, ghost queue': QueueName)
      requires Looping(turns, t, pending, queue) && t < |turns| && DueTurn(t, pending)
      modifies this, sink, sink.agent, signal
      modifies sink.agent.steeringQueue`messages, sink.agent.steeringQueue`enqueued, sink.agent.steeringQueue`drained
      modifies sink.agent.followUpQueue`messages, sink.agent.followUpQueue`enqueued
      ensures firstPoll == old(firstPoll)
      ensures status == Going ==> Looping(turns, t + 1, pending', queue') && queue' == Steering
      ensures status == Going ==> (hasMoreToolCalls <==> WantsAnother(t + 1))
      ensures status == Going && pending' == [] ==> sink.agent.steeringQueue.messages == []
      ensures status != Going ==> Ends(turns, t + 1, status == Complete, [], queue') && pending' == []
    {
      status, hasMoreToolCalls, queue' := IterateOrFinish(turns, t, pending, queue);
      pending' := [];
      if status == Going {
        pending' := PollSteering(turns, t + 1, queue');
        queue' := Steering;
      }
    }

    /** The next turn, if the scripts say anything about it. */
    method AdvanceOrWait(turns: seq<TurnScript>, t: nat, pending: seq<Message>, ghost queue: QueueName)
      returns (status: Status, t': nat, hasMoreToolCalls: bool, pending': seq<Message>, ghost queue': QueueName)
      requires Looping(turns, t, pending, queue) && DueTurn(t, pending)
      modifies this, sink, sink.agent, signal
      modifies sink.agent.steeringQueue`messages, sink.agent.steeringQueue`enqueued, sink.agent.steeringQueue`drained
      modifies sink.agent.followUpQueue`messages, sink.agent.followUpQueue`enqueued
      ensures firstPoll == old(firstPoll)
      ensures status == Going ==> t' == t + 1 && Looping(turns, t', pending', queue') && queue' == Steering
      ensures status == Going ==> (hasMoreToolCalls <==> WantsAnother(t'))
      ensures status == Going && pending' == [] ==> sink.agent.steeringQueue.messages == []
      ensures status != Going ==> Ends(turns, t', status == Complete, pending', queue')
    {
      if t == |turns| {
        NothingMoreIsSaid(turns, pending, queue);
        status, t', hasMoreToolCalls, pending', queue' := Halfway, t, false, pending, queue;
      } else {
        status, hasMoreToolCalls, pending', queue' := IterateAndPoll(turns, t, pending, queue);
        t' := t + 1;
      }
    }

    /** The inner loop: tool calls and steering messages. */
    method RunInner(turns: seq<TurnScript>, t0: nat, initial: seq<Message>, ghost queue0: QueueName)
      returns (status: Status, t: nat, ghost pending: seq<Message>, ghost queue: QueueName)
      requires Looping(turns, t0, initial, queue0) && DueTurn(t0, initial)
      modifies this, sink, sink.agent, signal
      modifies sink.agent.steeringQueue`messages, sink.agent.steeringQueue`enqueued, sink.agent.steeringQueue`drained
      modifies sink.agent.followUpQueue`messages, sink.agent.followUpQueue`enqueued
      ensures firstPoll == old(firstPoll)
      ensures status == Going ==> t > t0 && Looping(turns, t, [], Steering)
      ensures status == Going ==>
        !WantsAnother(t) && sink.agent.steeringQueue.messages == []
      ensures status != Going ==> Ends(turns, t, status == Complete, pending, queue)
    {
      var hasMoreToolCalls, pendingMessages := true, initial;
      t, queue := t0, queue0;
      while hasMoreToolCalls || |pendingMessages| > 0
        invariant t0 <= t && (t == t0 ==> hasMoreToolCalls) && Looping(turns, t, pendingMessages, queue)
        invariant firstPoll == old(firstPoll)
        invariant t > t0 ==> queue == Steering && (hasMoreToolCalls <==> WantsAnother(t))
        invariant t > t0 && pendingMessages == [] ==> sink.agent.steeringQueue.messages == []
        invariant t == t0 ==> DueTurn(t, pendingMessages)
        decreases |turns| - t
      {
        status, t, hasMoreToolCalls, pendingMessages, queue := AdvanceOrWait(turns, t, pendingMessages, queue);
        if status != Going { return status, t, pendingMessages, queue; }
      }
      assert pendingMessages == [];
      return Going, t, [], Steering;
    }

    lemma NothingMoreIsSaid(turns: seq<TurnScript>, pending: seq<Message>, queue: QueueName)
      requires Looping(turns, |turns|, pending, queue)
      ensures Ends(turns, |turns|, false, pending, queue)
    {
    }

    /** runLoop; it is suspended when the scripts say no more about what it awaits. */
    method RunLoop(turns: seq<TurnScript>)
      returns (completed: bool, ghost used: nat, ghost pending: seq<Message>, ghost queue: QueueName)
      requires At(InTurn(0, false), [], Steering) && sink.reading.pace.inTurn == 0 && inProgress == []
      requires Now() == NO_TURNS.(aborted := signal.aborted) && tallies == [Now()]
      modifies this, sink, sink.agent, signal
      modifies sink.agent.steeringQueue`messages, sink.agent.steeringQueue`enqueued, sink.agent.steeringQueue`drained
      modifies sink.agent.followUpQueue`messages, sink.agent.followUpQueue`enqueued, sink.agent.followUpQueue`drained
      ensures Ends(turns, used, completed, pending, queue)
      ensures if old(skipInitialSteeringPoll) then firstPoll == []
              else firstPoll == [] <==> old(sink.agent.steeringQueue.messages) == []
    {
      var pendingMessages := GetSteeringMessages(InTurn(0, false));
      firstPoll := pendingMessages;
      ghost var first := firstPoll;
      var t := 0;
      queue := Steering;
      while true
        invariant Looping(turns, t, pendingMessages, queue) && (t > 0 ==> pendingMessages != [])
        invariant firstPoll == first
        decreases |turns| - t
      {
        var status;
        status, t, pending, queue := RunInner(turns, t, pendingMessages, queue);
        if status != Going { return status == Complete, t, pending, queue; }
        pendingMessages := PollFollowUps(turns, t);
        queue := FollowUp;
        if |pendingMessages| == 0 { break; }
      }
      FinishQuietly(turns, t);
      return true, t, [], Steering;
    }
  }

  /** What the calls of a turn come to, by the kind of batch they are run in. */
  ghost predicate RansOf(turn: TurnScript, mode: ToolExecutionMode, calls: seq<ToolCall>,
                         before: bool, aborted: bool, rans: seq<Ran>)
  {
    if turn.reply.stopReason == Length then
      |rans| == |calls| && forall ran :: ran in rans ==> ran == FAILED
    else
      && ReachedExactly(turn.calls, before, |calls|, |rans|)
      && if mode == Sequential || SomeSequential(calls, turn.calls)
         then RanInOrder(turn.calls, before, rans, aborted)
         else RanConcurrently(turn.calls, before, turn.moves, rans)
  }
}
