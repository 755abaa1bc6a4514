/**
 * Whole runs: runAgentLoop and runAgentLoopContinue (packages/agent/src/agent-loop.ts), and prompt and continue
 * of the Agent with the lifecycle around them (packages/agent/src/agent.ts).
 */
module AgentRuns {
  import opened Basics
  import opened AgentTypes
  import opened AgentTrace
  import opened AgentQueue
  import opened AgentState
  import opened AgentTools
  import opened AgentOutcomes
  import opened AgentLoop

  // ---------------------------------------------------------------- whole runs

  /**
   * What holds of every run, ended or suspended: the transcripts, the context the model is given, and the
   * history of its turns.
   */
  ghost predicate Kept(run: RunTrace, before: seq<Message>, prompts: seq<Message>, turns: seq<TurnScript>) {
    && run.reading == Read(run.start, run.log) && run.prompts == prompts && run.start.messages == before
    && Transcribed(run.reading, before, prompts, run.newMessages, run.inProgress)
    && Fits(run.context, run.reading) && run.reading.clean && run.reading.sees
    && TurnHistory(turns, run.mode, run.tallies) && OpenedWith(run.tallies, run.firstPoll)
  }

  /** What a run that has ended leaves behind as well. */
  ghost predicate Report(run: RunTrace, before: seq<Message>, prompts: seq<Message>, turns: seq<TurnScript>, used: nat)
  {
    && Kept(run, before, prompts, turns) && run.inProgress == []
    && used == |run.tallies| - 1 > 0 && TallyOf(run.reading, run.aborted) == run.tallies[used]
    && GoesOn(turns, used - 1) && (Continues(turns[used - 1]) ==> !WantsMore(run.tallies, used))
    && run.reading.turns == Over && run.reading.delivery == Idle
    && |run.log| > 0 && run.log[|run.log| - 1] == Emit(AgentEnd(run.newMessages))
  }

  /**
   * What has left the Agent's queues since a run began: what the run injected, then what it still holds. The
   * queues themselves say that what was enqueued is what was drained, then what is still queued.
   */
  ghost predicate Accounted(agent: Agent, run: LoopRun, steering: seq<Message>, followUps: seq<Message>,
                            held: seq<Message>, queue: QueueName)
    reads agent, agent.steeringQueue, agent.followUpQueue, run, run.sink
  {
    && agent.Queued()
    && agent.steeringQueue.drained ==
         steering + run.sink.reading.record.steering + (if queue == Steering then held else [])
    && agent.followUpQueue.drained ==
         followUps + run.sink.reading.record.followUps + (if queue == FollowUp then held else [])
    && (OneByOne(agent) ==> run.sink.reading.pace.peak <= 1)
  }

  /** The poll before the first turn takes nothing exactly if it is to be skipped or nothing is queued by then. */
  ghost predicate FirstPolled(run: LoopRun, skip: bool, queued: seq<Message>, early: seq<UserAction>)
    reads run`firstPoll
  {
    run.firstPoll == [] <==> skip || queued + Sent(early, Steering) == []
  }

  ghost predicate OneByOne(agent: Agent)
    reads agent.steeringQueue, agent.followUpQueue
  {
    agent.steeringQueue.mode == OneAtATime && agent.followUpQueue.mode == OneAtATime
  }

  /** runAgentLoop, and with no prompts the part of runAgentLoopContinue after its checks. */
  method RunAgentLoop(agent: Agent, prompts: seq<Message>, skip: bool, early: seq<UserAction>, turns: seq<TurnScript>)
    returns (run: LoopRun, completed: bool, ghost used: nat, ghost held: seq<Message>, ghost queue: QueueName)
    requires agent.active && agent.Queued() && agent.pendingToolCalls == {}
    modifies agent
    modifies agent.steeringQueue`messages, agent.steeringQueue`enqueued, agent.steeringQueue`drained
    modifies agent.followUpQueue`messages, agent.followUpQueue`enqueued, agent.followUpQueue`drained
    ensures fresh(run) && fresh(run.sink) && fresh(run.signal) && agent.active && used <= |turns|
    ensures run.sink.agent == agent
    ensures FirstPolled(run, skip, old(agent.steeringQueue.messages), early)
    ensures Kept(run.Trace(), old(agent.messages), prompts, turns)
    ensures agent.messages == old(agent.messages) + run.newMessages
    ensures Accounted(agent, run, old(agent.steeringQueue.drained), old(agent.followUpQueue.drained), held, queue)
    ensures agent.errorMessage == run.sink.reading.view.errorMessage
    ensures run.sink.start.errorMessage == old(agent.errorMessage)
    ensures completed ==> Report(run.Trace(), old(agent.messages), prompts, turns, used) && held == []
    ensures completed && Continues(turns[used - 1]) ==> run.Quiet(turns, used)
  {
    run := BeginRun(agent, prompts, skip, early);
    completed, used, held, queue := run.RunLoop(turns);
    EndsIsReport(run, turns, used, completed, held, queue);
    if completed { held, queue := [], Steering; }
  }

  /** What the loop promises at its end, as a value. */
  lemma EndsIsReport(run: LoopRun, turns: seq<TurnScript>, used: nat, completed: bool, pending: seq<Message>,
                     queue: QueueName)
    requires run.Ends(turns, used, completed, pending, queue)
    ensures Kept(run.Trace(), run.sink.start.messages, run.prompts, turns)
    ensures completed ==> Report(run.Trace(), run.sink.start.messages, run.prompts, turns, used)
    ensures Accounted(run.sink.agent, run, run.steeringBefore, run.followUpsBefore, if completed then [] else pending,
                      if completed then Steering else queue)
    ensures run.sink.agent.active && run.sink.agent.messages == run.sink.start.messages + run.newMessages
    ensures run.sink.agent.errorMessage == run.sink.reading.view.errorMessage
  {
    run.sink.ReadingReadsLog();
  }

  /** A new run up to its first poll: its first events, and what is queued meanwhile. */
  method BeginRun(agent: Agent, prompts: seq<Message>, skip: bool, early: seq<UserAction>) returns (run: LoopRun)
    requires agent.active && agent.Queued() && agent.pendingToolCalls == {}
    modifies agent
    modifies agent.steeringQueue`messages, agent.steeringQueue`enqueued
    modifies agent.followUpQueue`messages, agent.followUpQueue`enqueued
    ensures fresh(run) && fresh(run.sink) && fresh(run.signal) && run.sink.agent == agent
    ensures run.At(InTurn(0, false), [], Steering) && run.sink.reading.pace.inTurn == 0 && run.inProgress == []
    ensures run.Now() == NO_TURNS.(aborted := run.signal.aborted) && run.tallies == [run.Now()]
    ensures run.prompts == prompts && run.sink.start.messages == old(agent.messages)
    ensures run.sink.start.errorMessage == old(agent.errorMessage) && run.skipInitialSteeringPoll == skip
    ensures run.steeringBefore == old(agent.steeringQueue.drained)
    ensures run.followUpsBefore == old(agent.followUpQueue.drained)
    ensures agent.steeringQueue.messages == old(agent.steeringQueue.messages) + Sent(early, Steering)
  {
    var sink := new Sink(agent);
    var signal := new Signal();
    run := new LoopRun(sink, signal, agent.messages + prompts, prompts, skip);
    run.Begin(prompts);
    run.StartHistory();
    run.Receive(early, InTurn(0, false), [], Steering);
  }

  /** The checks runAgentLoopContinue makes first; the Agent makes them too, before it starts a run. */
  predicate CanContinueFrom(messages: seq<Message>) {
    |messages| > 0 && !messages[|messages| - 1].Assistant?
  }

  // ---------------------------------------------------------------- the Agent's lifecycle

  datatype RunResult = Refused | Completed | Unfinished

  method StartRun(agent: Agent)
    requires agent.Resting()
    modifies agent
    ensures agent.active && agent.isStreaming && agent.Value() == View(old(agent.messages), None, {}, None)
  {
    agent.active := true;
    agent.isStreaming := true;
    agent.streamingMessage := None;
    agent.errorMessage := None;
  }

  method FinishRun(agent: Agent)
    requires agent.Queued()
    modifies agent
    ensures agent.Resting() && agent.messages == old(agent.messages) && agent.errorMessage == old(agent.errorMessage)
  {
    agent.isStreaming := false;
    agent.streamingMessage := None;
    agent.pendingToolCalls := {};
    agent.active := false;
  }

  /** The Agent after a run that began with the given messages and had the given prompts. */
  ghost predicate RanFrom(agent: Agent, run: LoopRun, before: seq<Message>, prompts: seq<Message>,
                          turns: seq<TurnScript>, used: nat)
    reads agent, agent.steeringQueue, agent.followUpQueue, run, run.sink, run.signal
  {
    && agent.Resting() && agent.messages == before + run.newMessages && run.sink.agent == agent
    && run.sink.start.errorMessage == None && agent.errorMessage == run.sink.reading.view.errorMessage
    && Report(run.Trace(), before, prompts, turns, used)
    && (Continues(turns[used - 1]) ==> run.Quiet(turns, used))
  }

  /** runPromptMessages and runContinuation, inside runWithLifecycle. */
  method RunWithLifecycle(
      agent: Agent, prompts: seq<Message>, skip: bool, early: seq<UserAction>, turns: seq<TurnScript>)
    returns (result: RunResult, run: LoopRun, ghost used: nat, ghost held: seq<Message>, ghost queue: QueueName)
    requires agent.Resting()
    modifies agent
    modifies agent.steeringQueue`messages, agent.steeringQueue`enqueued, agent.steeringQueue`drained
    modifies agent.followUpQueue`messages, agent.followUpQueue`enqueued, agent.followUpQueue`drained
    ensures result != Refused && fresh(run) && fresh(run.sink) && fresh(run.signal)
    ensures FirstPolled(run, skip, old(agent.steeringQueue.messages), early)
    ensures Accounted(agent, run, old(agent.steeringQueue.drained), old(agent.followUpQueue.drained), held, queue)
    ensures result == Completed ==> RanFrom(agent, run, old(agent.messages), prompts, turns, used) && held == []
    ensures result == Unfinished ==> agent.active && agent.messages == old(agent.messages) + run.newMessages
    ensures result == Unfinished ==> Kept(run.Trace(), old(agent.messages), prompts, turns)
  {
    StartRun(agent);
    var completed;
    run, completed, used, held, queue := RunAgentLoop(agent, prompts, skip, early, turns);
    result := Unfinished;
    if completed {
      FinishRun(agent);
      result := Completed;
    }
  }

  method Prompt(agent: Agent, messages: seq<Message>, early: seq<UserAction>, turns: seq<TurnScript>)
    returns (result: RunResult, run: LoopRun?, ghost used: nat, ghost held: seq<Message>, ghost queue: QueueName)
    requires agent.Queued() && (!agent.active ==> agent.Resting())
    modifies agent
    modifies agent.steeringQueue`messages, agent.steeringQueue`enqueued, agent.steeringQueue`drained
    modifies agent.followUpQueue`messages, agent.followUpQueue`enqueued, agent.followUpQueue`drained
    ensures (result == Refused <==> old(agent.active)) && (result == Refused <==> run == null)
    ensures result == Refused ==> agent.Value() == old(agent.Value()) && agent.active
    ensures run != null ==> fresh(run) && fresh(run.sink) && fresh(run.signal)
    ensures run != null ==> FirstPolled(run, false, old(agent.steeringQueue.messages), early)
    ensures run != null ==>
      Accounted(agent, run, old(agent.steeringQueue.drained), old(agent.followUpQueue.drained), held, queue)
    ensures result == Completed ==> RanFrom(agent, run, old(agent.messages), messages, turns, used) && held == []
    ensures result == Unfinished ==> agent.active && agent.messages == old(agent.messages) + run.newMessages
    ensures result == Unfinished ==> Kept(run.Trace(), old(agent.messages), messages, turns)
  {
    if agent.active {
      result, run, used, held, queue := Refused, null, 0, [], Steering;
    } else {
      result, run, used, held, queue := RunWithLifecycle(agent, messages, false, early, turns);
    }
  }

  /**
   * continue: after an assistant message, what is taken from a queue becomes the prompts of a new run, so that
   * nothing taken is lost; from steering it is tried first, and then the run skips its first poll.
   */
  method Continue(agent: Agent, early: seq<UserAction>, turns: seq<TurnScript>)
    returns (result: RunResult, run: LoopRun?, prompts: seq<Message>, ghost from: QueueName,
             ghost used: nat, ghost held: seq<Message>, ghost queue: QueueName)
    requires agent.Queued() && (!agent.active ==> agent.Resting())
    modifies agent
    modifies agent.steeringQueue`messages, agent.steeringQueue`enqueued, agent.steeringQueue`drained
    modifies agent.followUpQueue`messages, agent.followUpQueue`enqueued, agent.followUpQueue`drained
    ensures result == Refused <==>
      old(agent.active) || old(agent.messages) == [] ||
      (!CanContinueFrom(old(agent.messages))
        && old(agent.steeringQueue.messages) == [] && old(agent.followUpQueue.messages) == [])
    ensures result == Refused <==> run == null
    ensures result == Refused ==>
      agent.Value() == old(agent.Value()) && agent.active == old(agent.active) && prompts == []
    ensures result == Refused ==>
      && agent.steeringQueue.drained == old(agent.steeringQueue.drained)
      && agent.followUpQueue.drained == old(agent.followUpQueue.drained)
    ensures run != null ==> fresh(run) && fresh(run.sink) && fresh(run.signal)
    ensures run != null ==>
      Accounted(agent, run, old(agent.steeringQueue.drained) + (if from == Steering then prompts else []),
                old(agent.followUpQueue.drained) + (if from == FollowUp then prompts else []), held, queue)
    ensures run != null ==> (CanContinueFrom(old(agent.messages)) <==> prompts == [])
    ensures run != null && prompts != [] ==> (from == Steering <==> old(agent.steeringQueue.messages) != [])
    ensures run != null && prompts != [] && from == Steering ==> run.firstPoll == []
    ensures run != null && (prompts == [] || from == FollowUp) ==>
      FirstPolled(run, false, old(agent.steeringQueue.messages), early)
    ensures result == Completed ==> RanFrom(agent, run, old(agent.messages), prompts, turns, used) && held == []
    ensures result == Unfinished ==> agent.active && agent.messages == old(agent.messages) + run.newMessages
    ensures result == Unfinished ==> Kept(run.Trace(), old(agent.messages), prompts, turns)
  {
    var skip, refused;
    prompts, skip, refused, from := TakePrompts(agent);
    if refused {
      result, run, used, held, queue := Refused, null, 0, [], Steering;
    } else {
      result, run, used, held, queue := RunWithLifecycle(agent, prompts, skip, early, turns);
    }
  }

  /** The checks of continue, and the prompts it takes from a queue after an assistant message. */
  method TakePrompts(agent: Agent)
    returns (prompts: seq<Message>, skip: bool, refused: bool, ghost from: QueueName)
    requires agent.Queued()
    modifies agent.steeringQueue`messages, agent.steeringQueue`drained
    modifies agent.followUpQueue`messages, agent.followUpQueue`drained
    ensures agent.Queued()
    ensures refused <==>
      agent.active || agent.messages == [] ||
      (!CanContinueFrom(agent.messages)
        && old(agent.steeringQueue.messages) == [] && old(agent.followUpQueue.messages) == [])
    ensures refused ==> prompts == []
    ensures !refused ==> (CanContinueFrom(agent.messages) <==> prompts == [])
    ensures agent.steeringQueue.drained == old(agent.steeringQueue.drained) + (if from == Steering then prompts else [])
    ensures agent.followUpQueue.drained == old(agent.followUpQueue.drained) + (if from == FollowUp then prompts else [])
    ensures !refused && prompts != [] ==> (from == Steering <==> old(agent.steeringQueue.messages) != [])
    ensures skip <==> !refused && prompts != [] && from == Steering
    ensures !skip ==> agent.steeringQueue.messages == old(agent.steeringQueue.messages)
  {
    prompts, skip, refused, from := [], false, agent.active || |agent.messages| == 0, Steering;
    if !refused && agent.messages[|agent.messages| - 1].Assistant? {
      prompts, skip, from := DrainForPrompts(agent);
      refused := |prompts| == 0;
    }
  }

  /** Steering messages if there are any, else follow-ups; the run skips its first poll in the first case. */
  method DrainForPrompts(agent: Agent) returns (prompts: seq<Message>, skip: bool, ghost from: QueueName)
    requires agent.Queued()
    modifies agent.steeringQueue`messages, agent.steeringQueue`drained
    modifies agent.followUpQueue`messages, agent.followUpQueue`drained
    ensures agent.Queued()
    ensures prompts == [] <==> old(agent.steeringQueue.messages) == [] && old(agent.followUpQueue.messages) == []
    ensures agent.steeringQueue.drained == old(agent.steeringQueue.drained) + (if from == Steering then prompts else [])
    ensures agent.followUpQueue.drained == old(agent.followUpQueue.drained) + (if from == FollowUp then prompts else [])
    ensures (skip <==> from == Steering) && (from == Steering <==> old(agent.steeringQueue.messages) != [])
    ensures !skip ==> agent.steeringQueue.messages == []
  {
    prompts := agent.steeringQueue.Drain();
    skip, from := |prompts| > 0, Steering;
    if !skip {
      prompts := agent.followUpQueue.Drain();
      from := FollowUp;
    }
  }

  // ---------------------------------------------------------------- what a report says

  /** After a run the Agent's error is that of the last reply that carries one, and none if no reply does. */
  lemma ErrorOfARun(agent: Agent, run: LoopRun, before: seq<Message>, prompts: seq<Message>, turns: seq<TurnScript>,
                    used: nat)
    requires RanFrom(agent, run, before, prompts, turns, used)
    ensures agent.errorMessage == LastError(None, EndingsOf(run.sink.log))
  {
    ErrorReadsEndings(run.sink.start, run.sink.log);
  }

  /** The trace of a run that has ended. */
  lemma TraceOfARun(run: RunTrace, before: seq<Message>, prompts: seq<Message>, turns: seq<TurnScript>, used: nat)
    requires Report(run, before, prompts, turns, used)
    ensures Grammatical(Events(run.log))
    ensures forall i, j :: 0 <= i < j < |run.log| && Halts(run.log[i]) ==>
      !run.log[j].ModelCall? && !run.log[j].Injected? && run.log[j] != Emit(TurnStart)
    ensures forall i :: 0 <= i < |run.log| && run.log[i].Injected? ==>
      && i + 2 < |run.log|
      && run.log[i + 1] == Emit(MessageStart(run.log[i].message))
      && run.log[i + 2] == Emit(MessageEnd(run.log[i].message))
  {
    var v, log := run.start, run.log;
    OverIsGrammatical(v, log);
    forall i, j | 0 <= i < j < |log| && Halts(log[i])
      ensures !log[j].ModelCall? && !log[j].Injected? && log[j] != Emit(TurnStart)
    {
      NothingAfterHalt(v, log, i, j);
    }
    forall i | 0 <= i < |log| && log[i].Injected?
      ensures i + 2 < |log|
      ensures log[i + 1] == Emit(MessageStart(log[i].message)) && log[i + 2] == Emit(MessageEnd(log[i].message))
    {
      DeliveredAtOnce(v, log, i);
    }
  }

  /**
   * What was said in a run that has ended: the prompts, then, in the order of the log, each injected message and
   * the messages of each ended turn; the k-th turn_end carries the k-th reply, and results that answer its
   * calls, all of them unless the signal was aborted.
   */
  lemma WholeRunIsRecorded(
      run: RunTrace, before: seq<Message>, prompts: seq<Message>, turns: seq<TurnScript>, used: nat)
    requires Report(run, before, prompts, turns, used)
    ensures run.newMessages == prompts + ToldOf(run.log)
    ensures |EndingsOf(run.log)| == used <= |turns|
    ensures forall k :: 0 <= k < used ==> EndingRecorded(run, turns, k)
  {
    ToldReadsLog(run.start, run.log);
    RecordReadsLog(run.start, run.log);
    assert prompts + ToldOf(run.log) + [] == prompts + ToldOf(run.log);
    TurnsAreCounted(turns, run.mode, run.tallies, used);
    forall k | 0 <= k < used ensures EndingRecorded(run, turns, k) {
      EndingIsRecorded(run, before, prompts, turns, used, k);
    }
  }

  /** The k-th turn_end carries the k-th reply and its calls' results, all of them unless the signal was aborted. */
  ghost predicate EndingRecorded(run: RunTrace, turns: seq<TurnScript>, k: nat)
  {
    && k < |turns| && k < |EndingsOf(run.log)| && k + 1 < |run.tallies|
    && Records(turns[k], run.mode, EndingsOf(run.log)[k], run.tallies[k].aborted, run.tallies[k + 1].aborted)
    && (run.tallies[k + 1].aborted ==> run.aborted)
  }

  lemma EndingIsRecorded(run: RunTrace, before: seq<Message>, prompts: seq<Message>, turns: seq<TurnScript>,
                         used: nat, k: nat)
    requires Report(run, before, prompts, turns, used) && k < used
    ensures EndingRecorded(run, turns, k)
  {
    RecordReadsLog(run.start, run.log);
    EveryEndingRecords(turns, run.mode, run.tallies, used, k);
    if run.tallies[k + 1].aborted { AbortsStay(turns, run.mode, run.tallies, k + 1, used); }
  }

  /** The first turn of a run that has ended injected exactly what the poll before it took. */
  lemma FirstTurnTakesFirstPoll(run: RunTrace, before: seq<Message>, prompts: seq<Message>, turns: seq<TurnScript>,
                                used: nat)
    requires Report(run, before, prompts, turns, used)
    ensures EndingsOf(run.log) != [] && EndingsOf(run.log)[0].course.injected == run.firstPoll
  {
    RecordReadsLog(run.start, run.log);
    TurnsAreCounted(turns, run.mode, run.tallies, used);
    EndingsGrow(turns, run.mode, run.tallies, 1, used);
  }

  /**
   * When a run goes on. Every turn but the first follows one whose calls want a reply, or begins with an injected
   * message; and a run that ends without having to ends after a turn that wants none. `course` is what the entries
   * of the turn say.
   */
  lemma EveryTurnIsCalledFor(run: RunTrace, before: seq<Message>, prompts: seq<Message>, turns: seq<TurnScript>,
                             used: nat)
    requires Report(run, before, prompts, turns, used)
    ensures |EndingsOf(run.log)| == used <= |turns|
    ensures forall k :: 0 < k < used ==>
      EndingsOf(run.log)[k - 1].course.more || EndingsOf(run.log)[k].course.injected != []
    ensures Continues(turns[used - 1]) ==> !EndingsOf(run.log)[used - 1].course.more
  {
    RecordReadsLog(run.start, run.log);
    TurnsAreCounted(turns, run.mode, run.tallies, used);
    forall k | 0 < k < used
      ensures EndingsOf(run.log)[k - 1].course.more || EndingsOf(run.log)[k].course.injected != []
    {
      EveryEndingRecords(turns, run.mode, run.tallies, used, k);
    }
  }

  /**
   * The same in terms of what the calls of a turn came to: after a turn that is not the last and is followed by no
   * injected message, and only after one that does not end the run, some call did not ask to stop.
   */
  lemma CallsDecideWhetherToGoOn(run: RunTrace, before: seq<Message>, prompts: seq<Message>, turns: seq<TurnScript>,
                                 used: nat, k: nat) returns (rans: seq<Ran>)
    requires Report(run, before, prompts, turns, used) && k < used <= |turns| && !Halting(turns[k].reply.stopReason)
    ensures |EndingsOf(run.log)| == used && k + 1 < |run.tallies|
    ensures CallsAnswered(turns[k], run.mode, EndingsOf(run.log)[k],
                          run.tallies[k].aborted, run.tallies[k + 1].aborted, rans)
    ensures k + 1 < used && EndingsOf(run.log)[k + 1].course.injected == [] ==>
      ToolCalls(turns[k].reply.blocks) != [] && !AllTerminate(rans)
    ensures k + 1 == used && Continues(turns[k]) ==> ToolCalls(turns[k].reply.blocks) == [] || AllTerminate(rans)
  {
    EndingIsRecorded(run, before, prompts, turns, used, k);
    EveryTurnIsCalledFor(run, before, prompts, turns, used);
    var ending := EndingsOf(run.log)[k];
    rans :| CallsAnswered(turns[k], run.mode, ending, run.tallies[k].aborted, run.tallies[k + 1].aborted, rans);
  }

  /** The k-th ending is a turn_end of the log, and its course is what the entries of that turn say. */
  lemma {:induction false} EndingInLog(log: seq<Entry>, k: nat) returns (j: nat)
    requires k < |EndingsOf(log)|
    ensures var e := EndingsOf(log)[k];
      && j < |log| && log[j] == Emit(TurnEnd(e.reply, e.results)) && |EndingsOf(log[..j])| == k
      && (e.course.more <==> exists i :: InThisTurn(log[..j], i) && WantsReply(log[i]))
      && (e.course.injected != [] <==> exists i :: InThisTurn(log[..j], i) && log[i].Injected?)
  {
    var before := log[..|log| - 1];
    if k < |EndingsOf(before)| {
      j := EndingInLog(before, k);
      assert before[..j] == log[..j];
      assert EndingsOf(log)[k] == EndingsOf(before)[k];
      assert forall i :: InThisTurn(log[..j], i) ==> before[i] == log[i];
    } else {
      j := |log| - 1;
      CourseReadsTurn(before);
      assert forall i :: InThisTurn(before, i) ==> before[i] == log[i];
    }
  }

  /** Every call that a turn reached, unless the reply was truncated, is decided by its script. */
  lemma CallsOfATurnAreDecided(turn: TurnScript, mode: ToolExecutionMode, ending: Ending, before: bool, aborted: bool,
                               rans: seq<Ran>, i: nat)
    requires CallsAnswered(turn, mode, ending, before, aborted, rans) && i < |rans|
    requires turn.reply.stopReason != Length
    ensures Decided(turn.calls(i), AbortedAt(turn.calls, before, i), rans[i])
    ensures mode == Sequential || SomeSequential(ToolCalls(turn.reply.blocks), turn.calls) ==>
      RanAlone(turn.calls(i), AbortedAt(turn.calls, before, i), rans[i])
    ensures mode == Parallel && !SomeSequential(ToolCalls(turn.reply.blocks), turn.calls) ==>
      (Passes(turn.calls(i), AbortedAt(turn.calls, before, i)) ==> RanByMoves(OwnMoves(turn.moves, i), rans[i]))
  {
    var calls := ToolCalls(turn.reply.blocks);
    if mode == Sequential || SomeSequential(calls, turn.calls) {
      SequentialCallIsDecided(turn.calls, before, rans, aborted, i);
    } else {
      ConcurrentCallIsDecided(turn.calls, before, turn.moves, |calls|, rans, i);
    }
  }

  /**
   * Transcript agreement. The context of a run that has ended is what the model should be given if and only if
   * no stream was restarted since the context was last replaced; if it never was, that is the starting
   * transcript followed by newMessages. The message brackets are well formed if and only if no stream was
   * restarted at all.
   */
  lemma TranscriptAgreement(
      run: RunTrace, before: seq<Message>, prompts: seq<Message>, turns: seq<TurnScript>, used: nat)
    requires Report(run, before, prompts, turns, used)
    ensures run.context == run.reading.given <==> NoneRestarts(turns, LastReplaced(turns, used), used)
    ensures NeverReplaced(turns, used) ==>
      run.reading.given == before + run.newMessages && LastReplaced(turns, used) == 0
    ensures run.reading.brackets != Broken <==> NoneRestarts(turns, 0, used)
  {
    TallyOfARun(run, before, prompts, turns, used);
    LeftExactly(turns, used);
    StaleExactly(turns, used);
    ReplacedExactly(turns, used);
    LastReplacedExactly(turns, used);
    if NeverReplaced(turns, used) {
        GivenIsTranscript(run.start, run.log);
    }
  }

  /** What the reading of a run that has ended says about its turns. */
  lemma TallyOfARun(run: RunTrace, before: seq<Message>, prompts: seq<Message>, turns: seq<TurnScript>, used: nat)
    requires Report(run, before, prompts, turns, used)
    ensures used <= |turns|
    ensures run.reading.record.replacements == Replacements(turns, used)
    ensures run.reading.leftover.left == LeftIn(turns, used)
    ensures run.reading.brackets == Broken <==> StaleIn(turns, used)
  {
    HistoryTallies(turns, run.mode, run.tallies, used);
  }

  /**
   * Otherwise what the model should be given is the last replacement followed by everything said since.
   */
  lemma ContextAfterReplacement(run: RunTrace, before: seq<Message>, prompts: seq<Message>, turns: seq<TurnScript>,
                                used: nat, k: nat)
    requires Report(run, before, prompts, turns, used)
    requires k < |run.log| && run.log[k].Replaced?
    requires forall j :: k < j < |run.log| ==> !run.log[j].Replaced?
    ensures var cut := |Read(run.start, run.log[..k]).view.messages| - |before|;
      && 0 <= cut <= |run.newMessages|
      && run.reading.given == run.log[k].messages + run.newMessages[cut..]
  {
    var v, log := run.start, run.log;
    GivenSinceReplacement(v, log, k);
    ViewGrows(v, log[..k]);
    AfterTheStart(before, run.newMessages, |Read(v, log[..k]).view.messages|);
  }

  lemma AfterTheStart(before: seq<Message>, messages: seq<Message>, cut: nat)
    requires |before| <= cut <= |before + messages|
    ensures (before + messages)[cut..] == messages[cut - |before|..]
  {
  }

  /** The last replacement in the log is the one of the last turn whose preparation replaced the context. */
  lemma LastReplacementOfARun(run: RunTrace, before: seq<Message>, prompts: seq<Message>, turns: seq<TurnScript>,
                              used: nat, k: nat)
    requires Report(run, before, prompts, turns, used)
    requires k < |run.log| && run.log[k].Replaced?
    requires forall j :: k < j < |run.log| ==> !run.log[j].Replaced?
    ensures used <= |turns| && LastReplaced(turns, used) > 0
    ensures turns[LastReplaced(turns, used)].prepare == SwapContext(run.log[k].messages)
  {
    RecordReadsLog(run.start, run.log);
    TallyOfARun(run, before, prompts, turns, used);
    LastOfReplacements(run.log, k);
    LastReplacement(turns, used);
  }

  lemma {:induction false} ViewGrows(v: View, log: seq<Entry>)
    ensures v.messages <= Read(v, log).view.messages
  {
    if log != [] { ViewGrows(v, log[..|log| - 1]); }
  }

  lemma {:induction false} LastOfReplacements(log: seq<Entry>, k: nat)
    requires k < |log| && log[k].Replaced? && forall j :: k < j < |log| ==> !log[j].Replaced?
    ensures ReplacementsOf(log) != []
    ensures ReplacementsOf(log)[|ReplacementsOf(log)| - 1] == log[k].messages
  {
    if k < |log| - 1 { LastOfReplacements(log[..|log| - 1], k); }
  }

  lemma {:induction false} LastReplacement(turns: seq<TurnScript>, used: nat)
    requires used <= |turns| && Replacements(turns, used) != []
    ensures var k, all := LastReplaced(turns, used), Replacements(turns, used);
      k > 0 && turns[k].prepare == SwapContext(all[|all| - 1])
  {
    if turns[used - 1].prepare.NoUpdate? { LastReplacement(turns, used - 1); }
  }

  /** A stream whose second `start` leaves the first partial message in the context. */
  lemma SecondStartIsLeftBehind(first: Message, second: Message)
    ensures Stale(Reply([StreamStart(first), StreamStart(second), StreamEnd], [], Stop, None)) == [first]
  {
    var events := [StreamStart(first), StreamStart(second), StreamEnd];
    CutAtEnd(events, 2);
    assert events[..2][..1] == events[..1] && events[..1][..0] == [];
    assert Partials(events[..1]) == [first];
    assert Partials(events[..2]) == [first, second];
  }
}
