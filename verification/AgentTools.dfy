/**
 * The tool calls of one assistant message, run one by one, concurrently, or failed because the message was
 * truncated (packages/agent/src/agent-loop.ts, 372-709).
 */
module AgentTools {
  import opened Basics
  import opened AgentTypes
  import opened AgentTrace
  import opened AgentState

  /** Where one tool call is: not reached, started, executed but not finalized, or ended. */
  datatype Thread =
    | Waiting
    | Executing(updates: seq<int>)
    | Settled(updates: seq<int>, execution: Execution)
    | Done(ran: Ran)

  function PhaseOf(t: Thread): CallPhase {
    match t
    case Waiting => NotStarted
    case Executing(updates) => Running(updates)
    case Settled(updates, _) => Running(updates)
    case Done(ran) => Ended(ran)
  }

  predicate Active(t: Thread) { t.Executing? || t.Settled? }

  /** The events of a batch so far put each call where its thread is. */
  ghost predicate Tracks(events: seq<Entry>, calls: seq<ToolCall>, threads: seq<Thread>) {
    |threads| == |calls| &&
    forall i :: 0 <= i < |calls| ==> CallPhaseOf(events, i, calls[i]) == PhaseOf(threads[i])
  }

  /** Only calls that are active are pending; of two calls with one id, the first to end clears it. */
  ghost predicate PendingIn(pending: set<string>, calls: seq<ToolCall>, threads: seq<Thread>)
    requires |threads| == |calls|
  {
    forall id :: id in pending ==> exists i :: 0 <= i < |calls| && Active(threads[i]) && calls[i].id == id
  }

  /** shouldTerminateToolBatch */
  predicate AllTerminate(rans: seq<Ran>) {
    |rans| > 0 && forall i :: 0 <= i < |rans| ==> rans[i].outcome.terminate
  }

  datatype Batch = Batch(messages: seq<Message>, terminate: bool)

  /**
   * A finished batch: a prefix of the calls has run start, updates, end; the results are those ends' outcomes,
   * in the order of the calls; the other calls have no event.
   */
  ghost predicate Finished(events: seq<Entry>, calls: seq<ToolCall>, rans: seq<Ran>, messages: seq<Message>) {
    && |messages| == |rans| <= |calls|
    && (forall i :: 0 <= i < |rans| ==>
          CallPhaseOf(events, i, calls[i]) == Ended(rans[i]) && messages[i] == ResultMessage(calls[i], rans[i].outcome))
    && forall i :: |rans| <= i < |calls| ==> CallPhaseOf(events, i, calls[i]) == NotStarted
  }

  predicate Aborts(c: CallScript) { c.abortsInPreparation || c.abortsAfterwards }

  /** Whether the signal is aborted when the first n calls have been reached. */
  predicate AbortedAfter(scripts: nat -> CallScript, before: bool, n: nat) {
    if n == 0 then before else AbortedAfter(scripts, before, n - 1) || Aborts(scripts(n - 1))
  }

  /** The calls are reached in order until the first one after which the signal is aborted. */
  predicate ReachedExactly(scripts: nat -> CallScript, before: bool, calls: nat, n: nat) {
    && n <= calls && (calls > 0 ==> n > 0)
    && (n < calls ==> AbortedAfter(scripts, before, n))
    && forall i: nat :: 0 < i < n ==> !AbortedAfter(scripts, before, i)
  }

  function Prepared(scripts: nat -> CallScript, before: bool, i: nat): Preparation {
    Prepare(scripts(i), AbortedAfter(scripts, before, i) || scripts(i).abortsInPreparation)
  }

  // ---------------------------------------------------------------- concurrent schedules

  function NextThread(t: Thread, m: Move, i: nat): Thread {
    match m
    case Update(j, partialResult) => if i == j && t.Executing? then Executing(t.updates + [partialResult]) else t
    case Settle(j, execution) => if i == j && t.Executing? then Settled(t.updates, execution) else t
    case Finish(j, after) => if i == j && t.Settled? then Done(Ran(t.updates, Finalize(t.execution, after))) else t
  }

  /** One thread, whatever the others do. */
  function ThreadAfter(t: Thread, moves: seq<Move>, i: nat): Thread {
    if moves == [] then t else NextThread(ThreadAfter(t, moves[..|moves| - 1], i), moves[|moves| - 1], i)
  }

  function OwnMoves(moves: seq<Move>, i: nat): seq<Move> {
    if moves == [] then []
    else
      var m := moves[|moves| - 1];
      OwnMoves(moves[..|moves| - 1], i) + if m.thread == i then [m] else []
  }

  /** A call's outcome depends on its own moves only, not on how they interleave with the others'. */
  lemma {:induction false} InterleavingDoesNotMatter(t: Thread, moves: seq<Move>, i: nat)
    ensures ThreadAfter(t, moves, i) == ThreadAfter(t, OwnMoves(moves, i), i)
  {
    if moves != [] {
      var before, m := moves[..|moves| - 1], moves[|moves| - 1];
      InterleavingDoesNotMatter(t, before, i);
      var own := OwnMoves(before, i);
      if m.thread == i { assert (own + [m])[..|own|] == own; } else { assert own + [] == own; }
    }
  }

  function Begun(p: Preparation): Thread {
    match p
    case Immediate(o) => Done(Ran([], o))
    case Ready => Executing([])
  }

  // ---------------------------------------------------------------- events

  lemma SnocTracks(events: seq<Entry>, e: Entry, calls: seq<ToolCall>, threads: seq<Thread>, i: nat, t: Thread)
    requires Tracks(events, calls, threads) && i < |calls|
    requires ConcernsCall(e, i) && NextCallPhase(PhaseOf(threads[i]), e, i, calls[i]) == PhaseOf(t)
    ensures Tracks(events + [e], calls, threads[i := t])
  {
    forall j | 0 <= j < |calls|
      ensures CallPhaseOf(events + [e], j, calls[j]) == PhaseOf(threads[i := t][j])
    {
      SnocCall(events, e, j, calls[j]);
    }
  }

  lemma SnocOther(events: seq<Entry>, e: Entry, calls: seq<ToolCall>, threads: seq<Thread>)
    requires Tracks(events, calls, threads)
    requires e.Emit? ==> e.event.MessageStart? || e.event.MessageEnd?
    ensures Tracks(events + [e], calls, threads)
  {
    forall j | 0 <= j < |calls| ensures CallPhaseOf(events + [e], j, calls[j]) == PhaseOf(threads[j]) {
      SnocCall(events, e, j, calls[j]);
    }
  }

  /** A moment of a run, to compare a later one with. */
  datatype Origin = Origin(log: seq<Entry>, reading: Reading)

  ghost function OriginOf(sink: Sink): Origin
    reads sink
  {
    Origin(sink.log, sink.reading)
  }

  /** Only the transcripts, and whether a tool call wants a reply, differ. */
  ghost predicate OnlyGained(r: Reading, before: Reading) {
    && r.record.course == before.record.course.(more := r.record.course.more)
    && r == before.(view := r.view, given := r.given, record := before.record.(course := r.record.course))
  }

  /** Since then only messages and tool events have been emitted. */
  ghost predicate Since(sink: Sink, origin: Origin)
    reads sink, sink.agent
  {
    sink.Synced() && origin.log <= sink.log && Calm(origin.reading) && OnlyGained(sink.reading, origin.reading)
  }

  /** One of the calls has ended and does not ask for the run to stop. */
  ghost predicate SomeWantsReply(threads: seq<Thread>) {
    exists i :: 0 <= i < |threads| && threads[i].Done? && !threads[i].ran.outcome.terminate
  }

  /** What every emission of a batch keeps, of the log and its reading. */
  ghost predicate Batching(
      log: seq<Entry>, reading: Reading, origin: Origin, calls: seq<ToolCall>, threads: seq<Thread>)
  {
    && origin.log <= log && Calm(origin.reading) && OnlyGained(reading, origin.reading)
    && Tracks(log[|origin.log|..], calls, threads)
    && PendingIn(reading.view.pendingToolCalls, calls, threads)
    && (reading.record.course.more <==> origin.reading.record.course.more || SomeWantsReply(threads))
  }

  ghost predicate InBatch(sink: Sink, origin: Origin, calls: seq<ToolCall>, threads: seq<Thread>)
    reads sink, sink.agent
  {
    sink.Synced() && Batching(sink.log, sink.reading, origin, calls, threads)
  }

  /** The transcripts have gained these messages since. */
  ghost predicate Gained(sink: Sink, origin: Origin, messages: seq<Message>)
    reads sink
  {
    && sink.reading.view.messages == origin.reading.view.messages + messages
    && sink.reading.given == origin.reading.given + messages
  }

  /** No message has been emitted in between. */
  ghost predicate Unmoved(r: Reading, before: Reading) {
    r.view.messages == before.view.messages && r.given == before.given
  }

  /** What one tool event makes of the pending calls. */
  lemma PendingAfter(pending: set<string>, e: Event, calls: seq<ToolCall>, threads: seq<Thread>, i: nat, t: Thread)
    requires |threads| == |calls| && i < |calls| && PendingIn(pending, calls, threads)
    requires (e.ToolStart? || e.ToolUpdate? || e.ToolEnd?) && e.call == calls[i]
    requires (Active(t) <==> !e.ToolEnd?) && (e.ToolUpdate? ==> Active(threads[i]))
    ensures PendingIn(Apply(View([], None, pending, None), e).pendingToolCalls, calls, threads[i := t])
  {
    forall id | id in Apply(View([], None, pending, None), e).pendingToolCalls
      ensures exists j :: 0 <= j < |calls| && Active(threads[i := t][j]) && calls[j].id == id
    {
      if id in pending {
        var j :| 0 <= j < |calls| && Active(threads[j]) && calls[j].id == id;
        assert Active(threads[i := t][j]);
      } else {
        assert Active(threads[i := t][i]);
      }
    }
  }

  /** What one tool event makes of whether a call wants a reply. */
  lemma WantingAfter(threads: seq<Thread>, i: nat, t: Thread)
    requires i < |threads| && !threads[i].Done?
    ensures SomeWantsReply(threads[i := t]) <==>
      SomeWantsReply(threads) || (t.Done? && !t.ran.outcome.terminate)
  {
    var after := threads[i := t];
    if SomeWantsReply(threads) {
      var j :| 0 <= j < |threads| && threads[j].Done? && !threads[j].ran.outcome.terminate;
      assert after[j] == threads[j];
    }
    if t.Done? && !t.ran.outcome.terminate { assert after[i] == t; }
  }

  lemma ToolEventKeepsBatch(log: seq<Entry>, reading: Reading, e: Event, i: nat, origin: Origin, calls: seq<ToolCall>,
                            threads: seq<Thread>, t: Thread)
    requires i < |calls| && Batching(log, reading, origin, calls, threads)
    requires ConcernsCall(Emit(e), i)
    requires NextCallPhase(PhaseOf(threads[i]), Emit(e), i, calls[i]) == PhaseOf(t) != Disordered
    requires Active(t) <==> !e.ToolEnd?
    ensures Batching(log + [Emit(e)], NextReading(reading, Emit(e)), origin, calls, threads[i := t])
    ensures Unmoved(NextReading(reading, Emit(e)), reading)
  {
    SnocTracks(log[|origin.log|..], Emit(e), calls, threads, i, t);
    PendingAfter(reading.view.pendingToolCalls, e, calls, threads, i, t);
    WantingAfter(threads, i, t);
    assert (log + [Emit(e)])[|origin.log|..] == log[|origin.log|..] + [Emit(e)];
  }

  lemma MessageKeepsBatch(log: seq<Entry>, reading: Reading, m: Message, origin: Origin, calls: seq<ToolCall>,
                          threads: seq<Thread>)
    requires Batching(log, reading, origin, calls, threads)
    ensures var more := log + [Emit(MessageStart(m)), Emit(MessageEnd(m))];
      Batching(more, WithMessage(reading, m), origin, calls, threads)
  {
    var events, more := log[|origin.log|..], [Emit(MessageStart(m)), Emit(MessageEnd(m))];
    SnocOther(events, more[0], calls, threads);
    SnocOther(events + [more[0]], more[1], calls, threads);
    assert (log + more)[|origin.log|..] == events + [more[0]] + [more[1]];
  }

  /** Emits one event of call i, which takes its thread to t. */
  method EmitTool(sink: Sink, e: Event, i: nat, ghost origin: Origin, ghost calls: seq<ToolCall>,
                  ghost threads: seq<Thread>, ghost t: Thread)
    requires i < |calls| && InBatch(sink, origin, calls, threads)
    requires ConcernsCall(Emit(e), i)
    requires NextCallPhase(PhaseOf(threads[i]), Emit(e), i, calls[i]) == PhaseOf(t) != Disordered
    requires Active(t) <==> !e.ToolEnd?
    modifies sink, sink.agent
    ensures InBatch(sink, origin, calls, threads[i := t])
    ensures Unmoved(sink.reading, old(sink.reading))
  {
    ToolEventKeepsBatch(sink.log, sink.reading, e, i, origin, calls, threads, t);
    sink.Emit(e);
  }

  method EmitResult(sink: Sink, m: Message, ghost origin: Origin, ghost calls: seq<ToolCall>,
                    ghost threads: seq<Thread>)
    requires InBatch(sink, origin, calls, threads)
    modifies sink, sink.agent
    ensures InBatch(sink, origin, calls, threads) && sink.reading == WithMessage(old(sink.reading), m)
  {
    MessageKeepsBatch(sink.log, sink.reading, m, origin, calls, threads);
    sink.EmitMessage(m);
  }

  // ---------------------------------------------------------------- batches

  /** The first calls have ended, the others have not been reached. */
  function ThreadsOf(rans: seq<Ran>, n: nat): (threads: seq<Thread>)
    ensures |threads| == n
  {
    seq(n, i requires 0 <= i < n => if i < |rans| then Done(rans[i]) else Waiting)
  }

  function ResultsOf(calls: seq<ToolCall>, rans: seq<Ran>): (messages: seq<Message>)
    requires |rans| <= |calls|
    ensures |messages| == |rans|
  {
    seq(|rans|, i requires 0 <= i < |rans| => ResultMessage(calls[i], rans[i].outcome))
  }

  /** The results answer a prefix of the calls, in their order. */
  ghost predicate Answers(calls: seq<ToolCall>, rans: seq<Ran>, results: seq<Message>) {
    |rans| <= |calls| && results == ResultsOf(calls, rans)
  }

  /** Calls run one after the other, each with its result message. */
  ghost predicate Progress(sink: Sink, origin: Origin, calls: seq<ToolCall>, rans: seq<Ran>, messages: seq<Message>)
    reads sink, sink.agent
  {
    && |rans| <= |calls| && messages == ResultsOf(calls, rans)
    && InBatch(sink, origin, calls, ThreadsOf(rans, |calls|)) && Gained(sink, origin, messages)
  }

  /** What every kind of batch finishes with. */
  ghost predicate BatchEnd(sink: Sink, origin: Origin, calls: seq<ToolCall>, rans: seq<Ran>, batch: Batch)
    reads sink, sink.agent
  {
    && Since(sink, origin)
    && Finished(sink.log[|origin.log|..], calls, rans, batch.messages)
    && sink.reading.view.pendingToolCalls == {} && Gained(sink, origin, batch.messages)
    && (batch.terminate <==> AllTerminate(rans))
    && (sink.reading.record.course.more <==>
          origin.reading.record.course.more || (rans != [] && !AllTerminate(rans)))
  }

  lemma BeginBatch(sink: Sink, calls: seq<ToolCall>)
    requires sink.Synced() && Calm(sink.reading) && sink.reading.view.pendingToolCalls == {}
    ensures Progress(sink, OriginOf(sink), calls, [], [])
  {
    assert sink.log[|sink.log|..] == [];
  }

  lemma EndBatch(sink: Sink, origin: Origin, calls: seq<ToolCall>, rans: seq<Ran>, messages: seq<Message>)
    requires Progress(sink, origin, calls, rans, messages)
    ensures BatchEnd(sink, origin, calls, rans, Batch(messages, AllTerminate(rans)))
  {
    var threads := ThreadsOf(rans, |calls|);
    assert forall i :: 0 <= i < |calls| ==> !Active(threads[i]);
    assert SomeWantsReply(threads) <==> rans != [] && !AllTerminate(rans) by {
      assert forall i :: 0 <= i < |rans| ==> threads[i] == Done(rans[i]);
    }
  }

  /** emitToolExecutionEnd and emitToolResultMessage for the call that is running. */
  method EndCall(sink: Sink, i: nat, ran: Ran, ghost origin: Origin, calls: seq<ToolCall>,
                 ghost rans: seq<Ran>, messages: seq<Message>) returns (messages': seq<Message>)
    requires i == |rans| < |calls| && messages == ResultsOf(calls, rans)
    requires InBatch(sink, origin, calls, ThreadsOf(rans, |calls|)[i := Executing(ran.updates)])
    requires Gained(sink, origin, messages)
    modifies sink, sink.agent
    ensures Progress(sink, origin, calls, rans + [ran], messages')
  {
    ghost var threads := ThreadsOf(rans, |calls|);
    EmitTool(
      sink, ToolEnd(i, calls[i], ran.outcome), i, origin, calls, threads[i := Executing(ran.updates)], Done(ran));
    OneMoreThread(rans, ran, |calls|);
    var m := ResultMessage(calls[i], ran.outcome);
    EmitResult(sink, m, origin, calls, ThreadsOf(rans + [ran], |calls|));
    GainedOneMore(sink.reading, origin.reading, messages, m);
    messages' := messages + [m];
    assert messages' == ResultsOf(calls, rans + [ran]);
  }

  lemma OneMoreThread(rans: seq<Ran>, ran: Ran, n: nat)
    requires |rans| < n
    ensures ThreadsOf(rans, n)[|rans| := Executing(ran.updates)][|rans| := Done(ran)] == ThreadsOf(rans + [ran], n)
  {
  }

  const FAILED := Ran([], ErrorOutcome(TRUNCATED))

  /** Every call is answered with an error; none is prepared or run. */
  method FailToolCallsFromTruncatedMessage(sink: Sink, calls: seq<ToolCall>)
    returns (batch: Batch, ghost rans: seq<Ran>)
    requires sink.Synced() && Calm(sink.reading) && sink.reading.view.pendingToolCalls == {}
    modifies sink, sink.agent
    ensures BatchEnd(sink, old(OriginOf(sink)), calls, rans, batch)
    ensures |rans| == |calls| && forall i :: 0 <= i < |calls| ==> rans[i] == FAILED
  {
    ghost var origin := OriginOf(sink);
    var messages := [];
    rans := [];
    BeginBatch(sink, calls);
    for i := 0 to |calls|
      invariant |rans| == i && (forall k :: 0 <= k < i ==> rans[k] == FAILED)
      invariant Progress(sink, origin, calls, rans, messages)
    {
      EmitTool(sink, ToolStart(i, calls[i]), i, origin, calls, ThreadsOf(rans, |calls|), Executing([]));
      messages := EndCall(sink, i, FAILED, origin, calls, rans, messages);
      rans := rans + [FAILED];
    }
    EndBatch(sink, origin, calls, rans, messages);
    batch := Batch(messages, false);
    assert |rans| > 0 ==> !rans[0].outcome.terminate;
  }

  /** What one call comes to when it is run on its own. */
  function RunAlone(p: Preparation, c: CallScript): Ran {
    match p
    case Immediate(o) => Ran([], o)
    case Ready => Ran(c.updates, Finalize(c.execution, c.after))
  }

  method EmitUpdate(sink: Sink, partialResult: int, i: nat, ghost origin: Origin, calls: seq<ToolCall>,
                    ghost threads: seq<Thread>, ghost done: seq<int>)
    requires i < |calls| && |threads| == |calls|
    requires InBatch(sink, origin, calls, threads[i := Executing(done)])
    modifies sink, sink.agent
    ensures InBatch(sink, origin, calls, threads[i := Executing(done + [partialResult])])
    ensures Unmoved(sink.reading, old(sink.reading))
  {
    ghost var now, next := threads[i := Executing(done)], Executing(done + [partialResult]);
    assert now[i := next] == threads[i := next];
    EmitTool(sink, ToolUpdate(i, calls[i], partialResult), i, origin, calls, now, next);
  }

  /** The tool reports partial results, which are emitted only while updates are accepted. */
  method RunUpdates(sink: Sink, updates: seq<int>, acceptingUpdates: bool, i: nat,
                    ghost origin: Origin, calls: seq<ToolCall>, ghost threads: seq<Thread>)
    requires i < |calls| && InBatch(sink, origin, calls, threads) && threads[i].Executing?
    modifies sink, sink.agent
    ensures Unmoved(sink.reading, old(sink.reading))
    ensures InBatch(sink, origin, calls,
                    threads[i := Executing(threads[i].updates + if acceptingUpdates then updates else [])])
  {
    ghost var now, done := threads, threads[i].updates;
    assert threads[i := Executing(done)] == threads && done + [] == done;
    for n := 0 to |updates|
      invariant done == threads[i].updates + (if acceptingUpdates then updates[..n] else [])
      invariant now == threads[i := Executing(done)]
      invariant InBatch(sink, origin, calls, now) && Unmoved(sink.reading, old(sink.reading))
    {
      if acceptingUpdates {
        EmitUpdate(sink, updates[n], i, origin, calls, threads, done);
        done := done + [updates[n]];
        assert done == threads[i].updates + updates[..n + 1];
        now := threads[i := Executing(done)];
      }
    }
    assert updates[..|updates|] == updates;
  }

  /** executePreparedToolCall and finalizeExecutedToolCall for one call run on its own. */
  method RunCall(sink: Sink, c: CallScript, i: nat, p: Preparation,
                 ghost origin: Origin, calls: seq<ToolCall>, ghost threads: seq<Thread>) returns (ran: Ran)
    requires i < |calls| && InBatch(sink, origin, calls, threads) && threads[i] == Executing([])
    modifies sink, sink.agent
    ensures ran == RunAlone(p, c)
    ensures InBatch(sink, origin, calls, threads[i := Executing(ran.updates)])
    ensures Unmoved(sink.reading, old(sink.reading))
  {
    match p {
      case Immediate(outcome) =>
        ran := Ran([], outcome);
        assert threads[i := Executing([])] == threads;
      case Ready =>
        RunUpdates(sink, c.updates, true, i, origin, calls, threads);
        ghost var now := threads[i := Executing(c.updates)];
        RunUpdates(sink, c.lateUpdates, false, i, origin, calls, now);
        ran := Ran(c.updates, Finalize(c.execution, c.after));
        assert now[i := Executing(c.updates)] == now;
    }
  }

  /** shouldTerminateToolBatch */
  method ShouldTerminateToolBatch(rans: seq<Ran>) returns (r: bool)
    ensures r <==> AllTerminate(rans)
  {
    r := |rans| > 0;
    for i := 0 to |rans|
      invariant r <==> |rans| > 0 && forall k :: 0 <= k < i ==> rans[k].outcome.terminate
    {
      r := r && rans[i].outcome.terminate;
    }
  }

  function RanAt(scripts: nat -> CallScript, before: bool, i: nat): Ran {
    RunAlone(Prepared(scripts, before, i), scripts(i))
  }

  /** The calls run so far one by one, and the signal: nothing has run after an abort was seen. */
  ghost predicate RanInOrder(scripts: nat -> CallScript, before: bool, rans: seq<Ran>, aborted: bool) {
    && aborted == AbortedAfter(scripts, before, |rans|)
    && (forall i: nat :: 0 < i < |rans| ==> !AbortedAfter(scripts, before, i))
    && forall i: nat :: i < |rans| ==> rans[i] == RanAt(scripts, before, i)
  }

  lemma RunsInOrder(scripts: nat -> CallScript, before: bool, rans: seq<Ran>, aborted: bool)
    requires RanInOrder(scripts, before, rans, aborted) && (|rans| > 0 ==> !aborted)
    ensures var c := scripts(|rans|);
      var ran := RunAlone(Prepare(c, aborted || c.abortsInPreparation), c);
      RanInOrder(scripts, before, rans + [ran], aborted || Aborts(c))
  {
    var n := |rans|;
    assert AbortedAfter(scripts, before, n + 1) == (aborted || Aborts(scripts(n)));
    assert RanAt(scripts, before, n)
        == RunAlone(Prepare(scripts(n), aborted || scripts(n).abortsInPreparation), scripts(n));
  }

  /** RunNext, with the account of the calls before. */
  method RunNextInOrder(
      sink: Sink, signal: Signal, scripts: nat -> CallScript, ghost before: bool, ghost origin: Origin,
      calls: seq<ToolCall>, rans: seq<Ran>, messages: seq<Message>)
    returns (rans': seq<Ran>, messages': seq<Message>)
    requires |rans| < |calls| && Progress(sink, origin, calls, rans, messages)
    requires RanInOrder(scripts, before, rans, signal.aborted) && (|rans| > 0 ==> !signal.aborted)
    modifies sink, sink.agent, signal
    ensures |rans'| == |rans| + 1 && Progress(sink, origin, calls, rans', messages')
    ensures RanInOrder(scripts, before, rans', signal.aborted) && (old(signal.aborted) ==> signal.aborted)
  {
    RunsInOrder(scripts, before, rans, signal.aborted);
    var ran;
    ran, messages' := RunNext(sink, signal, scripts(|rans|), |rans|, origin, calls, rans, messages);
    rans' := rans + [ran];
  }

  /** One call, from its start to its result message. */
  method RunNext(sink: Sink, signal: Signal, c: CallScript, i: nat, ghost origin: Origin, calls: seq<ToolCall>,
                 ghost rans: seq<Ran>, messages: seq<Message>) returns (ran: Ran, messages': seq<Message>)
    requires i == |rans| < |calls| && Progress(sink, origin, calls, rans, messages)
    modifies sink, sink.agent, signal
    ensures ran == RunAlone(Prepare(c, old(signal.aborted) || c.abortsInPreparation), c)
    ensures Progress(sink, origin, calls, rans + [ran], messages')
    ensures signal.aborted == (old(signal.aborted) || Aborts(c))
  {
    EmitTool(sink, ToolStart(i, calls[i]), i, origin, calls, ThreadsOf(rans, |calls|), Executing([]));
    if c.abortsInPreparation { signal.aborted := true; }
    ghost var threads := ThreadsOf(rans, |calls|)[i := Executing([])];
    ran := RunCall(sink, c, i, Prepare(c, signal.aborted), origin, calls, threads);
    assert threads[i := Executing(ran.updates)] == ThreadsOf(rans, |calls|)[i := Executing(ran.updates)];
    messages' := EndCall(sink, i, ran, origin, calls, rans, messages);
    if c.abortsAfterwards { signal.aborted := true; }
  }

  /** The loop over the calls, up to the first after which the signal is aborted. */
  method RunInOrder(sink: Sink, signal: Signal, calls: seq<ToolCall>, scripts: nat -> CallScript, ghost origin: Origin)
    returns (rans: seq<Ran>, messages: seq<Message>)
    requires Progress(sink, origin, calls, [], [])
    modifies sink, sink.agent, signal
    ensures Progress(sink, origin, calls, rans, messages)
    ensures ReachedExactly(scripts, old(signal.aborted), |calls|, |rans|)
    ensures RanInOrder(scripts, old(signal.aborted), rans, signal.aborted)
    ensures old(signal.aborted) ==> signal.aborted
  {
    rans, messages := [], [];
    while |rans| < |calls|
      invariant |rans| <= |calls| && Progress(sink, origin, calls, rans, messages)
      invariant RanInOrder(scripts, old(signal.aborted), rans, signal.aborted) && (|rans| > 0 ==> !signal.aborted)
      invariant old(signal.aborted) ==> signal.aborted
    {
      rans, messages :=
        RunNextInOrder(sink, signal, scripts, old(signal.aborted), origin, calls, rans, messages);
      if signal.aborted { break; }
    }
  }

  method ExecuteToolCallsSequential(sink: Sink, signal: Signal, calls: seq<ToolCall>, scripts: nat -> CallScript)
    returns (batch: Batch, rans: seq<Ran>)
    requires sink.Synced() && Calm(sink.reading) && sink.reading.view.pendingToolCalls == {}
    modifies sink, sink.agent, signal
    ensures BatchEnd(sink, old(OriginOf(sink)), calls, rans, batch)
    ensures ReachedExactly(scripts, old(signal.aborted), |calls|, |rans|)
    ensures RanInOrder(scripts, old(signal.aborted), rans, signal.aborted)
    ensures old(signal.aborted) ==> signal.aborted
  {
    ghost var origin := OriginOf(sink);
    BeginBatch(sink, calls);
    var messages;
    rans, messages := RunInOrder(sink, signal, calls, scripts, origin);
    EndBatch(sink, origin, calls, rans, messages);
    var terminate := ShouldTerminateToolBatch(rans);
    batch := Batch(messages, terminate);
  }

  // ---------------------------------------------------------------- concurrent calls

  /** What the first calls are after the preparation phase. */
  ghost predicate Launched(scripts: nat -> CallScript, before: bool, threads: seq<Thread>, n: nat, aborted: bool)
  {
    && n <= |threads|
    && aborted == AbortedAfter(scripts, before, n)
    && (forall i: nat :: 0 < i < n ==> !AbortedAfter(scripts, before, i))
    && (forall i: nat :: i < n ==> threads[i] == Begun(Prepared(scripts, before, i)))
    && forall i: nat :: n <= i < |threads| ==> threads[i] == Waiting
  }

  lemma LaunchesInOrder(scripts: nat -> CallScript, before: bool, threads: seq<Thread>, n: nat, aborted: bool)
    requires Launched(scripts, before, threads, n, aborted) && n < |threads| && (n > 0 ==> !aborted)
    ensures var c := scripts(n);
      Launched(scripts, before, threads[n := Begun(Prepare(c, aborted || c.abortsInPreparation))], n + 1,
               aborted || Aborts(c))
  {
  }

  /** One call's start and preparation; a call settled by preparation ends here. */
  method Launch(sink: Sink, signal: Signal, c: CallScript, i: nat, ghost origin: Origin, calls: seq<ToolCall>,
                threads: seq<Thread>) returns (threads': seq<Thread>)
    requires i < |calls| && InBatch(sink, origin, calls, threads) && threads[i] == Waiting
    modifies sink, sink.agent, signal
    ensures threads' == threads[i := Begun(Prepare(c, old(signal.aborted) || c.abortsInPreparation))]
    ensures InBatch(sink, origin, calls, threads') && Unmoved(sink.reading, old(sink.reading))
    ensures signal.aborted == (old(signal.aborted) || Aborts(c))
  {
    EmitTool(sink, ToolStart(i, calls[i]), i, origin, calls, threads, Executing([]));
    threads' := threads[i := Executing([])];
    if c.abortsInPreparation { signal.aborted := true; }
    match Prepare(c, signal.aborted) {
      case Immediate(o) =>
        EmitTool(sink, ToolEnd(i, calls[i], o), i, origin, calls, threads', Done(Ran([], o)));
        threads' := threads'[i := Done(Ran([], o))];
      case Ready =>
    }
    if c.abortsAfterwards { signal.aborted := true; }
  }

  /** The `for` loop that starts and prepares the calls. */
  method LaunchAll(sink: Sink, signal: Signal, calls: seq<ToolCall>, scripts: nat -> CallScript, ghost origin: Origin)
    returns (threads: seq<Thread>, n: nat)
    requires Progress(sink, origin, calls, [], [])
    modifies sink, sink.agent, signal
    ensures InBatch(sink, origin, calls, threads) && Unmoved(sink.reading, old(sink.reading))
    ensures Launched(scripts, old(signal.aborted), threads, n, signal.aborted)
    ensures (n == |calls| || (n > 0 && signal.aborted)) && (old(signal.aborted) ==> signal.aborted)
  {
    threads, n := ThreadsOf([], |calls|), 0;
    while n < |calls|
      invariant n <= |calls| && InBatch(sink, origin, calls, threads) && Unmoved(sink.reading, old(sink.reading))
      invariant Launched(scripts, old(signal.aborted), threads, n, signal.aborted) && (n > 0 ==> !signal.aborted)
      invariant old(signal.aborted) ==> signal.aborted
    {
      LaunchesInOrder(scripts, old(signal.aborted), threads, n, signal.aborted);
      threads := Launch(sink, signal, scripts(n), n, origin, calls, threads);
      n := n + 1;
      if signal.aborted { break; }
    }
  }

  /** One step of the calls that run concurrently; a step that its thread cannot take does nothing. */
  method Step(sink: Sink, m: Move, ghost origin: Origin, calls: seq<ToolCall>, threads: seq<Thread>)
    returns (threads': seq<Thread>)
    requires InBatch(sink, origin, calls, threads)
    modifies sink, sink.agent
    ensures InBatch(sink, origin, calls, threads') && Unmoved(sink.reading, old(sink.reading))
    ensures forall i: nat :: i < |calls| ==> threads'[i] == NextThread(threads[i], m, i)
  {
    threads' := threads;
    var i := m.thread;
    if i < |threads| {
      match m {
        case Update(_, partialResult) =>
          if threads[i].Executing? {
            var t := Executing(threads[i].updates + [partialResult]);
            EmitTool(sink, ToolUpdate(i, calls[i], partialResult), i, origin, calls, threads, t);
            threads' := threads[i := t];
          }
        case Settle(_, execution) =>
          if threads[i].Executing? {
            threads' := threads[i := Settled(threads[i].updates, execution)];
            SettlingKeepsBatch(sink, origin, calls, threads, i, execution);
          }
        case Finish(_, after) =>
          if threads[i].Settled? {
            var o := Finalize(threads[i].execution, after);
            var t := Done(Ran(threads[i].updates, o));
            EmitTool(sink, ToolEnd(i, calls[i], o), i, origin, calls, threads, t);
            threads' := threads[i := t];
          }
      }
    }
  }

  lemma SettlingKeepsBatch(sink: Sink, origin: Origin, calls: seq<ToolCall>, threads: seq<Thread>, i: nat, e: Execution)
    requires InBatch(sink, origin, calls, threads) && i < |threads| && threads[i].Executing?
    ensures InBatch(sink, origin, calls, threads[i := Settled(threads[i].updates, e)])
  {
    var after := threads[i := Settled(threads[i].updates, e)];
    forall id | id in sink.agent.pendingToolCalls
      ensures exists j :: 0 <= j < |calls| && Active(after[j]) && calls[j].id == id
    {
      var j :| 0 <= j < |calls| && Active(threads[j]) && calls[j].id == id;
      assert Active(after[j]);
    }
  }

  /** Promise.all over the calls that were prepared, under the given schedule. */
  method RunConcurrently(
      sink: Sink, moves: seq<Move>, ghost origin: Origin, calls: seq<ToolCall>, launched: seq<Thread>)
    returns (threads: seq<Thread>)
    requires InBatch(sink, origin, calls, launched)
    modifies sink, sink.agent
    ensures InBatch(sink, origin, calls, threads) && Unmoved(sink.reading, old(sink.reading))
    ensures forall i: nat :: i < |calls| ==> threads[i] == ThreadAfter(launched[i], moves, i)
  {
    threads := launched;
    for k := 0 to |moves|
      invariant InBatch(sink, origin, calls, threads) && Unmoved(sink.reading, old(sink.reading))
      invariant forall i: nat :: i < |calls| ==> threads[i] == ThreadAfter(launched[i], moves[..k], i)
    {
      threads := Step(sink, moves[k], origin, calls, threads);
      assert moves[..k + 1][..k] == moves[..k];
    }
    assert moves[..|moves|] == moves;
  }

  /** What the first n calls came to, when all of them have ended. */
  method Collect(threads: seq<Thread>, n: nat) returns (all: bool, rans: seq<Ran>)
    requires n <= |threads|
    ensures all <==> forall i :: 0 <= i < n ==> threads[i].Done?
    ensures all ==> |rans| == n && forall i :: 0 <= i < n ==> threads[i] == Done(rans[i])
  {
    rans := [];
    for i := 0 to n
      invariant |rans| == i && forall k :: 0 <= k < i ==> threads[k] == Done(rans[k])
    {
      if !threads[i].Done? { return false, rans; }
      rans := rans + [threads[i].ran];
    }
    all := true;
  }

  /** The result messages, in the order of the calls. */
  method EmitResults(sink: Sink, ghost origin: Origin, calls: seq<ToolCall>, rans: seq<Ran>)
    returns (messages: seq<Message>)
    requires |rans| <= |calls| && InBatch(sink, origin, calls, ThreadsOf(rans, |calls|))
    requires Gained(sink, origin, [])
    modifies sink, sink.agent
    ensures Progress(sink, origin, calls, rans, messages)
  {
    messages := [];
    for i := 0 to |rans|
      invariant InBatch(sink, origin, calls, ThreadsOf(rans, |calls|))
      invariant messages == ResultsOf(calls, rans[..i]) && Gained(sink, origin, messages)
    {
      var m := ResultMessage(calls[i], rans[i].outcome);
      EmitResult(sink, m, origin, calls, ThreadsOf(rans, |calls|));
      OneMoreResult(calls, rans, i);
      GainedOneMore(sink.reading, origin.reading, messages, m);
      messages := messages + [m];
    }
    assert rans[..|rans|] == rans;
  }

  lemma OneMoreResult(calls: seq<ToolCall>, rans: seq<Ran>, i: nat)
    requires i < |rans| <= |calls|
    ensures ResultsOf(calls, rans[..i + 1]) == ResultsOf(calls, rans[..i]) + [ResultMessage(calls[i], rans[i].outcome)]
  {
  }

  lemma GainedOneMore(r: Reading, before: Reading, messages: seq<Message>, m: Message)
    ensures before.view.messages + messages + [m] == before.view.messages + (messages + [m])
    ensures before.given + messages + [m] == before.given + (messages + [m])
  {
  }

  /** Each call came to what its own moves say, whatever the others did. */
  ghost predicate RanConcurrently(scripts: nat -> CallScript, before: bool, moves: seq<Move>, rans: seq<Ran>) {
    forall i: nat :: i < |rans| ==> Done(rans[i]) == ThreadAfter(Begun(Prepared(scripts, before, i)), moves, i)
  }

  /** Two schedules in which each call takes the same steps come to the same, however they are interleaved. */
  lemma SchedulesAgree(scripts: nat -> CallScript, before: bool, one: seq<Move>, other: seq<Move>,
                       rans: seq<Ran>, rans': seq<Ran>)
    requires RanConcurrently(scripts, before, one, rans) && RanConcurrently(scripts, before, other, rans')
    requires |rans| == |rans'| && forall i: nat :: i < |rans| ==> OwnMoves(one, i) == OwnMoves(other, i)
    ensures rans == rans'
  {
    forall i: nat | i < |rans| ensures rans[i] == rans'[i] {
      var t := Begun(Prepared(scripts, before, i));
      InterleavingDoesNotMatter(t, one, i);
      InterleavingDoesNotMatter(t, other, i);
      assert Done(rans[i]) == Done(rans'[i]);
    }
  }

  /** Without all the needed moves the batch is suspended: its tools are still running. */
  method ExecuteToolCallsParallel(sink: Sink, signal: Signal, calls: seq<ToolCall>, scripts: nat -> CallScript,
                                  moves: seq<Move>)
    returns (finished: bool, batch: Batch, rans: seq<Ran>)
    requires sink.Synced() && Calm(sink.reading) && sink.reading.view.pendingToolCalls == {}
    modifies sink, sink.agent, signal
    ensures Since(sink, old(OriginOf(sink))) && (!finished ==> Unmoved(sink.reading, old(sink.reading)))
    ensures old(signal.aborted) ==> signal.aborted
    ensures finished ==> BatchEnd(sink, old(OriginOf(sink)), calls, rans, batch)
    ensures finished ==> ReachedExactly(scripts, old(signal.aborted), |calls|, |rans|)
    ensures finished ==> signal.aborted == AbortedAfter(scripts, old(signal.aborted), |rans|)
    ensures finished ==> RanConcurrently(scripts, old(signal.aborted), moves, rans)
  {
    ghost var origin := OriginOf(sink);
    BeginBatch(sink, calls);
    var launched, n := LaunchAll(sink, signal, calls, scripts, origin);
    var threads := RunConcurrently(sink, moves, origin, calls, launched);
    batch := Batch([], false);
    finished, rans := Collect(threads, n);
    if finished {
      WaitingStays(launched, moves, threads, n);
      ThreadsOutcome(scripts, old(signal.aborted), signal.aborted, launched, moves, threads, n, rans);
      batch := Conclude(sink, origin, calls, rans);
    }
  }

  /** The results of a batch whose calls have all ended. */
  method Conclude(sink: Sink, ghost origin: Origin, calls: seq<ToolCall>, rans: seq<Ran>) returns (batch: Batch)
    requires |rans| <= |calls| && InBatch(sink, origin, calls, ThreadsOf(rans, |calls|)) && Gained(sink, origin, [])
    modifies sink, sink.agent
    ensures BatchEnd(sink, origin, calls, rans, batch)
  {
    var messages := EmitResults(sink, origin, calls, rans);
    EndBatch(sink, origin, calls, rans, messages);
    var terminate := ShouldTerminateToolBatch(rans);
    batch := Batch(messages, terminate);
  }

  lemma ThreadsOutcome(scripts: nat -> CallScript, before: bool, aborted: bool, launched: seq<Thread>, moves: seq<Move>,
                       threads: seq<Thread>, n: nat, rans: seq<Ran>)
    requires |threads| == |launched| && Launched(scripts, before, launched, n, aborted) && |rans| == n
    requires n == |launched| || (n > 0 && aborted)
    requires forall i: nat :: i < |launched| ==> threads[i] == ThreadAfter(launched[i], moves, i)
    requires forall i: nat :: n <= i < |launched| ==> threads[i] == Waiting
    requires forall i: nat :: i < n ==> threads[i] == Done(rans[i])
    ensures threads == ThreadsOf(rans, |launched|)
    ensures ReachedExactly(scripts, before, |launched|, n) && RanConcurrently(scripts, before, moves, rans)
  {
  }

  lemma {:induction false} StaysWaiting(moves: seq<Move>, i: nat)
    ensures ThreadAfter(Waiting, moves, i) == Waiting
  {
    if moves != [] { StaysWaiting(moves[..|moves| - 1], i); }
  }

  lemma WaitingStays(launched: seq<Thread>, moves: seq<Move>, threads: seq<Thread>, n: nat)
    requires |threads| == |launched|
    requires forall i: nat :: i < |launched| ==> threads[i] == ThreadAfter(launched[i], moves, i)
    requires forall i: nat :: n <= i < |launched| ==> launched[i] == Waiting
    ensures forall i: nat :: n <= i < |threads| ==> threads[i] == Waiting
  {
    forall i: nat | n <= i < |threads| ensures threads[i] == Waiting { StaysWaiting(moves, i); }
  }

  predicate SomeSequential(calls: seq<ToolCall>, scripts: nat -> CallScript) {
    exists i: nat :: i < |calls| && scripts(i).found && scripts(i).sequentialTool
  }

  method HasSequentialToolCall(calls: seq<ToolCall>, scripts: nat -> CallScript) returns (r: bool)
    ensures r <==> SomeSequential(calls, scripts)
  {
    r := false;
    for i := 0 to |calls|
      invariant r <==> exists k: nat :: k < i && scripts(k).found && scripts(k).sequentialTool
    {
      r := r || (scripts(i).found && scripts(i).sequentialTool);
    }
  }

  /** The batch of a message that may be truncated. */
  method ExecuteToolCalls(sink: Sink, signal: Signal, truncated: bool, calls: seq<ToolCall>,
                          scripts: nat -> CallScript, moves: seq<Move>)
    returns (finished: bool, batch: Batch, ghost rans: seq<Ran>)
    requires sink.Synced() && Calm(sink.reading) && sink.reading.view.pendingToolCalls == {}
    modifies sink, sink.agent, signal
    ensures Since(sink, old(OriginOf(sink))) && (!finished ==> Unmoved(sink.reading, old(sink.reading)))
    ensures old(signal.aborted) ==> signal.aborted
    ensures finished ==> BatchEnd(sink, old(OriginOf(sink)), calls, rans, batch)
    ensures finished && truncated ==> |rans| == |calls| && forall ran :: ran in rans ==> ran == FAILED
    ensures finished && !truncated ==> ReachedExactly(scripts, old(signal.aborted), |calls|, |rans|)
    ensures finished && !truncated && (sink.agent.toolExecution == Sequential || SomeSequential(calls, scripts)) ==>
      RanInOrder(scripts, old(signal.aborted), rans, signal.aborted)
    ensures finished && !truncated && sink.agent.toolExecution == Parallel && !SomeSequential(calls, scripts) ==>
      RanConcurrently(scripts, old(signal.aborted), moves, rans)
    ensures finished && |rans| < |calls| ==> signal.aborted
    ensures !finished ==> !truncated && sink.agent.toolExecution == Parallel && !SomeSequential(calls, scripts)
  {
    finished := true;
    if truncated {
      batch, rans := FailToolCallsFromTruncatedMessage(sink, calls);
    } else {
      var sequential := HasSequentialToolCall(calls, scripts);
      if sink.agent.toolExecution == Sequential || sequential {
        batch, rans := ExecuteToolCallsSequential(sink, signal, calls, scripts);
      } else {
        finished, batch, rans := ExecuteToolCallsParallel(sink, signal, calls, scripts, moves);
      }
    }
  }
}
