/**
 * What becomes of each tool call of a batch, in terms of its script alone: which calls are rejected, with which
 * error, and what the others come to (packages/agent/src/agent-loop.ts, 598-789).
 */
module AgentOutcomes {
  import opened Basics
  import opened AgentTypes
  import opened AgentTrace
  import opened AgentTools

  /** Whether the signal is aborted when the before hook of a call has returned; later calls are reached only if not. */
  predicate AbortedAt(scripts: nat -> CallScript, before: bool, i: nat) {
    scripts(i).abortsInPreparation || (i == 0 && before)
  }

  /** Call i aborts the signal, before its hook has returned or later. */
  predicate AbortsAt(scripts: nat -> CallScript, i: int) {
    0 <= i && (scripts(i).abortsInPreparation || scripts(i).abortsAfterwards)
  }

  /** The signal is aborted after n calls exactly if it was before the batch or one of them aborted it. */
  lemma {:induction false} AbortedExactly(scripts: nat -> CallScript, before: bool, n: nat)
    ensures AbortedAfter(scripts, before, n) <==> before || exists i :: i < n && AbortsAt(scripts, i)
  {
    if n > 0 {
      AbortedExactly(scripts, before, n - 1);
      if AbortsAt(scripts, n - 1) { assert n - 1 < n && AbortsAt(scripts, n - 1); }
    }
  }

  /** A batch stops after the first call after which the signal is aborted, and goes through all calls otherwise. */
  lemma ReachesUpToAbort(scripts: nat -> CallScript, before: bool, calls: nat, n: nat)
    requires ReachedExactly(scripts, before, calls, n) && calls > 0
    ensures 0 < n <= calls
    ensures n < calls ==> before || exists i :: i < n && AbortsAt(scripts, i)
    ensures n > 1 ==> !before && forall i :: i < n - 1 ==> !AbortsAt(scripts, i)
  {
    AbortedExactly(scripts, before, n);
    if n > 1 { AbortedExactly(scripts, before, n - 1); }
  }

  predicate Blocked(c: CallScript) { c.before.BeforeReturns? && c.before.block }

  predicate HasValidArguments(c: CallScript) { c.found && c.rejectsArguments.None? }

  /** Nothing stands against executing the call. */
  predicate Passes(c: CallScript, aborted: bool) {
    HasValidArguments(c) && !c.before.BeforeThrows? && !Blocked(c) && !aborted
  }

  /** A call that does not pass reports no update and ends with the error that stands against it. */
  ghost predicate Decided(c: CallScript, aborted: bool, ran: Ran) {
    && (!Passes(c, aborted) ==> ran.updates == [] && ran.outcome.isError)
    && (!c.found ==> ran.outcome.content == NOT_FOUND)
    && (c.found && c.rejectsArguments.Some? ==> ran.outcome.content == c.rejectsArguments.value)
    && (HasValidArguments(c) && c.before.BeforeThrows? ==> ran.outcome.content == c.before.error)
    && (HasValidArguments(c) && !c.before.BeforeThrows? && aborted ==> ran.outcome.content == OPERATION_ABORTED)
    && (HasValidArguments(c) && Blocked(c) && !aborted ==> ran.outcome.content == c.before.reason)
    && (!Passes(c, aborted) ==> (ran.outcome.terminate <==>
          HasValidArguments(c) && Blocked(c) && !aborted && c.before.terminate))
  }

  /** The outcome of an execution and of the after hook, field by field. */
  ghost predicate Executed(e: Execution, after: AfterHook, o: ToolOutcome) {
    match after
    case AfterThrows(error) => o.content == error && o.isError && !o.terminate
    case NoAfter => ContentOf(e, o) && (o.isError <==> e.Throws?) && (o.terminate <==> e.Returns? && e.terminate)
    case AfterReturns(content, terminate, isError) =>
      && (if content.Some? then o.content == content.value else ContentOf(e, o))
      && (o.terminate <==> if terminate.Some? then terminate.value else e.Returns? && e.terminate)
      && (o.isError <==> if isError.Some? then isError.value else e.Throws?)
  }

  predicate ContentOf(e: Execution, o: ToolOutcome) {
    match e
    case Returns(content, _) => o.content == content
    case Throws(error) => o.content == error
  }

  /** Run on its own, a call that passes reports its updates and comes to what it is executed to. */
  ghost predicate RanAlone(c: CallScript, aborted: bool, ran: Ran) {
    Passes(c, aborted) ==> ran.updates == c.updates && Executed(c.execution, c.after, ran.outcome)
  }

  lemma SequentialCallIsDecided(scripts: nat -> CallScript, before: bool, rans: seq<Ran>, aborted: bool, i: nat)
    requires RanInOrder(scripts, before, rans, aborted) && i < |rans|
    ensures Decided(scripts(i), AbortedAt(scripts, before, i), rans[i])
    ensures RanAlone(scripts(i), AbortedAt(scripts, before, i), rans[i])
  {
    assert rans[i] == RanAt(scripts, before, i);
  }

  // ---------------------------------------------------------------- concurrent calls

  function Reported(moves: seq<Move>): seq<int> {
    if moves == [] then []
    else
      Reported(moves[..|moves| - 1])
      + if moves[|moves| - 1].Update? then [moves[|moves| - 1].partialResult] else []
  }

  /** The first of these moves that settles an execution. */
  ghost predicate SettlesAt(own: seq<Move>, a: nat) {
    a < |own| && own[a].Settle? && forall k :: 0 <= k < a ==> !own[k].Settle?
  }

  /** The first move after a that finishes the call. */
  ghost predicate FinishesAt(own: seq<Move>, a: nat, b: nat) {
    a < b < |own| && own[b].Finish? && forall k :: a < k < b ==> !own[k].Finish?
  }

  /**
   * A call's own moves, read from the front: it reports the updates before the first Settle, is executed as that
   * says, and is finished by the first Finish after it.
   */
  ghost predicate RanByMoves(own: seq<Move>, ran: Ran) {
    exists a: nat, b: nat :: SettlesAt(own, a) && FinishesAt(own, a, b)
      && ran.updates == Reported(own[..a]) && Executed(own[a].execution, own[b].after, ran.outcome)
  }

  /** Where a thread that has begun to execute is after its own moves. */
  ghost predicate Follows(t: Thread, own: seq<Move>) {
    match t
    case Waiting => false
    case Executing(updates) => (forall k :: 0 <= k < |own| ==> !own[k].Settle?) && updates == Reported(own)
    case Settled(updates, e) =>
      exists a: nat :: SettlesAt(own, a) && (forall k :: a < k < |own| ==> !own[k].Finish?)
        && updates == Reported(own[..a]) && e == own[a].execution
    case Done(ran) => RanByMoves(own, ran)
  }

  lemma FollowOneMore(t: Thread, own: seq<Move>, m: Move, i: nat)
    requires Follows(t, own) && m.thread == i
    ensures Follows(NextThread(t, m, i), own + [m])
  {
    var more := own + [m];
    assert more[..|own|] == own;
    match t {
      case Waiting =>
      case Executing(_) =>
        if m.Settle? { assert SettlesAt(more, |own|); }
      case Settled(updates, e) =>
        var a: nat :| SettlesAt(own, a) && (forall k :: a < k < |own| ==> !own[k].Finish?)
          && updates == Reported(own[..a]) && e == own[a].execution;
        assert SettlesAt(more, a) && more[..a] == own[..a];
        if m.Finish? { assert FinishesAt(more, a, |own|); }
      case Done(ran) =>
        var a: nat, b: nat :| SettlesAt(own, a) && FinishesAt(own, a, b)
          && ran.updates == Reported(own[..a]) && Executed(own[a].execution, own[b].after, ran.outcome);
        assert SettlesAt(more, a) && FinishesAt(more, a, b) && more[..a] == own[..a];
    }
  }

  lemma {:induction false} ThreadFollows(moves: seq<Move>, i: nat)
    ensures Follows(ThreadAfter(Executing([]), moves, i), OwnMoves(moves, i))
  {
    if moves != [] {
      var before, m := moves[..|moves| - 1], moves[|moves| - 1];
      ThreadFollows(before, i);
      if m.thread == i {
        FollowOneMore(ThreadAfter(Executing([]), before, i), OwnMoves(before, i), m, i);
      } else {
        assert OwnMoves(moves, i) == OwnMoves(before, i);
      }
    }
  }

  lemma {:induction false} DoneStays(ran: Ran, moves: seq<Move>, i: nat)
    ensures ThreadAfter(Done(ran), moves, i) == Done(ran)
  {
    if moves != [] { DoneStays(ran, moves[..|moves| - 1], i); }
  }

  /** Every call that a concurrent batch reaches is decided by its script, and executed as its own moves say. */
  lemma ConcurrentCallIsDecided(
      scripts: nat -> CallScript, before: bool, moves: seq<Move>, calls: nat, rans: seq<Ran>, i: nat)
    requires RanConcurrently(scripts, before, moves, rans) && ReachedExactly(scripts, before, calls, |rans|)
    requires i < |rans|
    ensures Decided(scripts(i), AbortedAt(scripts, before, i), rans[i])
    ensures Passes(scripts(i), AbortedAt(scripts, before, i)) ==> RanByMoves(OwnMoves(moves, i), rans[i])
  {
    assert Done(rans[i]) == ThreadAfter(Begun(Prepared(scripts, before, i)), moves, i);
    match Prepared(scripts, before, i) {
      case Immediate(o) => DoneStays(Ran([], o), moves, i);
      case Ready => ThreadFollows(moves, i);
    }
  }

  // ---------------------------------------------------------------- what follows for every batch

  /** A result carries its call's id and name, and the content and error flag of the outcome. */
  lemma ResultsCarryOutcomes(calls: seq<ToolCall>, rans: seq<Ran>, results: seq<Message>, i: nat)
    requires Answers(calls, rans, results) && i < |rans|
    ensures |results| == |rans|
    ensures results[i].ToolResult? && results[i].callId == calls[i].id && results[i].name == calls[i].name
    ensures results[i].content == rans[i].outcome.content && results[i].isError == rans[i].outcome.isError
  {
  }

  /** Rejection does not depend on anything the tool or the after hook would have done. */
  lemma RejectionIgnoresExecution(c: CallScript, other: CallScript, aborted: bool, ran: Ran, ran': Ran)
    requires Decided(c, aborted, ran) && Decided(other, aborted, ran') && !Passes(c, aborted)
    requires other == c.(updates := other.updates, execution := other.execution, lateUpdates := other.lateUpdates,
                         after := other.after)
    ensures ran == ran'
  {
  }

  /** A rejected call of a finished batch starts and ends, with nothing in between, and is answered by its error. */
  lemma RejectedCallOnlyEnds(events: seq<Entry>, calls: seq<ToolCall>, rans: seq<Ran>, messages: seq<Message>, i: nat,
                             c: CallScript, aborted: bool)
    requires Finished(events, calls, rans, messages) && i < |rans|
    requires Decided(c, aborted, rans[i]) && !Passes(c, aborted)
    ensures Projection(events, i) == [ToolStart(i, calls[i]), ToolEnd(i, calls[i], rans[i].outcome)]
    ensures messages[i] == ToolResult(calls[i].id, calls[i].name, rans[i].outcome.content, true)
  {
    CallPhaseReadsProjection(events, i, calls[i]);
  }
}
