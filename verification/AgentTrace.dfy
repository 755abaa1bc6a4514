/**
 * What the trace of an agent run must look like. Everything is read off the log of the run by one fold,
 * `Read`: the grammar of its events, message brackets, deliveries, the Agent's own state
 * (packages/agent/src/agent.ts, processEvents), the context the model should be given, and the record of
 * what the run was told. The lemmas below connect each part of the fold to a plain statement about the log.
 */
module AgentTrace {
  import opened Basics
  import opened AgentTypes

  // ---------------------------------------------------------------- the Agent's own state

  /** The fields of `_state` that processEvents changes. */
  datatype View = View(
    messages: seq<Message>, streaming: Option<Message>, pendingToolCalls: set<string>, errorMessage: Option<string>)

  function Apply(v: View, e: Event): View {
    match e
    case MessageStart(m) => v.(streaming := Some(m))
    case MessageUpdate(m) => v.(streaming := Some(m))
    case MessageEnd(m) => v.(streaming := None, messages := v.messages + [m])
    case ToolStart(_, call) => v.(pendingToolCalls := v.pendingToolCalls + {call.id})
    case ToolEnd(_, call, _) => v.(pendingToolCalls := v.pendingToolCalls - {call.id})
    case TurnEnd(m, _) =>
      if m.Assistant? && m.errorMessage.Some? && m.errorMessage.value != ""
      then v.(errorMessage := m.errorMessage) else v
    case AgentEnd(_) => v.(streaming := None)
    case _ => v
  }

  // ---------------------------------------------------------------- the parts of the fold

  /**
   * The turn structure. `halted` is set by an error or aborted reply and by a true shouldStopAfterTurn: no
   * model call and no turn may follow.
   */
  datatype TurnPhase = Before | Gap(turns: nat, halted: bool) | InTurn(turns: nat, halted: bool) | Over | Wrong

  function NextTurnPhase(p: TurnPhase, e: Entry): TurnPhase {
    match p
    case Before => if e == Emit(AgentStart) then Gap(0, false) else Wrong
    case Gap(n, halted) =>
      (match e
       case Emit(TurnStart) => if halted then Wrong else InTurn(n, false)
       case Emit(AgentEnd(_)) => if n > 0 then Over else Wrong
       case StopAsked(answer) => if n > 0 && !halted then Gap(n, answer) else Wrong
       case Replaced(_) => if n > 0 && !halted then p else Wrong
       case _ => Wrong)
    case InTurn(n, halted) =>
      (match e
       case Emit(AgentStart) => Wrong
       case Emit(AgentEnd(_)) => Wrong
       case Emit(TurnStart) => Wrong
       case Emit(TurnEnd(_, _)) => Gap(n + 1, halted)
       case Emit(_) => p
       case ModelCall(_) => if halted then Wrong else p
       case Replied(reason) => InTurn(n, halted || reason == Error || reason == Aborted)
       case StopAsked(_) => Wrong
       case Injected(_, _) => if halted then Wrong else p
       case Replaced(_) => Wrong)
    case Over => Wrong
    case Wrong => Wrong
  }

  /** Shut when every message_start so far has its message_end before anything but updates. */
  datatype BracketPhase = Shut | Open | Broken

  function NextBracket(p: BracketPhase, e: Entry): BracketPhase {
    match (p, e)
    case (Broken, _) => Broken
    case (Shut, Emit(MessageStart(_))) => Open
    case (Open, Emit(MessageUpdate(_))) => Open
    case (Open, Emit(MessageEnd(_))) => Shut
    case (Shut, Emit(MessageUpdate(_))) => Broken
    case (Shut, Emit(MessageEnd(_))) => Broken
    case (Shut, _) => Shut
    case (Open, _) => Broken
  }

  /** Partial messages that a second message_start left without an end, since the context was last replaced. */
  datatype Leftover = Leftover(started: bool, left: nat)

  function NextLeftover(p: Leftover, e: Entry): Leftover {
    match e
    case Emit(MessageStart(_)) => if p.started then p.(left := p.left + 1) else p.(started := true)
    case Emit(MessageEnd(_)) => p.(started := false)
    case Replaced(_) => p.(left := 0)
    case _ => p
  }

  /** What is taken from a queue is announced and ended at once, unchanged. */
  datatype DeliveryPhase = Idle | Due(message: Message) | Announced(message: Message) | Lost

  function NextDelivery(p: DeliveryPhase, e: Entry): DeliveryPhase {
    match p
    case Idle => if e.Injected? then Due(e.message) else Idle
    case Due(m) => if e == Emit(MessageStart(m)) then Announced(m) else Lost
    case Announced(m) => if e == Emit(MessageEnd(m)) then Idle else Lost
    case Lost => Lost
  }

  /** The context without leftovers: what it was or was replaced by, and every message ended since. */
  function NextGiven(given: seq<Message>, e: Entry): seq<Message> {
    match e
    case Emit(MessageEnd(m)) => given + [m]
    case Replaced(messages) => messages
    case _ => given
  }

  /** How many queued messages have been injected in this turn, and at most in any turn. */
  datatype Pace = Pace(inTurn: nat, peak: nat)

  function Max(a: nat, b: nat): nat { if a < b then b else a }

  function NextPace(p: Pace, e: Entry): Pace {
    match e
    case Emit(TurnStart) => p.(inTurn := 0)
    case Injected(_, _) => Pace(p.inTurn + 1, Max(p.peak, p.inTurn + 1))
    case _ => p
  }

  /** What a turn has come to so far: the messages injected in it, and whether one of its tool calls wants a reply. */
  datatype Course = Course(injected: seq<Message>, more: bool)

  const NOTHING_YET := Course([], false)

  function NextCourse(c: Course, e: Entry): Course {
    match e
    case Injected(_, m) => c.(injected := c.injected + [m])
    case Emit(ToolEnd(_, _, o)) => c.(more := c.more || !o.terminate)
    case Emit(TurnEnd(_, _)) => NOTHING_YET
    case _ => c
  }

  /** The messages of one finished turn after those injected in it, its reply and the results, and its course. */
  datatype Ending = Ending(reply: Message, results: seq<Message>, course: Course)

  /**
   * What the run has been told: what came from each queue, the turns that ended, the contexts that replaced
   * another, and, in order, the injected messages and the messages of the ended turns.
   */
  datatype Record = Record(
    steering: seq<Message>, followUps: seq<Message>,
    told: seq<Message>, endings: seq<Ending>, replacements: seq<seq<Message>>, course: Course)

  function NextRecord(r: Record, e: Entry): Record {
    var course := NextCourse(r.course, e);
    match e
    case Injected(Steering, m) => r.(steering := r.steering + [m], told := r.told + [m], course := course)
    case Injected(FollowUp, m) => r.(followUps := r.followUps + [m], told := r.told + [m], course := course)
    case Emit(TurnEnd(m, rs)) =>
      r.(told := r.told + ([m] + rs), endings := r.endings + [Ending(m, rs, r.course)], course := course)
    case Replaced(messages) => r.(replacements := r.replacements + [messages])
    case _ => r.(course := course)
  }

  // ---------------------------------------------------------------- the fold

  /**
   * `clean`: at every turn_end so far no tool call was pending. `sees`: every model call so far was given the
   * context `given`, unless a leftover was in it.
   */
  datatype Reading = Reading(
    turns: TurnPhase, brackets: BracketPhase, leftover: Leftover, delivery: DeliveryPhase, pace: Pace,
    view: View, given: seq<Message>, record: Record, clean: bool, sees: bool)

  function Unread(v: View): Reading {
    Reading(
      Before, Shut, Leftover(false, 0), Idle, Pace(0, 0), v, v.messages,
      Record([], [], [], [], [], NOTHING_YET), true, true)
  }

  function NextReading(r: Reading, e: Entry): Reading {
    Reading(
      NextTurnPhase(r.turns, e), NextBracket(r.brackets, e), NextLeftover(r.leftover, e), NextDelivery(r.delivery, e),
      NextPace(r.pace, e), if e.Emit? then Apply(r.view, e.event) else r.view, NextGiven(r.given, e),
      NextRecord(r.record, e),
      r.clean && (e.Emit? && e.event.TurnEnd? ==> r.view.pendingToolCalls == {}),
      r.sees && (e.ModelCall? && r.leftover.left == 0 ==> e.context == r.given))
  }

  function Read(v: View, log: seq<Entry>): Reading {
    if log == [] then Unread(v) else NextReading(Read(v, log[..|log| - 1]), log[|log| - 1])
  }

  /** The readings of all prefixes of a log, kept up step by step. */
  ghost predicate IsHistory(v: View, log: seq<Entry>, readings: seq<Reading>) {
    && |readings| == |log| + 1 && readings[0] == Unread(v)
    && forall k {:trigger log[k]} :: 0 <= k < |log| ==> readings[k + 1] == NextReading(readings[k], log[k])
  }

  lemma OneMoreReading(v: View, log: seq<Entry>, readings: seq<Reading>, e: Entry)
    requires IsHistory(v, log, readings)
    ensures IsHistory(v, log + [e], readings + [NextReading(readings[|log|], e)])
  {
  }

  lemma {:induction false} HistoryReads(v: View, log: seq<Entry>, readings: seq<Reading>)
    requires IsHistory(v, log, readings)
    ensures readings[|log|] == Read(v, log)
  {
    if log != [] {
      var n := |log| - 1;
      HistoryReads(v, log[..n], readings[..n + 1]);
      assert log[n] == log[|log| - 1];
    }
  }

  /** The fold of a log, up to entry k. */
  lemma ReadPrefix(v: View, log: seq<Entry>, k: nat)
    requires k < |log|
    ensures Read(v, log[..k + 1]) == NextReading(Read(v, log[..k]), log[k])
  {
    assert log[..k + 1][..k] == log[..k];
  }

  // ---------------------------------------------------------------- turns

  function Events(log: seq<Entry>): seq<Event> {
    if log == [] then []
    else
      Events(log[..|log| - 1]) + EventOf(log[|log| - 1])
  }

  predicate IsFrame(e: Event) { e.AgentStart? || e.AgentEnd? || e.TurnStart? || e.TurnEnd? }

  /** A turn: turn_start, events that open or close nothing of the kind, turn_end. */
  ghost predicate IsTurn(t: seq<Event>) {
    && |t| >= 2 && t[0].TurnStart? && t[|t| - 1].TurnEnd?
    && forall i :: 0 < i < |t| - 1 ==> !IsFrame(t[i])
  }

  ghost function Flat(ts: seq<seq<Event>>): seq<Event> {
    if ts == [] then [] else Flat(ts[..|ts| - 1]) + ts[|ts| - 1]
  }

  /** An unfinished turn. */
  ghost predicate IsOpenTurn(t: seq<Event>) {
    |t| >= 1 && t[0].TurnStart? && forall i :: 0 < i < |t| ==> !IsFrame(t[i])
  }

  /** The grammar, declaratively: agent_start, one or more turns, agent_end. */
  ghost predicate Grammatical(events: seq<Event>) {
    exists ts: seq<seq<Event>>, end: Event ::
      && |ts| >= 1 && (forall i :: 0 <= i < |ts| ==> IsTurn(ts[i]))
      && end.AgentEnd? && events == [AgentStart] + Flat(ts) + [end]
  }

  /** What the phase says about the events so far. */
  ghost predicate Scanned(p: TurnPhase, events: seq<Event>, ts: seq<seq<Event>>, rest: seq<Event>) {
    && (forall i :: 0 <= i < |ts| ==> IsTurn(ts[i]))
    && match p
       case Before => events == []
       case Gap(n, _) => |ts| == n && events == [AgentStart] + Flat(ts)
       case InTurn(n, _) => |ts| == n && IsOpenTurn(rest) && events == [AgentStart] + Flat(ts) + rest
       case Over => |ts| >= 1 && |rest| == 1 && rest[0].AgentEnd? && events == [AgentStart] + Flat(ts) + rest
       case Wrong => true
  }

  lemma {:induction false} PhaseReadsTurns(v: View, log: seq<Entry>) returns (ts: seq<seq<Event>>, rest: seq<Event>)
    ensures Scanned(Read(v, log).turns, Events(log), ts, rest)
  {
    ts, rest := [], [];
    if log != [] {
      var before, e := log[..|log| - 1], log[|log| - 1];
      var ts', rest' := PhaseReadsTurns(v, before);
      ts, rest := ScanOne(Read(v, before).turns, Events(before), ts', rest', e);
    }
  }

  function EventOf(e: Entry): seq<Event> { if e.Emit? then [e.event] else [] }

  lemma ScanOne(p: TurnPhase, events: seq<Event>, ts: seq<seq<Event>>, rest: seq<Event>, e: Entry)
    returns (ts': seq<seq<Event>>, rest': seq<Event>)
    requires Scanned(p, events, ts, rest)
    ensures Scanned(NextTurnPhase(p, e), events + EventOf(e), ts', rest')
  {
    ts', rest' := ts, rest;
    assert events + [] == events;
    match p {
      case Before =>
        ts' := [];
        assert e == Emit(AgentStart) ==> events + EventOf(e) == [AgentStart] + Flat([]);
      case Gap(_, _) =>
        rest' := EventOf(e);
      case InTurn(_, _) =>
        if e.Emit? { ts', rest' := ScanInTurn(events, ts, rest, e.event); }
      case _ =>
    }
  }

  /** One more event of an unfinished turn, which may end it. */
  lemma ScanInTurn(events: seq<Event>, ts: seq<seq<Event>>, rest: seq<Event>, v: Event)
    returns (ts': seq<seq<Event>>, rest': seq<Event>)
    requires (forall i :: 0 <= i < |ts| ==> IsTurn(ts[i])) && IsOpenTurn(rest)
    requires events == [AgentStart] + Flat(ts) + rest
    ensures v.TurnEnd? ==> |ts'| == |ts| + 1 && (forall i :: 0 <= i < |ts'| ==> IsTurn(ts'[i]))
                           && events + [v] == [AgentStart] + Flat(ts')
    ensures !v.TurnEnd? ==> ts' == ts
    ensures !IsFrame(v) ==> IsOpenTurn(rest') && events + [v] == [AgentStart] + Flat(ts') + rest'
  {
    rest' := rest + [v];
    if v.TurnEnd? {
      ts' := ts + [rest'];
      assert ts'[..|ts|] == ts;
      assert ([AgentStart] + Flat(ts) + rest) + [v] == [AgentStart] + (Flat(ts) + rest');
    } else {
      ts' := ts;
      assert ([AgentStart] + Flat(ts) + rest) + [v] == [AgentStart] + Flat(ts) + rest';
    }
  }

  /** A log whose turns read to the end has grammatical events. */
  lemma OverIsGrammatical(v: View, log: seq<Entry>)
    requires Read(v, log).turns == Over
    ensures Grammatical(Events(log))
  {
    var ts, rest := PhaseReadsTurns(v, log);
    assert rest == [rest[0]];
  }

  predicate Halts(e: Entry) {
    e == Replied(Error) || e == Replied(Aborted) || e == StopAsked(true)
  }

  predicate IsHalted(p: TurnPhase) { p.Over? || ((p.Gap? || p.InTurn?) && p.halted) }

  /** Where the turns are not wrong, no model is called and nothing is injected after a halting entry. */
  lemma {:induction false} NothingAfterHalt(v: View, log: seq<Entry>, i: nat, j: nat)
    requires Read(v, log).turns != Wrong && i < j < |log| && Halts(log[i])
    ensures !log[j].ModelCall? && !log[j].Injected? && log[j] != Emit(TurnStart)
    ensures IsHalted(Read(v, log).turns)
    decreases |log|
  {
    var before := log[..|log| - 1];
    assert Read(v, before).turns != Wrong;
    if j < |log| - 1 {
      NothingAfterHalt(v, before, i, j);
    } else if i < |log| - 2 {
      NothingAfterHalt(v, before, i, |log| - 2);
    }
  }

  // ---------------------------------------------------------------- brackets, deliveries, pace

  /** In a log with shut brackets, each message_start is followed by updates only, up to a message_end. */
  lemma {:induction false} BracketsNeverOverlap(v: View, log: seq<Entry>, i: nat) returns (j: nat)
    requires Read(v, log).brackets == Shut && i < |log| && log[i].Emit? && log[i].event.MessageStart?
    ensures i < j < |log| && log[j].Emit? && log[j].event.MessageEnd?
    ensures forall k :: i < k < j ==> log[k].Emit? && log[k].event.MessageUpdate?
  {
    j := ClosingEnd(v, log, i);
  }

  lemma {:induction false} ClosingEnd(v: View, log: seq<Entry>, i: nat) returns (j: nat)
    requires Read(v, log).brackets != Broken && i < |log| && log[i].Emit? && log[i].event.MessageStart?
    ensures i < j <= |log| && (forall k :: i < k < j ==> log[k].Emit? && log[k].event.MessageUpdate?)
    ensures j < |log| ==> log[j].Emit? && log[j].event.MessageEnd?
    ensures j == |log| ==> Read(v, log).brackets == Open
    decreases |log|
  {
    var before := log[..|log| - 1];
    assert Read(v, before).brackets != Broken;
    if i == |log| - 1 {
      j := |log|;
    } else {
      j := ClosingEnd(v, before, i);
      if j == |before| && !log[j].event.MessageEnd? { j := |log|; }
    }
  }

  lemma {:induction false} DeliveredAtOnce(v: View, log: seq<Entry>, i: nat)
    requires Read(v, log).delivery != Lost && i < |log| && log[i].Injected?
    ensures i + 1 < |log| ==> log[i + 1] == Emit(MessageStart(log[i].message))
    ensures i + 2 < |log| ==> log[i + 2] == Emit(MessageEnd(log[i].message))
    ensures |log| == i + 1 ==> Read(v, log).delivery == Due(log[i].message)
    ensures |log| == i + 2 ==> Read(v, log).delivery == Announced(log[i].message)
    decreases |log|
  {
    if i < |log| - 1 { DeliveredAtOnce(v, log[..|log| - 1], i); }
  }

  lemma {:induction false} PeakBoundsEveryTurn(v: View, log: seq<Entry>, k: nat)
    requires k <= |log|
    ensures Read(v, log[..k]).pace.inTurn <= Read(v, log).pace.peak
    decreases |log| - k, |log|
  {
    if k == |log| {
      assert log[..k] == log;
      PeakIsReached(v, log);
    } else {
      assert log[..|log| - 1][..k] == log[..k];
      PeakBoundsEveryTurn(v, log[..|log| - 1], k);
    }
  }

  lemma {:induction false} PeakIsReached(v: View, log: seq<Entry>)
    ensures Read(v, log).pace.inTurn <= Read(v, log).pace.peak
  {
    if log != [] { PeakIsReached(v, log[..|log| - 1]); }
  }

  /** At every turn_end of a clean log, no tool call is pending. */
  lemma {:induction false} CleanTurnEnds(v: View, log: seq<Entry>, k: nat)
    requires Read(v, log).clean && k < |log| && log[k].Emit? && log[k].event.TurnEnd?
    ensures Read(v, log[..k]).view.pendingToolCalls == {}
  {
    if k < |log| - 1 {
      assert log[..|log| - 1][..k] == log[..k];
      CleanTurnEnds(v, log[..|log| - 1], k);
    }
  }

  // ---------------------------------------------------------------- the context

  /** A model call with no leftover in the context is given exactly `given`. */
  lemma {:induction false} ModelIsGiven(v: View, log: seq<Entry>, k: nat)
    requires Read(v, log).sees && k < |log| && log[k].ModelCall? && Read(v, log[..k]).leftover.left == 0
    ensures log[k].context == Read(v, log[..k]).given
  {
    if k < |log| - 1 {
      assert log[..|log| - 1][..k] == log[..k];
      ModelIsGiven(v, log[..|log| - 1], k);
    }
  }

  /** Unless the context was replaced, what the model should be given is the Agent's own transcript. */
  lemma {:induction false} GivenIsTranscript(v: View, log: seq<Entry>)
    requires Read(v, log).record.replacements == []
    ensures Read(v, log).given == Read(v, log).view.messages
  {
    if log != [] { GivenIsTranscript(v, log[..|log| - 1]); }
  }

  /** What a context holds since the transcript was `cut` long. */
  ghost predicate GivenSince(r: Reading, base: seq<Message>, cut: nat) {
    cut <= |r.view.messages| && r.given == base + r.view.messages[cut..]
  }

  lemma OneMoreSince(r: Reading, e: Entry, base: seq<Message>, cut: nat)
    requires GivenSince(r, base, cut) && !e.Replaced?
    ensures GivenSince(NextReading(r, e), base, cut) && r.view.messages <= NextReading(r, e).view.messages
  {
    if e.Emit? && e.event.MessageEnd? {
      var messages, m := r.view.messages, e.event.message;
      assert base + messages[cut..] + [m] == base + (messages + [m])[cut..];
    }
  }

  /** After the last replacement, it is the replacement followed by every message of the transcript since. */
  lemma {:induction false} GivenSinceReplacement(v: View, log: seq<Entry>, k: nat)
    requires k < |log| && log[k].Replaced? && forall j :: k < j < |log| ==> !log[j].Replaced?
    ensures Read(v, log[..k]).view.messages <= Read(v, log).view.messages
    ensures GivenSince(Read(v, log), log[k].messages, |Read(v, log[..k]).view.messages|)
    decreases |log|
  {
    var before := log[..|log| - 1];
    var cut := |Read(v, log[..k]).view.messages|;
    if k < |log| - 1 {
      assert before[..k] == log[..k];
      GivenSinceReplacement(v, before, k);
      OneMoreSince(Read(v, before), log[|log| - 1], log[k].messages, cut);
    } else {
      assert before == log[..k];
      assert Read(v, log).view.messages[cut..] == [];
    }
  }

  // ---------------------------------------------------------------- the record

  function InjectedFrom(log: seq<Entry>, q: QueueName): seq<Message> {
    if log == [] then []
    else
      var e := log[|log| - 1];
      InjectedFrom(log[..|log| - 1], q) + if e.Injected? && e.queue == q then [e.message] else []
  }

  function EndingsOf(log: seq<Entry>): seq<Ending> {
    if log == [] then []
    else
      var e := log[|log| - 1];
      EndingsOf(log[..|log| - 1])
      + if e.Emit? && e.event.TurnEnd?
        then [Ending(e.event.message, e.event.results, CourseOf(log[..|log| - 1]))] else []
  }

  function CourseOf(log: seq<Entry>): Course {
    if log == [] then NOTHING_YET else NextCourse(CourseOf(log[..|log| - 1]), log[|log| - 1])
  }

  /** Entry i belongs to the turn in progress. */
  ghost predicate InThisTurn(log: seq<Entry>, i: int) {
    0 <= i < |log| && forall j :: i <= j < |log| ==> !(log[j].Emit? && log[j].event.TurnEnd?)
  }

  /** A tool call has ended without asking for the run to stop. */
  predicate WantsReply(e: Entry) { e.Emit? && e.event.ToolEnd? && !e.event.outcome.terminate }

  lemma TurnGrows(log: seq<Entry>, e: Entry, i: int)
    requires 0 <= i < |log| && !(e.Emit? && e.event.TurnEnd?)
    ensures InThisTurn(log + [e], i) <==> InThisTurn(log, i)
  {
    if InThisTurn(log + [e], i) {
      forall j | i <= j < |log| ensures !(log[j].Emit? && log[j].event.TurnEnd?) { assert (log + [e])[j] == log[j]; }
    }
  }

  /** The course is what the entries since the last turn_end say. */
  lemma {:induction false} CourseReadsTurn(log: seq<Entry>)
    ensures CourseOf(log).more <==> exists i :: InThisTurn(log, i) && WantsReply(log[i])
    ensures CourseOf(log).injected != [] <==> exists i :: InThisTurn(log, i) && log[i].Injected?
  {
    if log != [] {
      var before, e := log[..|log| - 1], log[|log| - 1];
      CourseReadsTurn(before);
      if !(e.Emit? && e.event.TurnEnd?) {
        forall i | 0 <= i < |before| ensures InThisTurn(log, i) <==> InThisTurn(before, i) {
          TurnGrows(before, e, i);
          assert log == before + [e];
        }
        assert InThisTurn(log, |log| - 1);
      } else {
        assert forall i :: !InThisTurn(log, i);
      }
    }
  }

  function ReplacementsOf(log: seq<Entry>): seq<seq<Message>> {
    if log == [] then []
    else ReplacementsOf(log[..|log| - 1]) + if log[|log| - 1].Replaced? then [log[|log| - 1].messages] else []
  }

  /** The injected messages and the messages of the ended turns, in order. */
  function ToldBy(e: Entry): seq<Message> {
    match e
    case Injected(_, m) => [m]
    case Emit(TurnEnd(m, rs)) => [m] + rs
    case _ => []
  }

  function ToldOf(log: seq<Entry>): seq<Message> {
    if log == [] then [] else ToldOf(log[..|log| - 1]) + ToldBy(log[|log| - 1])
  }

  lemma ToldOneMore(r: Record, e: Entry)
    ensures NextRecord(r, e).told == r.told + ToldBy(e)
  {
  }

  lemma {:induction false} ToldReadsLog(v: View, log: seq<Entry>)
    ensures Read(v, log).record.told == ToldOf(log)
  {
    if log != [] {
      ToldReadsLog(v, log[..|log| - 1]);
      ToldOneMore(Read(v, log[..|log| - 1]).record, log[|log| - 1]);
    }
  }

  /** The record is the log's injections, turn_end events and replacements, each in order. */
  lemma {:induction false} RecordReadsLog(v: View, log: seq<Entry>)
    ensures var r := Read(v, log).record;
      && r.steering == InjectedFrom(log, Steering) && r.followUps == InjectedFrom(log, FollowUp)
      && r.endings == EndingsOf(log) && r.replacements == ReplacementsOf(log) && r.course == CourseOf(log)
  {
    if log != [] { RecordReadsLog(v, log[..|log| - 1]); }
  }

  // ---------------------------------------------------------------- what the Agent shows meanwhile

  predicate ShowsMessage(e: Entry) { e.Emit? && (e.event.MessageStart? || e.event.MessageUpdate?) }

  /** Entry i shows a message, and nothing since has shown another or taken it away. */
  ghost predicate ShowsLast(log: seq<Entry>, i: int) {
    && 0 <= i < |log| && ShowsMessage(log[i])
    && forall j :: i < j < |log| ==>
         !ShowsMessage(log[j]) && !(log[j].Emit? && (log[j].event.MessageEnd? || log[j].event.AgentEnd?))
  }

  /** The Agent is streaming a message exactly while it has been shown and not ended, and then the newest one. */
  lemma {:induction false} StreamingReadsLog(v: View, log: seq<Entry>)
    requires v.streaming == None
    ensures Read(v, log).view.streaming.Some? <==> exists i :: ShowsLast(log, i)
    ensures forall i :: ShowsLast(log, i) ==> Read(v, log).view.streaming == Some(log[i].event.message)
  {
    if log == [] {
      assert forall i :: !ShowsLast(log, i);
    } else {
      var before, e := log[..|log| - 1], log[|log| - 1];
      StreamingReadsLog(v, before);
      assert log == before + [e];
      ShowsSnoc(before, e);
    }
  }

  lemma ShowsSnoc(log: seq<Entry>, e: Entry)
    ensures var gone := e.Emit? && (e.event.MessageEnd? || e.event.AgentEnd?);
      && (ShowsLast(log + [e], |log|) <==> ShowsMessage(e))
      && forall i :: i != |log| ==> (ShowsLast(log + [e], i) <==> ShowsLast(log, i) && !ShowsMessage(e) && !gone)
  {
    var more := log + [e];
    forall i | ShowsLast(more, i) && i != |log| ensures ShowsLast(log, i) {
      assert forall j :: 0 <= j < |log| ==> more[j] == log[j];
      assert more[|log|] == e;
    }
  }

  predicate StartsCall(e: Entry, id: string) { e.Emit? && e.event.ToolStart? && e.event.call.id == id }

  predicate EndsCall(e: Entry, id: string) { e.Emit? && e.event.ToolEnd? && e.event.call.id == id }

  /** A call with this id has started, and none has ended since. */
  ghost predicate RunsCall(log: seq<Entry>, id: string) {
    exists i :: 0 <= i < |log| && StartsCall(log[i], id) && forall j :: i < j < |log| ==> !EndsCall(log[j], id)
  }

  lemma RunsSnoc(log: seq<Entry>, e: Entry, id: string)
    ensures RunsCall(log + [e], id) <==> StartsCall(e, id) || (RunsCall(log, id) && !EndsCall(e, id))
  {
    var more := log + [e];
    assert more[|log|] == e && forall j :: 0 <= j < |log| ==> more[j] == log[j];
    if RunsCall(log, id) && !EndsCall(e, id) {
      var i :| 0 <= i < |log| && StartsCall(log[i], id) && forall j :: i < j < |log| ==> !EndsCall(log[j], id);
      assert StartsCall(more[i], id) && forall j :: i < j < |more| ==> !EndsCall(more[j], id);
    }
    if RunsCall(more, id) && !StartsCall(e, id) {
      var i :| 0 <= i < |more| && StartsCall(more[i], id) && forall j :: i < j < |more| ==> !EndsCall(more[j], id);
      assert StartsCall(log[i], id) && forall j :: i < j < |log| ==> !EndsCall(log[j], id);
    }
  }

  /** A tool call is pending exactly if one with its id has started and none has ended since. */
  lemma {:induction false} PendingReadsLog(v: View, log: seq<Entry>)
    requires v.pendingToolCalls == {}
    ensures forall id :: id in Read(v, log).view.pendingToolCalls <==> RunsCall(log, id)
  {
    if log == [] {
      assert forall id :: !RunsCall(log, id);
    } else {
      var before, e := log[..|log| - 1], log[|log| - 1];
      PendingReadsLog(v, before);
      forall id ensures RunsCall(log, id) <==> StartsCall(e, id) || (RunsCall(before, id) && !EndsCall(e, id)) {
        assert log == before + [e];
        RunsSnoc(before, e, id);
      }
    }
  }

  /** The error that the last reply with one carries, or what it was before. */
  function LastError(before: Option<string>, endings: seq<Ending>): Option<string> {
    if endings == [] then before
    else
      match endings[|endings| - 1].reply
      case Assistant(_, _, Some(error)) =>
        if error != "" then Some(error) else LastError(before, endings[..|endings| - 1])
      case _ => LastError(before, endings[..|endings| - 1])
  }

  /** The Agent's error is that of the last turn_end whose reply carries one. */
  lemma {:induction false} ErrorReadsEndings(v: View, log: seq<Entry>)
    ensures Read(v, log).view.errorMessage == LastError(v.errorMessage, EndingsOf(log))
  {
    if log != [] {
      var before, e := log[..|log| - 1], log[|log| - 1];
      ErrorReadsEndings(v, before);
      if e.Emit? && e.event.TurnEnd? {
        var ending := Ending(e.event.message, e.event.results, CourseOf(before));
        assert (EndingsOf(before) + [ending])[..|EndingsOf(before)|] == EndingsOf(before);
      } else {
        assert EndingsOf(before) + [] == EndingsOf(before);
      }
    }
  }

  // ---------------------------------------------------------------- tool events of one batch

  datatype CallPhase = NotStarted | Running(updates: seq<int>) | Ended(ran: Ran) | Disordered

  function NextCallPhase(p: CallPhase, e: Entry, index: nat, call: ToolCall): CallPhase {
    match e
    case Emit(ToolStart(i, c)) =>
      if i != index then p else if p == NotStarted && c == call then Running([]) else Disordered
    case Emit(ToolUpdate(i, c, partialResult)) =>
      if i != index then p else if p.Running? && c == call then Running(p.updates + [partialResult]) else Disordered
    case Emit(ToolEnd(i, c, o)) =>
      if i != index then p else if p.Running? && c == call then Ended(Ran(p.updates, o)) else Disordered
    case _ => p
  }

  /** The events of one call within a batch: Ended after exactly start, updates, end. */
  function CallPhaseOf(log: seq<Entry>, index: nat, call: ToolCall): CallPhase {
    if log == [] then NotStarted
    else NextCallPhase(CallPhaseOf(log[..|log| - 1], index, call), log[|log| - 1], index, call)
  }

  predicate ConcernsCall(e: Entry, index: nat) {
    e.Emit? && (e.event.ToolStart? || e.event.ToolUpdate? || e.event.ToolEnd?) && e.event.index == index
  }

  function Projection(log: seq<Entry>, index: nat): seq<Event> {
    if log == [] then []
    else
      Projection(log[..|log| - 1], index)
      + if ConcernsCall(log[|log| - 1], index) then [log[|log| - 1].event] else []
  }

  /** Declaratively: one start and these updates, all for this call. */
  ghost predicate StartAndUpdates(events: seq<Event>, call: ToolCall, updates: seq<int>) {
    && |events| == |updates| + 1 && events[0].ToolStart? && events[0].call == call
    && forall k :: 0 < k < |events| ==> events[k] == ToolUpdate(events[0].index, call, updates[k - 1])
  }

  /** Declaratively: one start, these updates, one end, all for this call. */
  ghost predicate StartUpdatesEnd(events: seq<Event>, call: ToolCall, ran: Ran) {
    && |events| > 1 && StartAndUpdates(events[..|events| - 1], call, ran.updates)
    && events[|events| - 1] == ToolEnd(events[0].index, call, ran.outcome)
  }

  ghost predicate PhaseReads(p: CallPhase, events: seq<Event>, index: nat, call: ToolCall) {
    match p
    case NotStarted => events == []
    case Running(updates) => StartAndUpdates(events, call, updates) && events[0].index == index
    case Ended(ran) => StartUpdatesEnd(events, call, ran) && events[0].index == index
    case Disordered => true
  }

  lemma {:induction false} CallPhaseReadsProjection(log: seq<Entry>, index: nat, call: ToolCall)
    ensures PhaseReads(CallPhaseOf(log, index, call), Projection(log, index), index, call)
  {
    if log != [] {
      var before, e := log[..|log| - 1], log[|log| - 1];
      CallPhaseReadsProjection(before, index, call);
      if ConcernsCall(e, index) {
        assert (Projection(before, index) + [e.event])[..|Projection(before, index)|] == Projection(before, index);
      } else {
        assert Projection(before, index) + [] == Projection(before, index);
      }
    }
  }

  lemma SnocCall(log: seq<Entry>, e: Entry, index: nat, call: ToolCall)
    ensures CallPhaseOf(log + [e], index, call) == NextCallPhase(CallPhaseOf(log, index, call), e, index, call)
  {
    assert (log + [e])[..|log|] == log;
  }
}
