/**
 * The Agent's own state and how a run's events change it (packages/agent/src/agent.ts), and the sink through
 * which a run emits its events, with the history of everything the run does.
 */
module AgentState {
  import opened Basics
  import opened AgentTypes
  import opened AgentTrace
  import opened AgentQueue

  class Agent {
    var messages: seq<Message>
    var streamingMessage: Option<Message>
    var pendingToolCalls: set<string>
    var errorMessage: Option<string>
    var isStreaming: bool
    var active: bool  // activeRun
    const steeringQueue: PendingMessageQueue
    const followUpQueue: PendingMessageQueue
    const toolExecution: ToolExecutionMode

    function Value(): View
      reads this
    {
      View(messages, streamingMessage, pendingToolCalls, errorMessage)
    }

    ghost predicate Queued()
      reads this, steeringQueue, followUpQueue
    {
      steeringQueue != followUpQueue && steeringQueue.Conserved() && followUpQueue.Conserved()
    }

    /** Between runs. */
    ghost predicate Resting()
      reads this, steeringQueue, followUpQueue
    {
      Queued() && !active && !isStreaming && streamingMessage == None && pendingToolCalls == {}
    }

    constructor (initial: seq<Message>, steeringMode: QueueMode, followUpMode: QueueMode,
                 toolExecution: ToolExecutionMode)
      ensures Resting() && messages == initial && errorMessage == None && this.toolExecution == toolExecution
      ensures fresh(steeringQueue) && fresh(followUpQueue)
      ensures steeringQueue.mode == steeringMode && followUpQueue.mode == followUpMode
      ensures steeringQueue.messages == [] && followUpQueue.messages == []
    {
      messages, streamingMessage, pendingToolCalls, errorMessage := initial, None, {}, None;
      isStreaming, active := false, false;
      steeringQueue := new PendingMessageQueue(steeringMode);
      followUpQueue := new PendingMessageQueue(followUpMode);
      this.toolExecution := toolExecution;
    }

    /** The state change of processEvents; listeners are not part of this model. */
    method ProcessEvents(e: Event)
      requires active
      modifies this`messages, this`streamingMessage, this`pendingToolCalls, this`errorMessage
      ensures Value() == Apply(old(Value()), e)
    {
      match e {
        case MessageStart(m) => streamingMessage := Some(m);
        case MessageUpdate(m) => streamingMessage := Some(m);
        case MessageEnd(m) =>
          streamingMessage := None;
          messages := messages + [m];
        case ToolStart(_, call) => pendingToolCalls := pendingToolCalls + {call.id};
        case ToolEnd(_, call, _) => pendingToolCalls := pendingToolCalls - {call.id};
        case TurnEnd(m, _) =>
          if m.Assistant? && m.errorMessage.Some? && m.errorMessage.value != "" {
            errorMessage := m.errorMessage;
          }
        case AgentEnd(_) => streamingMessage := None;
        case _ =>
      }
    }
  }

  /** In a turn, between messages. */
  predicate Calm(r: Reading) {
    r.turns.InTurn? && r.brackets != Open && !r.leftover.started && r.delivery == Idle
  }

  /** The effect of one whole message on a calm reading. */
  function WithMessage(r: Reading, m: Message): Reading {
    r.(view := r.view.(messages := r.view.messages + [m], streaming := None), given := r.given + [m], delivery := Idle)
  }

  /** The `emit` a run is given, with the log of the run. */
  class Sink {
    const agent: Agent
    ghost const start: View  // the Agent's state when the run begins
    ghost var log: seq<Entry>
    ghost var readings: seq<Reading>  // of every prefix of the log
    ghost var reading: Reading        // of the whole log

    ghost predicate Traced()
      reads this
    {
      IsHistory(start, log, readings) && reading == readings[|log|]
    }

    /** The reading kept is the one that reads the log. */
    lemma ReadingReadsLog()
      requires Traced()
      ensures reading == Read(start, log)
    {
      HistoryReads(start, log, readings);
    }

    /** The Agent's state is what the log's events make of the state it started from. */
    ghost predicate Synced()
      reads this, agent
    {
      agent.active && Traced() && agent.Value() == reading.view
    }

    constructor (agent: Agent)
      requires agent.active
      ensures Synced() && this.agent == agent && start == agent.Value() && log == [] && reading == Unread(start)
    {
      this.agent := agent;
      start, log, readings, reading := agent.Value(), [], [Unread(agent.Value())], Unread(agent.Value());
    }

    ghost method Append(x: Entry)
      requires Traced()
      modifies this`log, this`readings, this`reading
      ensures Traced() && log == old(log) + [x] && reading == NextReading(old(reading), x)
    {
      OneMoreReading(start, log, readings, x);
      reading := NextReading(reading, x);
      log, readings := log + [x], readings + [reading];
    }

    method Emit(e: Event)
      requires Synced()
      modifies this`log, this`readings, this`reading, agent
      ensures Synced() && agent.Value() == Apply(old(agent.Value()), e)
      ensures log == old(log) + [Entry.Emit(e)] && reading == NextReading(old(reading), Entry.Emit(e))
    {
      agent.ProcessEvents(e);
      Append(Entry.Emit(e));
    }

    ghost method Note(x: Entry)
      requires Synced() && !x.Emit?
      modifies this`log, this`readings, this`reading
      ensures Synced() && log == old(log) + [x] && reading == NextReading(old(reading), x)
    {
      Append(x);
    }

    /** Emits a whole message, as for prompts, queued messages and tool results. */
    method EmitMessage(m: Message)
      requires Synced() && Calm(reading.(delivery := Idle)) && reading.delivery in {Idle, Due(m)}
      modifies this`log, this`readings, this`reading, agent
      ensures Synced() && reading == WithMessage(old(reading), m)
      ensures log == old(log) + [Entry.Emit(MessageStart(m)), Entry.Emit(MessageEnd(m))]
    {
      Emit(MessageStart(m));
      Emit(MessageEnd(m));
    }
  }

  class Signal {
    var aborted: bool

    constructor ()
      ensures !aborted
    {
      aborted := false;
    }
  }
}
