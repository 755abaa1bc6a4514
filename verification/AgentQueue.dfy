/** PendingMessageQueue of packages/agent/src/agent.ts, with the history of what went in and came out. */
module AgentQueue {
  import opened Basics
  import opened AgentTypes

  datatype QueueMode = All | OneAtATime

  class PendingMessageQueue {
    var messages: seq<Message>
    var mode: QueueMode
    ghost var enqueued: seq<Message>
    ghost var drained: seq<Message>

    /** First in, first out: what was enqueued is what was drained, then what is still queued. */
    ghost predicate Conserved()
      reads this
    {
      enqueued == drained + messages
    }

    constructor (mode: QueueMode)
      ensures Conserved() && messages == [] && enqueued == [] && this.mode == mode
    {
      messages := [];
      this.mode := mode;
      enqueued, drained := [], [];
    }

    method Enqueue(message: Message)
      requires Conserved()
      modifies this`messages, this`enqueued
      ensures Conserved() && enqueued == old(enqueued) + [message] && messages == old(messages) + [message]
    {
      messages := messages + [message];
      enqueued := enqueued + [message];
    }

    method HasItems() returns (r: bool)
      ensures r <==> messages != []
    {
      r := |messages| > 0;
    }

    method Drain() returns (out: seq<Message>)
      requires Conserved()
      modifies this`messages, this`drained
      ensures Conserved() && drained == old(drained) + out && old(messages) == out + messages
      ensures mode == All ==> messages == []
      ensures mode == OneAtATime ==> |out| == if old(messages) == [] then 0 else 1
      ensures out == [] <==> old(messages) == []
    {
      if mode == All {
        out := messages;
        messages := [];
      } else if messages == [] {
        out := [];
      } else {
        out := [messages[0]];
        messages := messages[1..];
      }
      drained := drained + out;
    }

    /** Throws away what is queued; conservation is claimed only for histories without it. */
    method Clear()
      modifies this`messages
      ensures messages == []
    {
      messages := [];
    }
  }
}
