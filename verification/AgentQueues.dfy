/** The steering and follow-up queues of packages/agent/src/agent.ts. */
module AgentQueues {
  import opened AgentMessages

  datatype QueueMode = All | OneAtATime

  /** What a poll takes from the waiting messages: all of them, or the oldest one. */
  function Drained(waiting: seq<Message>, mode: QueueMode): (drained: seq<Message>)
    ensures drained <= waiting && (drained == [] <==> waiting == [])
    ensures mode == OneAtATime ==> |drained| <= 1
    ensures mode == All ==> drained == waiting
    ensures mode == OneAtATime && waiting != [] ==> drained == [waiting[0]]
  {
    if mode == All then waiting else if waiting == [] then [] else waiting[..1]
  }

  function Kept(waiting: seq<Message>, mode: QueueMode): (kept: seq<Message>)
    ensures Drained(waiting, mode) + kept == waiting
  {
    waiting[|Drained(waiting, mode)|..]
  }

  class PendingMessageQueue {
    var messages: seq<Message>
    const mode: QueueMode
    /** Every message enqueued and not cleared since, oldest first. */
    ghost var accepted: seq<Message>
    /** Every message handed out by `Drain`, oldest first. */
    ghost var delivered: seq<Message>

    /** Conservation: what was accepted is what was delivered followed by what is still queued. */
    ghost predicate Valid()
      reads this
    {
      accepted == delivered + messages
    }

    constructor (mode: QueueMode)
      ensures Valid() && messages == [] && delivered == [] && this.mode == mode
    {
      messages, accepted, delivered := [], [], [];
      this.mode := mode;
    }

    method Enqueue(message: Message)
      requires Valid()
      modifies this
      ensures Valid() && accepted == old(accepted) + [message]
      ensures messages == old(messages) + [message] && delivered == old(delivered)
    {
      messages := messages + [message];
      accepted := accepted + [message];
    }

    method EnqueueAll(arrivals: seq<Message>)
      requires Valid()
      modifies this
      ensures Valid() && accepted == old(accepted) + arrivals
      ensures messages == old(messages) + arrivals && delivered == old(delivered)
    {
      for i := 0 to |arrivals|
        invariant Valid() && accepted == old(accepted) + arrivals[..i]
        invariant messages == old(messages) + arrivals[..i] && delivered == old(delivered)
      {
        Enqueue(arrivals[i]);
      }
    }

    predicate HasItems()
      reads this
    {
      |messages| > 0
    }

    /** Hands out the oldest messages: all of them, or one. An empty result means the queue was empty. */
    method Drain() returns (drained: seq<Message>)
      requires Valid()
      modifies this
      ensures Valid() && accepted == old(accepted)
      ensures drained == Drained(old(messages), mode) && messages == Kept(old(messages), mode)
      ensures delivered == old(delivered) + drained
    {
      if mode == All {
        drained := messages;
        messages := [];
      } else if messages == [] {
        drained := [];
      } else {
        drained := [messages[0]];
        messages := messages[1..];
      }
      delivered := delivered + drained;
    }

    method Clear()
      requires Valid()
      modifies this
      ensures Valid() && messages == [] && delivered == old(delivered) && accepted == delivered
    {
      messages := [];
      accepted := delivered;
    }
  }
}
