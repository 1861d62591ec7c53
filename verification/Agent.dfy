/** The stateful Agent of packages/agent/src/agent.ts: its queues, its event reducer and the lifecycle of a run. */
module Agents {
  import opened Wrappers
  import opened AgentMessages
  import opened AgentTrace
  import opened AgentQueues

  /** What `continue` starts: a prompt run over queued messages, or a continuation of the transcript. */
  datatype Start = Prompt(messages: seq<Message>, skipInitialSteeringPoll: bool) | Continuation

  datatype AgentError = AlreadyProcessing | NothingToContinue | LastIsAssistant | OutsideActiveRun

  class Agent {
    var messages: seq<Message>
    var streamingMessage: Option<Message>
    var pendingToolCalls: set<string>
    var errorMessage: Option<string>
    var isStreaming: bool
    var activeRun: bool
    const steeringQueue: PendingMessageQueue
    const followUpQueue: PendingMessageQueue

    ghost function State(): AgentState
      reads this
    {
      AgentState(messages, streamingMessage, pendingToolCalls, errorMessage)
    }

    /** Outside a run nothing is streaming and no tool call is pending. */
    ghost predicate Valid()
      reads this, steeringQueue, followUpQueue
    {
      && steeringQueue != followUpQueue && steeringQueue.Valid() && followUpQueue.Valid()
      && (!activeRun ==> !isStreaming && streamingMessage == None && pendingToolCalls == {})
    }

    constructor (messages: seq<Message>, steeringMode: QueueMode, followUpMode: QueueMode)
      ensures Valid() && !activeRun && fresh(steeringQueue) && fresh(followUpQueue)
      ensures State() == AgentState(messages, None, {}, None)
    {
      this.messages, streamingMessage, pendingToolCalls, errorMessage := messages, None, {}, None;
      isStreaming, activeRun := false, false;
      steeringQueue := new PendingMessageQueue(steeringMode);
      followUpQueue := new PendingMessageQueue(followUpMode);
    }

    /**
     `continue`: refused during a run, or with nothing but system messages; after an assistant message it starts with a
     prompt of the queued steering messages, or else of the queued follow-ups, or else is an error; otherwise it is a
     continuation. A refused call takes nothing from a queue that had something to give.
     */
    method Continue() returns (r: Result<Start, AgentError>)
      requires Valid()
      modifies steeringQueue, followUpQueue
      ensures Valid()
      ensures steeringQueue.accepted == old(steeringQueue.accepted)
      ensures followUpQueue.accepted == old(followUpQueue.accepted)
      ensures activeRun ==> r == Err(AlreadyProcessing)
      ensures !activeRun ==>
        (r == Err(NothingToContinue) <==> forall i :: 0 <= i < |messages| ==> messages[i].System?)
      ensures !activeRun && r != Err(NothingToContinue) ==>
        messages != [] &&
        if !messages[|messages| - 1].Assistant? then r == Ok(Continuation)
        else if old(steeringQueue.messages) != [] then
          r == Ok(Prompt(if steeringQueue.mode == All then old(steeringQueue.messages)
                         else [old(steeringQueue.messages)[0]], true))
        else if old(followUpQueue.messages) != [] then
          r == Ok(Prompt(if followUpQueue.mode == All then old(followUpQueue.messages)
                         else [old(followUpQueue.messages)[0]], false))
        else r == Err(LastIsAssistant)
      ensures var steered := r.Ok? && r.value.Prompt? && r.value.skipInitialSteeringPoll;
              var followed := r.Ok? && r.value.Prompt? && !r.value.skipInitialSteeringPoll;
        && steeringQueue.delivered == old(steeringQueue.delivered) + (if steered then r.value.messages else [])
        && followUpQueue.delivered == old(followUpQueue.delivered) + (if followed then r.value.messages else [])
    {
      if activeRun { return Err(AlreadyProcessing); }
      if |messages| == 0 || forall i :: 0 <= i < |messages| ==> messages[i].System? { return Err(NothingToContinue); }
      if messages[|messages| - 1].Assistant? {
        r := PromptFromQueues();
      } else {
        r := Ok(Continuation);
      }
    }

    /** The queued steering messages, or else the queued follow-ups. */
    method PromptFromQueues() returns (r: Result<Start, AgentError>)
      requires Valid()
      modifies steeringQueue, followUpQueue
      ensures Valid()
      ensures steeringQueue.accepted == old(steeringQueue.accepted)
      ensures followUpQueue.accepted == old(followUpQueue.accepted)
      ensures var steering, followUps := old(steeringQueue.messages), old(followUpQueue.messages);
        if steering != [] then r == Ok(Prompt(if steeringQueue.mode == All then steering else [steering[0]], true))
        else if followUps != [] then
          r == Ok(Prompt(if followUpQueue.mode == All then followUps else [followUps[0]], false))
        else r == Err(LastIsAssistant)
      ensures r.Ok? ==> r.value.Prompt?
      ensures steeringQueue.delivered
           == old(steeringQueue.delivered)
              + if r.Ok? && r.value.skipInitialSteeringPoll then r.value.messages else []
      ensures followUpQueue.delivered
           == old(followUpQueue.delivered)
              + if r.Ok? && !r.value.skipInitialSteeringPoll then r.value.messages else []
    {
      var queuedSteering := steeringQueue.Drain();
      if |queuedSteering| > 0 { return Ok(Prompt(queuedSteering, true)); }
      var queuedFollowUps := followUpQueue.Drain();
      if |queuedFollowUps| > 0 { return Ok(Prompt(queuedFollowUps, false)); }
      return Err(LastIsAssistant);
    }

    /** The start of `runWithLifecycle`. */
    method BeginRun() returns (r: Result<(), AgentError>)
      requires Valid()
      modifies this
      ensures Valid()
      ensures old(activeRun) ==>
        r == Err(AlreadyProcessing) && State() == old(State()) && isStreaming == old(isStreaming) && activeRun
      ensures !old(activeRun) ==> r == Ok(()) && activeRun && isStreaming
                                  && State() == old(State()).(streamingMessage := None, errorMessage := None)
    {
      if activeRun { return Err(AlreadyProcessing); }
      activeRun := true;
      isStreaming := true;
      streamingMessage := None;
      errorMessage := None;
      return Ok(());
    }

    /** Its end, which clears what the runtime owns. */
    method FinishRun()
      requires Valid()
      modifies this
      ensures Valid() && !activeRun && !isStreaming
      ensures State() == old(State()).(streamingMessage := None, pendingToolCalls := {})
    {
      isStreaming := false;
      streamingMessage := None;
      pendingToolCalls := {};
      activeRun := false;
    }

    /** Reduces one event; outside a run it reports an error after reducing. */
    method ProcessEvent(event: Event) returns (r: Result<(), AgentError>)
      modifies `messages, `streamingMessage, `pendingToolCalls, `errorMessage
      ensures State() == Reduce(old(State()), event)
      ensures r == if activeRun then Ok(()) else Err(OutsideActiveRun)
    {
      match event {
        case MessageStart(m) => streamingMessage := Some(m);
        case MessageUpdate(m) => streamingMessage := Some(m);
        case MessageEnd(m) =>
          streamingMessage := None;
          messages := messages + [m];
        case ToolStart(call) => pendingToolCalls := pendingToolCalls + {call.id};
        case ToolEnd(call, _, _) => pendingToolCalls := pendingToolCalls - {call.id};
        case TurnEnd(m, _) =>
          if m.Assistant? && m.errorMessage.Some? && m.errorMessage.value != "" { errorMessage := m.errorMessage; }
        case AgentEnd(_) => streamingMessage := None;
        case AgentStart =>
        case TurnStart =>
        case ToolBatchStart(_) =>
        case ToolUpdate(_, _) =>
      }
      return if activeRun then Ok(()) else Err(OutsideActiveRun);
    }

    /** A whole run as the Agent sees it: between its start and its end the events of a finished trace. */
    method Run(trace: seq<Event>)
      requires Valid() && !activeRun && Scan(trace) == Finished
      modifies this
      ensures Valid() && !activeRun && !isStreaming
      ensures messages == old(messages) + Ended(trace)
      ensures pendingToolCalls == {} && streamingMessage == None
      ensures LatestError(None, trace, errorMessage)
    {
      var begun := BeginRun();
      ghost var start := State();
      for i := 0 to |trace|
        invariant activeRun && steeringQueue.Valid() && followUpQueue.Valid()
        invariant State() == ReduceAll(start, trace[..i])
      {
        var r := ProcessEvent(trace[i]);
        assert trace[..i + 1][..i] == trace[..i];
      }
      assert trace[..|trace|] == trace;
      AgentFollowsTrace(start, trace);
      ErrorIsLatest(start, trace);
      FinishRun();
    }
  }
}
