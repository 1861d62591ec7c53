/**
 The nested loops of packages/agent/src/agent-loop.ts, in place: every piece is proved to leave the fields where the
 reference run of AgentRuns stands, with a trace that keeps the event grammar. What is proved of every reference run is
 therefore proved of every run of this class.
 */
module AgentLoops {
  import opened Wrappers
  import opened AgentMessages
  import opened AgentTrace
  import opened AgentQueues
  import opened ToolDeclarations
  import opened ToolBatches
  import opened AgentRuns

  /** How the inner loop was left: the run ended, the scripts ran out, or the agent would stop. */
  datatype LoopExit = RunStopped | ScriptOver | WouldStop

  /** The run stands where the reference run does after k turns, but for the poll of the follow-up queue. */
  predicate StandsAt(setup: Setup, s0: Stand, steered: seq<Message>, followed: seq<Message>, scripts: seq<TurnScript>,
                           s: Stand, accepted: seq<Message>, alsoAccepted: seq<Message>, k: nat)
  {
    && k <= |scripts| && FollowedUp(setup, s) == After(setup, s0, scripts[..k])
    && accepted == steered + Arrivals(scripts[..k], Origin.Steering)
    && alsoAccepted == followed + Arrivals(scripts[..k], Origin.FollowUp)
  }

  /** A name for what one pass of the inner loop comes to. */
  ghost predicate NamesInner(setup: Setup, inner: (Stand, TurnScript) -> Stand) {
    forall s, script {:trigger Inner(setup, s, script)} :: Inner(setup, s, script) == inner(s, script)
  }

  /** A reference run to follow. The loops carry `along` and `inner` through without looking at what they say. */
  datatype Course = Course(
    setup: Setup, s0: Stand, steered: seq<Message>, followed: seq<Message>, scripts: seq<TurnScript>,
    along: (Stand, seq<Message>, seq<Message>, nat) -> bool, inner: (Stand, TurnScript) -> Stand)
  {
    ghost predicate Faithful() {
      && (forall k :: 0 <= k < |scripts| ==> scripts[k].Obeys()) && NamesInner(setup, inner)
      && forall s, a, b, k {:trigger StandsAt(setup, s0, steered, followed, scripts, s, a, b, k)} ::
           StandsAt(setup, s0, steered, followed, scripts, s, a, b, k) == along(s, a, b, k)
    }

    lemma Sets(s: Stand, a: seq<Message>, b: seq<Message>)
      requires Faithful() && s == s0 && a == steered && b == followed && s.GoesOn()
      ensures along(s, a, b, 0)
    {
      assert StandsAt(setup, s0, steered, followed, scripts, s, a, b, 0);
    }

    lemma OneTurnMore(s: Stand, a: seq<Message>, b: seq<Message>, k: nat, s': Stand, a': seq<Message>, b': seq<Message>)
      requires Faithful() && along(s, a, b, k) && k < |scripts| && s.GoesOn() && !s.over
      requires s' == inner(s, scripts[k])
      requires a' == a + scripts[k].steeringBefore + scripts[k].steeringAfter && b' == b + scripts[k].followUpsAfter
      ensures along(s', a', b', k + 1)
    {
      assert StandsAt(setup, s0, steered, followed, scripts, s, a, b, k);
      assert s' == Inner(setup, s, scripts[k]);
      RunMore(setup, s0, scripts, k);
      SumOfArrivals(a, scripts[k].steeringBefore, scripts[k].steeringAfter);
      ArrivalsMore(steered, scripts, k, Origin.Steering);
      ArrivalsMore(followed, scripts, k, Origin.FollowUp);
      assert StandsAt(setup, s0, steered, followed, scripts, s', a', b', k + 1);
    }

    static lemma ArrivalsMore(before: seq<Message>, scripts: seq<TurnScript>, k: nat, o: Origin)
      requires k < |scripts|
      ensures before + Arrivals(scripts[..k + 1], o) == before + Arrivals(scripts[..k], o) + ArrivedIn(scripts[k], o)
    {
      assert scripts[..k + 1][..k] == scripts[..k];
      SumOfArrivals(before, Arrivals(scripts[..k], o), ArrivedIn(scripts[k], o));
    }

    lemma StillAlong(s: Stand, s': Stand, a: seq<Message>, b: seq<Message>, k: nat)
      requires Faithful() && along(s, a, b, k) && s' == FollowedUp(setup, s)
      ensures along(s', a, b, k)
    {
      assert StandsAt(setup, s0, steered, followed, scripts, s, a, b, k);
      assert FollowedUp(setup, s') == s';
      assert StandsAt(setup, s0, steered, followed, scripts, s', a, b, k);
    }

    /** A run that is over, or goes on with no script left, stands where the reference run does. */
    lemma Arrived(s: Stand, a: seq<Message>, b: seq<Message>, k: nat)
      requires Faithful() && along(s, a, b, k) && (s.over || (s.GoesOn() && k == |scripts|))
      ensures k <= |scripts| && s == After(setup, s0, scripts)
      ensures a == steered + Arrivals(scripts[..k], Origin.Steering)
      ensures b == followed + Arrivals(scripts[..k], Origin.FollowUp)
    {
      assert StandsAt(setup, s0, steered, followed, scripts, s, a, b, k);
      if s.over {
        OverStays(setup, s0, scripts, k);
      } else {
        assert scripts[..k] == scripts;
      }
    }
  }

  ghost function CourseOf(setup: Setup, s0: Stand, steered: seq<Message>, followed: seq<Message>,
                          scripts: seq<TurnScript>)
    : (course: Course)
    requires forall k :: 0 <= k < |scripts| ==> scripts[k].Obeys()
    ensures course.setup == setup && course.s0 == s0 && course.scripts == scripts
    ensures course.steered == steered && course.followed == followed && course.Faithful()
  {
    Course(setup, s0, steered, followed, scripts,
           (s: Stand, a: seq<Message>, b: seq<Message>, k: nat) =>
             StandsAt(setup, s0, steered, followed, scripts, s, a, b, k),
           (s: Stand, script: TurnScript) => Inner(setup, s, script))
  }

  class AgentLoop {
    const steering: PendingMessageQueue
    const followUps: PendingMessageQueue
    const toolExecution: ExecutionMode
    var skipInitialSteeringPoll: bool
    var context: Context
    var newMessages: seq<Message>
    var pendingMessages: seq<Message>
    /** Every event emitted so far. */
    var trace: seq<Event>

    /** The monitor's state after `trace`, the messages it completed, and its `turn_end` events. */
    ghost var monitor: Monitor
    ghost var emitted: seq<Message>
    ghost var endings: seq<Ending>
    /** What the ends of tool calls have reported. */
    ghost var reported: multiset<Report>
    /** The loop's own transcript at each `turn_end`. */
    ghost var witnessed: seq<seq<Message>>
    /** The contexts given to `streamAssistantResponse`. */
    ghost var requests: seq<Context>
    ghost var pendingOrigin: Origin
    ghost var turns: seq<Turn>

    /** How a trace is read; the loop need not look inside. */
    ghost const read: seq<Event> -> Reading

    ghost predicate Reads() {
      forall t {:trigger Read(t)} :: Read(t) == read(t)
    }

    /** The ghost fields are what the trace says. */
    ghost predicate Traced()
      reads `trace, `monitor, `emitted, `endings, `reported
    {
      Reads() && read(trace) == Reading(monitor, emitted, endings, reported)
    }

    lemma TracedMeans()
      requires Traced()
      ensures monitor == Scan(trace) && emitted == Ended(trace) && endings == Endings(trace)
      ensures reported == AllReported(trace)
    {
      assert Read(trace) == read(trace);
    }

    /** The completed messages are the new ones. */
    ghost predicate Agreed()
      reads `trace, `monitor, `emitted, `endings, `reported, `newMessages
    {
      Traced() && emitted == newMessages
    }

    ghost predicate Queues()
      reads steering, followUps
    {
      steering != followUps && steering.Valid() && followUps.Valid()
    }

    /** Where the run stands. */
    ghost function Standing(): Stand
      reads this, steering, followUps
    {
      Stand(context, newMessages, steering.messages, followUps.messages, skipInitialSteeringPoll, pendingMessages,
            pendingOrigin, turns, requests, endings, witnessed, reported, monitor == Finished)
    }

    constructor (context: Context, steering: PendingMessageQueue, followUps: PendingMessageQueue,
                 toolExecution: ExecutionMode, skipInitialSteeringPoll: bool)
      requires steering != followUps && steering.Valid() && followUps.Valid()
      ensures this.context == context && this.steering == steering && this.followUps == followUps
      ensures this.toolExecution == toolExecution && this.skipInitialSteeringPoll == skipInitialSteeringPoll
      ensures Unused()
    {
      this.context, this.steering, this.followUps := context, steering, followUps;
      this.toolExecution, this.skipInitialSteeringPoll := toolExecution, skipInitialSteeringPoll;
      newMessages, trace, requests, pendingMessages, turns := [], [], [], [], [];
      monitor, emitted, endings, witnessed, pendingOrigin := Idle, [], [], [], Origin.Steering;
      reported := multiset{};
      read := (t: seq<Event>) => Read(t);
      new;
      assert Read(trace) == read(trace);
    }

    // ----- Events -------------------------------------------------------------------------------

    /** Emits anything but a `turn_end` or the end of a call. */
    method Emit(e: Event)
      requires Traced() && !e.TurnEnd? && !e.ToolEnd?
      modifies `trace, `monitor, `emitted
      ensures Traced() && trace == old(trace) + [e]
      ensures monitor == Next(old(monitor), e)
      ensures emitted == old(emitted) + if e.MessageEnd? then [e.message] else []
    {
      ReadMore(trace, e);
      trace := trace + [e];
      monitor := Next(monitor, e);
      emitted := emitted + if e.MessageEnd? then [e.message] else [];
    }

    /** Emits a `turn_end`; what the loop's transcript is at that moment is kept on record. */
    method EmitTurnEnd(message: Message, toolResults: seq<Message>)
      requires Traced()
      modifies `trace, `monitor, `endings, `witnessed
      ensures Traced() && trace == old(trace) + [TurnEnd(message, toolResults)]
      ensures monitor == Next(old(monitor), TurnEnd(message, toolResults))
      ensures endings == old(endings) + [Ending(message, toolResults, emitted, reported)]
      ensures witnessed == old(witnessed) + [context.messages]
    {
      ReadMore(trace, TurnEnd(message, toolResults));
      trace := trace + [TurnEnd(message, toolResults)];
      monitor := Next(monitor, TurnEnd(message, toolResults));
      endings := endings + [Ending(message, toolResults, emitted, reported)];
      witnessed := witnessed + [context.messages];
    }

    /** `message_start` and `message_end` of a complete message. */
    method EmitMessage(message: Message)
      requires Traced() && monitor.InTurn? && !monitor.streaming
      requires message.ToolResult? ==> message.callId !in monitor.open
      modifies `trace, `monitor, `emitted
      ensures Traced() && emitted == old(emitted) + [message]
      ensures monitor == old(monitor).(owed := old(monitor).owed - Repeated(message))
    {
      Emit(MessageStart(message));
      Emit(MessageEnd(message));
    }

    // ----- Messages before the response ---------------------------------------------------------

    /** A turn in which no call is running and no result is missing. */
    ghost predicate Quiet()
      reads `monitor
    {
      monitor.InTurn? && !monitor.streaming && monitor.open == multiset{} && monitor.owed == multiset{}
    }

    method AppendMessages(messages: seq<Message>)
      requires Agreed() && Quiet()
      modifies `trace, `monitor, `emitted, `context, `newMessages
      ensures Agreed() && monitor == old(monitor)
      ensures newMessages == old(newMessages) + messages
      ensures context == old(context).(messages := old(context).messages + messages)
    {
      for i := 0 to |messages|
        invariant Agreed() && monitor == old(monitor)
        invariant newMessages == old(newMessages) + messages[..i]
        invariant context == old(context).(messages := old(context).messages + messages[..i])
      {
        EmitMessage(messages[i]);
        assert messages[..i + 1] == messages[..i] + [messages[i]];
        context := context.(messages := context.messages + [messages[i]]);
        newMessages := newMessages + [messages[i]];
      }
      assert messages[..|messages|] == messages;
    }

    // ----- The response -------------------------------------------------------------------------

    /** Streams the response: the partial message stands at the end of the context until the final one replaces it. */
    method StreamAssistantResponse(stream: seq<StreamEvent>, response: Message)
      requires Traced() && Quiet() && response.Assistant?
      requires forall i, j :: 0 <= i < j < |stream| ==> !(stream[i].Start? && stream[j].Start?)
      modifies `trace, `monitor, `emitted, `context, `requests
      ensures Traced() && monitor == old(monitor) && emitted == old(emitted) + [response]
      ensures context == old(context).(messages := old(context).messages + [response])
      ensures requests == old(requests) + [old(context)]
    {
      requests := requests + [context];
      ghost var before := context;
      var addedPartial := false;
      var i := 0;
      while i < |stream| && !stream[i].Finish?
        invariant i <= |stream|
        invariant addedPartial ==> forall j :: i <= j < |stream| ==> !stream[j].Start?
        invariant Traced() && monitor == old(monitor).(streaming := addedPartial) && emitted == old(emitted)
        invariant Holds(before, addedPartial)
        invariant requests == old(requests) + [before]
      {
        addedPartial := HandleStreamEvent(stream[i], addedPartial, before);
        i := i + 1;
      }
      FinishResponse(response, addedPartial, before);
    }

    /** The context is the one of the request, with the partial message behind it once there is one. */
    ghost predicate Holds(request: Context, addedPartial: bool)
      reads `context
    {
      && context.tools == request.tools
      && |context.messages| == |request.messages| + (if addedPartial then 1 else 0)
      && context.messages[..|request.messages|] == request.messages
    }

    method HandleStreamEvent(e: StreamEvent, addedPartial: bool, ghost request: Context) returns (added: bool)
      requires Traced() && monitor.InTurn? && monitor.streaming == addedPartial && monitor.open == multiset{}
      requires Holds(request, addedPartial)
      requires !e.Finish? && (e.Start? ==> !addedPartial)
      modifies `trace, `monitor, `emitted, `context
      ensures added == (addedPartial || e.Start?)
      ensures Traced() && monitor == old(monitor).(streaming := added) && emitted == old(emitted)
      ensures Holds(request, added)
    {
      added := addedPartial || e.Start?;
      if e.Start? {
        PlacePartial(e.partial, context.messages, request);
        EmitStart(e.partial);
      } else if addedPartial {
        PlacePartial(e.partial, context.messages[..|context.messages| - 1], request);
        EmitUpdate(e.partial);
      }
    }

    method EmitStart(message: Message)
      requires Traced() && monitor.InTurn? && !monitor.streaming && monitor.open == multiset{}
      modifies `trace, `monitor, `emitted
      ensures Traced() && monitor == old(monitor).(streaming := true) && emitted == old(emitted)
    {
      Emit(MessageStart(message));
    }

    method EmitUpdate(message: Message)
      requires Traced() && monitor.InTurn? && monitor.streaming
      modifies `trace, `monitor, `emitted
      ensures Traced() && monitor == old(monitor) && emitted == old(emitted)
    {
      Emit(MessageUpdate(message));
    }

    method PlacePartial(partial: Message, messages: seq<Message>, ghost request: Context)
      requires messages == request.messages && context.tools == request.tools
      modifies `context
      ensures Holds(request, true)
    {
      context := context.(messages := messages + [partial]);
    }

    /** The final message takes the place of the partial one, or comes with a start of its own. */
    method FinishResponse(response: Message, addedPartial: bool, ghost request: Context)
      requires Traced() && monitor.InTurn? && monitor.streaming == addedPartial && monitor.open == multiset{}
      requires Holds(request, addedPartial)
      requires response.Assistant?
      modifies `trace, `monitor, `emitted, `context
      ensures Traced() && monitor == old(monitor).(streaming := false) && emitted == old(emitted) + [response]
      ensures context == request.(messages := request.messages + [response])
    {
      if addedPartial {
        context := context.(messages := context.messages[..|context.messages| - 1] + [response]);
      } else {
        context := context.(messages := context.messages + [response]);
        EmitStart(response);
      }
      Emit(MessageEnd(response));
    }

    // ----- Tool calls ---------------------------------------------------------------------------

    method EmitToolStart(call: ToolCall)
      requires Traced() && monitor.InTurn? && !monitor.streaming
      modifies `trace, `monitor, `emitted
      ensures Traced() && emitted == old(emitted)
      ensures monitor == InTurn(old(monitor).turns, false, old(monitor).open + multiset{call.id}, old(monitor).owed)
    {
      Emit(ToolStart(call));
    }

    method EmitToolEnd(call: ToolCall, outcome: Outcome)
      requires Traced() && monitor.InTurn? && !monitor.streaming && call.id in monitor.open
      modifies `trace, `monitor, `reported
      ensures Traced() && reported == old(reported) + multiset{ReportOf(call, outcome)}
      ensures monitor == InTurn(old(monitor).turns, false, old(monitor).open - multiset{call.id},
                                old(monitor).owed + multiset{ReportOf(call, outcome)})
    {
      var e := ToolEnd(call, outcome.content, outcome.isError);
      ReadMore(trace, e);
      EndReports(monitor, call, outcome);
      trace := trace + [e];
      monitor := Next(monitor, e);
      reported := reported + Reported(e);
    }

    static lemma EndReports(m: Monitor, call: ToolCall, outcome: Outcome)
      requires m.InTurn? && !m.streaming && call.id in m.open
      ensures var e := ToolEnd(call, outcome.content, outcome.isError);
        && Reported(e) == multiset{ReportOf(call, outcome)}
        && Next(m, e) == InTurn(m.turns, false, m.open - multiset{call.id}, m.owed + Reported(e))
    {
    }

    /** A call that ends as soon as it was prepared. */
    method EmitImmediate(call: ToolCall, outcome: Outcome)
      requires Traced() && monitor.InTurn? && !monitor.streaming
      modifies `trace, `monitor, `emitted, `reported
      ensures Traced() && emitted == old(emitted) && reported == old(reported) + multiset{ReportOf(call, outcome)}
      ensures monitor == InTurn(old(monitor).turns, false, old(monitor).open,
                                old(monitor).owed + multiset{ReportOf(call, outcome)})
    {
      EmitToolStart(call);
      EmitToolEnd(call, outcome);
    }

    method BeginCall(call: ToolCall)
      requires Traced() && Quiet()
      modifies `trace, `monitor, `emitted
      ensures Traced() && emitted == old(emitted)
      ensures monitor == InTurn(old(monitor).turns, false, multiset{call.id}, multiset{})
    {
      Emit(ToolStart(call));
    }

    /** `tool_execution_end` and the result message of a call that alone is running. */
    method EmitFinished(call: ToolCall, outcome: Outcome)
      requires Traced() && monitor.InTurn? && !monitor.streaming
      requires monitor.open == multiset{call.id} && monitor.owed == multiset{}
      modifies `trace, `monitor, `emitted, `reported
      ensures Traced() && monitor == InTurn(old(monitor).turns, false, multiset{}, multiset{})
      ensures emitted == old(emitted) + [ResultOf(call, outcome)]
      ensures reported == old(reported) + Repeated(ResultOf(call, outcome))
    {
      EmitToolEnd(call, outcome);
      EmitMessage(ResultOf(call, outcome));
    }

    method FailToolCallsFromTruncatedMessage(calls: seq<ToolCall>) returns (batch: Batch)
      requires Traced() && Quiet()
      modifies `trace, `monitor, `emitted, `reported
      ensures Traced() && monitor == old(monitor)
      ensures batch == TruncatedBatch(calls)
      ensures emitted == old(emitted) + batch.messages && reported == old(reported) + AnswersOf(batch.messages)
    {
      var messages := [];
      ghost var results := TruncatedBatch(calls).messages;
      NothingAnswered(results, emitted, reported);
      for i := 0 to |calls|
        invariant Traced() && monitor == old(monitor) && messages == results[..i]
        invariant Answered(results, i, old(emitted), old(reported))
      {
        FailCall(calls[i], results, i, old(emitted), old(reported));
        messages := messages + [ResultOf(calls[i], TruncatedOutcome(calls[i]))];
      }
      assert results[..|calls|] == results;
      return Batch(messages, false);
    }

    /** Since `sent` and `base`, the first n results were emitted and reported. */
    ghost predicate Answered(results: seq<Message>, n: nat, sent: seq<Message>, base: multiset<Report>)
      requires n <= |results|
      reads `emitted, `reported
    {
      emitted == sent + results[..n] && reported == base + AnswersOf(results[..n])
    }

    static lemma Continued(sent: seq<Message>, base: multiset<Report>, messages: seq<Message>, message: Message)
      ensures sent + messages + [message] == sent + (messages + [message])
      ensures base + AnswersOf(messages) + Repeated(message) == base + AnswersOf(messages + [message])
    {
      AnswersMore(messages, message);
    }

    static lemma NothingAnswered(results: seq<Message>, sent: seq<Message>, base: multiset<Report>)
      ensures sent + results[..0] == sent && base + AnswersOf(results[..0]) == base
    {
    }

    static lemma OneMoreAnswered(results: seq<Message>, n: nat, sent: seq<Message>, base: multiset<Report>)
      requires n < |results|
      ensures sent + results[..n + 1] == sent + results[..n] + [results[n]]
      ensures base + AnswersOf(results[..n + 1]) == base + AnswersOf(results[..n]) + Repeated(results[n])
    {
      assert results[..n + 1] == results[..n] + [results[n]];
      AnswersMore(results[..n], results[n]);
    }

    method FailCall(call: ToolCall, ghost results: seq<Message>, ghost n: nat, ghost sent: seq<Message>,
                    ghost base: multiset<Report>)
      requires Traced() && Quiet() && n < |results| && results[n] == ResultOf(call, TruncatedOutcome(call))
      requires Answered(results, n, sent, base)
      modifies `trace, `monitor, `emitted, `reported
      ensures Traced() && monitor == old(monitor) && Answered(results, n + 1, sent, base)
    {
      OneMoreAnswered(results, n, sent, base);
      BeginCall(call);
      EmitFinished(call, TruncatedOutcome(call));
    }

    method EmitUpdates(call: ToolCall, updates: seq<string>)
      requires Traced() && monitor.InTurn? && !monitor.streaming && call.id in monitor.open
      modifies `trace, `monitor, `emitted
      ensures Traced() && monitor == old(monitor) && emitted == old(emitted)
    {
      for i := 0 to |updates|
        invariant Traced() && monitor == old(monitor) && emitted == old(emitted)
      {
        Emit(ToolUpdate(call, updates[i]));
      }
    }

    /** One call from its start to its result message. */
    method ExecuteToolCall(call: ToolCall, script: CallScript) returns (outcome: Outcome)
      requires Traced() && Quiet()
      modifies `trace, `monitor, `emitted, `reported
      ensures Traced() && monitor == old(monitor)
      ensures outcome == OutcomeOf(context.tools, call, script, ExecutionMode.Sequential)
      ensures emitted == old(emitted) + [ResultOf(call, outcome)]
      ensures reported == old(reported) + Repeated(ResultOf(call, outcome))
    {
      BeginCall(call);
      var preparation := PrepareToolCall(context.tools, call, script);
      if preparation.Immediate? {
        outcome := preparation.outcome;
      } else {
        EmitUpdates(call, script.updates);
        var executed := ExecutePreparedToolCall(script);
        outcome := FinalizeExecutedToolCall(executed, script);
      }
      EmitFinished(call, outcome);
    }

    method ExecuteToolCallsSequential(calls: seq<ToolCall>, scripts: nat -> CallScript) returns (batch: Batch)
      requires Traced() && Quiet()
      modifies `trace, `monitor, `emitted, `reported
      ensures Traced() && monitor == old(monitor)
      ensures batch == BatchOf(context.tools, calls, scripts, ExecutionMode.Sequential)
      ensures emitted == old(emitted) + batch.messages && reported == old(reported) + AnswersOf(batch.messages)
    {
      var finalized, messages := RunSequentially(calls, scripts);
      batch := Batch(messages, ShouldTerminateToolBatch(finalized));
      BatchProduced(context.tools, calls, scripts, ExecutionMode.Sequential, finalized, messages);
    }

    method RunSequentially(calls: seq<ToolCall>, scripts: nat -> CallScript)
      returns (finalized: seq<Outcome>, messages: seq<Message>)
      requires Traced() && Quiet()
      modifies `trace, `monitor, `emitted, `reported
      ensures Traced() && monitor == old(monitor)
      ensures Produced(context.tools, calls, scripts, ExecutionMode.Sequential, finalized, messages,
                       Reached(scripts, 0, |calls|))
      ensures emitted == old(emitted) + messages && reported == old(reported) + AnswersOf(messages)
    {
      finalized, messages := [], [];
      var i := 0;
      while i < |calls|
        invariant i <= |calls| && Reached(scripts, 0, |calls|) == Reached(scripts, i, |calls|)
        invariant Traced() && monitor == old(monitor)
        invariant Produced(context.tools, calls, scripts, ExecutionMode.Sequential, finalized, messages, i)
        invariant emitted == old(emitted) + messages && reported == old(reported) + AnswersOf(messages)
      {
        finalized, messages := RunNext(calls, scripts, i, finalized, messages, old(emitted), old(reported));
        if scripts(i).abortedAfter { return; }
        i := i + 1;
      }
    }

    /** One more call; `sent` and `base` are what was emitted and reported before the batch. */
    method RunNext(calls: seq<ToolCall>, scripts: nat -> CallScript, i: nat, finalized: seq<Outcome>,
                   messages: seq<Message>, ghost sent: seq<Message>, ghost base: multiset<Report>)
      returns (finalized': seq<Outcome>, messages': seq<Message>)
      requires Traced() && Quiet() && i < |calls|
      requires Produced(context.tools, calls, scripts, ExecutionMode.Sequential, finalized, messages, i)
      requires emitted == sent + messages && reported == base + AnswersOf(messages)
      modifies `trace, `monitor, `emitted, `reported
      ensures Traced() && monitor == old(monitor)
      ensures Produced(context.tools, calls, scripts, ExecutionMode.Sequential, finalized', messages', i + 1)
      ensures emitted == sent + messages' && reported == base + AnswersOf(messages')
    {
      var outcome := ExecuteToolCall(calls[i], scripts(i));
      ProducedNext(context.tools, calls, scripts, ExecutionMode.Sequential, finalized, messages, i);
      Continued(sent, base, messages, ResultOf(calls[i], outcome));
      finalized' := finalized + [outcome];
      messages' := messages + [ResultOf(calls[i], outcome)];
    }

    // ----- Parallel batches ---------------------------------------------------------------------

    /**
     The monitor sees the slots: empty ones are open, filled ones are owed what they hold, and that is what was reported
     beyond `base`, which was reported before the batch.
     */
    ghost predicate Running(calls: seq<ToolCall>, slots: Slots, base: multiset<Report>)
      requires |slots| <= |calls|
      reads `monitor, `reported
    {
      && monitor.InTurn? && !monitor.streaming
      && monitor.open == OpenBag(calls, slots) && monitor.owed == OwedBag(calls, slots)
      && reported == base + monitor.owed
    }

    /** Starts the next call; a call settled by its preparation ends at once and fills its slot. */
    method StartCall(calls: seq<ToolCall>, ghost scripts: nat -> CallScript, script: CallScript, slots: Slots,
                     ghost base: multiset<Report>)
      returns (slots': Slots)
      requires |slots| < |calls| && script == scripts(|slots|)
      requires Traced() && Running(calls, slots, base) && SlotsHold(context.tools, calls, scripts, slots)
      modifies `trace, `monitor, `emitted, `reported
      ensures |slots'| == |slots| + 1
      ensures Traced() && Running(calls, slots', base) && SlotsHold(context.tools, calls, scripts, slots')
      ensures emitted == old(emitted) && monitor.turns == old(monitor).turns
    {
      var slot := OpenSlot(calls[|slots|], script);
      slots' := slots + [slot];
      SlotAdded(calls, slots, slot);
      SlotHolds(context.tools, calls, scripts, slots, slot);
    }

    /** The start of one call, and its end if the preparation settles it. */
    method OpenSlot(call: ToolCall, script: CallScript) returns (slot: Option<Outcome>)
      requires Traced() && monitor.InTurn? && !monitor.streaming
      modifies `trace, `monitor, `emitted, `reported
      ensures Traced() && emitted == old(emitted) && reported == old(reported) + OwedOf(call, slot)
      ensures monitor == InTurn(old(monitor).turns, false, old(monitor).open + OpenOf(call, slot),
                                old(monitor).owed + OwedOf(call, slot))
      ensures slot == match PrepareToolCall(context.tools, call, script)
                      case Immediate(outcome) => Some(outcome)
                      case Prepared => None
    {
      var preparation := PrepareToolCall(context.tools, call, script);
      if preparation.Immediate? {
        EmitImmediate(call, preparation.outcome);
        slot := Some(preparation.outcome);
      } else {
        EmitToolStart(call);
        slot := None;
      }
    }

    /** The executor's first phase: starts calls in source order until the signal is aborted. */
    method StartCalls(calls: seq<ToolCall>, scripts: nat -> CallScript, ghost base: multiset<Report>)
      returns (slots: Slots)
      requires Traced() && Quiet() && reported == base
      modifies `trace, `monitor, `emitted, `reported
      ensures |slots| == Reached(scripts, 0, |calls|) <= |calls|
      ensures Traced() && Running(calls, slots, base) && SlotsHold(context.tools, calls, scripts, slots)
      ensures emitted == old(emitted) && monitor.turns == old(monitor).turns
    {
      slots := [];
      while |slots| < |calls|
        invariant |slots| <= |calls| && Reached(scripts, 0, |calls|) == Reached(scripts, |slots|, |calls|)
        invariant Traced() && Running(calls, slots, base) && SlotsHold(context.tools, calls, scripts, slots)
        invariant emitted == old(emitted) && monitor.turns == old(monitor).turns
        decreases |calls| - |slots|
      {
        var script := scripts(|slots|);
        slots := StartCall(calls, scripts, script, slots, base);
        if script.abortedAfter { return; }
      }
    }

    /** One event of the running tools: an update, or the end of the picked call, which fills its slot. */
    method Progress(calls: seq<ToolCall>, scripts: nat -> CallScript, slots: Slots, step: ParallelStep,
                    ghost base: multiset<Report>)
      returns (slots': Slots)
      requires |slots| <= |calls| && Unsettled(slots) != []
      requires Traced() && Running(calls, slots, base) && SlotsHold(context.tools, calls, scripts, slots)
      modifies `trace, `monitor, `emitted, `reported
      ensures |slots'| == |slots|
      ensures Traced() && Running(calls, slots', base) && SlotsHold(context.tools, calls, scripts, slots')
      ensures emitted == old(emitted) && monitor.turns == old(monitor).turns
      ensures |Unsettled(slots')| == |Unsettled(slots)| - if step.update.Some? then 0 else 1
    {
      var open := Unsettled(slots);
      var at := open[step.pick % |open|];
      if step.update.Some? {
        SlotFilled(calls, slots, at, ABORTED);
        if !scripts(at).abortedAtStart { EmitUpdates(calls[at], [step.update.value]); }
        slots' := slots;
      } else {
        slots' := Complete(calls, scripts, slots, at, base);
      }
    }

    /** The picked tool runs to its end, unless its start met the aborted signal. */
    method Complete(calls: seq<ToolCall>, scripts: nat -> CallScript, slots: Slots, at: nat,
                    ghost base: multiset<Report>)
      returns (slots': Slots)
      requires at < |slots| <= |calls| && slots[at].None?
      requires Traced() && Running(calls, slots, base) && SlotsHold(context.tools, calls, scripts, slots)
      modifies `trace, `monitor, `emitted, `reported
      ensures |slots'| == |slots| && |Unsettled(slots')| == |Unsettled(slots)| - 1
      ensures Traced() && Running(calls, slots', base) && SlotsHold(context.tools, calls, scripts, slots')
      ensures emitted == old(emitted) && monitor.turns == old(monitor).turns
    {
      var script := scripts(at);
      var outcome;
      if script.abortedAtStart {
        outcome := ABORTED;
      } else {
        var executed := ExecutePreparedToolCall(script);
        outcome := FinalizeExecutedToolCall(executed, script);
      }
      SlotFilled(calls, slots, at, outcome);
      EmitToolEnd(calls[at], outcome);
      slots' := slots[at := Some(outcome)];
    }

    /** Lets the tools run until every slot is filled, in the order of the schedule; any order can be written as one. */
    method AwaitAll(calls: seq<ToolCall>, scripts: nat -> CallScript, slots: Slots, schedule: seq<ParallelStep>,
                    ghost base: multiset<Report>)
      returns (settled: Slots)
      requires |slots| <= |calls|
      requires Traced() && Running(calls, slots, base) && SlotsHold(context.tools, calls, scripts, slots)
      modifies `trace, `monitor, `emitted, `reported
      ensures |settled| == |slots| && Unsettled(settled) == []
      ensures Traced() && Running(calls, settled, base) && SlotsHold(context.tools, calls, scripts, settled)
      ensures emitted == old(emitted) && monitor.turns == old(monitor).turns
    {
      settled := slots;
      var i := 0;
      while Unsettled(settled) != []
        invariant |settled| == |slots| && i <= |schedule|
        invariant Traced() && Running(calls, settled, base) && SlotsHold(context.tools, calls, scripts, settled)
        invariant emitted == old(emitted) && monitor.turns == old(monitor).turns
        decreases |schedule| - i, |Unsettled(settled)|
      {
        if i < |schedule| {
          settled := Progress(calls, scripts, settled, schedule[i], base);
          i := i + 1;
        } else {
          settled := Progress(calls, scripts, settled, ParallelStep(0, None), base);
        }
      }
    }

    /** The last phase: result messages in source order, from what was gathered. */
    method EmitResults(calls: seq<ToolCall>, finalized: seq<Outcome>) returns (messages: seq<Message>)
      requires |finalized| <= |calls| && Traced() && monitor.InTurn? && !monitor.streaming
      requires monitor.open == multiset{} && monitor.owed == multiset(ReportsOf(calls, finalized))
      modifies `trace, `monitor, `emitted
      ensures Traced() && Quiet() && monitor.turns == old(monitor).turns
      ensures messages == ResultsOf(calls, finalized) && emitted == old(emitted) + messages
    {
      messages := [];
      ghost var reports, results := ReportsOf(calls, finalized), ResultsOf(calls, finalized);
      for i := 0 to |finalized|
        invariant Traced() && monitor == InTurn(old(monitor).turns, false, multiset{}, multiset(reports[i..]))
        invariant messages == results[..i]
        invariant emitted == old(emitted) + results[..i]
      {
        EmitResult(calls[i], finalized[i], reports, i);
        assert results[..i + 1] == results[..i] + [ResultOf(calls[i], finalized[i])];
        messages := messages + [ResultOf(calls[i], finalized[i])];
      }
    }

    method EmitResult(call: ToolCall, outcome: Outcome, ghost reports: seq<Report>, ghost i: nat)
      requires Traced() && monitor.InTurn? && !monitor.streaming && monitor.open == multiset{}
      requires i < |reports| && reports[i] == ReportOf(call, outcome) && monitor.owed == multiset(reports[i..])
      modifies `trace, `monitor, `emitted
      ensures Traced() && emitted == old(emitted) + [ResultOf(call, outcome)]
      ensures monitor == InTurn(old(monitor).turns, false, multiset{}, multiset(reports[i + 1..]))
    {
      assert reports[i..] == [reports[i]] + reports[i + 1..];
      assert multiset(reports[i..]) - multiset{reports[i]} == multiset(reports[i + 1..]);
      EmitMessage(ResultOf(call, outcome));
    }

    method ExecuteToolCallsParallel(calls: seq<ToolCall>, scripts: nat -> CallScript, schedule: seq<ParallelStep>)
      returns (batch: Batch)
      requires Traced() && Quiet()
      modifies `trace, `monitor, `emitted, `reported
      ensures Traced() && monitor == old(monitor)
      ensures batch == BatchOf(context.tools, calls, scripts, ExecutionMode.Parallel)
      ensures emitted == old(emitted) + batch.messages && reported == old(reported) + AnswersOf(batch.messages)
    {
      var settled := Settle(calls, scripts, schedule);
      AllFilled(calls, settled);
      var finalized := Gathered(settled);
      var messages := EmitResults(calls, finalized);
      AnswersOfResults(calls, finalized);
      batch := Batch(messages, ShouldTerminateToolBatch(finalized));
      GatheredIsProduced(context.tools, calls, scripts, settled, messages);
      BatchProduced(context.tools, calls, scripts, ExecutionMode.Parallel, finalized, messages);
    }

    /** Starts the calls and waits for all of them. */
    method Settle(calls: seq<ToolCall>, scripts: nat -> CallScript, schedule: seq<ParallelStep>)
      returns (settled: Slots)
      requires Traced() && Quiet()
      modifies `trace, `monitor, `emitted, `reported
      ensures |settled| == Reached(scripts, 0, |calls|) <= |calls| && Unsettled(settled) == []
      ensures Traced() && Running(calls, settled, old(reported)) && SlotsHold(context.tools, calls, scripts, settled)
      ensures emitted == old(emitted) && monitor.turns == old(monitor).turns
    {
      Emit(ToolBatchStart(calls));
      var slots := StartCalls(calls, scripts, reported);
      settled := AwaitAll(calls, scripts, slots, schedule, old(reported));
    }

    /** `executeToolCalls`, or the truncated batch when the response hit the token limit. */
    method ExecuteToolCalls(response: Message, calls: seq<ToolCall>, script: TurnScript) returns (batch: Batch)
      requires Traced() && Quiet() && response.Assistant?
      modifies `trace, `monitor, `emitted, `reported
      ensures Traced() && monitor == old(monitor)
      ensures emitted == old(emitted) + batch.messages && reported == old(reported) + AnswersOf(batch.messages)
      ensures batch == if response.stopReason == Length then TruncatedBatch(calls)
                       else BatchOf(context.tools, calls, script.calls, ModeOf(context.tools, calls, toolExecution))
    {
      if response.stopReason == Length {
        batch := FailToolCallsFromTruncatedMessage(calls);
      } else if ModeOf(context.tools, calls, toolExecution).Sequential? {
        batch := ExecuteToolCallsSequential(calls, script.calls);
      } else {
        batch := ExecuteToolCallsParallel(calls, script.calls, script.schedule);
      }
    }

    // ----- Turns --------------------------------------------------------------------------------

    ghost predicate Configured(setup: Setup)
      reads steering, followUps
    {
      && setup.toolExecution == toolExecution && setup.Faithful()
      && setup.steeringMode == steering.mode && setup.followUpMode == followUps.mode
    }

    /** The loop polls for steering messages; the first poll of some runs is skipped. */
    method PollSteering(ghost setup: Setup)
      requires Queues() && Configured(setup)
      modifies steering, `skipInitialSteeringPoll, `pendingMessages, `pendingOrigin
      ensures Queues() && steering.accepted == old(steering.accepted)
      ensures Standing() == Poll(setup, old(Standing()))
    {
      pendingOrigin := Origin.Steering;
      if skipInitialSteeringPoll {
        skipInitialSteeringPoll := false;
        pendingMessages := [];
      } else {
        pendingMessages := steering.Drain();
      }
    }

    /** Someone enqueues messages while the loop is busy. */
    method Arrive(toSteering: seq<Message>, toFollowUps: seq<Message>)
      requires Queues()
      modifies steering, followUps
      ensures Queues()
      ensures steering.accepted == old(steering.accepted) + toSteering
      ensures followUps.accepted == old(followUps.accepted) + toFollowUps
      ensures Standing() == old(Standing()).(steering := old(steering.messages) + toSteering,
                                             followUps := old(followUps.messages) + toFollowUps)
    {
      steering.EnqueueAll(toSteering);
      followUps.EnqueueAll(toFollowUps);
    }

    /** Applies what `prepareNextTurn` returned, if anything. */
    method ApplyUpdate(script: TurnScript) returns (prepared: seq<Message>)
      modifies `context
      ensures context == Replaced(old(context), script)
      ensures Standing() == old(Standing()).(context := Replaced(old(context), script))
      ensures prepared == if script.update.Some? then script.update.value.messages else []
    {
      prepared := [];
      if script.update.Some? {
        if script.update.value.context.Some? {
          context := script.update.value.context.value;
        }
        prepared := script.update.value.messages;
      }
    }

    method BeginTurn()
      requires Agreed() && monitor.Between?
      modifies `trace, `monitor, `emitted
      ensures Agreed() && Quiet() && monitor.turns > 0 && Standing() == old(Standing())
    {
      Emit(TurnStart);
    }

    method PollIfIdle(ghost setup: Setup)
      requires Queues() && Configured(setup)
      modifies steering, `skipInitialSteeringPoll, `pendingMessages, `pendingOrigin
      ensures Queues() && steering.accepted == old(steering.accepted)
      ensures Standing() == if old(pendingMessages) == [] then Poll(setup, old(Standing())) else old(Standing())
    {
      if |pendingMessages| == 0 {
        PollSteering(setup);
      }
    }

    /** Prepares a later turn: a replaced context, one more poll if nothing is pending, and `turn_start`. */
    method PrepareNextTurn(script: TurnScript, ghost setup: Setup) returns (prepared: seq<Message>)
      requires Agreed() && Queues() && Configured(setup) && monitor.Between? && turns != []
      modifies steering, `skipInitialSteeringPoll, `pendingMessages, `pendingOrigin, `context
      modifies `trace, `monitor, `emitted
      ensures Agreed() && Queues() && Quiet() && monitor.turns > 0
      ensures steering.accepted == old(steering.accepted)
      ensures prepared == if script.update.Some? then script.update.value.messages else []
      ensures var t := old(Standing()).(context := Replaced(old(context), script));
        Standing() == if old(pendingMessages) == [] then Poll(setup, t) else t
    {
      prepared := ApplyUpdate(script);
      PollIfIdle(setup);
      BeginTurn();
    }

    /** Brings the run to where the next turn's messages are known. */
    method OpenTurn(firstTurn: bool, script: TurnScript, ghost setup: Setup) returns (prepared: seq<Message>)
      requires Ready() && Configured(setup) && (firstTurn <==> turns == [])
      modifies this, steering, followUps
      ensures Agreed() && Queues() && Quiet() && monitor.turns > 0
      ensures steering.accepted == old(steering.accepted) + script.steeringBefore
      ensures followUps.accepted == old(followUps.accepted)
      ensures prepared == PreparedFor(old(Standing()), script)
      ensures Standing() == Opened(setup, old(Standing()), script)
    {
      Arrive(script.steeringBefore, []);
      assert old(followUps.messages) + [] == old(followUps.messages);
      prepared := [];
      if !firstTurn {
        prepared := PrepareNextTurn(script, setup);
      }
    }

    /** The declared messages and the response. */
    method Respond(script: TurnScript, appended: seq<Message>)
      requires script.Obeys() && Agreed() && Quiet()
      modifies `trace, `monitor, `emitted, `context, `newMessages, `requests
      ensures Agreed() && monitor == old(monitor)
      ensures newMessages == old(newMessages) + (appended + [script.response])
      ensures context == old(context).(messages := old(context).messages + (appended + [script.response]))
      ensures requests == old(requests) + [old(context).(messages := old(context).messages + appended)]
    {
      AppendMessages(appended);
      StreamAssistantResponse(script.stream, script.response);
      newMessages := newMessages + [script.response];
      InTwoSteps(old(newMessages), appended, [script.response]);
      InTwoSteps(old(context).messages, appended, [script.response]);
    }

    static lemma InTwoSteps(a: seq<Message>, b: seq<Message>, c: seq<Message>)
      ensures a + b + c == a + (b + c)
    {
    }

    /** Executes the tool calls of a response, if it did not fail, and appends their results. */
    method RunTools(script: TurnScript) returns (batch: Batch)
      requires script.Obeys() && Agreed() && Quiet()
      modifies `trace, `monitor, `emitted, `reported, `context, `newMessages
      ensures Agreed() && monitor == old(monitor)
      ensures batch == TurnBatch(old(context).tools, script, toolExecution)
      ensures newMessages == old(newMessages) + batch.messages && reported == old(reported) + AnswersOf(batch.messages)
      ensures context == old(context).(messages := old(context).messages + batch.messages)
    {
      var toolCalls := CallsOf(script.response.blocks);
      batch := Batch([], true);
      if !Failed(script.response) && |toolCalls| > 0 {
        batch := ExecuteToolCalls(script.response, toolCalls, script);
        context := context.(messages := context.messages + batch.messages);
        newMessages := newMessages + batch.messages;
      }
    }

    /** The messages of a turn, its response and its tools. */
    method Answer(script: TurnScript, appended: seq<Message>) returns (batch: Batch)
      requires script.Obeys() && Agreed() && Quiet()
      modifies `trace, `monitor, `emitted, `reported, `context, `newMessages, `requests
      ensures Agreed() && monitor == old(monitor)
      ensures batch == TurnBatch(old(context).tools, script, toolExecution)
      ensures reported == old(reported) + AnswersOf(batch.messages)
      ensures requests == old(requests) + [old(context).(messages := old(context).messages + appended)]
      ensures newMessages == old(newMessages) + (appended + [script.response] + batch.messages)
      ensures context.messages == old(context).messages + (appended + [script.response] + batch.messages)
      ensures context.tools == old(context).tools
    {
      Respond(script, appended);
      batch := RunTools(script);
      InTwoSteps(old(newMessages), appended + [script.response], batch.messages);
      InTwoSteps(old(context).messages, appended + [script.response], batch.messages);
    }

    /** The part of a turn after its preparation, up to and with `turn_end`. */
    method TakeTurn(script: TurnScript, prepared: seq<Message>, ghost setup: Setup) returns (moreToolCalls: bool)
      requires script.Obeys() && Agreed() && Quiet() && Configured(setup)
      modifies `trace, `monitor, `emitted, `reported, `endings, `witnessed, `context, `newMessages, `requests
      modifies `pendingMessages, `pendingOrigin, `turns
      ensures Agreed() && monitor == Between(old(monitor).turns)
      ensures Standing() == Taken(old(Standing()), NewTurn(setup, old(Standing()), script, prepared))
      ensures |turns| == |old(turns)| + 1 && turns[|turns| - 1].moreToolCalls == moreToolCalls
    {
      ghost var before := Standing();
      ghost var turn := NewTurn(setup, before, script, prepared);
      var batch := AnswerAs(script, prepared, setup, before, turn);
      EndTurn(script.response, batch.messages, turn);
      moreToolCalls := !batch.terminate;
      TurnTaken(before, turn, Standing());
    }

    /** The fields after a turn are those of the reference turn. */
    static lemma TurnTaken(before: Stand, turn: Turn, s: Stand)
      requires s.context == before.context.(messages := turn.Transcript())
      requires s.newMessages == before.newMessages + turn.Messages()
      requires s.reported == before.reported + AnswersOf(turn.results)
      requires s.requests == before.requests + [turn.Request()] && s.turns == before.turns + [turn]
      requires s.endings == before.endings + [Ending(turn.response, turn.results, s.newMessages, s.reported)]
      requires s.witnessed == before.witnessed + [s.context.messages] && s.pending == [] && s.origin.Steering?
      requires s.steering == before.steering && s.followUps == before.followUps && s.skipPoll == before.skipPoll
      requires s.over == before.over
      ensures s == Taken(before, turn)
    {
    }

    /** The messages, the response and the tools of the turn that is to be made. */
    method AnswerAs(
      script: TurnScript, prepared: seq<Message>, ghost setup: Setup, ghost before: Stand, ghost turn: Turn)
      returns (batch: Batch)
      requires script.Obeys() && Agreed() && Quiet() && Configured(setup)
      requires before == Standing() && turn == NewTurn(setup, before, script, prepared)
      modifies `trace, `monitor, `emitted, `reported, `context, `newMessages, `requests
      ensures Agreed() && monitor == old(monitor)
      ensures turn.response == script.response && turn.results == batch.messages
      ensures turn.moreToolCalls == !batch.terminate
      ensures requests == old(requests) + [turn.Request()] && newMessages == old(newMessages) + turn.Messages()
      ensures context == old(context).(messages := turn.Transcript())
      ensures reported == old(reported) + AnswersOf(turn.results)
    {
      var appended := Declare(context, prepared + pendingMessages);
      batch := Answer(script, appended);
      TurnMade(setup, before, script, prepared, appended, batch);
    }

    /** `turn_end`, with nothing pending any more. */
    method EndTurn(response: Message, results: seq<Message>, ghost turn: Turn)
      requires Agreed() && Quiet()
      modifies `trace, `monitor, `endings, `witnessed, `pendingMessages, `pendingOrigin, `turns
      ensures Agreed() && monitor == Between(old(monitor).turns)
      ensures turns == old(turns) + [turn] && pendingMessages == [] && pendingOrigin.Steering?
      ensures endings == old(endings) + [Ending(response, results, newMessages, reported)]
      ensures witnessed == old(witnessed) + [context.messages]
    {
      pendingMessages := [];
      pendingOrigin := Origin.Steering;
      turns := turns + [turn];
      EmitTurnEnd(response, results);
    }

    method EndRun()
      requires Agreed() && monitor.Between? && monitor.turns > 0
      modifies `trace, `monitor, `emitted
      ensures Agreed() && monitor == Finished && trace == old(trace) + [AgentEnd(newMessages)]
    {
      Emit(AgentEnd(newMessages));
    }

    /** After `turn_end`: the run ends, or the loop polls for steering messages. */
    method Conclude(script: TurnScript, ghost setup: Setup) returns (ended: bool)
      requires Agreed() && Queues() && Configured(setup) && monitor.Between? && monitor.turns > 0
      modifies steering, followUps, `skipInitialSteeringPoll, `pendingMessages, `pendingOrigin
      modifies `trace, `monitor, `emitted
      ensures Agreed() && Queues()
      ensures steering.accepted == old(steering.accepted) + script.steeringAfter
      ensures followUps.accepted == old(followUps.accepted) + script.followUpsAfter
      ensures Standing() == Closed(setup, old(Standing()), script)
      ensures if ended then RunOver() else monitor == old(monitor)
    {
      Arrive(script.steeringAfter, script.followUpsAfter);
      ended := Failed(script.response) || script.stopAfterTurn;
      if ended {
        EndRun();
      } else {
        PollSteering(setup);
      }
    }

    // ----- The run ------------------------------------------------------------------------------

    /** What holds between turns; before the first turn its `turn_start` is already out. */
    ghost predicate Ready()
      reads this, steering, followUps
    {
      && Agreed() && Queues()
      && (if turns == [] then Quiet() else monitor.Between?) && monitor.turns > 0
    }

    /** The run has ended, and the last event carries all new messages. */
    ghost predicate RunOver()
      reads `monitor, `trace, `newMessages
    {
      monitor == Finished && trace != [] && trace[|trace| - 1] == AgentEnd(newMessages)
    }

    /** Everything enqueued since `steered` and `followed` is what the scripts of the turns say. */
    ghost predicate Received(steered: seq<Message>, followed: seq<Message>, scripts: seq<TurnScript>)
      reads steering, followUps
    {
      && steering.accepted == steered + Arrivals(scripts, Origin.Steering)
      && followUps.accepted == followed + Arrivals(scripts, Origin.FollowUp)
    }

    /** One pass of the inner loop: a turn, and what it leaves pending. */
    method RunTurn(firstTurn: bool, script: TurnScript, ghost setup: Setup,
                   ghost inner: (Stand, TurnScript) -> Stand)
      returns (ended: bool, moreToolCalls: bool)
      requires Ready() && Configured(setup) && (firstTurn <==> turns == []) && script.Obeys()
      requires NamesInner(setup, inner)
      modifies this, steering, followUps
      ensures Agreed() && Queues() && Configured(setup)
      ensures steering.accepted == old(steering.accepted) + script.steeringBefore + script.steeringAfter
      ensures followUps.accepted == old(followUps.accepted) + script.followUpsAfter
      ensures Standing() == inner(old(Standing()), script)
      ensures |turns| == |old(turns)| + 1 && turns[|turns| - 1].moreToolCalls == moreToolCalls
      ensures if ended then RunOver() else Ready()
    {
      var prepared := OpenTurn(firstTurn, script, setup);
      moreToolCalls := TakeTurn(script, prepared, setup);
      ended := Conclude(script, setup);
      assert Standing() == Inner(setup, old(Standing()), script);
    }

    /** The run stands where the reference run does after k turns, but for the poll of the follow-up queue. */
    ghost predicate Along(course: Course, k: nat)
      reads this, steering, followUps
    {
      course.along(Standing(), steering.accepted, followUps.accepted, k)
    }

    /** There is tool work, or a message for the next turn. */
    ghost predicate Continuing()
      reads `turns, `pendingMessages
    {
      turns == [] || turns[|turns| - 1].moreToolCalls || pendingMessages != []
    }

    /** What the loops keep between turns. */
    ghost predicate Kept(course: Course, scripts: seq<TurnScript>, done: nat)
      reads this, steering, followUps
    {
      && done == |turns| <= |scripts| && course.Faithful() && course.scripts == scripts && Configured(course.setup)
      && Along(course, done)
    }

    /** The inner loop: turns as long as there is tool work or a pending message. */
    method RunTurns(ghost course: Course, scripts: seq<TurnScript>, done: nat) returns (exit: LoopExit, done': nat)
      requires Kept(course, scripts, done) && Ready() && Continuing()
      modifies this, steering, followUps
      ensures done <= done' && Kept(course, scripts, done')
      ensures match exit
        case RunStopped => Agreed() && Queues() && RunOver()
        case ScriptOver => Ready() && Continuing() && done' == |scripts|
        case WouldStop => Ready() && !Continuing() && done < done'
    {
      var hasMoreToolCalls := true;
      done' := done;
      while hasMoreToolCalls || |pendingMessages| > 0
        invariant done <= done' && Kept(course, scripts, done') && Ready()
        invariant hasMoreToolCalls || |pendingMessages| > 0 <==> Continuing()
        invariant Continuing() || done < done'
        decreases |scripts| - done'
      {
        if done' == |scripts| {
          return ScriptOver, done';
        }
        var ended;
        ended, hasMoreToolCalls := TurnAlong(course, scripts, done');
        done' := done' + 1;
        if ended {
          return RunStopped, done';
        }
      }
      return WouldStop, done';
    }

    /** One more turn of the scripts. */
    method TurnAlong(ghost course: Course, scripts: seq<TurnScript>, k: nat) returns (ended: bool, moreToolCalls: bool)
      requires Kept(course, scripts, k) && Ready() && Continuing() && k < |scripts|
      modifies this, steering, followUps
      ensures Kept(course, scripts, k + 1) && turns[k].moreToolCalls == moreToolCalls
      ensures if ended then Agreed() && Queues() && RunOver() else Ready()
    {
      ended, moreToolCalls := FollowTurn(course, scripts, k);
    }

    method FollowTurn(ghost course: Course, scripts: seq<TurnScript>, k: nat)
      returns (ended: bool, moreToolCalls: bool)
      requires Ready() && Configured(course.setup) && course.Faithful() && course.scripts == scripts
      requires k == |turns| < |scripts| && Along(course, k) && Continuing()
      modifies this, steering, followUps
      ensures Agreed() && Queues() && Configured(course.setup) && Along(course, k + 1)
      ensures |turns| == k + 1 && turns[k].moreToolCalls == moreToolCalls
      ensures if ended then RunOver() else Ready()
    {
      ghost var before := Standing();
      ended, moreToolCalls := RunTurn(k == 0, scripts[k], course.setup, course.inner);
      course.OneTurnMore(before, old(steering.accepted), old(followUps.accepted), k,
                         Standing(), steering.accepted, followUps.accepted);
    }

    /** The agent would stop: the loop polls for follow-ups, goes on if there are any, and ends the run otherwise. */
    method GoOnOrEnd(ghost setup: Setup) returns (goesOn: bool)
      requires Ready() && Configured(setup) && !Continuing()
      modifies followUps, `pendingMessages, `pendingOrigin, `trace, `monitor, `emitted
      ensures Agreed() && Queues() && followUps.accepted == old(followUps.accepted)
      ensures Standing() == FollowedUp(setup, old(Standing()))
      ensures if goesOn then Ready() && pendingMessages != [] else RunOver()
    {
      var followUpMessages := followUps.Drain();
      goesOn := |followUpMessages| > 0;
      if goesOn {
        pendingMessages := followUpMessages;
        pendingOrigin := Origin.FollowUp;
      } else {
        EndRun();
      }
    }

    /** One pass of the outer loop; `WouldStop` means that the agent went on with follow-ups. */
    method RunCycle(ghost course: Course, scripts: seq<TurnScript>, done: nat) returns (exit: LoopExit, done': nat)
      requires Kept(course, scripts, done) && Ready() && Continuing()
      modifies this, steering, followUps
      ensures done <= done' && Kept(course, scripts, done')
      ensures match exit
        case RunStopped => Agreed() && Queues() && RunOver()
        case ScriptOver => Ready() && Continuing() && done' == |scripts|
        case WouldStop => Ready() && Continuing() && done < done'
    {
      exit, done' := RunTurns(course, scripts, done);
      if exit.WouldStop? {
        var goesOn := GoOnAlong(course, scripts, done');
        exit := if goesOn then WouldStop else RunStopped;
      }
    }

    method GoOnAlong(ghost course: Course, scripts: seq<TurnScript>, done: nat) returns (goesOn: bool)
      requires Kept(course, scripts, done) && Ready() && !Continuing()
      modifies followUps, `pendingMessages, `pendingOrigin, `trace, `monitor, `emitted
      ensures Kept(course, scripts, done)
      ensures if goesOn then Ready() && Continuing() else Agreed() && Queues() && RunOver()
    {
      ghost var before := Standing();
      goesOn := GoOnOrEnd(course.setup);
      course.StillAlong(before, Standing(), steering.accepted, followUps.accepted, done);
    }

    /** The outer loop: starts over when follow-ups were found after the agent would stop. */
    method RunCycles(ghost course: Course, scripts: seq<TurnScript>) returns (complete: bool)
      requires Kept(course, scripts, 0) && Ready() && Continuing()
      modifies this, steering, followUps
      ensures Kept(course, scripts, |turns|) && (complete || |turns| == |scripts|)
      ensures if complete then Agreed() && Queues() && RunOver() else Ready() && Continuing()
    {
      var done, exit := 0, WouldStop;
      while exit.WouldStop?
        invariant Kept(course, scripts, done)
        invariant if exit.RunStopped? then Agreed() && Queues() && RunOver() else Ready() && Continuing()
        invariant exit.ScriptOver? ==> done == |scripts|
        decreases |scripts| - done, exit.WouldStop?
      {
        exit, done := RunCycle(course, scripts, done);
      }
      complete := exit.RunStopped?;
    }

    /** `runLoop`: a first poll, and then the two loops. */
    method RunLoop(ghost setup: Setup, scripts: seq<TurnScript>) returns (complete: bool)
      requires Ready() && turns == [] && Configured(setup)
      requires forall k :: 0 <= k < |scripts| ==> scripts[k].Obeys()
      modifies this, steering, followUps
      ensures Agreed() && Queues() && Standing() == After(setup, Poll(setup, old(Standing())), scripts)
      ensures |turns| <= |scripts| && (complete || |turns| == |scripts|)
      ensures Received(old(steering.accepted), old(followUps.accepted), scripts[..|turns|])
      ensures if complete then RunOver() else Ready()
    {
      PollSteering(setup);
      ghost var course := CourseOf(setup, Standing(), steering.accepted, followUps.accepted, scripts);
      course.Sets(Standing(), steering.accepted, followUps.accepted);
      complete := RunCycles(course, scripts);
      course.Arrived(Standing(), steering.accepted, followUps.accepted, |turns|);
    }

    // ----- Entry points -------------------------------------------------------------------------

    /** A loop that has not run yet. */
    ghost predicate Unused()
      reads this, steering, followUps
    {
      && Queues() && Traced() && trace == [] && newMessages == [] && pendingMessages == [] && pendingOrigin.Steering?
      && turns == [] && requests == [] && endings == [] && witnessed == [] && reported == multiset{}
    }

    ghost function SetupOf(): (setup: Setup)
      reads steering, followUps
      ensures setup.Faithful()
    {
      var mode := toolExecution;
      Setup(mode, steering.mode, followUps.mode,
            (c: Context, p: seq<Message>) => Declare(c, p),
            (tools: seq<AgentTool>, script: TurnScript) => TurnBatch(tools, script, mode))
    }

    /** Where a run stands that begins with the given messages, before its first poll. */
    ghost function Beginning(initialMessages: seq<Message>): Stand
      reads this, steering, followUps
    {
      Standing().(context := context.(messages := context.messages + initialMessages), newMessages := initialMessages)
    }

    /**
     `runAgentLoop`: the prompts, with the tool changes declared, open the first turn; then the run is the reference run
     of the scripts, and the queues received what the scripts of the turns say.
     */
    method RunAgentLoop(prompts: seq<Message>, scripts: seq<TurnScript>) returns (complete: bool)
      requires Unused() && forall k :: 0 <= k < |scripts| ==> scripts[k].Obeys()
      modifies this, steering, followUps
      ensures Agreed() && Queues()
      ensures var setup := old(SetupOf());
        Standing() == After(setup, Poll(setup, old(Beginning(Declare(context, prompts)))), scripts)
      ensures |turns| <= |scripts| && (complete || |turns| == |scripts|)
      ensures Received(old(steering.accepted), old(followUps.accepted), scripts[..|turns|])
      ensures if complete then RunOver() else Ready()
    {
      ghost var setup := SetupOf();
      var initialMessages := Declare(context, prompts);
      OpenRun(initialMessages);
      complete := RunLoop(setup, scripts);
    }

    /** `agent_start`, the first `turn_start` and the initial messages. */
    method OpenRun(initialMessages: seq<Message>)
      requires Unused()
      modifies `trace, `monitor, `emitted, `context, `newMessages
      ensures Ready() && Standing() == old(Beginning(initialMessages))
    {
      TracedMeans();
      newMessages := initialMessages;
      context := context.(messages := context.messages + initialMessages);
      EmitOpening();
      EmitMessages(initialMessages);
    }

    method EmitOpening()
      requires Traced() && trace == []
      modifies `trace, `monitor, `emitted
      ensures Traced() && Quiet() && monitor.turns == 1 && emitted == []
    {
      TracedMeans();
      Emit(AgentStart);
      Emit(TurnStart);
    }

    method EmitMessages(messages: seq<Message>)
      requires Traced() && Quiet() && emitted == []
      modifies `trace, `monitor, `emitted
      ensures Traced() && monitor == old(monitor) && emitted == messages
    {
      for i := 0 to |messages|
        invariant Traced() && monitor == old(monitor)
        invariant emitted == messages[..i]
      {
        EmitMessage(messages[i]);
      }
    }

    /** `runAgentLoopContinue`: refuses an empty transcript and one that ends with an assistant message. */
    method RunAgentLoopContinue(scripts: seq<TurnScript>) returns (complete: Option<bool>)
      requires Unused() && forall k :: 0 <= k < |scripts| ==> scripts[k].Obeys()
      modifies this, steering, followUps
      ensures complete.None? <==> old(context.messages == [] || context.messages[|context.messages| - 1].Assistant?)
      ensures complete.None? ==> Standing() == old(Standing()) && trace == []
      ensures complete.Some? ==>
        && Agreed() && Queues()
        && (var setup := old(SetupOf()); Standing() == After(setup, Poll(setup, old(Standing())), scripts))
        && |turns| <= |scripts| && (complete.value || |turns| == |scripts|)
        && Received(old(steering.accepted), old(followUps.accepted), scripts[..|turns|])
        && if complete.value then RunOver() else Ready()
    {
      if |context.messages| == 0 || context.messages[|context.messages| - 1].Assistant? {
        return None;
      }
      ghost var setup := SetupOf();
      assert context.messages + [] == context.messages;
      OpenRun([]);
      var finished := RunLoop(setup, scripts);
      return Some(finished);
    }
  }

}
