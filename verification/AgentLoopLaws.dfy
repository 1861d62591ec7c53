/**
 What AgentRunLaws proves of every reference run, said of a loop that has run (packages/agent/src/agent-loop.ts): of its
 queues, its turns, its requests and its trace.
 */
module AgentLoopLaws {
  import opened AgentMessages
  import opened Wrappers
  import opened AgentTrace
  import opened AgentQueues
  import opened ToolBatches
  import opened ToolDeclarations
  import opened AgentRuns
  import opened AgentRunLaws
  import opened AgentLoops

  /** What waited in a queue and what arrived is what turns took, then what is pending, then what is still queued. */
  predicate Conserves(s: Stand, o: Origin, waiting: seq<Message>, scripts: seq<TurnScript>) {
    && |s.turns| <= |scripts|
    && waiting + Arrivals(scripts[..|s.turns|], o) == TakenFrom(s.turns, o) + s.Held(o)
  }

  /** Turn k took what one poll drained, and follow-ups only after a turn that left nothing to do. */
  predicate ServesAt(setup: Setup, s0: Stand, turns: seq<Turn>, scripts: seq<TurnScript>, k: nat)
    requires k < |turns|
  {
    && k < |scripts| && turns[k].taken == TakenAt(setup, After(setup, s0, scripts[..k]), scripts[k])
    && (turns[k].origin.FollowUp? ==>
          k > 0 && !turns[k - 1].moreToolCalls && After(setup, s0, scripts[..k]).steering == [])
  }

  /**
   The `turn_end` at position n of the trace: an Agent that reduced the events has its old transcript followed by the
   messages so far, with nothing pending or streaming, and every result so far was reported once.
   */
  ghost predicate AgreesAt(s: Stand, trace: seq<Event>, agent: AgentState, start: seq<Message>, n: nat)
    requires n < |trace|
  {
    var k, r := |Endings(trace[..n])|, ReduceAll(agent, trace[..n + 1]);
    && k < |s.turns| && trace[n] == TurnEnd(s.turns[k].response, s.turns[k].results)
    && r.messages == agent.messages + (start + TurnMessages(s.turns[..k + 1]))
    && r.pendingToolCalls == {} && r.streamingMessage.None?
    && AllReported(trace[..n + 1]) == TurnReports(s.turns[..k + 1])
  }

  /** Request k declares exactly its tools, if no two of them conflict. */
  ghost predicate DeclaresAt(requests: seq<Context>, k: nat)
    requires k < |requests|
  {
    NoConflicts(Declarations(requests[k].tools)) ==> DeclaresTools(requests[k].messages, requests[k].tools)
  }

  /**
   Turn k ends the run if its response failed, and then executes nothing, or if the hook after it says so; then nothing
   is polled any more. The last turn ends the run otherwise exactly if it left no tool work and the queues are empty.
   */
  ghost predicate EndsAt(s: Stand, scripts: seq<TurnScript>, k: nat)
    requires k < |s.turns| && k < |scripts| && scripts[k].response.Assistant?
  {
    var reason := scripts[k].response.stopReason;
    && s.turns[k].response == scripts[k].response
    && (reason == Error || reason == Aborted ==> s.turns[k].results == [])
    && (reason == Error || reason == Aborted || scripts[k].stopAfterTurn ==>
          k == |s.turns| - 1 && s.over && s.pending == [])
    && (reason != Error && reason != Aborted && !scripts[k].stopAfterTurn && k == |s.turns| - 1 ==>
          (s.over <==> !s.turns[k].moreToolCalls && s.pending == [] && s.steering == [] && s.followUps == []))
  }

  /**
   The results of turn k: none without calls, one error per call of a response that was cut off, and otherwise those of
   the batch that the executors make of the calls.
   */
  ghost predicate ExecutesAt(toolExecution: ExecutionMode, turn: Turn, script: TurnScript)
    requires script.response.Assistant?
  {
    var calls, reason := CallsOf(script.response.blocks), script.response.stopReason;
    reason != Error && reason != Aborted ==>
      && (calls == [] ==> turn.results == [] && !turn.moreToolCalls)
      && (calls != [] && reason == Length ==>
            && turn.moreToolCalls && |turn.results| == |calls|
            && forall i :: 0 <= i < |calls| ==>
                 turn.results[i] == ToolResult(calls[i].id, calls[i].name, ArgumentsTruncated(calls[i].name), true))
      && (calls != [] && reason != Length ==>
            var mode := ModeOf(turn.context.tools, calls, toolExecution);
            Batch(turn.results, !turn.moreToolCalls) == BatchOf(turn.context.tools, calls, script.calls, mode))
  }

  /** The context of turn k is what the turn before it left, unless it was replaced, and the model is asked with it. */
  ghost predicate AsksAt(s0: Stand, s: Stand, scripts: seq<TurnScript>, k: nat)
    requires k < |s.turns| && k < |scripts|
  {
    && |s.requests| == |s.turns|
    && s.turns[k].context == (if k == 0 then s0.context
                              else if scripts[k].update.Some? && scripts[k].update.value.context.Some?
                              then scripts[k].update.value.context.value
                              else Left(s.turns[k - 1]))
    && s.requests[k] == Context(s.turns[k].context.messages + s.turns[k].appended, s.turns[k].context.tools)
    && s.turns[k].appended == Declare(s.turns[k].context, s.turns[k].prepared + s.turns[k].taken)
    && s.turns[k].prepared == if k == 0 || scripts[k].update.None? then [] else scripts[k].update.value.messages
  }

  /** All of it, of a run that began at `s0` and stands at `s`, with its trace. */
  ghost predicate Lawful(setup: Setup, s0: Stand, s: Stand, scripts: seq<TurnScript>, trace: seq<Event>,
                         agent: AgentState)
  {
    && Scan(trace) != Bad
    && |s.turns| <= |scripts| && (forall o :: Conserves(s, o, s0.Held(o), scripts))
    && (forall k :: 0 <= k < |s.turns| ==> ServesAt(setup, s0, s.turns, scripts, k))
    && (forall n :: 0 <= n < |trace| && trace[n].TurnEnd? ==> AgreesAt(s, trace, agent, s0.newMessages, n))
    && (forall k :: 0 <= k < |s.requests| ==> DeclaresAt(s.requests, k))
    && (forall k :: 0 <= k < |s.turns| && scripts[k].response.Assistant? ==> EndsAt(s, scripts, k))
    && (forall k :: 0 <= k < |s.turns| && scripts[k].response.Assistant? ==>
          ExecutesAt(setup.toolExecution, s.turns[k], scripts[k]))
    && (forall k :: 0 <= k < |s.turns| ==> AsksAt(s0, s, scripts, k))
  }

  lemma TurnEnds(setup: Setup, s0: Stand, scripts: seq<TurnScript>, k: nat)
    requires Fresh(s0) && PendingSound(setup, s0) && setup.Faithful()
    requires k < |After(setup, s0, scripts).turns| && k < |scripts| && scripts[k].response.Assistant?
    ensures EndsAt(After(setup, s0, scripts), scripts, k)
  {
    RunEndsExactly(setup, s0, scripts, k);
    if k == |After(setup, s0, scripts).turns| - 1 {
      LastIsThen(setup, s0, scripts, k);
    }
  }

  /** A run stands where it stood after its last turn. */
  lemma LastIsThen(setup: Setup, s0: Stand, scripts: seq<TurnScript>, k: nat)
    requires Fresh(s0) && k + 1 == |After(setup, s0, scripts).turns| && k < |scripts|
    ensures After(setup, s0, scripts[..k + 1]) == After(setup, s0, scripts)
  {
    LastOfThen(setup, s0, scripts, k);
    if !After(setup, s0, scripts[..k + 1]).over {
      NoTurnAfter(setup, s0, scripts, k + 1);
    }
  }

  lemma NoTurnAfter(setup: Setup, s0: Stand, scripts: seq<TurnScript>, k: nat)
    requires k <= |scripts| && !After(setup, s0, scripts[..k]).over
    requires |After(setup, s0, scripts[..k]).turns| == |After(setup, s0, scripts).turns|
    ensures After(setup, s0, scripts[..k]) == After(setup, s0, scripts)
  {
    if k < |scripts| {
      OneMoreTurn(setup, s0, scripts, k);
    } else {
      assert scripts[..k] == scripts;
    }
  }

  lemma OneMoreTurn(setup: Setup, s0: Stand, scripts: seq<TurnScript>, k: nat)
    requires k < |scripts| && !After(setup, s0, scripts[..k]).over
    ensures |After(setup, s0, scripts[..k]).turns| < |After(setup, s0, scripts).turns|
  {
    TurnsGrow(setup, s0, scripts, k);
    TurnsPrefix(setup, s0, scripts, k + 1);
  }

  lemma TurnExecutes(setup: Setup, s0: Stand, scripts: seq<TurnScript>, k: nat)
    requires Fresh(s0) && setup.Faithful() && k < |After(setup, s0, scripts).turns|
    requires k < |scripts| && scripts[k].response.Assistant?
    ensures ExecutesAt(setup.toolExecution, After(setup, s0, scripts).turns[k], scripts[k])
  {
    ResultsAreTheBatch(setup, s0, scripts, k);
    if scripts[k].response.stopReason != Error && scripts[k].response.stopReason != Aborted {
      BatchByResponse(After(setup, s0, scripts).turns[k].context.tools, scripts[k], setup.toolExecution);
    }
  }

  lemma TurnAsks(setup: Setup, s0: Stand, scripts: seq<TurnScript>, k: nat)
    requires Fresh(s0) && setup.Faithful() && k < |After(setup, s0, scripts).turns| && k < |scripts|
    ensures AsksAt(s0, After(setup, s0, scripts), scripts, k)
  {
    ContextCarriesOn(setup, s0, scripts, k);
    TurnDeclares(setup, s0, scripts, k);
    TurnIsPrepared(setup, s0, scripts, k);
  }

  lemma TurnEndAgrees(setup: Setup, s0: Stand, scripts: seq<TurnScript>, trace: seq<Event>, n: nat, agent: AgentState)
    requires Fresh(s0) && Scan(trace) != Bad && Endings(trace) == After(setup, s0, scripts).endings
    requires n < |trace| && trace[n].TurnEnd? && agent.pendingToolCalls == {} && agent.streamingMessage.None?
    ensures AgreesAt(After(setup, s0, scripts), trace, agent, s0.newMessages, n)
  {
    TranscriptsAgree(setup, s0, scripts, trace, n, agent);
    EveryResultReported(setup, s0, scripts, trace, n);
  }

  lemma RunIsLawful(setup: Setup, s0: Stand, scripts: seq<TurnScript>, trace: seq<Event>, agent: AgentState)
    requires Fresh(s0) && PendingSound(setup, s0) && setup.Faithful()
    requires Scan(trace) != Bad && Endings(trace) == After(setup, s0, scripts).endings
    requires agent.pendingToolCalls == {} && agent.streamingMessage.None?
    ensures Lawful(setup, s0, After(setup, s0, scripts), scripts, trace, agent)
  {
    var s := After(setup, s0, scripts);
    forall o ensures Conserves(s, o, s0.Held(o), scripts) {
      QueueConserved(setup, s0, scripts, o);
    }
    forall k | 0 <= k < |s.turns| ensures ServesAt(setup, s0, s.turns, scripts, k) {
      FollowUpsComeLast(setup, s0, scripts, k);
    }
    forall n | 0 <= n < |trace| && trace[n].TurnEnd? ensures AgreesAt(s, trace, agent, s0.newMessages, n) {
      TurnEndAgrees(setup, s0, scripts, trace, n, agent);
    }
    forall k | 0 <= k < |s.requests| ensures DeclaresAt(s.requests, k) {
      RequestsDeclareTools(setup, s0, scripts, k);
    }
    TurnCount(setup, s0, scripts);
    forall k | 0 <= k < |s.turns| && scripts[k].response.Assistant?
      ensures EndsAt(s, scripts, k) && ExecutesAt(setup.toolExecution, s.turns[k], scripts[k])
    {
      TurnEnds(setup, s0, scripts, k);
      TurnExecutes(setup, s0, scripts, k);
    }
    forall k | 0 <= k < |s.turns| ensures AsksAt(s0, s, scripts, k) {
      TurnAsks(setup, s0, scripts, k);
    }
  }

  /** What the first poll of a run finds: nothing if it is to be skipped, else all that waits or the oldest message. */
  function FirstPoll(skip: bool, mode: QueueMode, waiting: seq<Message>): seq<Message> {
    if skip || waiting == [] then [] else if mode == All then waiting else [waiting[0]]
  }

  /**
   Where a run begins: with its messages, in its context, with what the first poll found pending; and nothing that
   waited in a queue is lost by that poll.
   */
  predicate BeginsAt(s0: Stand, messages: seq<Message>, context: Context, skip: bool, mode: QueueMode,
                     steering: seq<Message>, followUps: seq<Message>)
  {
    && s0.newMessages == messages && s0.context == context && s0.pending == FirstPoll(skip, mode, steering)
    && s0.Held(Origin.Steering) == steering && s0.Held(Origin.FollowUp) == followUps
  }

  ghost predicate NothingDone(s: Stand) {
    && s.turns == [] && s.requests == [] && s.endings == [] && s.witnessed == [] && s.reported == multiset{}
    && s.pending == [] && s.origin.Steering? && !s.over
  }

  lemma BeginsFresh(setup: Setup, s: Stand)
    requires NothingDone(s)
    ensures Fresh(Poll(setup, s)) && PendingSound(setup, Poll(setup, s))
  {
    PollIsSound(setup, s);
  }

  lemma FirstPollFinds(setup: Setup, s: Stand)
    requires s.pending == []
    ensures BeginsAt(Poll(setup, s), s.newMessages, s.context, s.skipPoll, setup.steeringMode, s.steering, s.followUps)
  {
    var waiting, mode := s.steering, setup.steeringMode;
    assert Drained(waiting, mode) == FirstPoll(false, mode, waiting);
    assert Drained(waiting, mode) + Kept(waiting, mode) == waiting;
  }

  lemma StartsUndone(loop: AgentLoop, initial: seq<Message>)
    requires loop.Unused()
    ensures NothingDone(loop.Beginning(initial))
    ensures initial == [] ==> loop.Beginning(initial) == loop.Standing()
  {
    loop.TracedMeans();
    assert loop.context.messages + [] == loop.context.messages;
  }

  /** A run from prompts, beside an Agent that reduces its events. It begins with the declared prompts. */
  method RunPrompts(loop: AgentLoop, prompts: seq<Message>, scripts: seq<TurnScript>, ghost agent: AgentState)
    returns (complete: bool, ghost s0: Stand)
    requires loop.Unused() && forall k :: 0 <= k < |scripts| ==> scripts[k].Obeys()
    requires agent.pendingToolCalls == {} && agent.streamingMessage.None?
    modifies loop, loop.steering, loop.followUps
    ensures var declared := old(Declare(loop.context, prompts));
      BeginsAt(s0, declared, Context(old(loop.context.messages) + declared, old(loop.context.tools)),
               old(loop.skipInitialSteeringPoll), loop.steering.mode, old(loop.steering.messages),
               old(loop.followUps.messages))
    ensures Lawful(old(loop.SetupOf()), s0, loop.Standing(), scripts, loop.trace, agent)
    ensures complete ==> Scan(loop.trace) == Finished
  {
    ghost var setup, start := loop.SetupOf(), loop.Beginning(Declare(loop.context, prompts));
    StartsUndone(loop, Declare(loop.context, prompts));
    FirstPollFinds(setup, start);
    s0 := Poll(setup, start);
    complete := loop.RunAgentLoop(prompts, scripts);
    MeetsLaws(loop, setup, start, scripts, agent);
  }

  /** A continuation of the transcript: refused if that is empty or ends with an assistant message. */
  method RunTranscript(loop: AgentLoop, scripts: seq<TurnScript>, ghost agent: AgentState)
    returns (complete: Option<bool>, ghost s0: Stand)
    requires loop.Unused() && forall k :: 0 <= k < |scripts| ==> scripts[k].Obeys()
    requires agent.pendingToolCalls == {} && agent.streamingMessage.None?
    modifies loop, loop.steering, loop.followUps
    ensures complete.None?
      <==> old(loop.context.messages == [] || loop.context.messages[|loop.context.messages| - 1].Assistant?)
    ensures BeginsAt(s0, [], old(loop.context), old(loop.skipInitialSteeringPoll), loop.steering.mode,
                     old(loop.steering.messages), old(loop.followUps.messages))
    ensures complete.Some? ==> Lawful(old(loop.SetupOf()), s0, loop.Standing(), scripts, loop.trace, agent)
    ensures complete == Some(true) ==> Scan(loop.trace) == Finished
  {
    ghost var setup, start := loop.SetupOf(), loop.Standing();
    StartsUndone(loop, []);
    FirstPollFinds(setup, start);
    s0 := Poll(setup, start);
    complete := loop.RunAgentLoopContinue(scripts);
    if complete.Some? {
      MeetsLaws(loop, setup, start, scripts, agent);
    }
  }

  /** A loop that stands where the reference run does meets the laws. */
  lemma MeetsLaws(loop: AgentLoop, setup: Setup, start: Stand, scripts: seq<TurnScript>, agent: AgentState)
    requires NothingDone(start) && setup.Faithful() && loop.Agreed()
    requires loop.Standing() == After(setup, Poll(setup, start), scripts) && loop.monitor != Bad
    requires agent.pendingToolCalls == {} && agent.streamingMessage.None?
    ensures Lawful(setup, Poll(setup, start), loop.Standing(), scripts, loop.trace, agent)
    ensures loop.monitor == Scan(loop.trace)
  {
    BeginsFresh(setup, start);
    loop.TracedMeans();
    RunIsLawful(setup, Poll(setup, start), scripts, loop.trace, agent);
  }
}
