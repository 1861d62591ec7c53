/**
 Executing the tool calls of one assistant message (packages/agent/src/agent-loop.ts): what each call comes
 to, for any behaviour of the tool and its hooks, and which calls of the batch are reached.
 */
module ToolBatches {
  import opened Wrappers
  import opened AgentMessages
  import opened AgentTrace

  // ----- What the outside world does about one call ---------------------------------------------

  datatype HookOutcome =
    | NoHook
    | Proceed
    | Block(reason: Option<string>, terminate: bool)
    | HookThrows(message: string)

  datatype Execution = Returns(content: Content, terminate: bool) | Throws(message: string)

  datatype AfterOutcome =
    | NoAfterHook
    | KeepResult
    | Override(content: Option<Content>, isError: Option<bool>, terminate: Option<bool>)
    | AfterThrows(message: string)

  /**
   The answers of one call's oracles: argument preparation and validation, the hooks, the tool itself, and the
   abort signal at each place the loop looks at it.
   */
  datatype CallScript = CallScript(
    argumentError: Option<string>,
    hook: HookOutcome,
    abortedAfterHook: bool,
    abortedAtStart: bool,
    execution: Execution,
    updates: seq<string>,
    after: AfterOutcome,
    abortedAfter: bool)

  datatype Outcome = Outcome(content: Content, isError: bool, terminate: bool)

  function ErrorOutcome(content: Content): Outcome { Outcome(content, true, false) }

  const ABORTED := ErrorOutcome(OperationAborted)

  function GetOr<T>(option: Option<T>, default: T): T {
    if option.Some? then option.value else default
  }

  // ----- One call -------------------------------------------------------------------------------

  function FindTool(tools: seq<AgentTool>, name: string): Option<AgentTool> {
    if tools == [] then None
    else if tools[0].declaration.name == name then Some(tools[0])
    else FindTool(tools[1..], name)
  }

  datatype Preparation = Prepared | Immediate(outcome: Outcome)

  function PrepareToolCall(tools: seq<AgentTool>, call: ToolCall, s: CallScript): Preparation {
    if FindTool(tools, call.name).None? then Immediate(ErrorOutcome(ToolNotFound(call.name)))
    else if s.argumentError.Some? then Immediate(ErrorOutcome(ErrorText(s.argumentError.value)))
    else if s.hook.HookThrows? then Immediate(ErrorOutcome(ErrorText(s.hook.message)))
    else if s.abortedAfterHook then Immediate(ABORTED)
    else
      match s.hook
      case Block(reason, terminate) =>
        var text := if reason.Some? && reason.value != "" then ErrorText(reason.value) else ExecutionBlocked;
        Immediate(ErrorOutcome(text).(terminate := terminate))
      case _ => Prepared
  }

  function ExecutePreparedToolCall(s: CallScript): Outcome {
    match s.execution
    case Returns(content, terminate) => Outcome(content, false, terminate)
    case Throws(message) => ErrorOutcome(ErrorText(message))
  }

  function FinalizeExecutedToolCall(executed: Outcome, s: CallScript): Outcome {
    match s.after
    case Override(content, isError, terminate) =>
      Outcome(GetOr(content, executed.content), GetOr(isError, executed.isError), GetOr(terminate, executed.terminate))
    case AfterThrows(message) => ErrorOutcome(ErrorText(message))
    case _ => executed
  }

  /** What a call comes to; only the parallel executor looks at the signal again before starting a prepared tool. */
  function OutcomeOf(tools: seq<AgentTool>, call: ToolCall, s: CallScript, mode: ExecutionMode): Outcome {
    match PrepareToolCall(tools, call, s)
    case Immediate(outcome) => outcome
    case Prepared =>
      if mode.Parallel? && s.abortedAtStart then ABORTED
      else FinalizeExecutedToolCall(ExecutePreparedToolCall(s), s)
  }

  function ResultOf(call: ToolCall, outcome: Outcome): Message {
    ToolResult(call.id, call.name, outcome.content, outcome.isError)
  }

  // ----- What a call comes to, by its cause -----------------------------------------------------

  /** The first tool of the name is found, and nothing is when there is none. */
  lemma {:induction false} FoundFirst(tools: seq<AgentTool>, name: string)
    ensures FindTool(tools, name).None? <==> forall i :: 0 <= i < |tools| ==> tools[i].declaration.name != name
    ensures forall i: nat :: FirstNamed(tools, name, i) ==> FindTool(tools, name) == Some(tools[i])
  {
    if tools != [] && tools[0].declaration.name != name {
      FoundFirst(tools[1..], name);
      forall i: nat | FirstNamed(tools, name, i) ensures FindTool(tools, name) == Some(tools[i]) {
        assert forall j :: 0 <= j < i ==> tools[1..][j] == tools[j + 1];
        assert FirstNamed(tools[1..], name, i - 1);
      }
    }
  }

  /** There is a tool of the name, and its arguments are valid. */
  predicate Callable(tools: seq<AgentTool>, call: ToolCall, s: CallScript) {
    (exists i :: 0 <= i < |tools| && tools[i].declaration.name == call.name) && s.argumentError.None?
  }

  /**
   What a call comes to by its cause. A call that names no tool, has invalid arguments, is blocked or meets the aborted
   signal is an error, whatever its tool would have done; any other call comes to what its tool returned or threw,
   with what the hook after it overrides.
   */
  lemma OutcomeByCause(tools: seq<AgentTool>, call: ToolCall, s: CallScript, mode: ExecutionMode)
    ensures var o := OutcomeOf(tools, call, s, mode);
      && ((forall i :: 0 <= i < |tools| ==> tools[i].declaration.name != call.name) ==>
            o == Outcome(ToolNotFound(call.name), true, false))
      && ((exists i :: 0 <= i < |tools| && tools[i].declaration.name == call.name) && s.argumentError.Some? ==>
            o == Outcome(ErrorText(s.argumentError.value), true, false))
      && (Callable(tools, call, s) ==>
            match s.hook
            case HookThrows(message) => o == Outcome(ErrorText(message), true, false)
            case Block(reason, terminate) =>
              if s.abortedAfterHook then o == Outcome(OperationAborted, true, false)
              else
                && o.isError && o.terminate == terminate
                && (reason.Some? && reason.value != "" ==> o.content == ErrorText(reason.value))
                && (reason.None? || reason.value == "" ==> o.content == ExecutionBlocked)
            case _ =>
              if s.abortedAfterHook || (mode == Parallel && s.abortedAtStart)
              then o == Outcome(OperationAborted, true, false)
              else AsExecuted(s.execution, s.after, o))
  {
    FoundFirst(tools, call.name);
  }

  /** What a tool returned or threw, but for what the hook after it overrides. */
  predicate AsExecuted(execution: Execution, after: AfterOutcome, o: Outcome) {
    if after.AfterThrows? then o == Outcome(ErrorText(after.message), true, false)
    else
      && (after.Override? && after.content.Some? ==> o.content == after.content.value)
      && (after.Override? && after.isError.Some? ==> o.isError == after.isError.value)
      && (after.Override? && after.terminate.Some? ==> o.terminate == after.terminate.value)
      && (!after.Override? || after.content.None? ==>
            o.content == match execution case Returns(content, _) => content case Throws(message) => ErrorText(message))
      && (!after.Override? || after.isError.None? ==> o.isError == execution.Throws?)
      && (!after.Override? || after.terminate.None? ==> o.terminate == (execution.Returns? && execution.terminate))
  }

  /** A tool whose call is refused is not run: nothing it would have done shows. */
  lemma RefusedRunsNothing(tools: seq<AgentTool>, call: ToolCall, s: CallScript, mode: ExecutionMode,
                           execution: Execution, after: AfterOutcome)
    requires !Callable(tools, call, s) || s.hook.Block? || s.hook.HookThrows? || s.abortedAfterHook
             || (mode == Parallel && s.abortedAtStart)
    ensures OutcomeOf(tools, call, s.(execution := execution, after := after), mode) == OutcomeOf(tools, call, s, mode)
    ensures OutcomeOf(tools, call, s, mode).isError
  {
    FoundFirst(tools, call.name);
  }

  // ----- The batch ------------------------------------------------------------------------------

  /** How many calls the executors reach: all of them, or up to the first after which the signal is aborted. */
  function Reached(scripts: nat -> CallScript, from: nat, n: nat): (k: nat)
    requires from <= n
    ensures from <= k <= n
    ensures forall i :: from <= i < k - 1 ==> !scripts(i).abortedAfter
    ensures k < n ==> from < k && scripts(k - 1).abortedAfter
    decreases n - from
  {
    if from == n then n
    else if scripts(from).abortedAfter then from + 1
    else Reached(scripts, from + 1, n)
  }

  datatype Batch = Batch(messages: seq<Message>, terminate: bool)

  /** The batch every executor must produce: one result per reached call, in source order. */
  function BatchOf(tools: seq<AgentTool>, calls: seq<ToolCall>, scripts: nat -> CallScript,
                   mode: ExecutionMode): Batch
  {
    BatchUpTo(tools, calls, scripts, mode, Reached(scripts, 0, |calls|))
  }

  function BatchUpTo(tools: seq<AgentTool>, calls: seq<ToolCall>, scripts: nat -> CallScript, mode: ExecutionMode,
                     k: nat): Batch
    requires k <= |calls|
  {
    Batch(seq(k, i requires 0 <= i < k => ResultOf(calls[i], OutcomeOf(tools, calls[i], scripts(i), mode))),
          k > 0 && forall i :: 0 <= i < k ==> OutcomeOf(tools, calls[i], scripts(i), mode).terminate)
  }

  predicate ShouldTerminateToolBatch(finalized: seq<Outcome>) {
    |finalized| > 0 && forall j :: 0 <= j < |finalized| ==> finalized[j].terminate
  }

  /** The outcomes and result messages of the first k calls. */
  ghost predicate Produced(tools: seq<AgentTool>, calls: seq<ToolCall>, scripts: nat -> CallScript, mode: ExecutionMode,
                           finalized: seq<Outcome>, messages: seq<Message>, k: nat)
  {
    && |finalized| == |messages| == k <= |calls|
    && forall j :: 0 <= j < k ==>
         && finalized[j] == OutcomeOf(tools, calls[j], scripts(j), mode)
         && messages[j] == ResultOf(calls[j], finalized[j])
  }

  lemma ProducedNext(tools: seq<AgentTool>, calls: seq<ToolCall>, scripts: nat -> CallScript, mode: ExecutionMode,
                     finalized: seq<Outcome>, messages: seq<Message>, k: nat)
    requires Produced(tools, calls, scripts, mode, finalized, messages, k) && k < |calls|
    ensures var outcome := OutcomeOf(tools, calls[k], scripts(k), mode);
            Produced(tools, calls, scripts, mode, finalized + [outcome], messages + [ResultOf(calls[k], outcome)],
                     k + 1)
  {
  }

  lemma BatchProduced(tools: seq<AgentTool>, calls: seq<ToolCall>, scripts: nat -> CallScript, mode: ExecutionMode,
                      finalized: seq<Outcome>, messages: seq<Message>)
    requires Produced(tools, calls, scripts, mode, finalized, messages, Reached(scripts, 0, |calls|))
    ensures Batch(messages, ShouldTerminateToolBatch(finalized)) == BatchOf(tools, calls, scripts, mode)
  {
    assert messages == BatchOf(tools, calls, scripts, mode).messages;
    assert forall j :: 0 <= j < |finalized| ==> finalized[j] == OutcomeOf(tools, calls[j], scripts(j), mode);
  }

  /** The results answer a prefix of the calls in source order, and all of them unless the signal was aborted. */
  lemma ResultsAnswerCalls(tools: seq<AgentTool>, calls: seq<ToolCall>, scripts: nat -> CallScript, mode: ExecutionMode)
    ensures var messages := BatchOf(tools, calls, scripts, mode).messages;
            && |messages| <= |calls|
            && (forall i :: 0 <= i < |messages| ==>
                  messages[i].ToolResult? && messages[i].callId == calls[i].id && messages[i].toolName == calls[i].name)
            && (calls != [] ==> messages != [])
            && (|messages| < |calls| ==> scripts(|messages| - 1).abortedAfter)
            && ((forall i :: 0 <= i < |calls| ==> !scripts(i).abortedAfter) ==> |messages| == |calls|)
  {
  }

  ghost predicate NeverAborted(scripts: nat -> CallScript, n: nat) {
    forall i :: 0 <= i < n ==> !scripts(i).abortedAfterHook && !scripts(i).abortedAtStart && !scripts(i).abortedAfter
  }

  /**
   Result i carries what its own call came to. A batch lets the agent stop only if there is a result and every call that
   was reached asked for it.
   */
  lemma ResultsCarryOutcomes(tools: seq<AgentTool>, calls: seq<ToolCall>, scripts: nat -> CallScript,
                             mode: ExecutionMode)
    ensures var batch := BatchOf(tools, calls, scripts, mode);
      && |batch.messages| <= |calls|
      && (forall i :: 0 <= i < |batch.messages| ==>
            var o := OutcomeOf(tools, calls[i], scripts(i), mode);
            batch.messages[i] == ToolResult(calls[i].id, calls[i].name, o.content, o.isError))
      && (batch.terminate <==>
            (batch.messages != []
             && forall i :: 0 <= i < |batch.messages| ==> OutcomeOf(tools, calls[i], scripts(i), mode).terminate))
  {
  }

  /** Without an abort the two executors produce the same results and the same decision to terminate. */
  lemma ModesAgree(tools: seq<AgentTool>, calls: seq<ToolCall>, scripts: nat -> CallScript)
    requires NeverAborted(scripts, |calls|)
    ensures BatchOf(tools, calls, scripts, Parallel) == BatchOf(tools, calls, scripts, Sequential)
  {
    var k := Reached(scripts, 0, |calls|);
    assert forall i :: 0 <= i < k ==>
      OutcomeOf(tools, calls[i], scripts(i), Parallel) == OutcomeOf(tools, calls[i], scripts(i), Sequential);
    assert BatchOf(tools, calls, scripts, Parallel).messages == BatchOf(tools, calls, scripts, Sequential).messages;
  }

  /**
   The executors differ exactly on a prepared call whose start meets the aborted signal and whose own outcome is not
   that error.
   */
  lemma ModesDifferOnAbortedStart(tools: seq<AgentTool>, call: ToolCall, s: CallScript)
    ensures OutcomeOf(tools, call, s, Parallel) != OutcomeOf(tools, call, s, Sequential)
       <==> PrepareToolCall(tools, call, s).Prepared? && s.abortedAtStart
            && FinalizeExecutedToolCall(ExecutePreparedToolCall(s), s) != ABORTED
  {
  }

  /** A batch runs sequentially when the loop is configured so or any called tool asks for it. */
  function ModeOf(tools: seq<AgentTool>, calls: seq<ToolCall>, configured: ExecutionMode): ExecutionMode {
    if configured.Sequential? || exists i :: 0 <= i < |calls| && WantsSequential(tools, calls[i]) then Sequential
    else Parallel
  }

  /** A batch runs sequentially exactly if that is configured or the tool of some call asks for it. */
  lemma ModeByCause(tools: seq<AgentTool>, calls: seq<ToolCall>, configured: ExecutionMode)
    ensures ModeOf(tools, calls, configured) == Sequential <==>
      (configured == Sequential || exists i, j: nat :: 0 <= i < |calls| && AsksAt(tools, calls[i], j))
  {
    forall i | 0 <= i < |calls|
      ensures WantsSequential(tools, calls[i]) <==> exists j: nat :: AsksAt(tools, calls[i], j)
    {
      WantsByCause(tools, calls[i]);
    }
  }

  lemma WantsByCause(tools: seq<AgentTool>, call: ToolCall)
    ensures WantsSequential(tools, call) <==> exists j: nat :: AsksAt(tools, call, j)
  {
    FoundFirst(tools, call.name);
    FoundSomewhere(tools, call.name);
    if FindTool(tools, call.name).Some? {
      var j: nat :| FirstNamed(tools, call.name, j) && FindTool(tools, call.name) == Some(tools[j]);
      assert WantsSequential(tools, call) ==> AsksAt(tools, call, j);
    }
  }

  /** Tool j is the first of its name. */
  predicate FirstNamed(tools: seq<AgentTool>, name: string, j: nat) {
    j < |tools| && tools[j].declaration.name == name && forall k :: 0 <= k < j ==> tools[k].declaration.name != name
  }

  /** Tool j is the one a call names, and asks to run alone. */
  predicate AsksAt(tools: seq<AgentTool>, call: ToolCall, j: nat) {
    FirstNamed(tools, call.name, j) && tools[j].executionMode == Some(Sequential)
  }

  lemma {:induction false} FoundSomewhere(tools: seq<AgentTool>, name: string)
    ensures FindTool(tools, name).Some? ==>
      exists j: nat :: FirstNamed(tools, name, j) && FindTool(tools, name) == Some(tools[j])
  {
    if tools != [] {
      if tools[0].declaration.name == name {
        assert FirstNamed(tools, name, 0);
      } else if FindTool(tools, name).Some? {
        FoundSomewhere(tools[1..], name);
        var j: nat :| FirstNamed(tools[1..], name, j) && FindTool(tools[1..], name) == Some(tools[1..][j]);
        assert forall k :: 1 <= k <= j ==> tools[k] == tools[1..][k - 1];
        assert FirstNamed(tools, name, j + 1);
      }
    }
  }

  predicate WantsSequential(tools: seq<AgentTool>, call: ToolCall) {
    var tool := FindTool(tools, call.name);
    tool.Some? && tool.value.executionMode == Some(Sequential)
  }

  // ----- Truncated messages ---------------------------------------------------------------------

  function TruncatedOutcome(call: ToolCall): Outcome {
    ErrorOutcome(ArgumentsTruncated(call.name))
  }

  function TruncatedBatch(calls: seq<ToolCall>): Batch {
    Batch(seq(|calls|, i requires 0 <= i < |calls| => ResultOf(calls[i], TruncatedOutcome(calls[i]))), false)
  }

  // ----- The slots of a parallel batch ----------------------------------------------------------

  /** One slot per started call: what the call came to, or nothing while it runs. */
  type Slots = seq<Option<Outcome>>

  /** Every filled slot holds its own call's outcome; a call with an empty slot was prepared. */
  ghost predicate SlotsHold(tools: seq<AgentTool>, calls: seq<ToolCall>, scripts: nat -> CallScript, slots: Slots) {
    && |slots| <= |calls|
    && forall i :: 0 <= i < |slots| ==>
         if slots[i].Some? then slots[i].value == OutcomeOf(tools, calls[i], scripts(i), ExecutionMode.Parallel)
         else PrepareToolCall(tools, calls[i], scripts(i)).Prepared?
  }

  lemma SlotHolds(tools: seq<AgentTool>, calls: seq<ToolCall>, scripts: nat -> CallScript, slots: Slots,
                  slot: Option<Outcome>)
    requires |slots| < |calls| && SlotsHold(tools, calls, scripts, slots)
    requires if slot.Some? then slot.value == OutcomeOf(tools, calls[|slots|], scripts(|slots|), ExecutionMode.Parallel)
             else PrepareToolCall(tools, calls[|slots|], scripts(|slots|)).Prepared?
    ensures SlotsHold(tools, calls, scripts, slots + [slot])
  {
  }

  /** What `Promise.all` gathers. */
  function Gathered(slots: Slots): seq<Outcome>
    requires forall i :: 0 <= i < |slots| ==> slots[i].Some?
  {
    seq(|slots|, i requires 0 <= i < |slots| => slots[i].value)
  }

  lemma GatheredIsProduced(tools: seq<AgentTool>, calls: seq<ToolCall>, scripts: nat -> CallScript, slots: Slots,
                           messages: seq<Message>)
    requires SlotsHold(tools, calls, scripts, slots) && forall i :: 0 <= i < |slots| ==> slots[i].Some?
    requires messages == ResultsOf(calls, Gathered(slots))
    ensures Produced(tools, calls, scripts, ExecutionMode.Parallel, Gathered(slots), messages, |slots|)
  {
  }

  function ResultsOf(calls: seq<ToolCall>, outcomes: seq<Outcome>): seq<Message>
    requires |outcomes| <= |calls|
  {
    seq(|outcomes|, i requires 0 <= i < |outcomes| => ResultOf(calls[i], outcomes[i]))
  }

  /** The calls that still run, in source order. */
  function Unsettled(slots: Slots): (open: seq<nat>)
    ensures forall i :: 0 <= i < |open| ==> open[i] < |slots| && slots[open[i]].None?
    ensures open == [] ==> forall i :: 0 <= i < |slots| ==> slots[i].Some?
  {
    if slots == [] then []
    else
      var last := |slots| - 1;
      Unsettled(slots[..last]) + if slots[last].None? then [last] else []
  }

  function OpenOf(call: ToolCall, slot: Option<Outcome>): multiset<string> {
    if slot.None? then multiset{call.id} else multiset{}
  }

  /** The ids of the calls among the first n that still run. */
  function OpenUpTo(calls: seq<ToolCall>, slots: Slots, n: nat): multiset<string>
    requires n <= |slots| <= |calls|
  {
    if n == 0 then multiset{}
    else OpenUpTo(calls, slots, n - 1) + OpenOf(calls[n - 1], slots[n - 1])
  }

  function OpenBag(calls: seq<ToolCall>, slots: Slots): multiset<string>
    requires |slots| <= |calls|
  {
    OpenUpTo(calls, slots, |slots|)
  }

  function ReportOf(call: ToolCall, outcome: Outcome): Report {
    Report(call.id, outcome.content, outcome.isError)
  }

  function OwedOf(call: ToolCall, slot: Option<Outcome>): multiset<Report> {
    if slot.Some? then multiset{ReportOf(call, slot.value)} else multiset{}
  }

  /** What those of the first n calls have reported that have ended. */
  function OwedUpTo(calls: seq<ToolCall>, slots: Slots, n: nat): multiset<Report>
    requires n <= |slots| <= |calls|
  {
    if n == 0 then multiset{}
    else OwedUpTo(calls, slots, n - 1) + OwedOf(calls[n - 1], slots[n - 1])
  }

  function OwedBag(calls: seq<ToolCall>, slots: Slots): multiset<Report>
    requires |slots| <= |calls|
  {
    OwedUpTo(calls, slots, |slots|)
  }

  lemma {:induction false} SameSlots(calls: seq<ToolCall>, slots: Slots, slots': Slots, n: nat)
    requires n <= |slots| <= |calls| && n <= |slots'| <= |calls|
    requires forall i :: 0 <= i < n ==> slots'[i] == slots[i]
    ensures OpenUpTo(calls, slots', n) == OpenUpTo(calls, slots, n)
    ensures OwedUpTo(calls, slots', n) == OwedUpTo(calls, slots, n)
  {
    if n > 0 {
      SameSlots(calls, slots, slots', n - 1);
    }
  }

  lemma SlotAdded(calls: seq<ToolCall>, slots: Slots, slot: Option<Outcome>)
    requires |slots| < |calls|
    ensures OpenBag(calls, slots + [slot])
         == OpenBag(calls, slots) + OpenOf(calls[|slots|], slot)
    ensures OwedBag(calls, slots + [slot])
         == OwedBag(calls, slots) + OwedOf(calls[|slots|], slot)
  {
    var slots' := slots + [slot];
    SameSlots(calls, slots, slots', |slots|);
    LastSlot(calls, slots', |slots|);
  }

  lemma LastSlot(calls: seq<ToolCall>, slots: Slots, n: nat)
    requires n < |slots| <= |calls|
    ensures OpenUpTo(calls, slots, n + 1) == OpenUpTo(calls, slots, n) + OpenOf(calls[n], slots[n])
    ensures OwedUpTo(calls, slots, n + 1) == OwedUpTo(calls, slots, n) + OwedOf(calls[n], slots[n])
  {
  }

  lemma AddedLater<T>(a: multiset<T>, b: multiset<T>, c: multiset<T>)
    ensures a + b + c == a + c + b
  {
  }

  lemma {:induction false} SlotCloses(calls: seq<ToolCall>, slots: Slots, slots': Slots, at: nat, n: nat)
    requires at < n <= |slots| == |slots'| <= |calls| && slots[at].None? && slots'[at].Some?
    requires forall i :: 0 <= i < |slots| && i != at ==> slots'[i] == slots[i]
    ensures OpenUpTo(calls, slots, n) == OpenUpTo(calls, slots', n) + multiset{calls[at].id}
  {
    if at == n - 1 {
      SameSlots(calls, slots, slots', at);
      assert OpenUpTo(calls, slots', n) == OpenUpTo(calls, slots, at) + multiset{};
    } else {
      SlotCloses(calls, slots, slots', at, n - 1);
      AddedLater(OpenUpTo(calls, slots', n - 1), multiset{calls[at].id}, OpenOf(calls[n - 1], slots[n - 1]));
    }
  }

  lemma {:induction false} SlotOwes(calls: seq<ToolCall>, slots: Slots, slots': Slots, at: nat, n: nat)
    requires at < n <= |slots| == |slots'| <= |calls| && slots[at].None? && slots'[at].Some?
    requires forall i :: 0 <= i < |slots| && i != at ==> slots'[i] == slots[i]
    ensures OwedUpTo(calls, slots', n) == OwedUpTo(calls, slots, n) + multiset{ReportOf(calls[at], slots'[at].value)}
  {
    if at == n - 1 {
      SameSlots(calls, slots, slots', at);
      assert OwedUpTo(calls, slots, n) == OwedUpTo(calls, slots, at) + multiset{};
    } else {
      SlotOwes(calls, slots, slots', at, n - 1);
      AddedLater(OwedUpTo(calls, slots, n - 1), multiset{ReportOf(calls[at], slots'[at].value)},
                 OwedOf(calls[n - 1], slots[n - 1]));
    }
  }

  lemma {:induction false} SlotSettles(calls: seq<ToolCall>, slots: Slots, at: nat, outcome: Outcome)
    requires |slots| <= |calls| && at < |slots| && slots[at].None?
    ensures |Unsettled(slots[at := Some(outcome)])| == |Unsettled(slots)| - 1
  {
    var last := |slots| - 1;
    var slots' := slots[at := Some(outcome)];
    if at == last {
      assert slots'[..last] == slots[..last];
    } else {
      assert slots'[..last] == slots[..last][at := Some(outcome)];
      SlotSettles(calls, slots[..last], at, outcome);
    }
  }

  /** Filling a slot moves its call from the open ones to the owed ones. */
  lemma SlotFilled(calls: seq<ToolCall>, slots: Slots, at: nat, outcome: Outcome)
    requires |slots| <= |calls| && at < |slots| && slots[at].None?
    ensures var slots' := slots[at := Some(outcome)];
      && calls[at].id in OpenBag(calls, slots)
      && OpenBag(calls, slots') == OpenBag(calls, slots) - multiset{calls[at].id}
      && OwedBag(calls, slots') == OwedBag(calls, slots) + multiset{ReportOf(calls[at], outcome)}
      && |Unsettled(slots')| == |Unsettled(slots)| - 1
  {
    SlotCloses(calls, slots, slots[at := Some(outcome)], at, |slots|);
    SlotOwes(calls, slots, slots[at := Some(outcome)], at, |slots|);
    SlotSettles(calls, slots, at, outcome);
  }

  function ReportsOf(calls: seq<ToolCall>, outcomes: seq<Outcome>): seq<Report>
    requires |outcomes| <= |calls|
  {
    seq(|outcomes|, i requires 0 <= i < |outcomes| => ReportOf(calls[i], outcomes[i]))
  }

  lemma {:induction false} AnswersOfAll(results: seq<Message>, reports: seq<Report>)
    requires |results| == |reports|
    requires forall i :: 0 <= i < |results| ==> Repeated(results[i]) == multiset{reports[i]}
    ensures AnswersOf(results) == multiset(reports)
  {
    if results != [] {
      var m := |results| - 1;
      AnswersOfAll(results[..m], reports[..m]);
      AnswersLast(results);
      ReportsLast(reports);
    }
  }

  lemma AnswersLast(results: seq<Message>)
    requires results != []
    ensures AnswersOf(results) == AnswersOf(results[..|results| - 1]) + Repeated(results[|results| - 1])
  {
  }

  lemma ReportsLast(reports: seq<Report>)
    requires reports != []
    ensures multiset(reports) == multiset(reports[..|reports| - 1]) + multiset{reports[|reports| - 1]}
  {
    assert reports == reports[..|reports| - 1] + [reports[|reports| - 1]];
  }

  /** The result messages of a batch repeat what the ends of its calls report. */
  lemma AnswersOfResults(calls: seq<ToolCall>, outcomes: seq<Outcome>)
    requires |outcomes| <= |calls|
    ensures AnswersOf(ResultsOf(calls, outcomes)) == multiset(ReportsOf(calls, outcomes))
  {
    var results, reports := ResultsOf(calls, outcomes), ReportsOf(calls, outcomes);
    AnswersOfAll(results, reports);
  }

  lemma {:induction false} NoneOpen(calls: seq<ToolCall>, slots: Slots, n: nat)
    requires n <= |slots| <= |calls| && forall j :: 0 <= j < |slots| ==> slots[j].Some?
    ensures OpenUpTo(calls, slots, n) == multiset{}
  {
    if n > 0 {
      NoneOpen(calls, slots, n - 1);
    }
  }

  lemma {:induction false} AllOwed(calls: seq<ToolCall>, slots: Slots, reports: seq<Report>, n: nat)
    requires n <= |slots| <= |calls| && forall j :: 0 <= j < |slots| ==> slots[j].Some?
    requires reports == ReportsOf(calls, Gathered(slots))
    ensures OwedUpTo(calls, slots, n) == multiset(reports[..n])
  {
    if n > 0 {
      AllOwed(calls, slots, reports, n - 1);
      assert reports[..n] == reports[..n - 1] + [reports[n - 1]];
      assert OwedOf(calls[n - 1], slots[n - 1]) == multiset{reports[n - 1]};
    }
  }

  /** Once every slot is filled nothing is open, and what is owed is one report per call. */
  lemma AllFilled(calls: seq<ToolCall>, slots: Slots)
    requires |slots| <= |calls| && forall j :: 0 <= j < |slots| ==> slots[j].Some?
    ensures OpenBag(calls, slots) == multiset{}
    ensures OwedBag(calls, slots) == multiset(ReportsOf(calls, Gathered(slots)))
  {
    NoneOpen(calls, slots, |slots|);
    AllOwed(calls, slots, ReportsOf(calls, Gathered(slots)), |slots|);
    assert ReportsOf(calls, Gathered(slots))[..|slots|] == ReportsOf(calls, Gathered(slots));
  }
}
