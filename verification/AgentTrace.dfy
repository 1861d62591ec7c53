/**
 What a run may emit, and what the Agent makes of it: a monitor for the event grammar, and the reducer
 `processEvents` of packages/agent/src/agent.ts.
 */
module AgentTrace {
  import opened Wrappers
  import opened AgentMessages

  // ----- The event grammar ----------------------------------------------------------------------

  /**
   The state of a monitor that reads a run's events. `open` holds the ids of tool calls that have started and
   not ended, `owed` what the calls that have ended reported and no result message has repeated yet. A turn may end only
   when nothing is open and every report was repeated.
   */
  /** What the end of a call reports: its id, its result and whether that is an error. */
  datatype Report = Report(id: string, result: Content, isError: bool)

  datatype Monitor =
    | Idle
    | Between(turns: nat)
    | InTurn(turns: nat, streaming: bool, open: multiset<string>, owed: multiset<Report>)
    | Finished
    | Bad

  /** The report a result message repeats. */
  function Repeated(message: Message): multiset<Report> {
    if message.ToolResult? then multiset{Report(message.callId, message.result, message.isError)} else multiset{}
  }

  function Next(m: Monitor, e: Event): Monitor {
    match (m, e)
    case (Idle, AgentStart) => Between(0)
    case (Between(n), TurnStart) => InTurn(n + 1, false, multiset{}, multiset{})
    case (Between(n), AgentEnd(_)) => if n > 0 then Finished else Bad
    case (InTurn(n, false, open, owed), MessageStart(message)) =>
      if message.ToolResult? && message.callId in open then Bad else InTurn(n, true, open, owed)
    case (InTurn(n, true, open, owed), MessageUpdate(_)) => m
    case (InTurn(n, true, open, owed), MessageEnd(message)) =>
      InTurn(n, false, open, owed - Repeated(message))
    case (InTurn(n, false, open, owed), ToolBatchStart(_)) => m
    case (InTurn(n, false, open, owed), ToolStart(call)) => InTurn(n, false, open + multiset{call.id}, owed)
    case (InTurn(n, false, open, owed), ToolUpdate(call, _)) => if call.id in open then m else Bad
    case (InTurn(n, false, open, owed), ToolEnd(call, result, isError)) =>
      if call.id in open
      then InTurn(n, false, open - multiset{call.id}, owed + multiset{Report(call.id, result, isError)})
      else Bad
    case (InTurn(n, false, open, owed), TurnEnd(_, _)) =>
      if open == multiset{} && owed == multiset{} then Between(n) else Bad
    case _ => Bad
  }

  function Scan(trace: seq<Event>): Monitor {
    if trace == [] then Idle else Next(Scan(trace[..|trace| - 1]), trace[|trace| - 1])
  }

  /** The messages completed by a trace. */
  function Ended(trace: seq<Event>): seq<Message> {
    if trace == [] then []
    else
      var last := trace[|trace| - 1];
      Ended(trace[..|trace| - 1]) + if last.MessageEnd? then [last.message] else []
  }

  /** One `turn_end`: what it carries, and by then the messages completed and what the ends of calls reported. */
  datatype Ending = Ending(message: Message, toolResults: seq<Message>, completed: seq<Message>,
                           reported: multiset<Report>)

  function EndingOf(e: Event, before: seq<Event>): Ending
    requires e.TurnEnd?
  {
    Ending(e.message, e.toolResults, Ended(before), AllReported(before))
  }

  /** Every `turn_end` of a trace, in order. */
  function Endings(trace: seq<Event>): seq<Ending> {
    if trace == [] then []
    else
      var last := trace[|trace| - 1];
      Endings(trace[..|trace| - 1]) + if last.TurnEnd? then [EndingOf(last, trace[..|trace| - 1])] else []
  }

  lemma {:induction false} EndingsPrefix(trace: seq<Event>, n: nat)
    requires n <= |trace|
    ensures Endings(trace[..n]) <= Endings(trace)
  {
    if n < |trace| {
      EndingsPrefix(trace[..|trace| - 1], n);
      assert trace[..|trace| - 1][..n] == trace[..n];
    } else {
      assert trace[..n] == trace;
    }
  }

  /** A `turn_end` completes and reports nothing itself. */
  lemma EndingHere(trace: seq<Event>, e: Event)
    requires e.TurnEnd?
    ensures Endings(trace + [e])
         == Endings(trace) + [Ending(e.message, e.toolResults, Ended(trace + [e]), AllReported(trace + [e]))]
  {
    assert (trace + [e])[..|trace|] == trace;
    assert Ended(trace) + [] == Ended(trace) && AllReported(trace) + multiset{} == AllReported(trace);
  }

  lemma LastOfPrefix(before: seq<Ending>, upTo: seq<Ending>, all: seq<Ending>, last: Ending)
    requires upTo == before + [last] && upTo <= all
    ensures EndsWith(all, before, upTo, last)
  {
    assert all[|before|] == upTo[|before|];
  }

  lemma EndingsUpTo(trace: seq<Event>, n: nat)
    requires n < |trace| && trace[n].TurnEnd?
    ensures Endings(trace[..n + 1]) == Endings(trace[..n])
      + [Ending(trace[n].message, trace[n].toolResults, Ended(trace[..n + 1]), AllReported(trace[..n + 1]))]
  {
    assert trace[..n + 1] == trace[..n] + [trace[n]];
    EndingHere(trace[..n], trace[n]);
  }

  /** Ending k of a trace, between the endings before it and those up to it. */
  predicate EndsWith(all: seq<Ending>, before: seq<Ending>, upTo: seq<Ending>, last: Ending) {
    |before| < |all| && upTo == all[..|before| + 1] && all[|before|] == last
  }

  /** The endings of a trace are exactly its `turn_end` events. */
  lemma EndingAt(trace: seq<Event>, n: nat)
    requires n < |trace| && trace[n].TurnEnd?
    ensures EndsWith(Endings(trace), Endings(trace[..n]), Endings(trace[..n + 1]),
                     Ending(trace[n].message, trace[n].toolResults, Ended(trace[..n + 1]), AllReported(trace[..n + 1])))
  {
    EndingsUpTo(trace, n);
    EndingsPrefix(trace, n + 1);
    LastOfPrefix(Endings(trace[..n]), Endings(trace[..n + 1]), Endings(trace),
                 Ending(trace[n].message, trace[n].toolResults, Ended(trace[..n + 1]), AllReported(trace[..n + 1])));
  }

  /** Once something is out of order, it stays so: a good trace has only good prefixes. */
  lemma {:induction false} GoodPrefix(trace: seq<Event>, k: nat)
    requires k <= |trace| && Scan(trace) != Bad
    ensures Scan(trace[..k]) != Bad
  {
    if k < |trace| {
      GoodPrefix(trace[..|trace| - 1], k);
      assert trace[..|trace| - 1][..k] == trace[..k];
    } else {
      assert trace[..k] == trace;
    }
  }

  function Starts(e: Event, id: string): nat {
    if e.ToolStart? && e.call.id == id then 1 else 0
  }

  function Ends(e: Event, id: string): nat {
    if e.ToolEnd? && e.call.id == id then 1 else 0
  }

  function CountStarts(trace: seq<Event>, id: string): nat {
    if trace == [] then 0 else CountStarts(trace[..|trace| - 1], id) + Starts(trace[|trace| - 1], id)
  }

  function CountEnds(trace: seq<Event>, id: string): nat {
    if trace == [] then 0 else CountEnds(trace[..|trace| - 1], id) + Ends(trace[|trace| - 1], id)
  }

  function OpenCalls(m: Monitor): multiset<string> {
    if m.InTurn? then m.open else multiset{}
  }

  /** What an event makes of the open calls. */
  predicate OpensNext(open: multiset<string>, e: Event, open': multiset<string>) {
    match e
    case ToolStart(call) => open' == open + multiset{call.id}
    case ToolEnd(call, _, _) => call.id in open && open' == open - multiset{call.id}
    case _ => open' == open
  }

  lemma NextOpen(m: Monitor, e: Event)
    requires Next(m, e) != Bad
    ensures m != Bad && OpensNext(OpenCalls(m), e, OpenCalls(Next(m, e)))
  {
    match m {
      case InTurn(_, _, _, _) =>
      case _ =>
    }
  }

  lemma OpensCounted(open: multiset<string>, e: Event, open': multiset<string>, id: string)
    requires OpensNext(open, e, open')
    ensures open[id] + Starts(e, id) == open'[id] + Ends(e, id)
  {
    match e {
      case ToolStart(_) =>
      case ToolEnd(_, _, _) =>
      case _ =>
    }
  }

  lemma NextOpens(m: Monitor, e: Event, id: string)
    requires Next(m, e) != Bad
    ensures m != Bad && OpenCalls(m)[id] + Starts(e, id) == OpenCalls(Next(m, e))[id] + Ends(e, id)
  {
    NextOpen(m, e);
    OpensCounted(OpenCalls(m), e, OpenCalls(Next(m, e)), id);
  }

  /** In a good trace ends never outnumber starts, and at every turn boundary each started call has ended. */
  lemma {:induction false} StartsMatchEnds(trace: seq<Event>, id: string)
    requires Scan(trace) != Bad
    ensures CountStarts(trace, id) == CountEnds(trace, id) + OpenCalls(Scan(trace))[id]
    ensures !Scan(trace).InTurn? ==> CountStarts(trace, id) == CountEnds(trace, id)
  {
    if trace != [] {
      NextOpens(Scan(trace[..|trace| - 1]), trace[|trace| - 1], id);
      StartsMatchEnds(trace[..|trace| - 1], id);
    }
  }

  function Reported(e: Event): multiset<Report> {
    if e.ToolEnd? then multiset{Report(e.call.id, e.result, e.isError)} else multiset{}
  }

  function RepeatedBy(e: Event): multiset<Report> {
    if e.MessageEnd? then Repeated(e.message) else multiset{}
  }

  function AllReported(trace: seq<Event>): multiset<Report> {
    if trace == [] then multiset{} else AllReported(trace[..|trace| - 1]) + Reported(trace[|trace| - 1])
  }

  function AllRepeated(trace: seq<Event>): multiset<Report> {
    if trace == [] then multiset{} else AllRepeated(trace[..|trace| - 1]) + RepeatedBy(trace[|trace| - 1])
  }

  /** What result messages repeat. */
  function AnswersOf(messages: seq<Message>): multiset<Report> {
    if messages == [] then multiset{} else AnswersOf(messages[..|messages| - 1]) + Repeated(messages[|messages| - 1])
  }

  lemma AnswersMore(messages: seq<Message>, message: Message)
    ensures AnswersOf(messages + [message]) == AnswersOf(messages) + Repeated(message)
  {
    assert (messages + [message])[..|messages|] == messages;
  }

  function Owed(m: Monitor): multiset<Report> {
    if m.InTurn? then m.owed else multiset{}
  }

  /** What an event makes of what is owed. */
  predicate OwesNext(owed: multiset<Report>, e: Event, owed': multiset<Report>) {
    match e
    case MessageEnd(message) => owed' == owed - Repeated(message)
    case ToolEnd(call, result, isError) => owed' == owed + multiset{Report(call.id, result, isError)}
    case _ => owed' == owed
  }

  lemma NextOwed(m: Monitor, e: Event)
    requires Next(m, e) != Bad
    ensures m != Bad && OwesNext(Owed(m), e, Owed(Next(m, e)))
  {
    match m {
      case InTurn(_, _, _, _) =>
      case _ =>
    }
  }

  lemma OwesEnough(owed: multiset<Report>, e: Event, owed': multiset<Report>, r: Report)
    requires OwesNext(owed, e, owed')
    ensures owed[r] + Reported(e)[r] <= owed'[r] + RepeatedBy(e)[r]
  {
    match e {
      case MessageEnd(message) =>
      case ToolEnd(call, result, isError) =>
      case _ =>
    }
  }

  lemma NextOwes(m: Monitor, e: Event, r: Report)
    requires Next(m, e) != Bad
    ensures m != Bad && Owed(m)[r] + Reported(e)[r] <= Owed(Next(m, e))[r] + RepeatedBy(e)[r]
  {
    NextOwed(m, e);
    OwesEnough(Owed(m), e, Owed(Next(m, e)), r);
  }

  /** At every turn boundary of a good trace, each reported result and error flag was repeated by a result message. */
  lemma {:induction false} ReportsAreRepeated(trace: seq<Event>, r: Report)
    requires Scan(trace) != Bad
    ensures AllReported(trace)[r] <= AllRepeated(trace)[r] + Owed(Scan(trace))[r]
    ensures !Scan(trace).InTurn? ==> AllReported(trace)[r] <= AllRepeated(trace)[r]
  {
    if trace != [] {
      NextOwes(Scan(trace[..|trace| - 1]), trace[|trace| - 1], r);
      ReportsAreRepeated(trace[..|trace| - 1], r);
    }
  }

  /** All that a trace says: where it stands in the grammar, what it completed, its endings and its reports. */
  datatype Reading = Reading(
    monitor: Monitor, completed: seq<Message>, endings: seq<Ending>, reported: multiset<Report>)

  function Read(trace: seq<Event>): Reading {
    Reading(Scan(trace), Ended(trace), Endings(trace), AllReported(trace))
  }

  function Advanced(r: Reading, e: Event): Reading {
    Reading(Next(r.monitor, e), r.completed + (if e.MessageEnd? then [e.message] else []),
            r.endings + (if e.TurnEnd? then [Ending(e.message, e.toolResults, r.completed, r.reported)] else []),
            r.reported + Reported(e))
  }

  lemma ReadMore(trace: seq<Event>, e: Event)
    ensures Read(trace + [e]) == Advanced(Read(trace), e)
  {
    assert (trace + [e])[..|trace|] == trace;
  }

  /** `agent_start (turn_start … turn_end)+ agent_end`, read off the trace itself. */
  function CountTurns(trace: seq<Event>): nat {
    if trace == [] then 0
    else CountTurns(trace[..|trace| - 1]) + if trace[|trace| - 1].TurnStart? then 1 else 0
  }

  lemma {:induction false} TurnsCounted(trace: seq<Event>)
    requires Scan(trace) != Bad
    ensures match Scan(trace)
            case Idle => trace == []
            case Between(n) => CountTurns(trace) == n && trace != []
            case InTurn(n, _, _, _) => CountTurns(trace) == n > 0
            case Finished => CountTurns(trace) > 0 && trace[|trace| - 1].AgentEnd?
            case Bad => true
  {
    if trace != [] {
      TurnsCounted(trace[..|trace| - 1]);
    }
  }

  // ----- The Agent's reducer --------------------------------------------------------------------

  datatype AgentState = AgentState(
    messages: seq<Message>,
    streamingMessage: Option<Message>,
    pendingToolCalls: set<string>,
    errorMessage: Option<string>)

  function Reduce(s: AgentState, e: Event): AgentState {
    match e
    case MessageStart(m) => s.(streamingMessage := Some(m))
    case MessageUpdate(m) => s.(streamingMessage := Some(m))
    case MessageEnd(m) => s.(streamingMessage := None, messages := s.messages + [m])
    case ToolStart(call) => s.(pendingToolCalls := s.pendingToolCalls + {call.id})
    case ToolEnd(call, _, _) => s.(pendingToolCalls := s.pendingToolCalls - {call.id})
    case TurnEnd(m, _) =>
      if m.Assistant? && m.errorMessage.Some? && m.errorMessage.value != "" then s.(errorMessage := m.errorMessage)
      else s
    case AgentEnd(_) => s.(streamingMessage := None)
    case _ => s
  }

  function ReduceAll(s: AgentState, trace: seq<Event>): AgentState {
    if trace == [] then s else Reduce(ReduceAll(s, trace[..|trace| - 1]), trace[|trace| - 1])
  }

  /** What an Agent shows while a run is at the monitor's state; call ids may repeat, so pending ones are a subset. */
  predicate Mirrors(r: AgentState, m: Monitor) {
    match m
    case InTurn(_, streaming, open, _) =>
      (forall id <- r.pendingToolCalls :: id in open) && (r.streamingMessage.Some? <==> streaming)
    case _ => r.pendingToolCalls == {} && r.streamingMessage == None
  }

  lemma ReduceMirrors(r: AgentState, m: Monitor, e: Event)
    requires Mirrors(r, m) && Next(m, e) != Bad
    ensures Mirrors(Reduce(r, e), Next(m, e))
  {
    if e.TurnEnd? {
      assert r.pendingToolCalls == {};
    }
  }

  lemma ReduceAppends(r: AgentState, e: Event)
    ensures Reduce(r, e).messages == r.messages + if e.MessageEnd? then [e.message] else []
  {
  }

  /**
   After any good trace the Agent's transcript is the one it started with followed by the completed messages;
   between turns no tool call is pending and nothing is streaming, even when call ids repeat.
   */
  lemma {:induction false} AgentFollowsTrace(s: AgentState, trace: seq<Event>)
    requires Scan(trace) != Bad
    requires s.pendingToolCalls == {} && s.streamingMessage == None
    ensures ReduceAll(s, trace).messages == s.messages + Ended(trace)
    ensures Mirrors(ReduceAll(s, trace), Scan(trace))
  {
    if trace == [] {
      assert s.messages + [] == s.messages;
    } else {
      var init, last := trace[..|trace| - 1], trace[|trace| - 1];
      AgentFollowsTrace(s, init);
      ReduceMirrors(ReduceAll(s, init), Scan(init), last);
      ReduceAppends(ReduceAll(s, init), last);
      assert s.messages + Ended(init) + (if last.MessageEnd? then [last.message] else []) == s.messages + Ended(trace);
    }
  }

  // ----- What the reducer's fields say of the events --------------------------------------------

  /** A `turn_end` whose message tells of an error. */
  predicate TellsError(e: Event) {
    e.TurnEnd? && e.message.Assistant? && e.message.errorMessage.Some? && e.message.errorMessage.value != ""
  }

  /** `now` is what the last `turn_end` with an error told, or what there was before if none did. */
  ghost predicate LatestError(before: Option<string>, trace: seq<Event>, now: Option<string>) {
    (now == before && forall i :: 0 <= i < |trace| ==> !TellsError(trace[i]))
    || exists i :: 0 <= i < |trace| && TellsError(trace[i]) && now == trace[i].message.errorMessage
                   && forall j :: i < j < |trace| ==> !TellsError(trace[j])
  }

  lemma {:induction false} ErrorIsLatest(s: AgentState, trace: seq<Event>)
    ensures LatestError(s.errorMessage, trace, ReduceAll(s, trace).errorMessage)
  {
    if trace != [] {
      var init, e := trace[..|trace| - 1], trace[|trace| - 1];
      ErrorIsLatest(s, init);
      assert forall i :: 0 <= i < |init| ==> trace[i] == init[i];
      if TellsError(e) {
        assert TellsError(trace[|init|]);
      } else {
        assert ReduceAll(s, trace).errorMessage == ReduceAll(s, init).errorMessage;
      }
    }
  }

  /** Call `id` was started at position i and has not ended since. */
  ghost predicate RunsSince(trace: seq<Event>, id: string, i: nat) {
    && i < |trace| && trace[i].ToolStart? && trace[i].call.id == id
    && forall j :: i < j < |trace| ==> !(trace[j].ToolEnd? && trace[j].call.id == id)
  }

  /** The pending calls are exactly those that were started and have not ended since. */
  lemma {:induction false} PendingIsRunning(s: AgentState, trace: seq<Event>, id: string)
    requires id !in s.pendingToolCalls
    ensures id in ReduceAll(s, trace).pendingToolCalls <==> exists i :: RunsSince(trace, id, i)
  {
    if trace != [] {
      var init, e := trace[..|trace| - 1], trace[|trace| - 1];
      PendingIsRunning(s, init, id);
      assert forall i :: 0 <= i < |init| ==> trace[i] == init[i];
      var ends := e.ToolEnd? && e.call.id == id;
      if e.ToolStart? && e.call.id == id {
        assert RunsSince(trace, id, |init|);
      } else {
        forall i: nat ensures RunsSince(trace, id, i) <==> RunsSince(init, id, i) && !ends {
          assert RunsSince(trace, id, i) && ends ==> i == |init|;
        }
      }
    }
  }

  /** What is streaming is the message of the last start or update, if no message has ended since, nor the run. */
  ghost predicate LatestStream(before: Option<Message>, trace: seq<Event>, now: Option<Message>) {
    (now == before && forall i :: 0 <= i < |trace| ==> !TouchesStream(trace[i]))
    || exists i :: 0 <= i < |trace| && TouchesStream(trace[i])
                   && now == (if trace[i].MessageEnd? || trace[i].AgentEnd? then None else Some(trace[i].message))
                   && forall j :: i < j < |trace| ==> !TouchesStream(trace[j])
  }

  predicate TouchesStream(e: Event) {
    e.MessageStart? || e.MessageUpdate? || e.MessageEnd? || e.AgentEnd?
  }

  lemma {:induction false} StreamIsLatest(s: AgentState, trace: seq<Event>)
    ensures LatestStream(s.streamingMessage, trace, ReduceAll(s, trace).streamingMessage)
  {
    if trace != [] {
      var init, e := trace[..|trace| - 1], trace[|trace| - 1];
      StreamIsLatest(s, init);
      assert forall i :: 0 <= i < |init| ==> trace[i] == init[i];
      if TouchesStream(e) {
        assert TouchesStream(trace[|init|]);
      } else {
        assert ReduceAll(s, trace).streamingMessage == ReduceAll(s, init).streamingMessage;
      }
    }
  }
}
