/**
 The pending-request table of the RPC client (packages/client/src/client.ts): requests, aborts, responses, drops and
 disposal as atomic steps. transport.send is a callback in the middle of a request, so a request begins in one step
 and goes on in another, and anything may come in between.
 */
module ClientRequests {
  import opened Wrappers

  datatype Outcome = Resolved | Aborted | ServerFailed | Invalid | Unencodable | ConnectionLost

  /**
   The closure of one request. `sending`: transport.send has been called and has not returned. `listening`: its abort
   listener is attached.
   */
  datatype Request = Request(sending: bool, sent: bool, aborted: bool, listening: bool, outcome: Option<Outcome>) {
    /** A promise keeps its first outcome. */
    function Settle(o: Outcome): Request {
      if outcome.None? then this.(outcome := Some(o)) else this
    }
  }

  datatype Observed =
    | FrameSent(id: nat)
    | CancelSent(id: nat)
    | Taken(id: nat)
    | Violation(id: nat)
    | Dropped

  /** Request ids are positions in `requests`. */
  datatype State = State(connected: bool, disposed: bool, requests: seq<Request>, pending: set<nat>, log: seq<Observed>)

  const START := State(false, false, [], {}, [])

  /** How a response is taken: an error of the server, a result, or a result its reader refuses. */
  datatype Answer = ServerError | Result | UnreadableResult

  datatype Event =
    | ConnectionUp
    | ConnectionLoss
    | Begin(signal: Option<bool>, encodes: bool)
    | SendReturns(id: nat)
    | SendThrows(id: nat)
    | Abort(id: nat)
    | Response(id: nat, answer: Answer)
    | Dispose

  // ----- The code -------------------------------------------------------------------------------

  /** The requests of the table are cleaned up and rejected. */
  function AfterDrop(requests: seq<Request>, pending: set<nat>): seq<Request> {
    seq(|requests|, i requires 0 <= i < |requests| =>
      if i in pending then requests[i].(listening := false).Settle(ConnectionLost) else requests[i])
  }

  function Drop(s: State): State {
    State(false, s.disposed, AfterDrop(s.requests, s.pending), {}, s.log + [Dropped])
  }

  /** A connection that is already down is not told again. */
  function FailConnection(s: State): State {
    if s.connected then Drop(s) else s
  }

  function SendCancel(s: State, id: nat): State
    requires id < |s.requests|
  {
    if s.requests[id].sent && s.connected then s.(log := s.log + [CancelSent(id)]) else s
  }

  /** #request up to transport.send. `signal`: whether a given signal is aborted already. */
  function Begun(s: State, signal: Option<bool>, encodes: bool): State {
    if s.disposed || !s.connected || signal == Some(true) then s
    else if !encodes then
      s.(requests := s.requests + [Request(false, false, false, false, Some(Unencodable))])
    else
      s.(requests := s.requests + [Request(true, false, false, signal.Some?, None)],
         pending := s.pending + {|s.requests|}, log := s.log + [FrameSent(|s.requests|)])
  }

  /** #request after transport.send. */
  function Continued(s: State, id: nat): State {
    if id < |s.requests| && s.requests[id].sending then
      var t := s.(requests := s.requests[id := s.requests[id].(sending := false, sent := true)]);
      if s.requests[id].aborted then SendCancel(t, id) else t
    else s
  }

  function AbortFired(s: State, id: nat): State {
    if id < |s.requests| && s.requests[id].listening then
      var r := s.requests[id].(aborted := true, listening := false).Settle(Aborted);
      SendCancel(s.(requests := s.requests[id := r]), id)
    else s
  }

  function Take(s: State, id: nat): State
    requires id < |s.requests|
  {
    s.(requests := s.requests[id := s.requests[id].(listening := false)], pending := s.pending - {id},
       log := s.log + [Taken(id)])
  }

  function SettleOne(s: State, id: nat, o: Outcome): State
    requires id < |s.requests|
  {
    s.(requests := s.requests[id := s.requests[id].Settle(o)])
  }

  /** A response, which only an established connection delivers. */
  function Answered(s: State, id: nat, answer: Answer): State {
    if !s.connected then s
    else if id !in s.pending || |s.requests| <= id then FailConnection(s.(log := s.log + [Violation(id)]))
    else
      match answer
      case ServerError => SettleOne(Take(s, id), id, ServerFailed)
      case Result => SettleOne(Take(s, id), id, Resolved)
      case UnreadableResult => SettleOne(FailConnection(Take(s, id)), id, Invalid)
  }

  function Step(s: State, e: Event): State {
    match e
    case ConnectionUp => s.(connected := true)
    case ConnectionLoss => FailConnection(s)
    case Begin(signal, encodes) => Begun(s, signal, encodes)
    case SendReturns(id) => Continued(s, id)
    case SendThrows(id) => if id < |s.requests| && s.requests[id].sending then Continued(FailConnection(s), id) else s
    case Abort(id) => AbortFired(s, id)
    case Response(id, answer) => Answered(s, id, answer)
    case Dispose => if s.disposed then s else Drop(s.(disposed := true))
  }

  function Run(events: seq<Event>): State {
    if events == [] then START else Step(Run(events[..|events| - 1]), events[|events| - 1])
  }

  lemma RunMore(events: seq<Event>, e: Event)
    ensures Run(events + [e]) == Step(Run(events), e)
  {
    assert (events + [e])[..|events|] == events;
  }

  // ----- What the server owes -------------------------------------------------------------------

  /** The request went out on the connection that is up, and its response has not been taken. Aborts do not matter. */
  predicate Owed(log: seq<Observed>, id: nat) {
    if log == [] then false
    else
      match log[|log| - 1]
      case FrameSent(i) => i == id || Owed(log[..|log| - 1], id)
      case Taken(i) => i != id && Owed(log[..|log| - 1], id)
      case Dropped => false
      case _ => Owed(log[..|log| - 1], id)
  }

  function Cancels(log: seq<Observed>, id: nat): nat {
    if log == [] then 0
    else Cancels(log[..|log| - 1], id) + if log[|log| - 1] == CancelSent(id) then 1 else 0
  }

  lemma Append(log: seq<Observed>, o: Observed)
    ensures forall id: nat :: Owed(log + [o], id) == match o
      case FrameSent(i) => i == id || Owed(log, id)
      case Taken(i) => i != id && Owed(log, id)
      case Dropped => false
      case _ => Owed(log, id)
    ensures forall id: nat :: Cancels(log + [o], id) == Cancels(log, id) + if o == CancelSent(id) then 1 else 0
    ensures o in log + [o] && forall p <- log :: p in log + [o]
  {
    assert (log + [o])[..|log|] == log;
  }

  // ----- The invariant --------------------------------------------------------------------------

  ghost predicate PendingIsOwed(s: State) {
    && (forall id: nat :: id in s.pending <==> Owed(s.log, id))
    && (forall id <- s.pending :: id < |s.requests|)
    && (s.pending != {} ==> s.connected && !s.disposed)
  }

  /** A request is settled exactly when it was aborted or has left the table. */
  predicate RequestOk(r: Request, pending: bool, framed: bool, cancels: nat) {
    && (r.outcome.Some? <==> r.aborted || !pending)
    && (r.listening ==> pending && !r.aborted)
    && (r.sending ==> !r.sent)
    && (framed <==> r.sending || r.sent)
    && (pending ==> framed)
    && cancels <= 1
    && (cancels == 1 ==> r.aborted && r.sent)
  }

  ghost predicate RequestsOk(s: State) {
    && (forall id :: 0 <= id < |s.requests| ==>
          RequestOk(s.requests[id], id in s.pending, FrameSent(id) in s.log, Cancels(s.log, id)))
    && (forall id: nat :: |s.requests| <= id ==> FrameSent(id) !in s.log && Cancels(s.log, id) == 0)
  }

  ghost predicate CancelsFollowFrames(log: seq<Observed>) {
    forall k :: 0 <= k < |log| && log[k].CancelSent? ==> FrameSent(log[k].id) in log[..k]
  }

  ghost predicate Inv(s: State) {
    PendingIsOwed(s) && RequestsOk(s) && CancelsFollowFrames(s.log)
  }

  lemma AppendFollows(log: seq<Observed>, o: Observed)
    requires CancelsFollowFrames(log)
    requires o.CancelSent? ==> FrameSent(o.id) in log
    ensures CancelsFollowFrames(log + [o])
  {
    forall k | 0 <= k < |log + [o]| && (log + [o])[k].CancelSent?
      ensures FrameSent((log + [o])[k].id) in (log + [o])[..k]
    {
      assert (log + [o])[..k] == log[..k];
    }
    assert log[..|log|] == log;
  }

  lemma DropKeeps(s: State)
    requires Inv(s)
    ensures Inv(Drop(s))
  {
    Append(s.log, Dropped);
    AppendFollows(s.log, Dropped);
  }

  /** What a cancel in the log means for request i. */
  lemma CancelledOne(log: seq<Observed>, id: nat, i: nat)
    ensures FrameSent(i) in log + [CancelSent(id)] <==> FrameSent(i) in log
    ensures Cancels(log + [CancelSent(id)], i) == Cancels(log, i) + if i == id then 1 else 0
    ensures Owed(log + [CancelSent(id)], i) == Owed(log, i)
  {
    Append(log, CancelSent(id));
  }

  lemma CancelKeepsRequests(s: State, id: nat)
    requires RequestsOk(s) && id < |s.requests|
    requires s.requests[id].aborted && s.requests[id].sent && Cancels(s.log, id) == 0
    ensures RequestsOk(s.(log := s.log + [CancelSent(id)]))
  {
    var t := s.(log := s.log + [CancelSent(id)]);
    forall i | 0 <= i < |t.requests|
      ensures RequestOk(t.requests[i], i in t.pending, FrameSent(i) in t.log, Cancels(t.log, i))
    {
      CancelledOne(s.log, id, i);
    }
    forall i: nat | |t.requests| <= i ensures FrameSent(i) !in t.log && Cancels(t.log, i) == 0 {
      CancelledOne(s.log, id, i);
    }
  }

  lemma CancelKeepsOwed(s: State, id: nat)
    requires PendingIsOwed(s)
    ensures PendingIsOwed(s.(log := s.log + [CancelSent(id)]))
  {
    forall i: nat ensures Owed(s.log + [CancelSent(id)], i) == Owed(s.log, i) {
      CancelledOne(s.log, id, i);
    }
  }

  lemma SendCancelKeeps(s: State, id: nat)
    requires Inv(s) && id < |s.requests|
    requires s.requests[id].aborted && Cancels(s.log, id) == 0
    ensures Inv(SendCancel(s, id))
  {
    if s.requests[id].sent && s.connected {
      CancelKeepsOwed(s, id);
      CancelKeepsRequests(s, id);
      AppendFollows(s.log, CancelSent(id));
    }
  }

  lemma BegunKeeps(s: State, signal: Option<bool>, encodes: bool)
    requires Inv(s)
    ensures Inv(Begun(s, signal, encodes))
  {
    var id := |s.requests|;
    Append(s.log, FrameSent(id));
    AppendFollows(s.log, FrameSent(id));
  }

  lemma ContinuedKeeps(s: State, id: nat)
    requires Inv(s)
    ensures Inv(Continued(s, id))
  {
    if id < |s.requests| && s.requests[id].sending {
      var t := s.(requests := s.requests[id := s.requests[id].(sending := false, sent := true)]);
      assert Inv(t);
      if s.requests[id].aborted {
        SendCancelKeeps(t, id);
      }
    }
  }

  lemma AbortKeeps(s: State, id: nat)
    requires Inv(s)
    ensures Inv(AbortFired(s, id))
  {
    if id < |s.requests| && s.requests[id].listening {
      var t := s.(requests := s.requests[id := s.requests[id].(aborted := true, listening := false).Settle(Aborted)]);
      assert Inv(t);
      SendCancelKeeps(t, id);
    }
  }

  /** Taking a response and settling the request at once. */
  lemma TakeKeeps(s: State, id: nat, o: Outcome)
    requires Inv(s) && id in s.pending
    ensures Inv(SettleOne(Take(s, id), id, o))
  {
    Append(s.log, Taken(id));
    AppendFollows(s.log, Taken(id));
  }

  lemma ViolationKeeps(s: State, id: nat)
    requires Inv(s)
    ensures Inv(FailConnection(s.(log := s.log + [Violation(id)])))
  {
    var t := s.(log := s.log + [Violation(id)]);
    Append(s.log, Violation(id));
    AppendFollows(s.log, Violation(id));
    DropKeeps(t);
  }

  /** The entry has left the table before the connection fails, so the drop does not reach it. */
  lemma UnreadableKeeps(s: State, id: nat)
    requires Inv(s) && s.connected && id in s.pending
    ensures Inv(SettleOne(FailConnection(Take(s, id)), id, Invalid))
  {
    TakeKeeps(s, id, Invalid);
    var t := SettleOne(Take(s, id), id, Invalid);
    DropKeeps(t);
    assert SettleOne(FailConnection(Take(s, id)), id, Invalid).requests == Drop(t).requests;
  }

  lemma AnsweredKeeps(s: State, id: nat, answer: Answer)
    requires Inv(s)
    ensures Inv(Answered(s, id, answer))
  {
    if s.connected {
      if id !in s.pending {
        ViolationKeeps(s, id);
      } else {
        match answer {
          case ServerError => TakeKeeps(s, id, ServerFailed);
          case Result => TakeKeeps(s, id, Resolved);
          case UnreadableResult => UnreadableKeeps(s, id);
        }
      }
    }
  }

  lemma StepKeeps(s: State, e: Event)
    requires Inv(s)
    ensures Inv(Step(s, e))
  {
    match e {
      case ConnectionUp =>
      case ConnectionLoss => DropKeeps(s);
      case Begin(signal, encodes) => BegunKeeps(s, signal, encodes);
      case SendReturns(id) => ContinuedKeeps(s, id);
      case SendThrows(id) =>
        DropKeeps(s);
        ContinuedKeeps(FailConnection(s), id);
      case Abort(id) => AbortKeeps(s, id);
      case Response(id, answer) => AnsweredKeeps(s, id, answer);
      case Dispose => DropKeeps(s);
    }
  }

  lemma {:induction false} RunKeeps(events: seq<Event>)
    ensures Inv(Run(events))
  {
    if events != [] {
      RunKeeps(events[..|events| - 1]);
      StepKeeps(Run(events[..|events| - 1]), events[|events| - 1]);
    }
  }

  // ----- What follows for whole runs ------------------------------------------------------------

  /** The frame of the request went out at position k, and since then no response was taken and nothing was dropped. */
  ghost predicate SentAt(log: seq<Observed>, id: nat, k: nat) {
    k < |log| && log[k] == FrameSent(id) && forall i :: k <= i < |log| ==> log[i] != Taken(id) && log[i] != Dropped
  }

  lemma {:induction false} OwedWasSent(log: seq<Observed>, id: nat) returns (k: nat)
    requires Owed(log, id)
    ensures SentAt(log, id, k)
  {
    var n := |log| - 1;
    if log[n] == FrameSent(id) {
      k := n;
    } else {
      k := OwedWasSent(log[..n], id);
    }
  }

  lemma {:induction false} SentIsOwed(log: seq<Observed>, id: nat, k: nat)
    requires SentAt(log, id, k)
    ensures Owed(log, id)
  {
    var n := |log| - 1;
    if k < n {
      SentIsOwed(log[..n], id, k);
    }
  }

  /** Owed, said by positions: the frame went out, and since then no response was taken and nothing was dropped. */
  lemma OwedMeans(log: seq<Observed>, id: nat)
    ensures Owed(log, id) <==>
      exists k :: 0 <= k < |log| && log[k] == FrameSent(id) && Taken(id) !in log[k..] && Dropped !in log[k..]
  {
    if Owed(log, id) {
      var k := OwedWasSent(log, id);
      assert log[k] == FrameSent(id) && Taken(id) !in log[k..] && Dropped !in log[k..];
    }
    if k :| 0 <= k < |log| && log[k] == FrameSent(id) && Taken(id) !in log[k..] && Dropped !in log[k..] {
      forall i | k <= i < |log| ensures log[i] != Taken(id) && log[i] != Dropped {
        assert log[k..][i - k] == log[i];
      }
      SentIsOwed(log, id, k);
    }
  }

  lemma ResponseTo(s: State, id: nat, answer: Answer)
    requires s.connected && (id in s.pending ==> id < |s.requests|)
    ensures Answered(s, id, answer).log == s.log +
      if id !in s.pending then [Violation(id), Dropped]
      else if answer.UnreadableResult? then [Taken(id), Dropped] else [Taken(id)]
  {
    assert s.log + [Violation(id)] + [Dropped] == s.log + [Violation(id), Dropped];
    assert s.log + [Taken(id)] + [Dropped] == s.log + [Taken(id), Dropped];
  }

  /**
   A response is a protocol violation exactly when it answers nothing that went out on this connection and is still
   unanswered. So a late response to an aborted request is never one.
   */
  lemma ViolationExactlyUnowed(events: seq<Event>, id: nat, answer: Answer)
    requires Run(events).connected
    ensures Run(events + [Response(id, answer)]).log == Run(events).log +
      if !Owed(Run(events).log, id) then [Violation(id), Dropped]
      else if answer.UnreadableResult? then [Taken(id), Dropped] else [Taken(id)]
  {
    RunKeeps(events);
    RunMore(events, Response(id, answer));
    ResponseTo(Run(events), id, answer);
  }

  lemma AnswerKeepsOutcome(s: State, k: nat, answer: Answer, id: nat)
    requires id < |s.requests| && s.requests[id].outcome.Some?
    ensures id < |Answered(s, k, answer).requests|
    ensures Answered(s, k, answer).requests[id].outcome == s.requests[id].outcome
  {
  }

  lemma StepKeepsOutcome(s: State, e: Event, id: nat)
    requires id < |s.requests| && s.requests[id].outcome.Some?
    ensures id < |Step(s, e).requests| && Step(s, e).requests[id].outcome == s.requests[id].outcome
  {
    match e {
      case Response(k, answer) => AnswerKeepsOutcome(s, k, answer, id);
      case _ =>
    }
  }

  /** A request is settled exactly when it was aborted or has left the table. */
  lemma SettledExactlyWhenOver(events: seq<Event>, id: nat)
    requires id < |Run(events).requests|
    ensures Run(events).requests[id].outcome.Some? <==> Run(events).requests[id].aborted || id !in Run(events).pending
  {
    RunKeeps(events);
    var s := Run(events);
    assert RequestOk(s.requests[id], id in s.pending, FrameSent(id) in s.log, Cancels(s.log, id));
  }

  /** And it settles once: whatever happens later, the outcome stays. */
  lemma {:induction false} OutcomeIsFinal(events: seq<Event>, more: seq<Event>, id: nat)
    requires id < |Run(events).requests| && Run(events).requests[id].outcome.Some?
    ensures id < |Run(events + more).requests|
    ensures Run(events + more).requests[id].outcome == Run(events).requests[id].outcome
    decreases |more|
  {
    if more == [] {
      assert events + more == events;
    } else {
      var init, e := more[..|more| - 1], more[|more| - 1];
      OutcomeIsFinal(events, init, id);
      StepKeepsOutcome(Run(events + init), e, id);
      assert events + more == events + init + [e];
      RunMore(events + init, e);
    }
  }

  // ----- Which outcome a caller gets ------------------------------------------------------------

  /** The outcome a response of each kind means. */
  predicate Means(answer: Answer, o: Outcome) {
    match answer
    case Result => o == Resolved
    case ServerError => o == ServerFailed
    case UnreadableResult => o == Invalid
  }

  /**
   What an event makes of a request that is owed an answer and not settled: its own response settles it by its kind, an
   abort that it listens to as aborted, and whatever drops the connection as lost; nothing else settles it.
   */
  predicate SettledBy(s: State, e: Event, id: nat, outcome: Option<Outcome>)
    requires id < |s.requests|
  {
    match e
    case Response(k, answer) =>
      if k == id then outcome.Some? && Means(answer, outcome.value)
      else if !Owed(s.log, k) || answer.UnreadableResult? then outcome == Some(ConnectionLost)
      else outcome == None
    case Abort(k) => outcome == if k == id && s.requests[id].listening then Some(Aborted) else None
    case ConnectionLoss => outcome == Some(ConnectionLost)
    case Dispose => outcome == Some(ConnectionLost)
    case SendThrows(k) =>
      outcome == if k < |s.requests| && s.requests[k].sending then Some(ConnectionLost) else None
    case _ => outcome == None
  }

  lemma StepSettles(s: State, e: Event, id: nat)
    requires Inv(s) && id < |s.requests| && s.requests[id].outcome.None?
    ensures id < |Step(s, e).requests| && SettledBy(s, e, id, Step(s, e).requests[id].outcome)
  {
    assert RequestOk(s.requests[id], id in s.pending, FrameSent(id) in s.log, Cancels(s.log, id));
    match e {
      case Response(k, answer) => ResponseSettles(s, k, answer, id);
      case _ =>
    }
  }

  lemma ResponseSettles(s: State, k: nat, answer: Answer, id: nat)
    requires Inv(s) && id < |s.requests| && id in s.pending && s.requests[id].outcome.None?
    ensures id < |Answered(s, k, answer).requests|
    ensures SettledBy(s, Response(k, answer), id, Answered(s, k, answer).requests[id].outcome)
  {
  }

  /** Until it is settled a request is owed an answer, and each event settles it by its own cause. */
  lemma OutcomeByCause(events: seq<Event>, e: Event, id: nat)
    requires id < |Run(events).requests| && Run(events).requests[id].outcome.None?
    ensures Owed(Run(events).log, id) && id < |Run(events + [e]).requests|
    ensures SettledBy(Run(events), e, id, Run(events + [e]).requests[id].outcome)
  {
    RunKeeps(events);
    RunMore(events, e);
    SettledExactlyWhenOver(events, id);
    StepSettles(Run(events), e, id);
  }

  ghost predicate AllSettledBy(s: State, e: Event, requests: seq<Request>) {
    && |s.requests| <= |requests|
    && forall id :: 0 <= id < |s.requests| && s.requests[id].outcome.None? ==>
         SettledBy(s, e, id, requests[id].outcome)
  }

  lemma EventSettles(events: seq<Event>, e: Event)
    ensures AllSettledBy(Run(events), e, Step(Run(events), e).requests)
  {
    var s := Run(events);
    RunKeeps(events);
    NoRequestLost(s, e);
    forall id | 0 <= id < |s.requests| && s.requests[id].outcome.None?
      ensures SettledBy(s, e, id, Step(s, e).requests[id].outcome)
    {
      StepSettles(s, e, id);
    }
  }

  /** A request is entered unsettled, but for one that cannot be encoded. */
  lemma EntersUnsettled(s: State, e: Event, id: nat)
    requires |s.requests| <= id < |Step(s, e).requests|
    ensures id == |s.requests| && e.Begin? && s.connected && !s.disposed && e.signal != Some(true)
    ensures Step(s, e).requests[id].outcome == if e.encodes then None else Some(Unencodable)
  {
  }

  /** Event n gave request `id` its outcome, for the reason that belongs to it. */
  ghost predicate CausedAt(events: seq<Event>, n: nat, id: nat, o: Outcome) {
    && n < |events|
    && var s, e := Run(events[..n]), events[n];
       match o
       case Unencodable => e.Begin? && !e.encodes && id == |s.requests|
       case Aborted => e == Abort(id) && Owed(s.log, id)
       case ConnectionLost =>
         Owed(s.log, id) && (e.ConnectionLoss? || e.Dispose? || e.SendThrows? || (e.Response? && e.id != id))
       case _ =>
         && e.Response? && e.id == id && Means(e.answer, o)
         && Owed(s.log, id) && id < |s.requests| && !s.requests[id].aborted
  }

  lemma CausedNow(init: seq<Event>, e: Event, id: nat)
    requires id < |Run(init + [e]).requests| && Run(init + [e]).requests[id].outcome.Some?
    requires id < |Run(init).requests| ==> Run(init).requests[id].outcome.None?
    ensures CausedAt(init + [e], |init|, id, Run(init + [e]).requests[id].outcome.value)
  {
    assert (init + [e])[..|init|] == init;
    RunMore(init, e);
    if id < |Run(init).requests| {
      OutcomeByCause(init, e, id);
      SettledExactlyWhenOver(init, id);
    } else {
      EntersUnsettled(Run(init), e, id);
    }
  }

  /**
   Every outcome has its cause: resolved, failed and invalid come only from a response of that kind that was owed, to a
   request that nothing had aborted; aborted only from its own abort; lost only from the end of the connection.
   */
  lemma {:induction false} OutcomeHasCause(events: seq<Event>, id: nat)
    requires id < |Run(events).requests| && Run(events).requests[id].outcome.Some?
    ensures exists n: nat :: CausedAt(events, n, id, Run(events).requests[id].outcome.value)
  {
    var init, e := events[..|events| - 1], events[|events| - 1];
    assert events == init + [e];
    if id < |Run(init).requests| && Run(init).requests[id].outcome.Some? {
      OutcomeHasCause(init, id);
      StepKeepsOutcome(Run(init), e, id);
      var n: nat :| CausedAt(init, n, id, Run(init).requests[id].outcome.value);
      assert init[..n] == events[..n];
      assert CausedAt(events, n, id, Run(events).requests[id].outcome.value);
    } else {
      CausedNow(init, e, id);
    }
  }

  /** At most one cancel goes out for a request, and its frame went out before. */
  lemma CancelAtMostOnceAfterFrame(events: seq<Event>, id: nat)
    ensures Cancels(Run(events).log, id) <= 1
    ensures forall k :: 0 <= k < |Run(events).log| && Run(events).log[k] == CancelSent(id) ==>
      FrameSent(id) in Run(events).log[..k]
  {
    RunKeeps(events);
    var s := Run(events);
    if id < |s.requests| {
      assert RequestOk(s.requests[id], id in s.pending, FrameSent(id) in s.log, Cancels(s.log, id));
    }
  }

  /**
   Promises are kept: an outcome stays, a request is settled exactly when it was aborted or has left the table, and at
   most one cancel went out for each.
   */
  ghost predicate KeepsPromises(requests: seq<Request>, s: State) {
    && |requests| <= |s.requests|
    && (forall id :: 0 <= id < |requests| && requests[id].outcome.Some? ==>
          s.requests[id].outcome == requests[id].outcome)
    && (forall id :: 0 <= id < |s.requests| ==>
          (s.requests[id].outcome.Some? <==> s.requests[id].aborted || id !in s.pending))
    && (forall id: nat :: Cancels(s.log, id) <= 1)
  }

  lemma NoRequestLost(s: State, e: Event)
    ensures |s.requests| <= |Step(s, e).requests|
  {
  }

  lemma NextKeepsPromises(events: seq<Event>, e: Event)
    ensures KeepsPromises(Run(events).requests, Run(events + [e]))
  {
    var s, s' := Run(events), Run(events + [e]);
    RunMore(events, e);
    NoRequestLost(s, e);
    forall id | 0 <= id < |s.requests| && s.requests[id].outcome.Some?
      ensures s'.requests[id].outcome == s.requests[id].outcome
    {
      OutcomeIsFinal(events, [e], id);
    }
    forall id | 0 <= id < |s'.requests|
      ensures s'.requests[id].outcome.Some? <==> s'.requests[id].aborted || id !in s'.pending
    {
      SettledExactlyWhenOver(events + [e], id);
    }
    forall id: nat ensures Cancels(s'.log, id) <= 1 {
      CancelAtMostOnceAfterFrame(events + [e], id);
    }
  }

  // ----- Cancels that come too late -------------------------------------------------------------

  /** The cancel at position k went out for a request that was answered or dropped already. */
  predicate LateCancel(log: seq<Observed>, k: nat) {
    k < |log| && log[k].CancelSent? && !Owed(log[..k], log[k].id)
  }

  /**
   transport.send called back while it was sending the request: both the abort and the end of the request came in
   before `sent` was set, and a connection is up when it is.
   */
  predicate SendOvertaken(s: State, e: Event) {
    && e.SendReturns? && e.id < |s.requests| && s.requests[e.id].sending && s.requests[e.id].aborted
    && s.connected && e.id !in s.pending
  }

  /** At most one cancel is added, at the end; it is late exactly when the send was overtaken. */
  lemma StepCancels(s: State, e: Event)
    requires Inv(s)
    ensures s.log <= Step(s, e).log
    ensures forall k :: |s.log| <= k < |Step(s, e).log| && Step(s, e).log[k].CancelSent? ==>
      k == |s.log| && (e.SendReturns? || e.Abort?) && Step(s, e).log[k].id == e.id
      && (e.id !in s.pending <==> SendOvertaken(s, e))
    ensures SendOvertaken(s, e) ==> |s.log| < |Step(s, e).log| && Step(s, e).log[|s.log|] == CancelSent(e.id)
  {
    if e.Abort? && e.id < |s.requests| {
      assert RequestOk(s.requests[e.id], e.id in s.pending, FrameSent(e.id) in s.log, Cancels(s.log, e.id));
    }
  }

  ghost predicate AnyLate(log: seq<Observed>) {
    exists k: nat :: LateCancel(log, k)
  }

  ghost predicate AnyOvertaken(events: seq<Event>) {
    exists n :: 0 <= n < |events| && SendOvertaken(Run(events[..n]), events[n])
  }

  lemma StepLate(s: State, e: Event)
    requires Inv(s)
    ensures AnyLate(Step(s, e).log) <==> AnyLate(s.log) || SendOvertaken(s, e)
  {
    var log := Step(s, e).log;
    StepCancels(s, e);
    assert log[..|s.log|] == s.log;
    if k: nat :| LateCancel(log, k) {
      if k < |s.log| {
        assert s.log[..k] == log[..k] && LateCancel(s.log, k);
      }
    }
    if k: nat :| LateCancel(s.log, k) {
      assert s.log[..k] == log[..k] && LateCancel(log, k);
    }
    if SendOvertaken(s, e) {
      assert LateCancel(log, |s.log|);
    }
  }

  lemma OvertakenMore(events: seq<Event>, e: Event)
    ensures AnyOvertaken(events + [e]) <==> AnyOvertaken(events) || SendOvertaken(Run(events), e)
  {
    var all := events + [e];
    assert forall n :: 0 <= n <= |events| ==> all[..n] == events[..n];
    assert events[..|events|] == events && all[|events|] == e;
    if SendOvertaken(Run(events), e) {
      assert SendOvertaken(Run(all[..|events|]), all[|events|]);
    }
    if n :| 0 <= n < |events| && SendOvertaken(Run(events[..n]), events[n]) {
      assert SendOvertaken(Run(all[..n]), all[n]);
    }
  }

  /** A cancel goes out after its request is over exactly when some send was overtaken. */
  lemma {:induction false} LateCancelExactlyWhenOvertaken(events: seq<Event>)
    ensures AnyLate(Run(events).log) <==> AnyOvertaken(events)
  {
    if events != [] {
      var init, e := events[..|events| - 1], events[|events| - 1];
      assert events == init + [e];
      RunKeeps(init);
      LateCancelExactlyWhenOvertaken(init);
      StepLate(Run(init), e);
      OvertakenMore(init, e);
    }
  }

  /** transport.send never calls back: what follows a request that was sent is the return of its send. */
  ghost predicate SendsQuietly(events: seq<Event>) {
    forall n :: 0 < n < |events| && events[n - 1].Begin? && |Run(events[..n]).log| > |Run(events[..n - 1]).log| ==>
      (events[n].SendReturns? || events[n].SendThrows?) && events[n].id == |Run(events[..n - 1]).requests|
  }

  /** A request is being sent only right after it began. */
  ghost predicate OnlyNewestSending(events: seq<Event>) {
    var s := Run(events);
    forall id :: 0 <= id < |s.requests| && s.requests[id].sending ==>
      && !s.requests[id].aborted && id == |s.requests| - 1
      && events != [] && events[|events| - 1].Begin?
      && |s.log| > |Run(events[..|events| - 1]).log| && |Run(events[..|events| - 1]).requests| == id
  }

  lemma SendingEnds(s: State, e: Event, newest: nat)
    requires forall id :: 0 <= id < |s.requests| && s.requests[id].sending ==> id == newest
    requires (e.SendReturns? || e.SendThrows?) && e.id == newest
    ensures forall id :: 0 <= id < |Step(s, e).requests| ==> !Step(s, e).requests[id].sending
  {
  }

  lemma SendingBegins(s: State, e: Event)
    requires forall id :: 0 <= id < |s.requests| ==> !s.requests[id].sending
    ensures forall id :: 0 <= id < |Step(s, e).requests| && Step(s, e).requests[id].sending ==>
      e.Begin? && id == |s.requests| == |Step(s, e).requests| - 1 && !Step(s, e).requests[id].aborted
      && |Step(s, e).log| > |s.log|
  {
  }

  lemma QuietBefore(events: seq<Event>, n: nat)
    requires SendsQuietly(events) && n <= |events|
    ensures SendsQuietly(events[..n])
  {
    var init := events[..n];
    forall m | 0 < m < |init| && init[m - 1].Begin? && |Run(init[..m]).log| > |Run(init[..m - 1]).log|
      ensures (init[m].SendReturns? || init[m].SendThrows?) && init[m].id == |Run(init[..m - 1]).requests|
    {
      assert init[..m] == events[..m] && init[..m - 1] == events[..m - 1];
    }
  }

  lemma SendReturnsNext(events: seq<Event>, id: nat)
    requires events != [] && SendsQuietly(events) && OnlyNewestSending(events[..|events| - 1])
    requires var s := Run(events[..|events| - 1]); id < |s.requests| && s.requests[id].sending
    ensures var e := events[|events| - 1]; (e.SendReturns? || e.SendThrows?) && e.id == id
    ensures id == |Run(events[..|events| - 1]).requests| - 1
  {
    var m := |events| - 1;
    assert events[..m][..m - 1] == events[..m - 1];
  }

  lemma {:induction false} QuietSendsOneAtATime(events: seq<Event>)
    requires SendsQuietly(events)
    ensures OnlyNewestSending(events)
  {
    if events != [] {
      var m := |events| - 1;
      var init, e := events[..m], events[m];
      QuietBefore(events, m);
      QuietSendsOneAtATime(init);
      var s := Run(init);
      if id :| 0 <= id < |s.requests| && s.requests[id].sending {
        SendReturnsNext(events, id);
        SendingEnds(s, e, id);
      } else {
        SendingBegins(s, e);
      }
    }
  }

  lemma NeverOvertaken(events: seq<Event>, n: nat)
    requires SendsQuietly(events) && n < |events|
    ensures !SendOvertaken(Run(events[..n]), events[n])
  {
    QuietBefore(events, n);
    QuietSendsOneAtATime(events[..n]);
  }

  /** Over a transport that never calls back from send, no cancel follows the response or the drop of its request. */
  lemma QuietTransportNeverCancelsLate(events: seq<Event>, k: nat)
    requires SendsQuietly(events)
    ensures !LateCancel(Run(events).log, k)
  {
    forall n | 0 <= n < |events| ensures !SendOvertaken(Run(events[..n]), events[n]) {
      NeverOvertaken(events, n);
    }
    LateCancelExactlyWhenOvertaken(events);
  }

  /** Abort and response inside transport.send: the cancel of an answered request goes out. */
  const OVERTAKEN: seq<Event> :=
    [ConnectionUp] + [Begin(Some(false), true)] + [Abort(0)] + [Response(0, Result)] + [SendReturns(0)]

  lemma CancelAfterResponse()
    ensures Run(OVERTAKEN).log == [FrameSent(0), Taken(0), CancelSent(0)]
  {
    var e1 := [ConnectionUp];
    assert Run(e1).connected && Run(e1).requests == [] by { assert [] + e1 == e1; RunMore([], ConnectionUp); }
    var e2 := e1 + [Begin(Some(false), true)];
    RunMore(e1, Begin(Some(false), true));
    assert Run(e2).requests == [Request(true, false, false, true, None)] && Run(e2).pending == {0};
    RunMore(e2, Abort(0));
    RunMore(e2 + [Abort(0)], Response(0, Result));
    RunMore(e2 + [Abort(0)] + [Response(0, Result)], SendReturns(0));
  }

  // ----- Cancels that are due -------------------------------------------------------------------

  /** A request that was aborted, whose frame is out and which is still unanswered, has been cancelled. */
  ghost predicate CancelsDone(s: State) {
    forall id :: 0 <= id < |s.requests| && id in s.pending && s.requests[id].aborted && s.requests[id].sent ==>
      Cancels(s.log, id) >= 1
  }

  lemma {:induction false} CancelsGrow(log: seq<Observed>, more: seq<Observed>, id: nat)
    ensures Cancels(log + more, id) >= Cancels(log, id)
  {
    if more == [] {
      assert log + more == log;
    } else {
      CancelsGrow(log, more[..|more| - 1], id);
      assert (log + more)[..|log + more| - 1] == log + more[..|more| - 1];
    }
  }

  /** Request `id` is the only one that a cancel may still be due for. */
  ghost predicate DoneBut(s: State, except: nat) {
    forall id :: 0 <= id < |s.requests| && id != except ==>
      (id in s.pending && s.requests[id].aborted && s.requests[id].sent ==> Cancels(s.log, id) >= 1)
  }

  lemma SendCancelIsDone(s: State, id: nat)
    requires id < |s.requests| && DoneBut(s, id) && (id in s.pending ==> s.connected)
    ensures CancelsDone(SendCancel(s, id))
  {
    if s.requests[id].sent && s.connected {
      forall i: nat ensures Cancels(s.log + [CancelSent(id)], i) == Cancels(s.log, i) + if i == id then 1 else 0 {
        CancelledOne(s.log, id, i);
      }
    }
  }

  lemma AppendKeepsDone(s: State, o: Observed)
    requires CancelsDone(s)
    ensures CancelsDone(s.(log := s.log + [o]))
  {
    forall id: nat ensures Cancels(s.log + [o], id) >= Cancels(s.log, id) {
      CancelsGrow(s.log, [o], id);
    }
  }

  lemma AnsweredKeepsDone(s: State, id: nat, answer: Answer)
    requires CancelsDone(s)
    ensures CancelsDone(Answered(s, id, answer))
  {
    AppendKeepsDone(s, Taken(id));
  }

  lemma StepKeepsDone(s: State, e: Event)
    requires Inv(s) && CancelsDone(s)
    ensures CancelsDone(Step(s, e))
  {
    match e {
      case Begin(_, _) => AppendKeepsDone(s, FrameSent(|s.requests|));
      case SendReturns(id) => ContinuedIsDone(s, id);
      case SendThrows(id) =>
        DropKeeps(s);
        ContinuedIsDone(FailConnection(s), id);
      case Abort(id) => AbortIsDone(s, id);
      case Response(id, answer) => AnsweredKeepsDone(s, id, answer);
      case _ =>
    }
  }

  lemma ContinuedIsDone(s: State, id: nat)
    requires Inv(s) && CancelsDone(s)
    ensures CancelsDone(Continued(s, id))
  {
    if id < |s.requests| && s.requests[id].sending {
      var t := s.(requests := s.requests[id := s.requests[id].(sending := false, sent := true)]);
      if s.requests[id].aborted {
        SendCancelIsDone(t, id);
      }
    }
  }

  lemma AbortIsDone(s: State, id: nat)
    requires Inv(s) && CancelsDone(s)
    ensures CancelsDone(AbortFired(s, id))
  {
    if id < |s.requests| && s.requests[id].listening {
      var r := s.requests[id].(aborted := true, listening := false).Settle(Aborted);
      SendCancelIsDone(s.(requests := s.requests[id := r]), id);
    }
  }

  /**
   An aborted request whose frame is out and which the server still owes has been cancelled exactly once, whether the
   abort came before or after its send returned.
   */
  lemma {:induction false} AbortedIsCancelledOnce(events: seq<Event>)
    ensures CancelsDone(Run(events))
    ensures forall id :: 0 <= id < |Run(events).requests| && Owed(Run(events).log, id)
                         && Run(events).requests[id].aborted && Run(events).requests[id].sent
                         ==> Cancels(Run(events).log, id) == 1
  {
    RunKeeps(events);
    if events != [] {
      RunKeeps(events[..|events| - 1]);
      AbortedIsCancelledOnce(events[..|events| - 1]);
      StepKeepsDone(Run(events[..|events| - 1]), events[|events| - 1]);
    }
    DoneIsOnce(Run(events));
  }

  lemma DoneIsOnce(s: State)
    requires Inv(s) && CancelsDone(s)
    ensures forall id :: 0 <= id < |s.requests| && Owed(s.log, id) && s.requests[id].aborted && s.requests[id].sent
                         ==> Cancels(s.log, id) == 1
  {
    forall id | 0 <= id < |s.requests| && Owed(s.log, id) && s.requests[id].aborted && s.requests[id].sent
      ensures Cancels(s.log, id) == 1
    {
      assert RequestOk(s.requests[id], id in s.pending, FrameSent(id) in s.log, Cancels(s.log, id));
    }
  }
}
