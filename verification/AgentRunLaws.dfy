/**
 What holds of every reference run of the agent loop (packages/agent/src/agent-loop.ts), and so, by AgentLoop, of every
 run of the loop itself: queued messages are conserved, follow-ups come last, the three copies of the transcript agree
 at every `turn_end`, and the model is asked with its tools declared.
 */
module AgentRunLaws {
  import opened Wrappers
  import opened AgentMessages
  import opened AgentTrace
  import opened AgentQueues
  import opened ToolDeclarations
  import opened ToolBatches
  import opened AgentRuns

  // ----- Queued messages are conserved ----------------------------------------------------------

  /** All messages the turns took from one queue. */
  function TakenFrom(turns: seq<Turn>, o: Origin): seq<Message> {
    if turns == [] then []
    else
      var last := turns[|turns| - 1];
      TakenFrom(turns[..|turns| - 1], o) + if last.origin == o then last.taken else []
  }

  /** What turns took, then what is pending, then what is still queued. */
  function Account(s: Stand, o: Origin): seq<Message> {
    TakenFrom(s.turns, o) + s.Held(o)
  }

  lemma PollConserves(setup: Setup, s: Stand, o: Origin)
    requires s.pending == []
    ensures Account(Poll(setup, s), o) == Account(s, o)
  {
    assert Poll(setup, s).Held(o) == s.Held(o);
  }

  lemma ArrivalAccounted(s: Stand, more: seq<Message>, o: Origin)
    ensures Account(s.(steering := s.steering + more), o) == Account(s, o) + if o.Steering? then more else []
    ensures Account(s.(followUps := s.followUps + more), o) == Account(s, o) + if o.FollowUp? then more else []
  {
    assert s.(steering := s.steering + more).Held(o) == s.Held(o) + if o.Steering? then more else [];
    assert s.(followUps := s.followUps + more).Held(o) == s.Held(o) + if o.FollowUp? then more else [];
  }

  lemma OpenedConserves(setup: Setup, s: Stand, script: TurnScript, o: Origin)
    ensures Account(Opened(setup, s, script), o) == Account(s, o) + if o.Steering? then script.steeringBefore else []
  {
    ArrivalAccounted(s, script.steeringBefore, o);
    var t := s.(steering := s.steering + script.steeringBefore, context := Replaced(s.context, script));
    if s.turns != [] && s.pending == [] {
      PollConserves(setup, t, o);
    }
  }

  lemma TakenConserves(s: Stand, turn: Turn, o: Origin)
    requires turn.origin == s.origin && turn.taken == s.pending
    ensures Account(Taken(s, turn), o) == Account(s, o)
  {
    assert (s.turns + [turn])[..|s.turns|] == s.turns;
    assert Taken(s, turn).Held(o) == if o.Steering? then s.steering else s.followUps;
  }

  lemma ClosedConserves(setup: Setup, s: Stand, script: TurnScript, o: Origin)
    requires s.pending == []
    ensures Account(Closed(setup, s, script), o)
         == Account(s, o) + if o.Steering? then script.steeringAfter else script.followUpsAfter
  {
    var t := s.(steering := s.steering + script.steeringAfter);
    ArrivalAccounted(s, script.steeringAfter, o);
    ArrivalAccounted(t, script.followUpsAfter, o);
    var u := t.(followUps := t.followUps + script.followUpsAfter);
    PollConserves(setup, u, o);
    assert u == s.(steering := s.steering + script.steeringAfter, followUps := s.followUps + script.followUpsAfter);
  }

  lemma FollowedUpConserves(setup: Setup, s: Stand, o: Origin)
    ensures Account(FollowedUp(setup, s), o) == Account(s, o)
  {
    if FollowedUp(setup, s) != s && !FollowedUp(setup, s).over {
      assert FollowedUp(setup, s).Held(o) == s.Held(o);
    }
  }

  lemma TurnConserves(setup: Setup, s: Stand, script: TurnScript, prepared: seq<Message>, o: Origin)
    ensures Account(Taken(s, NewTurn(setup, s, script, prepared)), o) == Account(s, o)
    ensures Taken(s, NewTurn(setup, s, script, prepared)).pending == []
  {
    TakenConserves(s, NewTurn(setup, s, script, prepared), o);
  }

  lemma InnerConserves(setup: Setup, s: Stand, script: TurnScript, o: Origin)
    ensures Account(Inner(setup, s, script), o) == Account(s, o) + ArrivedIn(script, o)
  {
    var ready := Opened(setup, s, script);
    OpenedConserves(setup, s, script, o);
    TurnConserves(setup, ready, script, PreparedFor(s, script), o);
    ClosedConserves(setup, Taken(ready, NewTurn(setup, ready, script, PreparedFor(s, script))), script, o);
    SumOfArrivals(Account(s, o), script.steeringBefore, script.steeringAfter);
  }

  lemma PassConserves(setup: Setup, s: Stand, script: TurnScript, o: Origin)
    ensures Account(Pass(setup, s, script), o) == Account(s, o) + if s.over then [] else ArrivedIn(script, o)
  {
    InnerConserves(setup, s, script, o);
    FollowedUpConserves(setup, Inner(setup, s, script), o);
  }

  /** What waited at the start and what arrived during the turns is accounted for. */
  predicate Conserved(s0: Stand, s: Stand, scripts: seq<TurnScript>, o: Origin) {
    |s.turns| <= |scripts| && s0.Held(o) + Arrivals(scripts[..|s.turns|], o) == Account(s, o)
  }

  lemma ConservedMore(s0: Stand, before: Stand, after: Stand, scripts: seq<TurnScript>, o: Origin)
    requires scripts != [] && Conserved(s0, before, scripts[..|scripts| - 1], o)
    requires before.over ==> after == before
    requires !before.over ==>
      && |before.turns| == |scripts| - 1 && |after.turns| == |scripts|
      && Account(after, o) == Account(before, o) + ArrivedIn(scripts[|scripts| - 1], o)
    ensures Conserved(s0, after, scripts, o)
  {
    var n := |scripts| - 1;
    assert scripts[..n][..|before.turns|] == scripts[..|before.turns|];
    if !before.over {
      assert scripts[..n + 1] == scripts && scripts[..n][..n] == scripts[..n];
      SumOfArrivals(s0.Held(o), Arrivals(scripts[..n], o), ArrivedIn(scripts[n], o));
    }
  }

  lemma PassMoves(setup: Setup, s: Stand, script: TurnScript, o: Origin)
    ensures s.over ==> Pass(setup, s, script) == s
    ensures !s.over ==>
      && |Pass(setup, s, script).turns| == |s.turns| + 1
      && Account(Pass(setup, s, script), o) == Account(s, o) + ArrivedIn(script, o)
  {
    PassAddsTurn(setup, s, script);
    PassConserves(setup, s, script, o);
  }

  /**
   Per queue and in order: what waited at the start and what arrived during the turns is what turns took, followed by
   what is pending, followed by what is still queued. Nothing is lost, repeated or overtaken.
   */
  lemma QueueConserved(setup: Setup, s0: Stand, scripts: seq<TurnScript>, o: Origin)
    requires s0.turns == []
    ensures var s := After(setup, s0, scripts);
      |s.turns| <= |scripts| && s0.Held(o) + Arrivals(scripts[..|s.turns|], o) == TakenFrom(s.turns, o) + s.Held(o)
  {
    RunConserves(setup, s0, scripts, o);
  }

  lemma {:induction false} RunConserves(setup: Setup, s0: Stand, scripts: seq<TurnScript>, o: Origin)
    requires s0.turns == []
    ensures Conserved(s0, After(setup, s0, scripts), scripts, o)
  {
    if scripts == [] {
      SumOfArrivals(s0.Held(o), [], []);
      assert Account(s0, o) == [] + s0.Held(o) == s0.Held(o);
    } else {
      var n := |scripts| - 1;
      RunConserves(setup, s0, scripts[..n], o);
      TurnCount(setup, s0, scripts[..n]);
      PassMoves(setup, After(setup, s0, scripts[..n]), scripts[n], o);
      ConservedMore(s0, After(setup, s0, scripts[..n]), After(setup, s0, scripts), scripts, o);
    }
  }

  // ----- Which queue a turn serves --------------------------------------------------------------

  function ModeFor(setup: Setup, o: Origin): QueueMode {
    if o.Steering? then setup.steeringMode else setup.followUpMode
  }

  /** What is pending is what one poll found; follow-ups only when nothing else was left to do. */
  ghost predicate PendingSound(setup: Setup, s: Stand) {
    && (s.origin.FollowUp? ==> s.pending != [] && s.turns != [] && !s.LastMore() && s.steering == [])
    && (s.pending != [] ==> s.pending == Drained(s.Held(s.origin), ModeFor(setup, s.origin)))
  }

  lemma PollIsSound(setup: Setup, s: Stand)
    ensures PendingSound(setup, Poll(setup, s))
    ensures !s.skipPoll && Poll(setup, s).pending == [] ==> Poll(setup, s).steering == []
  {
  }

  lemma PassIsSound(setup: Setup, s: Stand, script: TurnScript)
    requires PendingSound(setup, s) && !s.skipPoll
    ensures PendingSound(setup, Pass(setup, s, script)) && !Pass(setup, s, script).skipPoll
  {
    if !s.over {
      var o := Opened(setup, s, script);
      var t := Taken(o, NewTurn(setup, o, script, PreparedFor(s, script)));
      assert !t.skipPoll && PendingSound(setup, t);
      ClosedIsSound(setup, t, script);
    }
  }

  lemma ClosedIsSound(setup: Setup, t: Stand, script: TurnScript)
    requires PendingSound(setup, t) && !t.skipPoll && t.pending == [] && t.turns != []
    ensures var c := Closed(setup, t, script);
      && PendingSound(setup, c) && !c.skipPoll
      && PendingSound(setup, FollowedUp(setup, c)) && !FollowedUp(setup, c).skipPoll
  {
    var u := t.(steering := t.steering + script.steeringAfter, followUps := t.followUps + script.followUpsAfter);
    PollIsSound(setup, u);
  }

  lemma {:induction false} RunIsSound(setup: Setup, s0: Stand, scripts: seq<TurnScript>)
    requires PendingSound(setup, s0) && !s0.skipPoll
    ensures PendingSound(setup, After(setup, s0, scripts)) && !After(setup, s0, scripts).skipPoll
  {
    if scripts != [] {
      RunIsSound(setup, s0, scripts[..|scripts| - 1]);
      PassIsSound(setup, After(setup, s0, scripts[..|scripts| - 1]), scripts[|scripts| - 1]);
    }
  }

  /** What one turn takes: what the last poll left pending, or what one more poll finds. */
  function TakenAt(setup: Setup, before: Stand, script: TurnScript): seq<Message> {
    if before.pending != [] then Drained(before.Held(before.origin), ModeFor(setup, before.origin))
    else if before.turns == [] then []
    else Drained(before.steering + script.steeringBefore, setup.steeringMode)
  }

  /**
   A turn takes exactly what one poll drained from one queue: everything that waited, or the oldest message. It takes
   follow-ups only after a turn that left no tool work, when the steering queue had been polled empty.
   */
  lemma FollowUpsComeLast(setup: Setup, s0: Stand, scripts: seq<TurnScript>, k: nat)
    requires Fresh(s0) && PendingSound(setup, s0) && k < |After(setup, s0, scripts).turns|
    ensures k < |scripts|
    ensures var turns, before := After(setup, s0, scripts).turns, After(setup, s0, scripts[..k]);
      && turns[k].taken == TakenAt(setup, before, scripts[k])
      && (turns[k].origin.FollowUp? <==> before.pending != [] && before.origin.FollowUp?)
      && (turns[k].origin.FollowUp? ==> k > 0 && !turns[k - 1].moreToolCalls && before.steering == [])
  {
    TurnOf(setup, s0, scripts, k);
    RunIsSound(setup, s0, scripts[..k]);
    OpenedServes(setup, After(setup, s0, scripts[..k]), scripts[k]);
  }

  /** The preparation keeps what is pending, or makes the one poll there is. */
  lemma OpenedServes(setup: Setup, s: Stand, script: TurnScript)
    requires PendingSound(setup, s) && !s.skipPoll && (s.turns == [] ==> s.origin.Steering?)
    ensures var o := Opened(setup, s, script);
      && o.pending == TakenAt(setup, s, script)
      && (o.origin.FollowUp? <==> s.pending != [] && s.origin.FollowUp?)
  {
  }

  // ----- Where a run ends -----------------------------------------------------------------------

  /** A pass ends the run at once after a failed response or on demand, and otherwise when nothing is left to do. */
  lemma PassEnds(setup: Setup, s: Stand, script: TurnScript)
    requires !s.over && !s.skipPoll && script.response.Assistant?
    ensures var p, reason := Pass(setup, s, script), script.response.stopReason;
      && p.turns != []
      && (reason == Error || reason == Aborted || script.stopAfterTurn ==> p.over && p.pending == [])
      && (reason != Error && reason != Aborted && !script.stopAfterTurn ==>
            (p.over <==> !p.turns[|p.turns| - 1].moreToolCalls
                         && p.pending == [] && p.steering == [] && p.followUps == []))
  {
    var o := Opened(setup, s, script);
    var t := Taken(o, NewTurn(setup, o, script, PreparedFor(s, script)));
    assert !t.skipPoll && t.pending == [] && t.turns != [];
    ClosedEnds(setup, t, script);
  }

  lemma ClosedEnds(setup: Setup, t: Stand, script: TurnScript)
    requires !t.over && !t.skipPoll && t.pending == [] && t.turns != [] && script.response.Assistant?
    ensures var p, reason := FollowedUp(setup, Closed(setup, t, script)), script.response.stopReason;
      && p.turns == t.turns
      && (reason == Error || reason == Aborted || script.stopAfterTurn ==> p.over && p.pending == [])
      && (reason != Error && reason != Aborted && !script.stopAfterTurn ==>
            (p.over <==> !p.turns[|p.turns| - 1].moreToolCalls
                         && p.pending == [] && p.steering == [] && p.followUps == []))
  {
  }

  /**
   Turn k, by its response and the hook after it. A failed or aborted response executes nothing and ends the run; so
   does the hook; and then neither queue is polled any more: all that was not taken by a turn is still queued. Any other
   turn ends the run exactly if it left no tool work and both queues are empty.
   */
  lemma RunEndsExactly(setup: Setup, s0: Stand, scripts: seq<TurnScript>, k: nat)
    requires Fresh(s0) && PendingSound(setup, s0) && setup.Faithful()
    requires k < |After(setup, s0, scripts).turns| && k < |scripts| && scripts[k].response.Assistant?
    ensures var s, then', reason := After(setup, s0, scripts), After(setup, s0, scripts[..k + 1]),
                                    scripts[k].response.stopReason;
      && s.turns[k].response == scripts[k].response
      && (reason == Error || reason == Aborted ==> s.turns[k].results == [])
      && (reason == Error || reason == Aborted || scripts[k].stopAfterTurn ==>
            k == |s.turns| - 1 && s.over && s == then' && s.pending == [])
      && (reason != Error && reason != Aborted && !scripts[k].stopAfterTurn ==>
            (then'.over <==> !s.turns[k].moreToolCalls
                             && then'.pending == [] && then'.steering == [] && then'.followUps == []))
      && (then'.over ==> s == then')
  {
    FailedExecutesNothing(setup, s0, scripts, k);
    StillRunning(setup, s0, scripts, k);
    RunIsSound(setup, s0, scripts[..k]);
    RunMore(setup, s0, scripts, k);
    PassEnds(setup, After(setup, s0, scripts[..k]), scripts[k]);
    LastOfThen(setup, s0, scripts, k);
  }

  lemma FailedExecutesNothing(setup: Setup, s0: Stand, scripts: seq<TurnScript>, k: nat)
    requires Fresh(s0) && setup.Faithful() && k < |After(setup, s0, scripts).turns|
    ensures k < |scripts| && After(setup, s0, scripts).turns[k].response == scripts[k].response
    ensures scripts[k].response.Assistant?
            && (scripts[k].response.stopReason == Error || scripts[k].response.stopReason == Aborted)
            ==> After(setup, s0, scripts).turns[k].results == []
  {
    ResultsAreTheBatch(setup, s0, scripts, k);
  }

  /** The run after k + 1 scripts has the first k + 1 turns, and stays as it is once it is over. */
  lemma LastOfThen(setup: Setup, s0: Stand, scripts: seq<TurnScript>, k: nat)
    requires Fresh(s0) && k < |After(setup, s0, scripts).turns| && k < |scripts|
    ensures var s, then' := After(setup, s0, scripts), After(setup, s0, scripts[..k + 1]);
      && |then'.turns| == k + 1 && then'.turns[k] == s.turns[k]
      && (then'.over ==> s == then')
  {
    StillRunning(setup, s0, scripts, k);
    TurnsGrow(setup, s0, scripts, k);
    TurnsPrefix(setup, s0, scripts, k + 1);
    if After(setup, s0, scripts[..k + 1]).over {
      OverStays(setup, s0, scripts, k + 1);
    }
  }

  /** After the turn that ended a run on its own account, each queue holds all that no turn has taken. */
  lemma NothingPolledAfterEnd(setup: Setup, s0: Stand, scripts: seq<TurnScript>, k: nat, o: Origin)
    requires Fresh(s0) && PendingSound(setup, s0) && setup.Faithful()
    requires k < |After(setup, s0, scripts).turns| && k < |scripts| && scripts[k].response.Assistant?
    requires scripts[k].response.stopReason == Error || scripts[k].response.stopReason == Aborted
             || scripts[k].stopAfterTurn
    ensures var s := After(setup, s0, scripts);
      s0.Held(o) + Arrivals(scripts[..k + 1], o)
      == TakenFrom(s.turns, o) + if o.Steering? then s.steering else s.followUps
  {
    RunEndsExactly(setup, s0, scripts, k);
    QueueConserved(setup, s0, scripts, o);
    var s := After(setup, s0, scripts);
    assert s.Held(o) == if o.Steering? then s.steering else s.followUps;
  }

  // ----- What the turns leave behind ------------------------------------------------------------

  function TurnMessages(turns: seq<Turn>): seq<Message> {
    if turns == [] then [] else TurnMessages(turns[..|turns| - 1]) + turns[|turns| - 1].Messages()
  }

  /** What the results of the turns repeat. */
  function TurnReports(turns: seq<Turn>): multiset<Report> {
    if turns == [] then multiset{} else TurnReports(turns[..|turns| - 1]) + AnswersOf(turns[|turns| - 1].results)
  }

  /** The records of turn k: its request, its ending with all messages completed by then, and the loop's transcript. */
  predicate RecordIs(s: Stand, start: seq<Message>, k: nat)
    requires k < |s.turns| == |s.requests| == |s.endings| == |s.witnessed|
  {
    && s.requests[k] == s.turns[k].Request()
    && s.endings[k] == Ending(s.turns[k].response, s.turns[k].results, start + TurnMessages(s.turns[..k + 1]),
                              TurnReports(s.turns[..k + 1]))
    && s.witnessed[k] == s.turns[k].Transcript()
  }

  /** There is one record per turn, and the new messages are those of the turns. */
  ghost predicate Recorded(s: Stand, start: seq<Message>) {
    && |s.turns| == |s.requests| == |s.endings| == |s.witnessed|
    && s.newMessages == start + TurnMessages(s.turns) && s.reported == TurnReports(s.turns)
    && forall k :: 0 <= k < |s.turns| ==> RecordIs(s, start, k)
  }

  lemma TakenIsRecorded(s: Stand, turn: Turn, start: seq<Message>)
    requires Recorded(s, start) && turn.context == s.context
    ensures Recorded(Taken(s, turn), start)
  {
    var t := Taken(s, turn);
    assert t.turns[..|s.turns|] == s.turns && t.turns[..|s.turns| + 1] == t.turns;
    assert start + TurnMessages(t.turns) == s.newMessages + turn.Messages();
    forall k | 0 <= k < |t.turns| ensures RecordIs(t, start, k) {
      if k < |s.turns| {
        assert RecordIs(s, start, k);
        assert t.turns[..k + 1] == s.turns[..k + 1];
      }
    }
  }

  /** Nothing but queues, polls and a replaced context differ. */
  ghost predicate SameRecords(s: Stand, t: Stand) {
    && t.turns == s.turns && t.requests == s.requests && t.endings == s.endings && t.witnessed == s.witnessed
    && t.newMessages == s.newMessages && t.reported == s.reported
  }

  lemma RecordsStay(s: Stand, t: Stand, start: seq<Message>)
    requires Recorded(s, start) && SameRecords(s, t)
    ensures Recorded(t, start)
  {
    forall k | 0 <= k < |t.turns| ensures RecordIs(t, start, k) {
      assert RecordIs(s, start, k);
    }
  }

  lemma OpenedKeepsRecords(setup: Setup, s: Stand, script: TurnScript)
    ensures SameRecords(s, Opened(setup, s, script))
    ensures Opened(setup, s, script).context == if s.turns == [] then s.context else Replaced(s.context, script)
  {
  }

  lemma ClosedKeepsRecords(setup: Setup, t: Stand, script: TurnScript)
    ensures SameRecords(t, Closed(setup, t, script)) && Closed(setup, t, script).context == t.context
  {
  }

  lemma FollowedUpKeepsRecords(setup: Setup, t: Stand)
    ensures SameRecords(t, FollowedUp(setup, t)) && FollowedUp(setup, t).context == t.context
  {
  }

  /** A pass records what the turn it takes leaves behind, and nothing else. */
  lemma PassRecords(setup: Setup, s: Stand, script: TurnScript) returns (o: Stand, turn: Turn)
    requires !s.over
    ensures SameRecords(s, o) && turn.context == o.context
    ensures o.context == if s.turns == [] then s.context else Replaced(s.context, script)
    ensures SameRecords(Taken(o, turn), Pass(setup, s, script))
    ensures Pass(setup, s, script).context == Taken(o, turn).context
  {
    o := Opened(setup, s, script);
    turn := NewTurn(setup, o, script, PreparedFor(s, script));
    OpenedKeepsRecords(setup, s, script);
    ClosedKeepsRecords(setup, Taken(o, turn), script);
    FollowedUpKeepsRecords(setup, Inner(setup, s, script));
  }

  lemma PassIsRecorded(setup: Setup, s: Stand, script: TurnScript, start: seq<Message>)
    requires Recorded(s, start)
    ensures Recorded(Pass(setup, s, script), start)
  {
    if !s.over {
      var o, turn := PassRecords(setup, s, script);
      RecordsStay(s, o, start);
      TakenIsRecorded(o, turn, start);
      RecordsStay(Taken(o, turn), Pass(setup, s, script), start);
    }
  }

  /** Every run keeps one record per turn. */
  lemma {:induction false} RunIsRecorded(setup: Setup, s0: Stand, scripts: seq<TurnScript>)
    requires Fresh(s0)
    ensures Recorded(After(setup, s0, scripts), s0.newMessages)
  {
    if scripts == [] {
      assert s0.newMessages + TurnMessages([]) == s0.newMessages;
    } else {
      RunIsRecorded(setup, s0, scripts[..|scripts| - 1]);
      PassIsRecorded(setup, After(setup, s0, scripts[..|scripts| - 1]), scripts[|scripts| - 1], s0.newMessages);
    }
  }

  ghost predicate NeverReplaces(scripts: seq<TurnScript>) {
    forall k :: 0 <= k < |scripts| ==> scripts[k].update.None? || scripts[k].update.value.context.None?
  }

  /** The loop's transcript is the initial one followed by the messages of the turns, now and at every `turn_end`. */
  ghost predicate Continuous(s: Stand, initial: seq<Message>) {
    && s.context.messages == initial + TurnMessages(s.turns)
    && |s.witnessed| == |s.turns|
    && forall k :: 0 <= k < |s.turns| ==> s.witnessed[k] == initial + TurnMessages(s.turns[..k + 1])
  }

  lemma TakenIsContinuous(s: Stand, turn: Turn, initial: seq<Message>)
    requires Continuous(s, initial) && turn.context == s.context
    ensures Continuous(Taken(s, turn), initial)
  {
    var t := Taken(s, turn);
    assert t.turns[..|s.turns|] == s.turns && t.turns[..|s.turns| + 1] == t.turns;
    assert initial + TurnMessages(t.turns) == s.context.messages + turn.Messages();
    forall k | 0 <= k < |t.turns| ensures t.witnessed[k] == initial + TurnMessages(t.turns[..k + 1]) {
      if k < |s.turns| {
        assert t.turns[..k + 1] == s.turns[..k + 1];
      }
    }
  }

  lemma ContinuousStays(s: Stand, t: Stand, initial: seq<Message>)
    requires Continuous(s, initial) && SameRecords(s, t) && t.context == s.context
    ensures Continuous(t, initial)
  {
  }

  lemma PassIsContinuous(setup: Setup, s: Stand, script: TurnScript, initial: seq<Message>)
    requires Continuous(s, initial) && (script.update.None? || script.update.value.context.None?)
    ensures Continuous(Pass(setup, s, script), initial)
  {
    if !s.over {
      var o, turn := PassRecords(setup, s, script);
      ContinuousStays(s, o, initial);
      TakenIsContinuous(o, turn, initial);
      ContinuousStays(Taken(o, turn), Pass(setup, s, script), initial);
    }
  }

  /** As long as no context is replaced, the transcript only grows by the messages of the turns. */
  lemma {:induction false} RunIsContinuous(setup: Setup, s0: Stand, scripts: seq<TurnScript>)
    requires Fresh(s0) && NeverReplaces(scripts)
    ensures Continuous(After(setup, s0, scripts), s0.context.messages)
  {
    if scripts == [] {
      assert s0.context.messages + TurnMessages([]) == s0.context.messages;
    } else {
      var n := |scripts| - 1;
      RunIsContinuous(setup, s0, scripts[..n]);
      PassIsContinuous(setup, After(setup, s0, scripts[..n]), scripts[n], s0.context.messages);
    }
  }

  /**
   At every `turn_end` of the run's trace three copies of the transcript agree: an Agent that reduced the events has its
   old transcript followed by the new messages so far, which are those of the turns so far, with nothing pending or
   streaming; and if it started from the loop's transcript and no context was replaced, the loop's own is that list too.
   */
  lemma TranscriptsAgree(setup: Setup, s0: Stand, scripts: seq<TurnScript>, trace: seq<Event>, n: nat,
                         agent: AgentState)
    requires Fresh(s0) && Scan(trace) != Bad && Endings(trace) == After(setup, s0, scripts).endings
    requires n < |trace| && trace[n].TurnEnd? && agent.pendingToolCalls == {} && agent.streamingMessage == None
    ensures var s, k, r := After(setup, s0, scripts), |Endings(trace[..n])|, ReduceAll(agent, trace[..n + 1]);
      && k < |s.turns| == |s.witnessed| && trace[n] == TurnEnd(s.turns[k].response, s.turns[k].results)
      && r.messages == agent.messages + (s0.newMessages + TurnMessages(s.turns[..k + 1]))
      && r.pendingToolCalls == {} && r.streamingMessage == None
      && (NeverReplaces(scripts) && agent.messages + s0.newMessages == s0.context.messages
          ==> s.witnessed[k] == r.messages)
  {
    RunIsRecorded(setup, s0, scripts);
    AgentAtTurnEnd(After(setup, s0, scripts), s0.newMessages, trace, n, agent);
    if NeverReplaces(scripts) {
      RunIsContinuous(setup, s0, scripts);
      SumOfArrivals(agent.messages, s0.newMessages,
                    TurnMessages(After(setup, s0, scripts).turns[..|Endings(trace[..n])| + 1]));
    }
  }

  /** What an Agent has made of a trace up to one of its `turn_end` events. */
  lemma AgentAtTurnEnd(s: Stand, start: seq<Message>, trace: seq<Event>, n: nat, agent: AgentState)
    requires Recorded(s, start) && Scan(trace) != Bad && Endings(trace) == s.endings
    requires n < |trace| && trace[n].TurnEnd? && agent.pendingToolCalls == {} && agent.streamingMessage == None
    ensures var k, r := |Endings(trace[..n])|, ReduceAll(agent, trace[..n + 1]);
      && k < |s.turns| && trace[n] == TurnEnd(s.turns[k].response, s.turns[k].results)
      && r.messages == agent.messages + (start + TurnMessages(s.turns[..k + 1]))
      && r.pendingToolCalls == {} && r.streamingMessage == None
  {
    EndingIsTurn(s, start, trace, n);
    ReducedAtTurnEnd(trace, n, agent);
  }

  /** The `turn_end` at position n is that of a turn, with the messages of the turns so far completed. */
  lemma EndingIsTurn(s: Stand, start: seq<Message>, trace: seq<Event>, n: nat)
    requires Recorded(s, start) && Endings(trace) == s.endings && n < |trace| && trace[n].TurnEnd?
    ensures var k := |Endings(trace[..n])|;
      && k < |s.turns| && trace[n] == TurnEnd(s.turns[k].response, s.turns[k].results)
      && Ended(trace[..n + 1]) == start + TurnMessages(s.turns[..k + 1])
      && AllReported(trace[..n + 1]) == TurnReports(s.turns[..k + 1])
  {
    EndingAt(trace, n);
    assert RecordIs(s, start, |Endings(trace[..n])|);
  }

  lemma ReducedAtTurnEnd(trace: seq<Event>, n: nat, agent: AgentState)
    requires Scan(trace) != Bad && n < |trace| && trace[n].TurnEnd?
    requires agent.pendingToolCalls == {} && agent.streamingMessage == None
    ensures var r := ReduceAll(agent, trace[..n + 1]);
      r.messages == agent.messages + Ended(trace[..n + 1]) && r.pendingToolCalls == {} && r.streamingMessage == None
  {
    GoodPrefix(trace, n + 1);
    AtTurnEnd(trace, n);
    AgentFollowsTrace(agent, trace[..n + 1]);
  }

  /**
   At every `turn_end` of the run's trace, what the ends of tool calls have reported is exactly what the result messages
   of the turns so far repeat: each result had its one end, and each end its result.
   */
  lemma EveryResultReported(setup: Setup, s0: Stand, scripts: seq<TurnScript>, trace: seq<Event>, n: nat)
    requires Fresh(s0) && Endings(trace) == After(setup, s0, scripts).endings
    requires n < |trace| && trace[n].TurnEnd?
    ensures |Endings(trace[..n])| < |After(setup, s0, scripts).turns|
    ensures AllReported(trace[..n + 1]) == TurnReports(After(setup, s0, scripts).turns[..|Endings(trace[..n])| + 1])
  {
    RunIsRecorded(setup, s0, scripts);
    EndingIsTurn(After(setup, s0, scripts), s0.newMessages, trace, n);
  }

  lemma AtTurnEnd(trace: seq<Event>, n: nat)
    requires n < |trace| && trace[n].TurnEnd? && Scan(trace[..n + 1]) != Bad
    ensures Scan(trace[..n + 1]).Between?
  {
    assert trace[..n + 1][..n] == trace[..n];
  }

  // ----- What the model is asked ----------------------------------------------------------------

  /** What a turn appends is its prepared and taken messages, declared against its own context. */
  lemma TurnDeclares(setup: Setup, s0: Stand, scripts: seq<TurnScript>, k: nat)
    requires Fresh(s0) && setup.Faithful() && k < |After(setup, s0, scripts).turns|
    ensures var turn := After(setup, s0, scripts).turns[k];
      turn.appended == Declare(turn.context, turn.prepared + turn.taken)
  {
    TurnOf(setup, s0, scripts, k);
  }

  /**
   A context the loop asks the model with declares exactly its executable tools if and only if none of them is shadowed
   by a different one of its name that was declared before the turn; so always, if no two of them conflict.
   */
  lemma RequestsDeclareTools(setup: Setup, s0: Stand, scripts: seq<TurnScript>, k: nat)
    requires Fresh(s0) && setup.Faithful() && k < |After(setup, s0, scripts).requests|
    ensures k < |After(setup, s0, scripts).turns|
    ensures var request, turn := After(setup, s0, scripts).requests[k], After(setup, s0, scripts).turns[k];
      && request.tools == turn.context.tools
      && (DeclaresTools(request.messages, request.tools)
          <==> Settles(Previous(turn.context, turn.prepared + turn.taken), Declarations(request.tools)))
      && (NoConflicts(Declarations(request.tools)) ==> DeclaresTools(request.messages, request.tools))
  {
    RunIsRecorded(setup, s0, scripts);
    assert RecordIs(After(setup, s0, scripts), s0.newMessages, k);
    TurnDeclares(setup, s0, scripts, k);
    var turn := After(setup, s0, scripts).turns[k];
    DeclareExact(turn.context, turn.prepared + turn.taken);
    if NoConflicts(Declarations(turn.context.tools)) {
      DeclareExactWithoutConflicts(turn.context, turn.prepared + turn.taken);
    }
  }

  /** The context a turn leaves behind: its own, with what was appended, the response and the results. */
  function Left(turn: Turn): Context {
    Context(turn.context.messages + turn.appended + [turn.response] + turn.results, turn.context.tools)
  }

  lemma PassLeaves(setup: Setup, s: Stand, script: TurnScript)
    requires !s.over
    ensures var p := Pass(setup, s, script);
      |p.turns| == |s.turns| + 1 && p.context == Left(p.turns[|s.turns|])
  {
    var o, turn := PassRecords(setup, s, script);
    assert Taken(o, turn).turns == s.turns + [turn];
    assert turn.context.messages + turn.Messages()
        == turn.context.messages + turn.appended + [turn.response] + turn.results;
  }

  /**
   A turn is made in the context that the turn before it left behind, or in the one that `prepareNextTurn` put in its
   place; the first one in the context the run began with. The model is asked with that and what the turn appends.
   */
  lemma ContextCarriesOn(setup: Setup, s0: Stand, scripts: seq<TurnScript>, k: nat)
    requires Fresh(s0) && k < |After(setup, s0, scripts).turns|
    ensures var s := After(setup, s0, scripts);
      && k < |scripts| && |s.requests| == |s.turns|
      && s.turns[k].context == (if k == 0 then s0.context
                                else if scripts[k].update.Some? && scripts[k].update.value.context.Some?
                                then scripts[k].update.value.context.value
                                else Left(s.turns[k - 1]))
      && s.requests[k] == Context(s.turns[k].context.messages + s.turns[k].appended, s.turns[k].context.tools)
  {
    RequestIs(setup, s0, scripts, k);
    TurnIsPrepared(setup, s0, scripts, k);
    if k > 0 {
      ContextLeft(setup, s0, scripts, k);
    } else {
      assert scripts[..0] == [];
    }
  }

  lemma ContextLeft(setup: Setup, s0: Stand, scripts: seq<TurnScript>, k: nat)
    requires Fresh(s0) && 0 < k < |After(setup, s0, scripts).turns|
    ensures k <= |scripts| && After(setup, s0, scripts[..k]).context == Left(After(setup, s0, scripts).turns[k - 1])
  {
    StillRunning(setup, s0, scripts, k);
    StillRunning(setup, s0, scripts, k - 1);
    NextContext(setup, s0, scripts, k - 1);
    TurnsPrefix(setup, s0, scripts, k);
    assert After(setup, s0, scripts[..k]).turns[k - 1] == After(setup, s0, scripts).turns[k - 1];
  }

  lemma NextContext(setup: Setup, s0: Stand, scripts: seq<TurnScript>, k: nat)
    requires k < |scripts| && !After(setup, s0, scripts[..k]).over && |After(setup, s0, scripts[..k]).turns| == k
    ensures var s := After(setup, s0, scripts[..k + 1]);
      |s.turns| == k + 1 && s.context == Left(s.turns[k])
  {
    RunMore(setup, s0, scripts, k);
    PassLeaves(setup, After(setup, s0, scripts[..k]), scripts[k]);
  }

  lemma RequestIs(setup: Setup, s0: Stand, scripts: seq<TurnScript>, k: nat)
    requires Fresh(s0) && k < |After(setup, s0, scripts).turns|
    ensures var s := After(setup, s0, scripts);
      && |s.requests| == |s.turns|
      && s.requests[k] == Context(s.turns[k].context.messages + s.turns[k].appended, s.turns[k].context.tools)
  {
    RunIsRecorded(setup, s0, scripts);
    assert RecordIs(After(setup, s0, scripts), s0.newMessages, k);
  }

  /** A turn's prepared messages are what `prepareNextTurn` returned for it. */
  lemma TurnIsPrepared(setup: Setup, s0: Stand, scripts: seq<TurnScript>, k: nat)
    requires Fresh(s0) && k < |After(setup, s0, scripts).turns|
    ensures k < |scripts|
    ensures After(setup, s0, scripts).turns[k].prepared
         == if k == 0 || scripts[k].update.None? then [] else scripts[k].update.value.messages
    ensures After(setup, s0, scripts).turns[k].context
         == var before := After(setup, s0, scripts[..k]).context;
            if k == 0 then before else Replaced(before, scripts[k])
  {
    TurnOf(setup, s0, scripts, k);
    OpenedKeepsRecords(setup, After(setup, s0, scripts[..k]), scripts[k]);
  }

  /**
   What a turn prepared and took reaches its request: nothing is lost but the tool fields of the last system message.
   */
  lemma TakenReachesTranscript(setup: Setup, s0: Stand, scripts: seq<TurnScript>, k: nat)
    requires Fresh(s0) && setup.Faithful() && k < |After(setup, s0, scripts).turns|
    ensures var turn := After(setup, s0, scripts).turns[k];
            var pending, appended := turn.prepared + turn.taken, turn.appended;
            match LastSystem(pending)
            case Some(j) =>
              && |appended| == |pending| && appended[j].System? && appended[j].content == pending[j].content
              && forall i :: 0 <= i < |pending| && i != j ==> appended[i] == pending[i]
            case None =>
              appended == pending || exists m: Message :: m.System? && m.content == "" && appended == [m] + pending
  {
    TurnDeclares(setup, s0, scripts, k);
    var turn := After(setup, s0, scripts).turns[k];
    DeclarePreserves(turn.context, turn.prepared + turn.taken);
  }

  /**
   The batch of a response that did not fail: none without calls; one error per call if the response was cut off; and
   otherwise that of the executors.
   */
  lemma BatchByResponse(tools: seq<AgentTool>, script: TurnScript, toolExecution: ExecutionMode)
    requires script.response.Assistant?
    requires script.response.stopReason != Error && script.response.stopReason != Aborted
    ensures var batch, calls := TurnBatch(tools, script, toolExecution), CallsOf(script.response.blocks);
      && (calls == [] ==> batch == Batch([], true))
      && (calls != [] && script.response.stopReason == Length ==>
            && !batch.terminate && |batch.messages| == |calls|
            && forall i :: 0 <= i < |calls| ==>
                 batch.messages[i] == ToolResult(calls[i].id, calls[i].name, ArgumentsTruncated(calls[i].name), true))
      && (calls != [] && script.response.stopReason != Length ==>
            batch == BatchOf(tools, calls, script.calls, ModeOf(tools, calls, toolExecution)))
  {
  }

  /** The results a turn records are those of the batch its response asks for, with its tools. */
  lemma ResultsAreTheBatch(setup: Setup, s0: Stand, scripts: seq<TurnScript>, k: nat)
    requires Fresh(s0) && setup.Faithful() && k < |After(setup, s0, scripts).turns|
    ensures k < |scripts|
    ensures var turn := After(setup, s0, scripts).turns[k];
      turn.response == scripts[k].response
      && Batch(turn.results, !turn.moreToolCalls) == TurnBatch(turn.context.tools, scripts[k], setup.toolExecution)
  {
    TurnOf(setup, s0, scripts, k);
  }
}
