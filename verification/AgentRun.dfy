/**
 The reference run of packages/agent/src/agent-loop.ts: what one turn after another comes to, as a function of the
 scripts. AgentLoop runs the nested loops of the source and is proved to end where this function does.

 The model, the tools, the hooks and the user are oracles: each turn's answers come from a `TurnScript`, and a run whose
 scripts are exhausted is a prefix of a longer one. So what is proved for every list of scripts holds at every turn
 boundary of every run, finite or not.
 */
module AgentRuns {
  import opened Wrappers
  import opened AgentMessages
  import opened AgentTrace
  import opened AgentQueues
  import opened ToolDeclarations
  import opened ToolBatches

  /** What a model stream delivers; `Finish` is `done` or `error`. */
  datatype StreamEvent = Start(partial: Message) | Delta(partial: Message) | Finish

  /** One event of a running parallel batch: the `pick`-th unfinished call reports an update or completes. */
  datatype ParallelStep = ParallelStep(pick: nat, update: Option<string>)

  /** What `prepareNextTurn` returns; a replaced model or thinking level does not concern the transcript. */
  datatype TurnUpdate = TurnUpdate(context: Option<Context>, messages: seq<Message>)

  /**
   The answers of one turn. Messages are enqueued at any moment; what matters is the first poll they can meet, so they
   are listed as arriving before the turn's messages are taken, or after its end.
   */
  datatype TurnScript = TurnScript(
    update: Option<TurnUpdate>,
    steeringBefore: seq<Message>,
    stream: seq<StreamEvent>,
    response: Message,
    calls: nat -> CallScript,
    schedule: seq<ParallelStep>,
    stopAfterTurn: bool,
    steeringAfter: seq<Message>,
    followUpsAfter: seq<Message>)
  {
    /** The contract of a stream: it resolves to an assistant message and starts at most once. */
    ghost predicate Obeys() {
      && response.Assistant?
      && forall i, j :: 0 <= i < j < |stream| ==> !(stream[i].Start? && stream[j].Start?)
    }
  }

  datatype Origin = Steering | FollowUp

  /** What one turn took from a queue, what it was prepared with, and what it added. */
  datatype Turn = Turn(
    origin: Origin,
    taken: seq<Message>,
    prepared: seq<Message>,
    context: Context,
    appended: seq<Message>,
    response: Message,
    results: seq<Message>,
    moreToolCalls: bool)
  {
    function Messages(): seq<Message> {
      appended + [response] + results
    }

    /** The context the turn sent to the model. */
    function Request(): Context {
      context.(messages := context.messages + appended)
    }

    /** The loop's transcript at the end of the turn. */
    function Transcript(): seq<Message> {
      context.messages + Messages()
    }
  }

  predicate Failed(response: Message) {
    response.Assistant? && (response.stopReason == Error || response.stopReason == Aborted)
  }

  /** The tool batch a response asks for; a failed response asks for none. */
  function TurnBatch(tools: seq<AgentTool>, script: TurnScript, toolExecution: ExecutionMode): Batch {
    if !script.response.Assistant? || Failed(script.response) then Batch([], true)
    else
      var calls := CallsOf(script.response.blocks);
      if calls == [] then Batch([], true)
      else if script.response.stopReason == Length then TruncatedBatch(calls)
      else BatchOf(tools, calls, script.calls, ModeOf(tools, calls, toolExecution))
  }

  /** How the loop is configured, and the two functions its turns are measured by. */
  datatype Setup = Setup(toolExecution: ExecutionMode, steeringMode: QueueMode, followUpMode: QueueMode,
                         declare: (Context, seq<Message>) -> seq<Message>,
                         execute: (seq<AgentTool>, TurnScript) -> Batch)
  {
    /** The two functions are `Declare` and `TurnBatch`. */
    ghost predicate Faithful() {
      && (forall c, p {:trigger Declare(c, p)} :: Declare(c, p) == declare(c, p))
      && (forall tools, script {:trigger TurnBatch(tools, script, toolExecution)} ::
            TurnBatch(tools, script, toolExecution) == execute(tools, script))
    }
  }

  /**
   Where a run stands between two turns. `steering` and `followUps` are the messages still queued, `pending` those
   already polled for the next turn, from the queue `origin`. `requests`, `endings` and `witnessed` are what the model
   was asked, what each `turn_end` carried with the messages completed and the tool results reported by then, and the
   loop's transcript at it. `reported` is what the ends of tool calls have reported.
   */
  datatype Stand = Stand(
    context: Context,
    newMessages: seq<Message>,
    steering: seq<Message>,
    followUps: seq<Message>,
    skipPoll: bool,
    pending: seq<Message>,
    origin: Origin,
    turns: seq<Turn>,
    requests: seq<Context>,
    endings: seq<Ending>,
    witnessed: seq<seq<Message>>,
    reported: multiset<Report>,
    over: bool)
  {
    /** The last turn left tool work, or there was none yet. */
    predicate LastMore() {
      turns == [] || turns[|turns| - 1].moreToolCalls
    }

    /** The inner loop goes on. */
    predicate GoesOn() {
      LastMore() || pending != []
    }

    /** What of a queue has not been taken by a turn. */
    function Held(o: Origin): seq<Message> {
      (if origin == o then pending else []) + if o.Steering? then steering else followUps
    }
  }

  // ----- One turn -------------------------------------------------------------------------------

  /** A poll of the steering queue; the first poll of some runs is skipped. */
  function Poll(setup: Setup, s: Stand): Stand {
    if s.skipPoll then s.(skipPoll := false, pending := [], origin := Origin.Steering)
    else
      s.(pending := Drained(s.steering, setup.steeringMode), steering := Kept(s.steering, setup.steeringMode),
         origin := Origin.Steering)
  }

  function Replaced(context: Context, script: TurnScript): Context {
    if script.update.Some? && script.update.value.context.Some? then script.update.value.context.value else context
  }

  /** Messages that `prepareNextTurn` adds; it is not asked before the first turn. */
  function PreparedFor(s: Stand, script: TurnScript): seq<Message> {
    if s.turns == [] || script.update.None? then [] else script.update.value.messages
  }

  /** The preparation of a turn: a replaced context, and one more poll if nothing is pending. */
  function Opened(setup: Setup, s: Stand, script: TurnScript): Stand {
    var arrived := s.(steering := s.steering + script.steeringBefore);
    if s.turns == [] then arrived
    else
      var t := arrived.(context := Replaced(s.context, script));
      if s.pending == [] then Poll(setup, t) else t
  }

  /** The turn itself: what is prepared and pending is declared and sent, and the response's tools are executed. */
  function NewTurn(setup: Setup, s: Stand, script: TurnScript, prepared: seq<Message>): Turn {
    var batch := setup.execute(s.context.tools, script);
    Turn(s.origin, s.pending, prepared, s.context, setup.declare(s.context, prepared + s.pending), script.response,
         batch.messages, !batch.terminate)
  }

  lemma TurnMade(setup: Setup, s: Stand, script: TurnScript, prepared: seq<Message>, appended: seq<Message>,
                 batch: Batch)
    requires setup.Faithful() && appended == Declare(s.context, prepared + s.pending)
    requires batch == TurnBatch(s.context.tools, script, setup.toolExecution)
    ensures NewTurn(setup, s, script, prepared)
         == Turn(s.origin, s.pending, prepared, s.context, appended, script.response, batch.messages, !batch.terminate)
  {
  }

  function Taken(s: Stand, turn: Turn): Stand {
    s.(context := s.context.(messages := turn.Transcript()), newMessages := s.newMessages + turn.Messages(),
       pending := [], origin := Origin.Steering, turns := s.turns + [turn], requests := s.requests + [turn.Request()],
       endings := s.endings + [Ending(turn.response, turn.results, s.newMessages + turn.Messages(),
                                      s.reported + AnswersOf(turn.results))],
       reported := s.reported + AnswersOf(turn.results),
       witnessed := s.witnessed + [turn.Transcript()])
  }

  /** After `turn_end`: the run ends, or the steering queue is polled. */
  function Closed(setup: Setup, s: Stand, script: TurnScript): Stand {
    var t := s.(steering := s.steering + script.steeringAfter, followUps := s.followUps + script.followUpsAfter);
    if Failed(script.response) || script.stopAfterTurn then t.(over := true) else Poll(setup, t)
  }

  /** One pass of the inner loop. */
  function Inner(setup: Setup, s: Stand, script: TurnScript): Stand {
    var o := Opened(setup, s, script);
    Closed(setup, Taken(o, NewTurn(setup, o, script, PreparedFor(s, script))), script)
  }

  /** Where the inner loop is left the follow-up queue is polled; with nothing there the run ends. */
  function FollowedUp(setup: Setup, s: Stand): Stand {
    if s.over || s.GoesOn() then s
    else
      var found := Drained(s.followUps, setup.followUpMode);
      if found == [] then s.(over := true)
      else s.(pending := found, followUps := Kept(s.followUps, setup.followUpMode), origin := Origin.FollowUp)
  }

  function Pass(setup: Setup, s: Stand, script: TurnScript): Stand {
    if s.over then s else FollowedUp(setup, Inner(setup, s, script))
  }

  function After(setup: Setup, s: Stand, scripts: seq<TurnScript>): Stand {
    if scripts == [] then s
    else Pass(setup, After(setup, s, scripts[..|scripts| - 1]), scripts[|scripts| - 1])
  }

  /** Before the first turn: nothing has been added but the run's own messages, and the first poll has been made. */
  ghost predicate Fresh(s: Stand) {
    && s.turns == [] && s.requests == [] && s.endings == [] && s.witnessed == [] && s.reported == multiset{}
    && s.origin.Steering? && !s.over && !s.skipPoll
  }

  // ----- The shape of a run ---------------------------------------------------------------------

  lemma RunMore(setup: Setup, s: Stand, scripts: seq<TurnScript>, k: nat)
    requires k < |scripts|
    ensures After(setup, s, scripts[..k + 1]) == Pass(setup, After(setup, s, scripts[..k]), scripts[k])
  {
    assert scripts[..k + 1][..k] == scripts[..k];
  }

  /** Once a run is over it stays so. */
  lemma {:induction false} OverStays(setup: Setup, s: Stand, scripts: seq<TurnScript>, k: nat)
    requires k <= |scripts| && After(setup, s, scripts[..k]).over
    ensures After(setup, s, scripts) == After(setup, s, scripts[..k])
  {
    if k == |scripts| {
      assert scripts[..k] == scripts;
    } else {
      assert scripts[..|scripts| - 1][..k] == scripts[..k];
      OverStays(setup, s, scripts[..|scripts| - 1], k);
    }
  }

  lemma PassGrows(setup: Setup, s: Stand, script: TurnScript)
    requires !s.over
    ensures Pass(setup, s, script).turns
         == s.turns + [NewTurn(setup, Opened(setup, s, script), script, PreparedFor(s, script))]
    ensures Pass(setup, s, script).skipPoll ==> s.skipPoll
  {
  }

  /** Every script makes one turn until the run is over. */
  lemma {:induction false} TurnCount(setup: Setup, s0: Stand, scripts: seq<TurnScript>)
    requires s0.turns == []
    ensures |After(setup, s0, scripts).turns| <= |scripts|
    ensures !After(setup, s0, scripts).over ==> |After(setup, s0, scripts).turns| == |scripts|
  {
    if scripts != [] {
      TurnCount(setup, s0, scripts[..|scripts| - 1]);
      var before := After(setup, s0, scripts[..|scripts| - 1]);
      if !before.over {
        PassGrows(setup, before, scripts[|scripts| - 1]);
      }
    }
  }

  /** The turn is what the script makes of the run as it stood. */
  predicate Follows(setup: Setup, s: Stand, script: TurnScript, turn: Turn) {
    turn == NewTurn(setup, Opened(setup, s, script), script, PreparedFor(s, script))
  }

  lemma PassAddsTurn(setup: Setup, s: Stand, script: TurnScript)
    ensures s.turns <= Pass(setup, s, script).turns
    ensures if s.over then Pass(setup, s, script).turns == s.turns
            else |Pass(setup, s, script).turns| == |s.turns| + 1
                 && Follows(setup, s, script, Pass(setup, s, script).turns[|s.turns|])
  {
    if !s.over {
      PassGrows(setup, s, script);
    }
  }

  /** Turn k is what the k-th script makes of the run as it stood after the turns before it. */
  predicate TurnIs(setup: Setup, s0: Stand, scripts: seq<TurnScript>, turns: seq<Turn>, k: nat) {
    && k < |scripts| && k < |turns|
    && !After(setup, s0, scripts[..k]).over && After(setup, s0, scripts[..k]).turns == turns[..k]
    && Follows(setup, After(setup, s0, scripts[..k]), scripts[k], turns[k])
  }

  /** What grows with each script has grown from any earlier point. */
  lemma {:induction false} PrefixOf(turnsAfter: nat -> seq<Turn>, k: nat, n: nat)
    requires k <= n && forall i :: k <= i < n ==> turnsAfter(i) <= turnsAfter(i + 1)
    ensures turnsAfter(k) <= turnsAfter(n)
  {
    if k < n {
      PrefixOf(turnsAfter, k, n - 1);
      assert turnsAfter(n - 1) <= turnsAfter(n - 1 + 1);
    }
  }

  lemma TurnsPrefix(setup: Setup, s0: Stand, scripts: seq<TurnScript>, k: nat)
    requires k <= |scripts|
    ensures After(setup, s0, scripts[..k]).turns <= After(setup, s0, scripts).turns
  {
    var turnsAfter := (i: nat) => if i <= |scripts| then After(setup, s0, scripts[..i]).turns else [];
    forall i | k <= i < |scripts| ensures turnsAfter(i) <= turnsAfter(i + 1) {
      TurnsGrow(setup, s0, scripts, i);
    }
    PrefixOf(turnsAfter, k, |scripts|);
    assert scripts[..|scripts|] == scripts;
  }

  lemma TurnsGrow(setup: Setup, s0: Stand, scripts: seq<TurnScript>, k: nat)
    requires k < |scripts|
    ensures After(setup, s0, scripts[..k]).turns <= After(setup, s0, scripts[..k + 1]).turns
    ensures !After(setup, s0, scripts[..k]).over ==>
      && |After(setup, s0, scripts[..k + 1]).turns| == |After(setup, s0, scripts[..k]).turns| + 1
      && Follows(setup, After(setup, s0, scripts[..k]), scripts[k],
                 After(setup, s0, scripts[..k + 1]).turns[|After(setup, s0, scripts[..k]).turns|])
  {
    RunMore(setup, s0, scripts, k);
    PassAddsTurn(setup, After(setup, s0, scripts[..k]), scripts[k]);
  }

  /** A run that has a k-th turn was not over before it. */
  lemma StillRunning(setup: Setup, s0: Stand, scripts: seq<TurnScript>, k: nat)
    requires s0.turns == [] && k < |After(setup, s0, scripts).turns|
    ensures k < |scripts|
    ensures !After(setup, s0, scripts[..k]).over && |After(setup, s0, scripts[..k]).turns| == k
  {
    TurnCount(setup, s0, scripts);
    TurnCount(setup, s0, scripts[..k]);
    if After(setup, s0, scripts[..k]).over {
      OverStays(setup, s0, scripts, k);
    }
  }

  lemma TurnOf(setup: Setup, s0: Stand, scripts: seq<TurnScript>, k: nat)
    requires s0.turns == [] && k < |After(setup, s0, scripts).turns|
    ensures TurnIs(setup, s0, scripts, After(setup, s0, scripts).turns, k)
  {
    StillRunning(setup, s0, scripts, k);
    TurnsGrow(setup, s0, scripts, k);
    TurnsPrefix(setup, s0, scripts, k + 1);
  }

  // ----- What is enqueued -----------------------------------------------------------------------

  function ArrivedIn(script: TurnScript, o: Origin): seq<Message> {
    if o.Steering? then script.steeringBefore + script.steeringAfter else script.followUpsAfter
  }

  /** Everything enqueued during the turns of the scripts. */
  function Arrivals(scripts: seq<TurnScript>, o: Origin): seq<Message> {
    if scripts == [] then []
    else Arrivals(scripts[..|scripts| - 1], o) + ArrivedIn(scripts[|scripts| - 1], o)
  }

  lemma SumOfArrivals(a: seq<Message>, before: seq<Message>, after: seq<Message>)
    ensures a + before + after == a + (before + after)
    ensures a + [] == a
  {
  }
}
