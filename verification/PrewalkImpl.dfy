/**
 The closure variables of createPrewalkExtension and createFastSessionController, changed in place
 (packages/byz/src/prewalk.js, packages/byz/src/fast-session.js); each method is proved to be its step in
 PrewalkProtocol. ThinkingLedger is the session's thinking level and the controller's bookkeeping of its reports.
 */
module PrewalkClass {
  import opened Wrappers
  import opened PrewalkProtocol

  class Session {
    // prewalk.js
    var prewalk: Prewalk
    var candidate: Candidate
    var waiting: nat

    // fast-session.js
    var active: bool
    var snapshot: Option<Target>
    var internalTransition: bool
    var exits: nat
    var operations: map<nat, Operation>
    var nextOperation: nat

    /** The changes of level that the applyTargets waiting for setModel have begun, numbered as in the ledger. */
    var settings: map<nat, nat>

    // The session's own model; its thinking level is the ledger's.
    var model: Option<string>
    const ledger: ThinkingLedger
    var log: seq<Observed>

    /** Where the session started, and everything that has happened since. */
    ghost const start: State
    ghost var history: seq<Event>

    ghost function View(): State
      reads this, ledger`level
    {
      State(prewalk, candidate, waiting, active, snapshot, internalTransition, exits, operations, nextOperation,
            model, ledger.level, log)
    }

    /** The fields are where the events so far lead, so what is proved of every run holds of the object. */
    ghost predicate Valid()
      reads this, ledger
    {
      && start == PrewalkProtocol.Start(start.model, start.thinking) && View() == Run(start, history)
      && Accounts()
    }

    ghost predicate Accounts()
      reads `operations, `settings, ledger
    {
      ledger.Valid() && AllBegun(operations, settings, |ledger.transitions|)
    }

    /** What every public method does: it is the step of one event, and the event goes on record. */
    twostate predicate Took(e: Event)
      reads this, ledger
    {
      && Valid() && history == old(history) + [e] && View() == Step(old(View()), e)
      && log == old(log) + Shown(old(View()), e)
    }

    constructor (model: Option<string>, thinking: string)
      ensures Valid() && history == [] && View() == PrewalkProtocol.Start(model, thinking)
    {
      prewalk, candidate, waiting := Idle, NoCandidate, 0;
      active, snapshot, internalTransition, exits, operations, nextOperation := false, None, false, 0, map[], 0;
      settings, this.model, log := map[], model, [];
      ledger := new ThinkingLedger(thinking);
      start, history := PrewalkProtocol.Start(model, thinking), [];
    }

    /** Puts an event on record whose step the fields have just taken. */
    ghost method Note(e: Event, before: State)
      requires start == PrewalkProtocol.Start(start.model, start.thinking)
      requires before == Run(start, history) && View() == Step(before, e) && Accounts()
      modifies `history
      ensures Valid() && history == old(history) + [e] && log == before.log + Shown(before, e)
    {
      OnRecord(start, history, e);
      history := history + [e];
    }

    /** Fast is on exactly with a snapshot and never while an arm is in force; every arm is accounted for. */
    lemma Sound()
      requires Valid()
      ensures (active <==> snapshot.Some?) && (prewalk.Armed? ==> !active)
      ensures Count(log, Beginning) == Count(log, HandingOff) + Count(log, Canceling)
                                     + Count(log, Losing) + if prewalk.Armed? then 1 else 0
    {
      ActiveExactlyWithSnapshot(start.model, start.thinking, history);
      ArmsAccountedFor(start.model, start.thinking, history);
    }

    /** cancel; returns whether an arm was in force. */
    method CancelArm() returns (canceled: bool)
      modifies `prewalk, `log
      ensures View() == CancelArmed(old(View())) && canceled == old(prewalk).Armed?
    {
      canceled := prewalk.Armed?;
      if canceled {
        prewalk := Idle;
        log := log + [Canceled];
      }
    }

    /** `/prewalk cancel`. */
    method Cancel() returns (canceled: bool)
      requires Valid()
      modifies `prewalk, `log, `history
      ensures Took(Event.Cancel) && canceled == old(prewalk).Armed? && !prewalk.Armed?
    {
      ghost var before := View();
      canceled := CancelArm();
      Note(Event.Cancel, before);
    }

    method Arm(idle: bool, trusted: bool, builtin: bool, resolved: Option<Target>)
      requires Valid()
      modifies `prewalk, `log, `history
      ensures Took(Event.Arm(idle, trusted, builtin, resolved))
      ensures prewalk == if idle && trusted && builtin && !active && !old(prewalk).Armed? && resolved.Some?
                         then Armed(resolved.value) else old(prewalk)
    {
      ghost var before := View();
      TryArm(idle, trusted, builtin, resolved);
      Note(Event.Arm(idle, trusted, builtin, resolved), before);
    }

    method TryArm(idle: bool, trusted: bool, builtin: bool, resolved: Option<Target>)
      modifies `prewalk, `log
      ensures View() == Step(old(View()), Event.Arm(idle, trusted, builtin, resolved))
      ensures prewalk == if idle && trusted && builtin && !active && !old(prewalk).Armed? && resolved.Some?
                         then Armed(resolved.value) else old(prewalk)
    {
      if !idle || !trusted || active || prewalk.Armed? || !builtin {
        return;
      }
      match resolved {
        case None =>
        case Some(target) =>
          prewalk := Armed(target);
          log := log + [ArmedWith(target)];
      }
    }

    /** A tool result queues up behind the ones being considered. */
    method HandleToolResult()
      requires Valid()
      modifies `waiting, `history
      ensures Took(ToolResult) && waiting == old(waiting) + 1
    {
      ghost var before := View();
      waiting := waiting + 1;
      Note(ToolResult, before);
    }

    /** considerToolResult up to the wait for the real path. */
    method ConsiderToolResult(relevant: bool, trusted: bool, builtin: bool)
      requires Valid() && candidate.NoCandidate? && waiting > 0
      modifies this
      ensures Took(Consider(relevant, trusted, builtin))
      ensures candidate.Probing? <==> relevant && trusted && builtin && old(prewalk).Armed?
    {
      ghost var before := View();
      Examine(relevant, trusted, builtin);
      Note(Consider(relevant, trusted, builtin), before);
    }

    method Examine(relevant: bool, trusted: bool, builtin: bool)
      requires candidate.NoCandidate? && waiting > 0
      modifies `waiting, `prewalk, `candidate, `log
      ensures View() == Step(old(View()), Consider(relevant, trusted, builtin))
      ensures candidate.Probing? <==> relevant && trusted && builtin && old(prewalk).Armed?
    {
      waiting := waiting - 1;
      if !prewalk.Armed? || !relevant {
        return;
      }
      if !trusted {
        var _ := CancelArm();
        return;
      }
      if builtin {
        candidate := Probing;
      }
    }

    /**
     considerToolResult from the real path to the switch. A hand-off is to the target of the latest arm, which nothing
     has ended since.
     */
    method ContinueToolResult(inWorkspace: bool, trusted: bool, builtin: bool, ports: Ports, reportedAtOnce: bool)
      requires Valid() && candidate.Probing?
      modifies this, ledger
      ensures Took(Probed(inWorkspace, trusted, builtin, ports))
      ensures candidate.Applying? <==> inWorkspace && trusted && builtin && old(prewalk).Armed?
      ensures candidate.Applying? ==>
        && old(nextOperation) in operations && operations[old(nextOperation)].purpose == HandOff
        && operations[old(nextOperation)].target == old(prewalk).target
      ensures candidate.Applying? ==>
        && old(prewalk).Armed? && log == old(log) + [HandedOff(old(prewalk).target)]
        && exists j :: 0 <= j < |old(log)| && log[j] == ArmedWith(old(prewalk).target)
                       && forall i :: j < i < |old(log)| ==> Neutral(log[i])
    {
      ghost var before := View();
      SwitchOver(inWorkspace, trusted, builtin, ports, reportedAtOnce);
      Note(Probed(inWorkspace, trusted, builtin, ports), before);
      if candidate.Applying? {
        HandOffFollowsItsArm(start.model, start.thinking, history, |old(log)|);
      }
    }

    method SwitchOver(inWorkspace: bool, trusted: bool, builtin: bool, ports: Ports, reportedAtOnce: bool)
      requires candidate.Probing? && Accounts()
      modifies this, ledger
      ensures history == old(history) && Accounts()
      ensures View() == Step(old(View()), Probed(inWorkspace, trusted, builtin, ports))
      ensures candidate.Applying? <==> inWorkspace && trusted && builtin && old(prewalk).Armed?
      ensures candidate.Applying? ==>
        && old(nextOperation) in operations && operations[old(nextOperation)].purpose == HandOff
        && operations[old(nextOperation)].target == old(prewalk).target
    {
      candidate := NoCandidate;
      if !inWorkspace || !prewalk.Armed? {
        return;
      }
      if !trusted {
        var _ := CancelArm();
        return;
      }
      if !builtin {
        return;
      }
      var consumedTarget := prewalk.target;
      prewalk := Switching;
      candidate := Applying;
      log := log + [HandedOff(consumedTarget)];
      ApplyTarget(HandOff, consumedTarget, ports, reportedAtOnce);
    }

    /**
     applyTarget up to its first await, or to its return. Its own change of the level is begun in the ledger, or made; a
     made one is owed one excused report unless it was reported at once.
     */
    method ApplyTarget(purpose: Purpose, target: Target, ports: Ports, reportedAtOnce: bool)
      requires Accounts()
      modifies `operations, `nextOperation, `internalTransition, `settings, ledger
      ensures View() == Apply(old(View()), purpose, target, ports) && Accounts()
      ensures var k := old(nextOperation);
        && nextOperation == k + 1 && k in operations && Begins(operations[k], purpose, target, model, ports)
        && internalTransition == if ports.context then operations[k].stage.SettingModel? else old(internalTransition)
      ensures ledger.excused == old(ledger.excused)
      ensures ledger.owed == old(ledger.owed) + Owing(old(ledger.level), ledger.level, reportedAtOnce)
      ensures var k := old(nextOperation);
        operations[k].stage.SettingModel? ==>
          && ledger.level == old(ledger.level) && ledger.current == Some(settings[k])
          && ledger.transitions == old(ledger.transitions) + [Transition(ledger.level, false)]
    {
      var stage := TryTarget(target, ports, reportedAtOnce);
      AllBegunMore(operations, settings, |ledger.transitions|, nextOperation, Operation(purpose, target, stage));
      operations := operations[nextOperation := Operation(purpose, target, stage)];
      nextOperation := nextOperation + 1;
    }

    /**
     Where applyTarget stands at its first await or its end: waiting for the model if it is another one that can be had,
     failed without a context or without the model, and otherwise done with setting the level.
     */
    static predicate Begins(op: Operation, purpose: Purpose, target: Target, model: Option<string>, ports: Ports) {
      && op.purpose == purpose && op.target == target
      && (op.stage.SettingModel? <==>
            ports.context && target.model.Some? && target.model != model && ports.available)
      && (!ports.context || (target.model.Some? && target.model != model && !ports.available) ==>
            op.stage == Back(false))
      && (ports.context && (target.model.None? || target.model == model) && !ports.thinkingFails ==>
            op.stage == Back(true))
    }

    /** The statements of applyTarget up to its first await; where they leave it. */
    method TryTarget(target: Target, ports: Ports, reportedAtOnce: bool) returns (stage: Stage)
      requires Accounts()
      modifies `internalTransition, `settings, ledger
      ensures Accounts() && ledger.excused == old(ledger.excused)
      ensures var needsModel := target.model.Some? && target.model != model;
        && stage == (if !ports.context || (needsModel && !ports.available) then Back(false)
                     else if needsModel then SettingModel
                     else Back(SettingWorks(old(ledger.level), target.thinking, ports)))
        && internalTransition == (if ports.context then stage.SettingModel? else old(internalTransition))
        && ledger.level == (if ports.context && !needsModel
                            then LevelSet(old(ledger.level), target.thinking, ports) else old(ledger.level))
      ensures ledger.owed == old(ledger.owed) + Owing(old(ledger.level), ledger.level, reportedAtOnce)
      ensures stage.SettingModel? ==>
        && nextOperation in settings && settings[nextOperation] < |ledger.transitions|
        && ledger.current == Some(settings[nextOperation])
        && ledger.transitions == old(ledger.transitions) + [Transition(ledger.level, false)]
    {
      stage := Back(false);
      if ports.context {
        internalTransition := true;
        if target.model.Some? && target.model != model {
          if ports.available {
            stage := SettingModel;
            BeginSetting();
          }
        } else {
          var works := SetThinking(target, ports, reportedAtOnce);
          stage := Back(works);
        }
        if !stage.SettingModel? {
          internalTransition := false;
        }
      }
    }

    /** The change of level that the next operation's setModel may bring. */
    method BeginSetting()
      requires Accounts()
      modifies `settings, ledger`transitions, ledger`current
      ensures Accounts() && settings == old(settings)[nextOperation := |old(ledger.transitions)|]
      ensures ledger.transitions == old(ledger.transitions) + [Transition(ledger.level, false)]
      ensures ledger.current == Some(|old(ledger.transitions)|)
    {
      var transition := ledger.BeginTransition();
      settings := settings[nextOperation := transition];
    }

    /** setThinkingInternally of applyTarget; returns whether it came back without an error. */
    method SetThinking(target: Target, ports: Ports, reportedAtOnce: bool) returns (works: bool)
      requires Accounts()
      modifies ledger
      ensures Accounts() && ledger.excused == old(ledger.excused)
      ensures ledger.level == LevelSet(old(ledger.level), target.thinking, ports)
      ensures works == SettingWorks(old(ledger.level), target.thinking, ports)
      ensures ledger.owed == old(ledger.owed) + Owing(old(ledger.level), ledger.level, reportedAtOnce)
    {
      works := SettingWorks(ledger.level, target.thinking, ports);
      ledger.SetThinkingInternally(target.thinking, ports.level, reportedAtOnce);
    }

    /**
     setModel came back. The change of level begun before it ends, and a second one is made if the level is not yet the
     one asked for; each is owed one excused report unless it was reported while it was made.
     */
    method ModelWasSet(k: nat, changed: bool, clamped: string, ports: Ports, reportedAtOnce: bool)
      requires Valid() && k in operations && operations[k].stage.SettingModel?
      modifies this, ledger
      ensures Took(SetModelReturns(k, changed, clamped, ports)) && ledger.excused == old(ledger.excused)
      ensures !internalTransition && k in operations && operations[k].stage.Back?
      ensures model == if changed then old(operations[k].target.model) else old(model)
      ensures (!changed ==> !operations[k].stage.ok) && (changed && !ports.thinkingFails ==> operations[k].stage.ok)
      ensures var transition := old(ledger.transitions[settings[k]]);
        var level := if changed then clamped else old(ledger.level);
        ledger.owed == old(ledger.owed) + Owing(transition.previous, level, transition.consumed)
                                        + Owing(level, ledger.level, reportedAtOnce)
    {
      ghost var before := View();
      GoOnWithTarget(k, changed, clamped, ports, reportedAtOnce);
      Note(SetModelReturns(k, changed, clamped, ports), before);
    }

    method GoOnWithTarget(k: nat, changed: bool, clamped: string, ports: Ports, reportedAtOnce: bool)
      requires Accounts() && k in operations && operations[k].stage.SettingModel?
      modifies `model, `internalTransition, `operations, ledger
      ensures View() == Step(old(View()), SetModelReturns(k, changed, clamped, ports))
      ensures Accounts() && ledger.excused == old(ledger.excused)
      ensures !internalTransition && k in operations && operations[k].stage.Back?
      ensures model == if changed then old(operations[k].target.model) else old(model)
      ensures (!changed ==> !operations[k].stage.ok) && (changed && !ports.thinkingFails ==> operations[k].stage.ok)
      ensures var transition := old(ledger.transitions[settings[k]]);
        var level := if changed then clamped else old(ledger.level);
        ledger.owed == old(ledger.owed) + Owing(transition.previous, level, transition.consumed)
                                        + Owing(level, ledger.level, reportedAtOnce)
    {
      EndSetting(k, changed, clamped);
      FinishTarget(k, changed, ports, reportedAtOnce);
    }

    /** The session has the model, or has not; the change of level begun before ends. */
    method EndSetting(k: nat, changed: bool, clamped: string)
      requires Accounts() && k in operations && operations[k].stage.SettingModel?
      modifies `model, ledger`level, ledger`current, ledger`ignored, ledger`owed
      ensures Accounts()
      ensures model == if changed then operations[k].target.model else old(model)
      ensures ledger.level == if changed then clamped else old(ledger.level)
      ensures var transition := ledger.transitions[settings[k]];
        ledger.owed == old(ledger.owed) + Owing(transition.previous, ledger.level, transition.consumed)
    {
      if changed {
        model := operations[k].target.model;
        ledger.LevelChanges(clamped);
      }
      ledger.FinishTransition(settings[k]);
    }

    /** The rest of applyTarget after its setModel. */
    method FinishTarget(k: nat, changed: bool, ports: Ports, reportedAtOnce: bool)
      requires Accounts() && k in operations && operations[k].stage.SettingModel?
      modifies `internalTransition, `operations, ledger
      ensures Accounts() && !internalTransition && ledger.excused == old(ledger.excused)
      ensures var op := old(operations[k]);
        && operations == old(operations)[k := op.(stage :=
          Back(changed && SettingWorks(old(ledger.level), op.target.thinking, ports)))]
        && ledger.level == (if changed then LevelSet(old(ledger.level), op.target.thinking, ports)
                            else old(ledger.level))
        && ledger.owed == old(ledger.owed) + Owing(old(ledger.level), ledger.level, reportedAtOnce)
    {
      var works := false;
      if changed {
        works := SetThinking(operations[k].target, ports, reportedAtOnce);
      }
      internalTransition := false;
      AllBegunMore(operations, settings, |ledger.transitions|, k, operations[k].(stage := Back(works)));
      operations := operations[k := operations[k].(stage := Back(works))];
    }

    /** enable, up to its applyTarget. */
    method Enable(idle: bool, resolved: Option<Target>, ports: Ports, reportedAtOnce: bool)
      requires Valid()
      modifies this, ledger
      ensures Took(CommandOn(idle, resolved, ports))
      ensures idle && !active && resolved.Some? ==>
        && nextOperation == old(nextOperation) + 1 && old(nextOperation) in operations
        && Begins(operations[old(nextOperation)], Purpose.Enable(Target(old(model), old(ledger.level))), resolved.value,
                  old(model), ports)
    {
      ghost var before := View();
      if idle && !active && resolved.Some? {
        ApplyTarget(Purpose.Enable(Target(model, ledger.level)), resolved.value, ports, reportedAtOnce);
      }
      Note(CommandOn(idle, resolved, ports), before);
    }

    /** disable, up to its applyTarget. If commands came one at a time, it goes back to the snapshot of the last on. */
    method Disable(idle: bool, ports: Ports, reportedAtOnce: bool)
      requires Valid()
      modifies this, ledger
      ensures Took(CommandOff(idle, ports))
      ensures idle && active && old(snapshot).Some? ==>
        && old(nextOperation) in operations
        && Begins(operations[old(nextOperation)], Purpose.Disable, old(snapshot).value, old(model), ports)
      ensures idle && old(active) && Serialized(start, old(history)) ==>
        && old(snapshot).Some? && FastOf(old(log)) == On(old(snapshot).value)
        && old(nextOperation) in operations && operations[old(nextOperation)].target == old(snapshot).value
    {
      ghost var before := View();
      if Serialized(start, history) {
        OffUndoesMatchingOn(start.model, start.thinking, history);
      }
      SwitchBack(idle, ports, reportedAtOnce);
      Note(CommandOff(idle, ports), before);
    }

    method SwitchBack(idle: bool, ports: Ports, reportedAtOnce: bool)
      requires Accounts()
      modifies `log, `operations, `nextOperation, `internalTransition, `settings, ledger
      ensures View() == Step(old(View()), CommandOff(idle, ports)) && Accounts()
      ensures idle && active && snapshot.Some? ==>
        && old(nextOperation) in operations
        && Begins(operations[old(nextOperation)], Purpose.Disable, snapshot.value, model, ports)
    {
      if idle && active && snapshot.Some? {
        log := log + [FastOffBegun(snapshot.value)];
        ApplyTarget(Purpose.Disable, snapshot.value, ports, reportedAtOnce);
      }
    }

    /**
     The caller of applyTarget goes on; the listener of Prewalk runs before anything else does. Where a hand-off ends,
     Prewalk is idle, and an arm given meanwhile and still in force is lost.
     */
    method Resume(k: nat)
      requires Valid() && k in operations && operations[k].stage.Back?
      modifies this
      ensures Took(GoOn(k)) && k !in operations
      ensures old(operations[k]).purpose.HandOff? ==>
        prewalk == Idle && (log == old(log) + [ArmLost] <==> old(prewalk).Armed?)
      ensures match old(operations[k]).purpose
        case HandOff => active == old(active) && snapshot == old(snapshot)
        case Enable(before) =>
          if old(operations[k]).stage.ok then active && snapshot == Some(before) && !prewalk.Armed?
          else active == old(active) && snapshot == old(snapshot) && prewalk == old(prewalk)
        case Disable =>
          if old(operations[k]).stage.ok then !active && snapshot == None && prewalk == old(prewalk)
          else active == old(active) && snapshot == old(snapshot) && prewalk == old(prewalk)
    {
      ghost var before := View();
      RunKeeps(start, history);
      GoBack(k);
      Note(GoOn(k), before);
      if before.operations[k].purpose.HandOff? {
        SwitchEndLosesLaterArm(before, GoOn(k), k);
      }
    }

    method GoBack(k: nat)
      requires k in operations && operations[k].stage.Back? && Accounts()
      modifies `operations, `prewalk, `candidate, `active, `snapshot, `log
      ensures View() == Step(old(View()), GoOn(k)) && Accounts()
    {
      var op := operations[k];
      AllBegunLess(operations, settings, |ledger.transitions|, k);
      operations := operations - {k};
      match op.purpose {
        case HandOff =>
          if prewalk.Armed? {
            log := log + [ArmLost];
          }
          prewalk, candidate := Idle, NoCandidate;
        case Enable(before) =>
          if op.stage.ok {
            TurnOn(before);
          }
        case Disable =>
          if op.stage.ok {
            active := false;
            snapshot := None;
            log := log + [FastOff];
          }
      }
    }

    /** enable after its applyTarget: an arm ends before anything else hears of Fast. */
    method TurnOn(before: Target)
      modifies `prewalk, `active, `snapshot, `log
      ensures var s := CancelArmed(old(View()));
        View() == s.(snapshot := Some(before), active := true, log := s.log + [FastOn(before)])
    {
      var _ := CancelArm();
      snapshot := Some(before);
      active := true;
      log := log + [FastOn(before)];
    }

    method NotifySelection()
      modifies `prewalk, `log
      ensures View() == Notified(old(View()))
    {
      var _ := CancelArm();
      log := log + [SelectionNoticed];
    }

    /** An explicit selection; it ends an arm exactly if no transition of Fast's own is flagged. */
    method ExitForExplicitSelection()
      requires Valid()
      modifies this
      ensures Took(Select)
      ensures old(prewalk).Armed? ==> prewalk == if old(internalTransition) then old(prewalk) else Idle
      ensures old(internalTransition) ==> active == old(active) && snapshot == old(snapshot)
      ensures !old(internalTransition) ==> !active && (old(active) ==> snapshot == None && exits == old(exits) + 1)
    {
      ghost var before := View();
      if prewalk.Armed? {
        SelectionEndsArmUnlessInternal(start.model, start.thinking, history);
      }
      if internalTransition {
        log := log + [SelectionIgnored];
      } else if active {
        active := false;
        snapshot := None;
        exits := exits + 1;
        log := log + [FastExited];
      } else {
        NotifySelection();
      }
      Note(Select, before);
    }

    /** exitForExplicitSelection goes on after the listeners of Fast's state. */
    method FinishExitForSelection()
      requires Valid() && exits > 0
      modifies this
      ensures Took(FinishExit) && !prewalk.Armed?
    {
      ghost var before := View();
      exits := exits - 1;
      NotifySelection();
      Note(FinishExit, before);
    }

    /** The session's model or thinking level changes. */
    method SessionChanges(model: Option<string>, thinking: string)
      requires Valid()
      modifies `model, `history, ledger`level
      ensures Took(Outside(model, thinking)) && this.model == model && ledger.level == thinking
    {
      ghost var before := View();
      this.model := model;
      ledger.LevelChanges(thinking);
      Note(Outside(model, thinking), before);
    }

    /**
     handleThinkingSelection: a report of a change that is not the controller's own is an explicit selection; any other
     is not.
     */
    method HandleThinkingSelection(change: Change)
      requires Valid()
      modifies this, ledger`transitions, ledger`ignored, ledger`excused
      ensures Valid()
      ensures if !old(ledger.IsOwn(change)) && old(ledger.excused)[change] == ledger.owed[change]
              then Took(Select)
              else history == old(history) && View() == old(View())
    {
      var explicit := ledger.Report(change);
      if explicit {
        ExitForExplicitSelection();
      }
    }
  }

  // ----- Thinking-level reports -----------------------------------------------------------------

  /** A change of the level, as it is reported. */
  datatype Change = Change(previous: string, level: string)

  function IndexOf(ignored: seq<Change>, change: Change): (k: Option<nat>)
    ensures k.Some? ==> k.value < |ignored| && ignored[k.value] == change
    ensures k.None? ==> change !in ignored
  {
    if ignored == [] then None
    else if ignored[0] == change then Some(0)
    else
      match IndexOf(ignored[1..], change)
      case None => None
      case Some(i) => Some(i + 1)
  }

  /** Excusing one report of what is ignored keeps the account. */
  lemma ExcuseOne(ignored: seq<Change>, k: nat, excused: multiset<Change>, owed: multiset<Change>)
    requires k < |ignored| && multiset(ignored) + excused == owed
    ensures multiset(ignored[..k] + ignored[k + 1..]) + (excused + multiset{ignored[k]}) == owed
    ensures excused[ignored[k]] < owed[ignored[k]]
  {
    assert ignored == ignored[..k] + [ignored[k]] + ignored[k + 1..];
    assert multiset(ignored) == multiset(ignored[..k] + ignored[k + 1..]) + multiset{ignored[k]};
  }

  lemma NothingOwed(ignored: seq<Change>, change: Change, excused: multiset<Change>, owed: multiset<Change>)
    requires change !in ignored && multiset(ignored) + excused == owed
    ensures excused[change] == owed[change]
  {
    assert change !in multiset(ignored);
  }

  /** What a change of the level from `previous` to `level` is owed: one report, unless it was reported already. */
  function Owing(previous: string, level: string, reported: bool): multiset<Change> {
    if reported || previous == level then multiset{} else multiset{Change(previous, level)}
  }

  /** Every applyTarget waiting for setModel has begun a change of the level. */
  ghost predicate AllBegun(operations: map<nat, Operation>, settings: map<nat, nat>, transitions: nat) {
    forall k <- operations :: operations[k].stage.SettingModel? ==> k in settings && settings[k] < transitions
  }

  lemma AllBegunMore(operations: map<nat, Operation>, settings: map<nat, nat>, transitions: nat, k: nat, op: Operation)
    requires AllBegun(operations, settings, transitions)
    requires op.stage.SettingModel? ==> k in settings && settings[k] < transitions
    ensures AllBegun(operations[k := op], settings, transitions)
  {
  }

  lemma AllBegunLess(operations: map<nat, Operation>, settings: map<nat, nat>, transitions: nat, k: nat)
    requires AllBegun(operations, settings, transitions)
    ensures AllBegun(operations - {k}, settings, transitions)
  {
  }

  /** A change the controller is making or has made: the level before it, and whether it was reported meanwhile. */
  datatype Transition = Transition(previous: string, consumed: bool)

  /**
   Every change the controller makes itself is reported once, during the change or later; the report must not count as
   the user's. `owed`: the changes that were not reported while they were made. `excused`: the later reports not
   counted.
   */
  class ThinkingLedger {
    var level: string
    var transitions: seq<Transition>
    var current: Option<nat>
    var ignored: seq<Change>
    ghost var owed: multiset<Change>
    ghost var excused: multiset<Change>

    /** What is still to be excused is what is owed and was not excused yet. */
    ghost predicate Valid()
      reads this
    {
      multiset(ignored) + excused == owed && (current.Some? ==> current.value < |transitions|)
    }

    constructor (level: string)
      ensures Valid() && ignored == [] && current == None && this.level == level
    {
      this.level, transitions, current, ignored := level, [], None, [];
      owed, excused := multiset{}, multiset{};
    }

    method BeginTransition() returns (k: nat)
      requires Valid()
      modifies `transitions, `current
      ensures Valid() && k == |old(transitions)| && current == Some(k)
      ensures transitions == old(transitions) + [Transition(level, false)]
    {
      k := |transitions|;
      transitions := transitions + [Transition(level, false)];
      current := Some(k);
    }

    /** The level has changed, or not; a change that was not reported meanwhile is owed. */
    method FinishTransition(k: nat)
      requires Valid() && k < |transitions|
      modifies `current, `ignored, `owed
      ensures Valid() && current == None
      ensures owed == old(owed) + Owing(transitions[k].previous, level, transitions[k].consumed)
    {
      var change := Change(transitions[k].previous, level);
      current := None;
      if !transitions[k].consumed && change.level != change.previous {
        ignored := ignored + [change];
        owed := owed + multiset{change};
      }
    }

    /** The session's level changes. */
    method LevelChanges(level: string)
      requires Valid()
      modifies `level
      ensures Valid() && this.level == level
    {
      this.level := level;
    }

    /**
     setThinkingInternally: the session moves the level to where it can, and reports that at once or later. The change
     is never taken for the user's: reported at once it is its own, and otherwise one later report of it is owed.
     */
    method SetThinkingInternally(requested: string, reached: string, reportedAtOnce: bool)
      requires Valid()
      modifies this
      ensures Valid() && excused == old(excused) && |old(transitions)| <= |transitions|
      ensures level == if old(level) == requested then old(level) else reached
      ensures owed == old(owed) + Owing(old(level), level, reportedAtOnce)
    {
      if level == requested {
        return;
      }
      var previous := level;
      var k := BeginTransition();
      LevelChanges(reached);
      if reportedAtOnce {
        ReportOwn(previous);
      }
      FinishTransition(k);
    }

    /** The change in progress is reported: it is taken for its own. */
    method ReportOwn(previous: string)
      requires Valid() && current.Some? && transitions[current.value].previous == previous
      modifies `transitions, `ignored, `excused
      ensures Valid() && excused == old(excused)
      ensures transitions == old(transitions)[current.value := Transition(previous, true)]
    {
      var explicit := Report(Change(previous, level));
      assert !explicit;
    }

    /** A report belongs to the change in progress. */
    predicate IsOwn(change: Change)
      requires current.Some? ==> current.value < |transitions|
      reads `current, `transitions, `level
    {
      current.Some? && transitions[current.value].previous == change.previous && change.level == level
    }

    /** A report. It is the user's exactly when it is not that of the change in progress and nothing like it is owed. */
    method Report(change: Change) returns (explicit: bool)
      requires Valid()
      modifies `transitions, `ignored, `excused
      ensures Valid()
      ensures explicit <==> !old(IsOwn(change)) && old(excused)[change] == owed[change]
      ensures excused == if old(IsOwn(change)) || explicit then old(excused) else old(excused) + multiset{change}
      ensures transitions == if old(IsOwn(change))
        then old(transitions)[current.value := Transition(change.previous, true)]
                             else old(transitions)
    {
      if IsOwn(change) {
        transitions := transitions[current.value := Transition(change.previous, true)];
        return false;
      }
      var index := IndexOf(ignored, change);
      if index.None? {
        NothingOwed(ignored, change, excused, owed);
        return true;
      }
      ExcuseOne(ignored, index.value, excused, owed);
      ignored := ignored[..index.value] + ignored[index.value + 1..];
      excused := excused + multiset{change};
      return false;
    }
  }
}
