/**
 The one-shot Prewalk hand-off over the Fast session controller (packages/byz/src/prewalk.js and fast-session.js), as
 atomic steps between awaits. Questions the code asks its surroundings (idle, trusted, tools built in, path inside the
 workspace, authentication) are answered by the event.
 */
module PrewalkProtocol {
  import opened Wrappers

  datatype Target = Target(model: Option<string>, thinking: string)

  datatype Prewalk = Idle | Armed(target: Target) | Switching

  /** The tool result at the head of the candidate queue: none, waiting for the real path, or waiting for the switch. */
  datatype Candidate = NoCandidate | Probing | Applying

  datatype Purpose = HandOff | Enable(snapshot: Target) | Disable

  /** An applyTarget in flight: waiting for setModel, or returned and waiting for its caller to go on. */
  datatype Stage = SettingModel | Back(ok: bool)

  datatype Operation = Operation(purpose: Purpose, target: Target, stage: Stage)

  datatype Observed =
    | ArmedWith(target: Target)
    | Canceled
    | ArmLost
    | HandedOff(target: Target)
    | SelectionNoticed
    | SelectionIgnored
    | FastExited
    | FastOn(snapshot: Target)
    | FastOffBegun(target: Target)
    | FastOff

  datatype State = State(
    prewalk: Prewalk, candidate: Candidate, waiting: nat,
    active: bool, snapshot: Option<Target>, internalTransition: bool, exits: nat,
    operations: map<nat, Operation>, nextOperation: nat,
    model: Option<string>, thinking: string, log: seq<Observed>)

  /** What the surroundings answer to one applyTarget: `level` is where setting the thinking level leaves it. */
  datatype Ports = Ports(context: bool, available: bool, thinkingFails: bool, level: string)

  datatype Event =
    | Arm(idle: bool, trusted: bool, builtin: bool, resolved: Option<Target>)
    | Cancel
    | ToolResult
    | Consider(relevant: bool, trusted: bool, builtin: bool)
    | Probed(inWorkspace: bool, trusted: bool, builtin: bool, ports: Ports)
    | CommandOn(idle: bool, resolved: Option<Target>, ports: Ports)
    | CommandOff(idle: bool, ports: Ports)
    | SetModelReturns(k: nat, changed: bool, clamped: string, ports: Ports)
    | GoOn(k: nat)
    | Select
    | FinishExit
    | Outside(model: Option<string>, thinking: string)

  function Start(model: Option<string>, thinking: string): State {
    State(Idle, NoCandidate, 0, false, None, false, 0, map[], 0, model, thinking, [])
  }

  // ----- The code -------------------------------------------------------------------------------

  function CancelArmed(s: State): State {
    if s.prewalk.Armed? then s.(prewalk := Idle, log := s.log + [Canceled]) else s
  }

  /** setThinkingInternally: where the level is afterwards, and whether it came back without an error. */
  function LevelSet(thinking: string, requested: string, ports: Ports): string {
    if thinking == requested then thinking else ports.level
  }

  predicate SettingWorks(thinking: string, requested: string, ports: Ports) {
    thinking == requested || !ports.thinkingFails
  }

  /** applyTarget up to its first await, or to its return. */
  function Apply(s: State, purpose: Purpose, target: Target, ports: Ports): State {
    var needsModel := target.model.Some? && target.model != s.model;
    var stage :=
      if !ports.context then Back(false)
      else if needsModel then if ports.available then SettingModel else Back(false)
      else Back(SettingWorks(s.thinking, target.thinking, ports));
    s.(operations := s.operations[s.nextOperation := Operation(purpose, target, stage)],
       nextOperation := s.nextOperation + 1,
       internalTransition := if ports.context then stage.SettingModel? else s.internalTransition,
       thinking := if ports.context && !needsModel then LevelSet(s.thinking, target.thinking, ports) else s.thinking)
  }

  /** setModel came back, the level now at `clamped` if it changed the model: the rest of applyTarget. */
  function ModelSet(s: State, k: nat, changed: bool, clamped: string, ports: Ports): State {
    if k in s.operations && s.operations[k].stage.SettingModel? then
      var op := s.operations[k];
      var t := s.(internalTransition := false);
      if !changed then t.(operations := s.operations[k := op.(stage := Back(false))])
      else
        t.(operations := s.operations[k := op.(stage := Back(SettingWorks(clamped, op.target.thinking, ports)))],
           model := op.target.model, thinking := LevelSet(clamped, op.target.thinking, ports))
    else s
  }

  function Considered(s: State, relevant: bool, trusted: bool, builtin: bool): State {
    if !s.candidate.NoCandidate? || s.waiting == 0 then s
    else
      var t := s.(waiting := s.waiting - 1);
      if !s.prewalk.Armed? || !relevant then t
      else if !trusted then CancelArmed(t)
      else if !builtin then t
      else t.(candidate := Probing)
  }

  function PathProbed(s: State, inWorkspace: bool, trusted: bool, builtin: bool, ports: Ports): State {
    if !s.candidate.Probing? then s
    else
      var t := s.(candidate := NoCandidate);
      if !inWorkspace || !s.prewalk.Armed? then t
      else if !trusted then CancelArmed(t)
      else if !builtin then t
      else
        Apply(s.(candidate := Applying, prewalk := Switching, log := s.log + [HandedOff(s.prewalk.target)]),
              HandOff, s.prewalk.target, ports)
  }

  /** The caller of applyTarget goes on. */
  function WentOn(s: State, k: nat): State {
    if k in s.operations && s.operations[k].stage.Back? then
      var op := s.operations[k];
      var t := s.(operations := s.operations - {k});
      match op.purpose
      case HandOff =>
        t.(prewalk := Idle, candidate := NoCandidate, log := if s.prewalk.Armed? then s.log + [ArmLost] else s.log)
      case Enable(snapshot) =>
        if !op.stage.ok then t
        else
          var u := CancelArmed(t);
          u.(snapshot := Some(snapshot), active := true, log := u.log + [FastOn(snapshot)])
      case Disable =>
        if !op.stage.ok then t else t.(active := false, snapshot := None, log := s.log + [FastOff])
    else s
  }

  function Notified(s: State): State {
    CancelArmed(s).(log := CancelArmed(s).log + [SelectionNoticed])
  }

  /** exitForExplicitSelection, up to its first await when Fast is on. */
  function Selected(s: State): State {
    if s.internalTransition then s.(log := s.log + [SelectionIgnored])
    else if s.active then s.(active := false, snapshot := None, exits := s.exits + 1, log := s.log + [FastExited])
    else Notified(s)
  }

  function Step(s: State, e: Event): State {
    match e
    case Arm(idle, trusted, builtin, resolved) =>
      if !idle || !trusted || s.active || s.prewalk.Armed? || !builtin || resolved.None? then s
      else s.(prewalk := Armed(resolved.value), log := s.log + [ArmedWith(resolved.value)])
    case Cancel => CancelArmed(s)
    case ToolResult => s.(waiting := s.waiting + 1)
    case Consider(relevant, trusted, builtin) => Considered(s, relevant, trusted, builtin)
    case Probed(inWorkspace, trusted, builtin, ports) => PathProbed(s, inWorkspace, trusted, builtin, ports)
    case CommandOn(idle, resolved, ports) =>
      if !idle || s.active || resolved.None? then s
      else Apply(s, Enable(Target(s.model, s.thinking)), resolved.value, ports)
    case CommandOff(idle, ports) =>
      if !idle || !s.active || s.snapshot.None? then s
      else Apply(s.(log := s.log + [FastOffBegun(s.snapshot.value)]), Disable, s.snapshot.value, ports)
    case SetModelReturns(k, changed, clamped, ports) => ModelSet(s, k, changed, clamped, ports)
    case GoOn(k) => WentOn(s, k)
    case Select => Selected(s)
    case FinishExit => if s.exits == 0 then s else Notified(s.(exits := s.exits - 1))
    case Outside(model, thinking) => s.(model := model, thinking := thinking)
  }

  function Run(start: State, events: seq<Event>): State
    decreases |events|
  {
    if events == [] then start else Step(Run(start, events[..|events| - 1]), events[|events| - 1])
  }

  // ----- What the log may say -------------------------------------------------------------------

  /** Whether an arm is in force. Broken: a hand-off without its arm, or an arm that outlived its end. */
  datatype Arming = Unarmed | Holding(target: Target) | Broken

  function TrackArm(a: Arming, o: Observed): Arming {
    match o
    case ArmedWith(t) => if a.Unarmed? then Holding(t) else Broken
    case Canceled => if a.Holding? then Unarmed else Broken
    case ArmLost => if a.Holding? then Unarmed else Broken
    case HandedOff(t) => if a == Holding(t) then Unarmed else Broken
    case SelectionNoticed => if a.Unarmed? then Unarmed else Broken
    case FastOn(_) => if a.Unarmed? then Unarmed else Broken
    case _ => a
  }

  function ArmOf(log: seq<Observed>): Arming {
    if log == [] then Unarmed else TrackArm(ArmOf(log[..|log| - 1]), log[|log| - 1])
  }

  lemma ArmMore(log: seq<Observed>, o: Observed)
    ensures ArmOf(log + [o]) == TrackArm(ArmOf(log), o)
  {
    assert (log + [o])[..|log|] == log;
  }

  // ----- The invariant --------------------------------------------------------------------------

  predicate ArmFits(s: State) {
    ArmOf(s.log) == if s.prewalk.Armed? then Holding(s.prewalk.target) else Unarmed
  }

  /** At most one hand-off is in flight, and it is what the head of the queue waits for. */
  ghost predicate OneHandOff(operations: map<nat, Operation>, candidate: Candidate, switching: bool) {
    && (forall k <- operations :: operations[k].purpose.HandOff? ==> candidate.Applying?)
    && (forall j, k | j in operations && k in operations ::
          operations[j].purpose.HandOff? && operations[k].purpose.HandOff? ==> j == k)
    && (switching ==> candidate.Applying?)
    && (candidate.Applying? ==> exists k :: k in operations && operations[k].purpose.HandOff?)
  }

  /** A transition of Fast's own is flagged only while one waits for setModel. */
  ghost predicate FlagFits(operations: map<nat, Operation>, flag: bool) {
    flag ==> exists k :: k in operations && operations[k].stage.SettingModel?
  }

  ghost predicate Numbered(operations: map<nat, Operation>, next: nat) {
    forall k <- operations :: k < next
  }

  ghost predicate HandOffsFit(s: State) {
    && Numbered(s.operations, s.nextOperation)
    && OneHandOff(s.operations, s.candidate, s.prewalk.Switching?)
    && FlagFits(s.operations, s.internalTransition)
  }

  ghost predicate Inv(s: State) {
    && (s.active <==> s.snapshot.Some?)
    && (s.prewalk.Armed? ==> !s.active)
    && ArmFits(s) && HandOffsFit(s)
  }

  // ----- Every step keeps it --------------------------------------------------------------------

  lemma AddKeepsOne(operations: map<nat, Operation>, next: nat, candidate: Candidate, switching: bool, op: Operation)
    requires Numbered(operations, next) && OneHandOff(operations, candidate, switching) && !op.purpose.HandOff?
    ensures OneHandOff(operations[next := op], candidate, switching)
  {
    var operations' := operations[next := op];
    assert next !in operations;
    if candidate.Applying? {
      var k :| k in operations && operations[k].purpose.HandOff?;
      assert k in operations' && operations'[k].purpose.HandOff?;
    }
  }

  lemma AddHandOff(operations: map<nat, Operation>, next: nat, candidate: Candidate, op: Operation)
    requires Numbered(operations, next) && OneHandOff(operations, candidate, false) && !candidate.Applying?
    requires op.purpose.HandOff?
    ensures OneHandOff(operations[next := op], Applying, true)
  {
    var operations' := operations[next := op];
    assert next in operations' && operations'[next].purpose.HandOff?;
  }

  lemma AddKeepsFlag(operations: map<nat, Operation>, next: nat, flag: bool, op: Operation)
    requires Numbered(operations, next) && (FlagFits(operations, flag) || op.stage.SettingModel?)
    ensures FlagFits(operations[next := op], flag)
  {
    var operations' := operations[next := op];
    if op.stage.SettingModel? {
      assert next in operations' && operations'[next].stage.SettingModel?;
    } else if flag {
      var k :| k in operations && operations[k].stage.SettingModel?;
      assert k in operations' && operations'[k].stage.SettingModel?;
    }
  }

  lemma StageKeepsOne(operations: map<nat, Operation>, candidate: Candidate, switching: bool, k: nat, stage: Stage)
    requires OneHandOff(operations, candidate, switching) && k in operations
    ensures OneHandOff(operations[k := operations[k].(stage := stage)], candidate, switching)
  {
    var operations' := operations[k := operations[k].(stage := stage)];
    assert forall j <- operations :: j in operations' && operations'[j].purpose == operations[j].purpose;
    if candidate.Applying? {
      var j :| j in operations && operations[j].purpose.HandOff?;
      assert j in operations' && operations'[j].purpose.HandOff?;
    }
  }

  lemma RemoveKeepsOne(operations: map<nat, Operation>, candidate: Candidate, switching: bool, k: nat)
    requires OneHandOff(operations, candidate, switching) && k in operations && !operations[k].purpose.HandOff?
    ensures OneHandOff(operations - {k}, candidate, switching)
  {
    if candidate.Applying? {
      var j :| j in operations && operations[j].purpose.HandOff?;
      assert j in operations - {k} && (operations - {k})[j].purpose.HandOff?;
    }
  }

  lemma RemoveHandOff(operations: map<nat, Operation>, candidate: Candidate, switching: bool, k: nat)
    requires OneHandOff(operations, candidate, switching) && k in operations && operations[k].purpose.HandOff?
    ensures OneHandOff(operations - {k}, NoCandidate, false)
  {
    forall j | j in operations - {k} ensures !operations[j].purpose.HandOff? {
      assert j in operations && j != k;
    }
  }

  lemma RemoveKeepsFlag(operations: map<nat, Operation>, flag: bool, k: nat)
    requires FlagFits(operations, flag) && k in operations && operations[k].stage.Back?
    ensures FlagFits(operations - {k}, flag)
  {
    if flag {
      var j :| j in operations && operations[j].stage.SettingModel?;
      assert j in operations - {k} && (operations - {k})[j].stage.SettingModel?;
    }
  }

  lemma CommandKeeps(s: State, purpose: Purpose, target: Target, ports: Ports)
    requires Inv(s) && !purpose.HandOff?
    ensures Inv(Apply(s, purpose, target, ports))
  {
    var s' := Apply(s, purpose, target, ports);
    var op := s'.operations[s.nextOperation];
    AddKeepsOne(s.operations, s.nextOperation, s.candidate, s.prewalk.Switching?, op);
    AddKeepsFlag(s.operations, s.nextOperation, s'.internalTransition, op);
  }

  lemma HandOffKeeps(s: State, ports: Ports)
    requires Inv(s) && s.candidate.Probing? && s.prewalk.Armed?
    ensures Inv(Apply(s.(candidate := Applying, prewalk := Switching, log := s.log + [HandedOff(s.prewalk.target)]),
                      HandOff, s.prewalk.target, ports))
  {
    var t := s.(candidate := Applying, prewalk := Switching, log := s.log + [HandedOff(s.prewalk.target)]);
    var s' := Apply(t, HandOff, s.prewalk.target, ports);
    var op := s'.operations[s.nextOperation];
    ArmMore(s.log, HandedOff(s.prewalk.target));
    AddHandOff(s.operations, s.nextOperation, s.candidate, op);
    AddKeepsFlag(s.operations, s.nextOperation, s'.internalTransition, op);
  }

  lemma ModelSetKeeps(s: State, k: nat, changed: bool, clamped: string, ports: Ports)
    requires Inv(s)
    ensures Inv(ModelSet(s, k, changed, clamped, ports))
  {
    if k in s.operations {
      var works := SettingWorks(clamped, s.operations[k].target.thinking, ports);
      StageKeepsOne(s.operations, s.candidate, s.prewalk.Switching?, k, Back(changed && works));
    }
  }

  lemma CancelKeeps(s: State)
    requires Inv(s)
    ensures Inv(CancelArmed(s))
  {
    ArmMore(s.log, Canceled);
  }

  /** The head of the queue is done without a switch. */
  lemma DoneKeeps(s: State)
    requires Inv(s) && s.candidate.Probing?
    ensures Inv(s.(candidate := NoCandidate))
  {
  }

  lemma ProbedKeeps(s: State, inWorkspace: bool, trusted: bool, builtin: bool, ports: Ports)
    requires Inv(s)
    ensures Inv(PathProbed(s, inWorkspace, trusted, builtin, ports))
  {
    if s.candidate.Probing? {
      DoneKeeps(s);
      CancelKeeps(s.(candidate := NoCandidate));
      if s.prewalk.Armed? {
        HandOffKeeps(s, ports);
      }
    }
  }

  lemma HandedOffKeeps(s: State, k: nat)
    requires Inv(s) && k in s.operations && s.operations[k].stage.Back? && s.operations[k].purpose.HandOff?
    ensures Inv(WentOn(s, k))
  {
    ArmMore(s.log, ArmLost);
    RemoveHandOff(s.operations, s.candidate, s.prewalk.Switching?, k);
    RemoveKeepsFlag(s.operations, s.internalTransition, k);
  }

  lemma RemovedKeeps(s: State, k: nat)
    requires Inv(s) && k in s.operations && s.operations[k].stage.Back? && !s.operations[k].purpose.HandOff?
    ensures Inv(s.(operations := s.operations - {k}))
  {
    RemoveKeepsOne(s.operations, s.candidate, s.prewalk.Switching?, k);
    RemoveKeepsFlag(s.operations, s.internalTransition, k);
  }

  lemma EnabledKeeps(t: State, snapshot: Target)
    requires Inv(t)
    ensures var u := CancelArmed(t);
      Inv(u.(snapshot := Some(snapshot), active := true, log := u.log + [FastOn(snapshot)]))
  {
    CancelKeeps(t);
    ArmMore(CancelArmed(t).log, FastOn(snapshot));
  }

  lemma WentOnKeeps(s: State, k: nat)
    requires Inv(s)
    ensures Inv(WentOn(s, k))
  {
    if k in s.operations && s.operations[k].stage.Back? {
      match s.operations[k].purpose {
        case HandOff => HandedOffKeeps(s, k);
        case Enable(snapshot) =>
          RemovedKeeps(s, k);
          EnabledKeeps(s.(operations := s.operations - {k}), snapshot);
        case Disable =>
          RemovedKeeps(s, k);
          ArmMore(s.log, FastOff);
      }
    }
  }

  lemma NotifiedKeeps(s: State)
    requires Inv(s)
    ensures Inv(Notified(s))
  {
    CancelKeeps(s);
    ArmMore(CancelArmed(s).log, SelectionNoticed);
  }

  lemma SelectedKeeps(s: State)
    requires Inv(s)
    ensures Inv(Selected(s))
  {
    NotifiedKeeps(s);
    ArmMore(s.log, SelectionIgnored);
    ArmMore(s.log, FastExited);
  }

  lemma ArmKeeps(s: State, target: Target)
    requires Inv(s) && !s.active && !s.prewalk.Armed?
    ensures Inv(s.(prewalk := Armed(target), log := s.log + [ArmedWith(target)]))
  {
    ArmMore(s.log, ArmedWith(target));
  }

  lemma ConsiderKeeps(s: State, relevant: bool, trusted: bool, builtin: bool)
    requires Inv(s)
    ensures Inv(Considered(s, relevant, trusted, builtin))
  {
    if s.waiting > 0 {
      CancelKeeps(s.(waiting := s.waiting - 1));
    }
  }

  lemma OffKeeps(s: State, ports: Ports)
    requires Inv(s) && s.snapshot.Some?
    ensures Inv(Apply(s.(log := s.log + [FastOffBegun(s.snapshot.value)]), Disable, s.snapshot.value, ports))
  {
    ArmMore(s.log, FastOffBegun(s.snapshot.value));
    CommandKeeps(s.(log := s.log + [FastOffBegun(s.snapshot.value)]), Disable, s.snapshot.value, ports);
  }

  predicate OfPrewalk(e: Event) {
    e.Arm? || e.Cancel? || e.ToolResult? || e.Consider? || e.Probed?
  }

  lemma PrewalkStepKeeps(s: State, e: Event)
    requires Inv(s) && OfPrewalk(e)
    ensures Inv(Step(s, e))
  {
    match e {
      case Arm(_, _, _, resolved) =>
        if resolved.Some? && !s.active && !s.prewalk.Armed? {
          ArmKeeps(s, resolved.value);
        }
      case Cancel => CancelKeeps(s);
      case ToolResult =>
      case Consider(relevant, trusted, builtin) => ConsiderKeeps(s, relevant, trusted, builtin);
      case Probed(inWorkspace, trusted, builtin, ports) => ProbedKeeps(s, inWorkspace, trusted, builtin, ports);
    }
  }

  lemma CommandOnKeeps(s: State, idle: bool, resolved: Option<Target>, ports: Ports)
    requires Inv(s)
    ensures Inv(Step(s, CommandOn(idle, resolved, ports)))
  {
    if resolved.Some? {
      CommandKeeps(s, Enable(Target(s.model, s.thinking)), resolved.value, ports);
    }
  }

  lemma CommandOffKeeps(s: State, idle: bool, ports: Ports)
    requires Inv(s)
    ensures Inv(Step(s, CommandOff(idle, ports)))
  {
    if s.snapshot.Some? {
      OffKeeps(s, ports);
    }
  }

  lemma FinishExitKeeps(s: State)
    requires Inv(s)
    ensures Inv(Step(s, FinishExit))
  {
    if s.exits > 0 {
      NotifiedKeeps(s.(exits := s.exits - 1));
    }
  }

  lemma OutsideKeeps(s: State, model: Option<string>, thinking: string)
    requires Inv(s)
    ensures Inv(s.(model := model, thinking := thinking))
  {
  }

  lemma FastStepKeeps(s: State, e: Event)
    requires Inv(s) && !OfPrewalk(e)
    ensures Inv(Step(s, e))
  {
    match e {
      case CommandOn(idle, resolved, ports) => CommandOnKeeps(s, idle, resolved, ports);
      case CommandOff(idle, ports) => CommandOffKeeps(s, idle, ports);
      case SetModelReturns(k, changed, clamped, ports) => ModelSetKeeps(s, k, changed, clamped, ports);
      case GoOn(k) => WentOnKeeps(s, k);
      case Select => SelectedKeeps(s);
      case FinishExit => FinishExitKeeps(s);
      case Outside(model, thinking) => OutsideKeeps(s, model, thinking);
    }
  }

  lemma StepKeeps(s: State, e: Event)
    requires Inv(s)
    ensures Inv(Step(s, e))
  {
    if OfPrewalk(e) {
      PrewalkStepKeeps(s, e);
    } else {
      FastStepKeeps(s, e);
    }
  }

  lemma {:induction false} RunKeeps(start: State, events: seq<Event>)
    requires Inv(start)
    ensures Inv(Run(start, events))
    decreases |events|
  {
    if events != [] {
      RunKeeps(start, events[..|events| - 1]);
      StepKeeps(Run(start, events[..|events| - 1]), events[|events| - 1]);
    }
  }

  // ----- What follows for whole runs ------------------------------------------------------------

  lemma StartOk(model: Option<string>, thinking: string)
    ensures Inv(Start(model, thinking))
  {
  }

  /** Fast is on exactly when it holds a snapshot, and never while Prewalk is armed. */
  lemma ActiveExactlyWithSnapshot(model: Option<string>, thinking: string, events: seq<Event>)
    ensures var s := Run(Start(model, thinking), events);
      && (s.active <==> s.snapshot.Some?)
      && (s.prewalk.Armed? ==> !s.active)
      && (s.internalTransition ==> exists k :: k in s.operations && s.operations[k].stage.SettingModel?)
  {
    StartOk(model, thinking);
    RunKeeps(Start(model, thinking), events);
  }

  /** What neither makes nor ends an arm. */
  predicate Neutral(o: Observed) {
    o.SelectionIgnored? || o.FastExited? || o.FastOffBegun? || o.FastOff?
  }

  lemma {:induction false} HoldingMeans(log: seq<Observed>)
    requires ArmOf(log).Holding?
    ensures exists j :: 0 <= j < |log| && log[j] == ArmedWith(ArmOf(log).target)
                        && forall i :: j < i < |log| ==> Neutral(log[i])
  {
    var n := |log| - 1;
    if log[n].ArmedWith? {
      assert log[n] == ArmedWith(ArmOf(log).target);
    } else {
      HoldingMeans(log[..n]);
      var j :| 0 <= j < n && log[..n][j] == ArmedWith(ArmOf(log).target)
               && forall i :: j < i < n ==> Neutral(log[..n][i]);
      forall i | j < i < |log| ensures Neutral(log[i]) {
        assert i < n ==> log[..n][i] == log[i];
      }
      assert log[j] == ArmedWith(ArmOf(log).target);
    }
  }

  lemma {:induction false} NeverBrokenBefore(log: seq<Observed>, n: nat)
    requires !ArmOf(log).Broken? && n <= |log|
    ensures !ArmOf(log[..n]).Broken?
  {
    if n == |log| {
      assert log[..n] == log;
    } else {
      assert log[..|log| - 1][..n] == log[..n];
      NeverBrokenBefore(log[..|log| - 1], n);
    }
  }

  lemma HandOffMeans(log: seq<Observed>, k: nat)
    requires !ArmOf(log).Broken? && k < |log| && log[k].HandedOff?
    ensures exists j :: 0 <= j < k && log[j] == ArmedWith(log[k].target) && forall i :: j < i < k ==> Neutral(log[i])
  {
    var before := log[..k];
    NeverBrokenBefore(log, k + 1);
    assert log[..k + 1] == before + [log[k]];
    ArmMore(before, log[k]);
    HoldingMeans(before);
    var j :| 0 <= j < k && before[j] == ArmedWith(log[k].target) && forall i :: j < i < k ==> Neutral(before[i]);
    forall i | j < i < k ensures Neutral(log[i]) {
      assert before[i] == log[i];
    }
    assert log[j] == ArmedWith(log[k].target);
  }

  /**
   A hand-off goes to the target of the latest arm, and since that arm there was no other arm, no hand-off, no cancel,
   no explicit selection that was noticed and no activation of Fast.
   */
  lemma HandOffFollowsItsArm(model: Option<string>, thinking: string, events: seq<Event>, k: nat)
    requires k < |Run(Start(model, thinking), events).log| && Run(Start(model, thinking), events).log[k].HandedOff?
    ensures var log := Run(Start(model, thinking), events).log;
      exists j :: 0 <= j < k && log[j] == ArmedWith(log[k].target) && forall i :: j < i < k ==> Neutral(log[i])
  {
    StartOk(model, thinking);
    RunKeeps(Start(model, thinking), events);
    HandOffMeans(Run(Start(model, thinking), events).log, k);
  }

  datatype Mark = Beginning | HandingOff | Canceling | Losing | Nothing

  function MarkOf(o: Observed): Mark {
    match o
    case ArmedWith(_) => Beginning
    case HandedOff(_) => HandingOff
    case Canceled => Canceling
    case ArmLost => Losing
    case _ => Nothing
  }

  function Count(log: seq<Observed>, mark: Mark): nat {
    if log == [] then 0 else Count(log[..|log| - 1], mark) + if MarkOf(log[|log| - 1]) == mark then 1 else 0
  }

  lemma {:induction false} EveryArmEndsOnce(log: seq<Observed>)
    requires !ArmOf(log).Broken?
    ensures Count(log, Beginning) == Count(log, HandingOff) + Count(log, Canceling)
                                           + Count(log, Losing) + if ArmOf(log).Holding? then 1 else 0
  {
    if log != [] {
      EveryArmEndsOnce(log[..|log| - 1]);
    }
  }

  /** Every arm is handed off, canceled, lost or still in force, and only one of these. */
  lemma ArmsAccountedFor(model: Option<string>, thinking: string, events: seq<Event>)
    ensures var s := Run(Start(model, thinking), events);
      Count(s.log, Beginning) == Count(s.log, HandingOff) + Count(s.log, Canceling)
                                       + Count(s.log, Losing) + if s.prewalk.Armed? then 1 else 0
  {
    StartOk(model, thinking);
    RunKeeps(Start(model, thinking), events);
    EveryArmEndsOnce(Run(Start(model, thinking), events).log);
  }

  // ----- What each observation is caused by -----------------------------------------------------

  /** A cancel, if an arm is in force. */
  function CancelOf(s: State): seq<Observed> {
    if s.prewalk.Armed? then [Canceled] else []
  }

  /**
   What each event shows. A hand-off needs a result of a tool inside the workspace, in a trusted session with the tools
   as built in; an arm is canceled on demand, by lost trust, by Fast being on and by a selection that is noticed; and
   Fast goes on and off only once the operation that was to do so has succeeded.
   */
  function Shown(s: State, e: Event): seq<Observed> {
    match e
    case Arm(idle, trusted, builtin, resolved) =>
      if idle && trusted && builtin && resolved.Some? && !s.active && !s.prewalk.Armed?
      then [ArmedWith(resolved.value)] else []
    case Cancel => CancelOf(s)
    case Consider(relevant, trusted, _) =>
      if relevant && !trusted && s.candidate.NoCandidate? && s.waiting > 0 then CancelOf(s) else []
    case Probed(inWorkspace, trusted, builtin, _) =>
      if !inWorkspace || !s.candidate.Probing? || !s.prewalk.Armed? then []
      else if !trusted then [Canceled]
      else if builtin then [HandedOff(s.prewalk.target)]
      else []
    case CommandOff(idle, _) => if idle && s.active && s.snapshot.Some? then [FastOffBegun(s.snapshot.value)] else []
    case GoOn(k) => if k in s.operations then OutcomeShown(s, s.operations[k]) else []
    case Select =>
      if s.internalTransition then [SelectionIgnored]
      else if s.active then [FastExited]
      else CancelOf(s) + [SelectionNoticed]
    case FinishExit => if s.exits > 0 then CancelOf(s) + [SelectionNoticed] else []
    case _ => []
  }

  function OutcomeShown(s: State, op: Operation): seq<Observed> {
    if op.stage.SettingModel? then []
    else
      match op.purpose
      case HandOff => if s.prewalk.Armed? then [ArmLost] else []
      case Enable(before) => if op.stage.ok then CancelOf(s) + [FastOn(before)] else []
      case Disable => if op.stage.ok then [FastOff] else []
  }

  lemma NotifiedShows(s: State)
    ensures Notified(s).log == s.log + (CancelOf(s) + [SelectionNoticed])
  {
  }

  lemma WentOnShows(s: State, k: nat)
    requires k in s.operations
    ensures WentOn(s, k).log == s.log + OutcomeShown(s, s.operations[k])
  {
  }

  lemma NothingShown(log: seq<Observed>)
    ensures log + [] == log
  {
  }

  lemma ProbedShows(s: State, inWorkspace: bool, trusted: bool, builtin: bool, ports: Ports)
    ensures PathProbed(s, inWorkspace, trusted, builtin, ports).log
         == s.log + Shown(s, Probed(inWorkspace, trusted, builtin, ports))
  {
    NothingShown(s.log);
  }

  /** Every step shows exactly what its event is to show. */
  lemma StepShows(s: State, e: Event)
    ensures Step(s, e).log == s.log + Shown(s, e)
  {
    NothingShown(s.log);
    match e {
      case Probed(inWorkspace, trusted, builtin, ports) => ProbedShows(s, inWorkspace, trusted, builtin, ports);
      case GoOn(k) =>
        if k in s.operations {
          WentOnShows(s, k);
        }
      case Select => NotifiedShows(s);
      case FinishExit =>
        if s.exits > 0 {
          NotifiedShows(s.(exits := s.exits - 1));
        }
      case _ =>
    }
  }

  lemma OnRecord(start: State, events: seq<Event>, e: Event)
    ensures Run(start, events + [e]) == Step(Run(start, events), e)
    ensures Run(start, events + [e]).log == Run(start, events).log + Shown(Run(start, events), e)
  {
    RunMore(start, events, e);
    StepShows(Run(start, events), e);
  }

  /** A tool result goes on to its path exactly if it is relevant and the session armed and trusted. */
  lemma ProbesExactly(s: State, e: Event)
    ensures Step(s, e).candidate.Probing? && !s.candidate.Probing? <==>
      (e == Consider(true, true, true) && s.candidate.NoCandidate? && s.waiting > 0 && s.prewalk.Armed?)
  {
    match e {
      case GoOn(k) =>
        if k in s.operations {
          assert !WentOn(s, k).candidate.Probing? || s.candidate.Probing?;
        }
      case _ =>
    }
  }

  /** The candidate that is being probed was found relevant and trusted while armed, and none was considered since. */
  ghost predicate ConsideredAt(start: State, events: seq<Event>, m: nat) {
    && m < |events| && events[m] == Consider(true, true, true) && Run(start, events[..m]).prewalk.Armed?
    && forall i :: m < i <= |events| ==> Run(start, events[..i]).candidate.Probing?
  }

  lemma ConsideredNow(start: State, init: seq<Event>, e: Event)
    requires !Run(start, init).candidate.Probing? && Run(start, init + [e]).candidate.Probing?
    ensures ConsideredAt(start, init + [e], |init|)
  {
    assert (init + [e])[..|init|] == init && (init + [e])[..|init| + 1] == init + [e];
    ProbesExactly(Run(start, init), e);
  }

  lemma ConsideredBefore(start: State, init: seq<Event>, e: Event, m: nat)
    requires ConsideredAt(start, init, m) && Run(start, init + [e]).candidate.Probing?
    ensures ConsideredAt(start, init + [e], m)
  {
    var all := init + [e];
    assert all[..m] == init[..m];
    forall i | m < i <= |all| ensures Run(start, all[..i]).candidate.Probing? {
      if i <= |init| {
        assert all[..i] == init[..i];
      } else {
        assert all[..i] == all;
      }
    }
  }

  lemma {:induction false} ProbingWasConsidered(start: State, events: seq<Event>)
    requires Run(start, events).candidate.Probing? && !start.candidate.Probing?
    ensures exists m: nat :: ConsideredAt(start, events, m)
    decreases |events|
  {
    var init, e := events[..|events| - 1], events[|events| - 1];
    assert events == init + [e];
    if Run(start, init).candidate.Probing? {
      ProbingWasConsidered(start, init);
      var m: nat :| ConsideredAt(start, init, m);
      ConsideredBefore(start, init, e, m);
    } else {
      ConsideredNow(start, init, e);
    }
  }

  /**
   Behind every hand-off stands a tool result that was found relevant and trusted while Prewalk was armed, and then in
   the workspace, trusted and with the tools as built in; no other candidate came between the two.
   */
  lemma HandOffMeetsAllConditions(model: Option<string>, thinking: string, events: seq<Event>, e: Event, target: Target)
    requires var s := Run(Start(model, thinking), events);
      |s.log| <= |Step(s, e).log| && HandedOff(target) in Step(s, e).log[|s.log|..]
    ensures e.Probed? && e.inWorkspace && e.trusted && e.builtin
    ensures exists m: nat :: ConsideredAt(Start(model, thinking), events, m)
  {
    var s := Run(Start(model, thinking), events);
    StepShows(s, e);
    assert Step(s, e).log[|s.log|..] == Shown(s, e);
    ProbingWasConsidered(Start(model, thinking), events);
  }

  // ----- Which arms are lost --------------------------------------------------------------------

  /** What was observed from a position on is neutral. */
  ghost predicate NeutralFrom(log: seq<Observed>, from: nat) {
    forall i :: from <= i < |log| ==> Neutral(log[i])
  }

  ghost predicate NotCanceledFrom(log: seq<Observed>, from: nat) {
    forall i :: from <= i < |log| ==> log[i] != Canceled
  }

  predicate HandingOver(s: State, k: nat) {
    k in s.operations && s.operations[k].purpose.HandOff?
  }

  /**
   What a step means for operation k and for an arm in force: no operation comes back; an arm met only by neutral
   observations stays, and then no new hand-off begins; and during a hand-off only a cancel ends an arm.
   */
  ghost predicate Moves(s: State, s': State, k: nat) {
    && s.log <= s'.log && s.nextOperation <= s'.nextOperation
    && (k < s.nextOperation && k in s'.operations ==> k in s.operations && HandingOver(s', k) == HandingOver(s, k))
    && (s.prewalk.Armed? && NeutralFrom(s'.log, |s.log|) ==>
          s'.prewalk.Armed? && (HandingOver(s', k) ==> HandingOver(s, k)))
    && (s.prewalk.Armed? && HandingOver(s, k) && k in s'.operations && NotCanceledFrom(s'.log, |s.log|) ==>
          NeutralFrom(s'.log, |s.log|))
  }

  lemma ProbedMoves(s: State, inWorkspace: bool, trusted: bool, builtin: bool, ports: Ports, k: nat)
    requires Inv(s)
    ensures Moves(s, PathProbed(s, inWorkspace, trusted, builtin, ports), k)
  {
    var s' := PathProbed(s, inWorkspace, trusted, builtin, ports);
    if |s'.log| > |s.log| {
      assert !Neutral(s'.log[|s.log|]);
    }
  }

  lemma ConsideredMoves(s: State, relevant: bool, trusted: bool, builtin: bool, k: nat)
    requires Inv(s)
    ensures Moves(s, Considered(s, relevant, trusted, builtin), k)
  {
    var s' := Considered(s, relevant, trusted, builtin);
    if |s'.log| > |s.log| {
      assert s'.log[|s.log|] == Canceled;
    }
  }

  lemma CommandMoves(s: State, purpose: Purpose, target: Target, ports: Ports, k: nat)
    requires Inv(s) && !purpose.HandOff?
    ensures Moves(s, Apply(s, purpose, target, ports), k)
  {
  }

  lemma OffMoves(s: State, ports: Ports, k: nat)
    requires Inv(s) && s.active && s.snapshot.Some?
    ensures Moves(s, Apply(s.(log := s.log + [FastOffBegun(s.snapshot.value)]), Disable, s.snapshot.value, ports), k)
  {
  }

  lemma WentOnMoves(s: State, j: nat, k: nat)
    requires Inv(s)
    ensures Moves(s, WentOn(s, j), k)
  {
    if j in s.operations && s.operations[j].stage.Back? {
      if s.operations[j].purpose.HandOff? {
        SwitchEndMoves(s, j, k);
      } else {
        CommandEndMoves(s, j, k);
      }
    }
  }

  lemma SwitchEndMoves(s: State, j: nat, k: nat)
    requires Inv(s) && HandingOver(s, j) && s.operations[j].stage.Back?
    ensures Moves(s, WentOn(s, j), k)
  {
    if s.prewalk.Armed? {
      assert WentOn(s, j).log[|s.log|] == ArmLost;
      assert HandingOver(s, k) ==> k == j;
    }
  }

  lemma CommandEndMoves(s: State, j: nat, k: nat)
    requires Inv(s) && j in s.operations && !HandingOver(s, j) && s.operations[j].stage.Back?
    ensures Moves(s, WentOn(s, j), k)
  {
    var s' := WentOn(s, j);
    if s.prewalk.Armed? && |s'.log| > |s.log| && !s'.log[|s.log|].FastOff? {
      assert s'.log[|s.log|] == Canceled;
    }
  }

  lemma NotifiedMoves(s: State, k: nat)
    requires Inv(s)
    ensures Moves(s, Notified(s), k)
  {
    var s' := Notified(s);
    if s.prewalk.Armed? {
      assert s'.log[|s.log|] == Canceled;
    }
  }

  lemma CancelMoves(s: State, k: nat)
    requires Inv(s)
    ensures Moves(s, CancelArmed(s), k)
  {
    if s.prewalk.Armed? {
      assert CancelArmed(s).log[|s.log|] == Canceled;
    }
  }

  lemma FinishExitMoves(s: State, k: nat)
    requires Inv(s) && s.exits > 0
    ensures Moves(s, Notified(s.(exits := s.exits - 1)), k)
  {
    var s' := Notified(s.(exits := s.exits - 1));
    if s.prewalk.Armed? {
      assert s'.log[|s.log|] == Canceled;
    }
  }

  lemma SelectedMoves(s: State, k: nat)
    requires Inv(s)
    ensures Moves(s, Selected(s), k)
  {
    NotifiedMoves(s, k);
  }

  lemma PrewalkMoves(s: State, e: Event, k: nat)
    requires Inv(s) && OfPrewalk(e)
    ensures Moves(s, Step(s, e), k)
  {
    match e {
      case Arm(_, _, _, _) =>
      case Cancel => CancelMoves(s, k);
      case ToolResult =>
      case Consider(relevant, trusted, builtin) => ConsideredMoves(s, relevant, trusted, builtin, k);
      case Probed(inWorkspace, trusted, builtin, ports) => ProbedMoves(s, inWorkspace, trusted, builtin, ports, k);
    }
  }

  lemma StepMoves(s: State, e: Event, k: nat)
    requires Inv(s)
    ensures Moves(s, Step(s, e), k)
  {
    if OfPrewalk(e) {
      PrewalkMoves(s, e, k);
    } else {
      match e {
        case CommandOn(_, resolved, ports) =>
          if resolved.Some? {
            CommandMoves(s, Enable(Target(s.model, s.thinking)), resolved.value, ports, k);
          }
        case CommandOff(_, ports) =>
          if s.active && s.snapshot.Some? {
            OffMoves(s, ports, k);
          }
        case SetModelReturns(_, _, _, _) =>
        case GoOn(j) => WentOnMoves(s, j, k);
        case Select => SelectedMoves(s, k);
        case FinishExit =>
          if s.exits > 0 {
            FinishExitMoves(s, k);
          }
        case Outside(_, _) =>
      }
    }
  }

  /** The steps from n to m, as far as operation k and an arm are concerned. */
  ghost predicate MovesAlong(states: nat -> State, n: nat, m: nat, k: nat) {
    forall i :: n <= i < m ==> Moves(states(i), states(i + 1), k)
  }

  lemma {:induction false} StaysArmed(states: nat -> State, n: nat, m: nat, k: nat)
    requires n <= m && MovesAlong(states, n, m, k) && states(n).prewalk.Armed?
    ensures states(n).log <= states(m).log
    ensures NeutralFrom(states(m).log, |states(n).log|) ==>
      states(m).prewalk.Armed? && (HandingOver(states(m), k) ==> HandingOver(states(n), k))
  {
    if n < m {
      StaysArmed(states, n, m - 1, k);
      assert Moves(states(m - 1), states(m - 1 + 1), k);
      if NeutralFrom(states(m).log, |states(n).log|) {
        var log := states(m - 1).log;
        forall i | |states(n).log| <= i < |log| ensures Neutral(log[i]) {
          assert states(m).log[i] == log[i];
        }
      }
    }
  }

  lemma {:induction false} OnlyCancelEnds(states: nat -> State, n: nat, m: nat, k: nat)
    requires n <= m && MovesAlong(states, n, m, k) && states(n).prewalk.Armed?
    requires HandingOver(states(n), k) && k < states(n).nextOperation && k in states(m).operations
    requires NotCanceledFrom(states(m).log, |states(n).log|)
    ensures states(n).log <= states(m).log && states(n).nextOperation <= states(m).nextOperation
    ensures states(m).prewalk.Armed? && HandingOver(states(m), k)
    ensures NeutralFrom(states(m).log, |states(n).log|)
  {
    if n < m {
      StepsGrow(states, n, m - 1, k);
      var s, s' := states(m - 1), states(m - 1 + 1);
      assert Moves(s, s', k);
      forall i | |states(n).log| <= i < |s.log| ensures s.log[i] != Canceled {
        assert s'.log[i] == s.log[i];
      }
      OnlyCancelEnds(states, n, m - 1, k);
      forall i | |states(n).log| <= i < |s'.log| ensures Neutral(s'.log[i]) {
        if i < |s.log| {
          assert s'.log[i] == s.log[i];
        }
      }
    }
  }

  lemma {:induction false} StepsGrow(states: nat -> State, n: nat, m: nat, k: nat)
    requires n <= m && MovesAlong(states, n, m, k)
    ensures states(n).log <= states(m).log && states(n).nextOperation <= states(m).nextOperation
  {
    if n < m {
      StepsGrow(states, n, m - 1, k);
      assert Moves(states(m - 1), states(m - 1 + 1), k);
    }
  }

  /** The state of a run before its n-th event. */
  function At(start: State, events: seq<Event>, n: nat): State
    requires n <= |events|
  {
    Run(start, events[..n])
  }

  lemma AtNext(start: State, events: seq<Event>, n: nat)
    requires n < |events|
    ensures At(start, events, n + 1) == Step(At(start, events, n), events[n])
  {
    assert events[..n + 1][..n] == events[..n];
  }

  lemma RunMovesAlong(start: State, events: seq<Event>, states: nat -> State, n: nat, m: nat, k: nat)
    requires Inv(start) && n <= m <= |events|
    requires forall i :: n <= i <= m ==> states(i) == At(start, events, i)
    ensures MovesAlong(states, n, m, k)
  {
    forall i | n <= i < m ensures Moves(states(i), states(i + 1), k) {
      RunKeeps(start, events[..i]);
      AtNext(start, events, i);
      StepMoves(At(start, events, i), events[i], k);
    }
  }

  /** The n-th event is an arm that was accepted. */
  ghost predicate Accepts(start: State, events: seq<Event>, n: nat)
    requires n < |events|
  {
    events[n].Arm? && At(start, events, n + 1).log != At(start, events, n).log
  }

  /** The m-th event loses an arm, and it is that of the n-th event. */
  ghost predicate Loses(start: State, events: seq<Event>, n: nat, m: nat)
    requires n < m < |events|
  {
    && At(start, events, m + 1).log == At(start, events, m).log + [ArmLost]
    && NeutralFrom(At(start, events, m).log, |At(start, events, n + 1).log|)
  }

  /**
   The arm was given while switch k was in flight, the m-th event is the end of that switch, and there was no cancel.
   */
  ghost predicate ArmedDuring(start: State, events: seq<Event>, n: nat, m: nat, k: nat)
    requires n < m < |events|
  {
    && HandingOver(At(start, events, n), k) && EndsSwitch(At(start, events, m), events[m], k)
    && NotCanceledFrom(At(start, events, m).log, |At(start, events, n + 1).log|)
  }

  predicate EndsSwitch(s: State, e: Event, k: nat) {
    e == GoOn(k) && HandingOver(s, k) && s.operations[k].stage.Back?
  }

  /** An arm is lost exactly where a switch ends while the arm is in force. */
  lemma LostStep(s: State, e: Event) returns (k: nat)
    requires Inv(s) && Step(s, e).log == s.log + [ArmLost]
    ensures EndsSwitch(s, e, k)
  {
    assert Step(s, e).log[|s.log|] == ArmLost;
    assert e.GoOn?;
    k := e.k;
  }

  lemma AcceptedArm(s: State, e: Event)
    requires Inv(s) && e.Arm? && Step(s, e).log != s.log
    ensures Step(s, e).prewalk.Armed? && Step(s, e).operations == s.operations
    ensures Step(s, e).nextOperation == s.nextOperation
  {
  }

  /** Whatever came of a switch, its end leaves Prewalk idle, and an arm in force then is lost. */
  lemma SwitchEndLosesLaterArm(s: State, e: Event, k: nat)
    requires Inv(s) && EndsSwitch(s, e, k)
    ensures Step(s, e).prewalk == Idle
    ensures Step(s, e).log == s.log + [ArmLost] <==> s.prewalk.Armed?
  {
  }

  /** The condition is necessary. */
  lemma LostOnlyDuringSwitch(start: State, events: seq<Event>, n: nat, m: nat) returns (k: nat)
    requires Inv(start) && n < m < |events| && Accepts(start, events, n) && Loses(start, events, n, m)
    ensures ArmedDuring(start, events, n, m, k)
  {
    var states := (i: nat) => if i <= |events| then At(start, events, i) else start;
    RunKeeps(start, events[..n]);
    RunKeeps(start, events[..m]);
    AtNext(start, events, n);
    AtNext(start, events, m);
    AcceptedArm(At(start, events, n), events[n]);
    k := LostStep(At(start, events, m), events[m]);
    RunMovesAlong(start, events, states, n + 1, m, k);
    StaysArmed(states, n + 1, m, k);
  }

  /** The condition is sufficient. */
  lemma ArmedDuringIsLost(start: State, events: seq<Event>, n: nat, m: nat, k: nat)
    requires Inv(start) && n < m < |events| && Accepts(start, events, n) && ArmedDuring(start, events, n, m, k)
    ensures Loses(start, events, n, m)
  {
    var states := (i: nat) => if i <= |events| then At(start, events, i) else start;
    RunKeeps(start, events[..n]);
    RunKeeps(start, events[..m]);
    AtNext(start, events, n);
    AtNext(start, events, m);
    AcceptedArm(At(start, events, n), events[n]);
    RunMovesAlong(start, events, states, n + 1, m, k);
    OnlyCancelEnds(states, n + 1, m, k);
    SwitchEndLosesLaterArm(At(start, events, m), events[m], k);
  }

  /**
   An accepted arm is lost exactly if it was given while a switch was in flight and was not canceled before that switch
   ended: the end of a switch leaves Prewalk idle whatever was armed meanwhile.
   */
  lemma ArmLostExactlyDuringSwitch(model: Option<string>, thinking: string, events: seq<Event>, n: nat, m: nat)
    requires n < m < |events| && Accepts(Start(model, thinking), events, n)
    ensures Loses(Start(model, thinking), events, n, m)
       <==> exists k :: ArmedDuring(Start(model, thinking), events, n, m, k)
  {
    StartOk(model, thinking);
    if Loses(Start(model, thinking), events, n, m) {
      var k := LostOnlyDuringSwitch(Start(model, thinking), events, n, m);
    }
    if k :| ArmedDuring(Start(model, thinking), events, n, m, k) {
      ArmedDuringIsLost(Start(model, thinking), events, n, m, k);
    }
  }

  /** An explicit selection ends an arm exactly when no transition of Fast's own is flagged. */
  lemma SelectionEndsArmUnlessInternal(model: Option<string>, thinking: string, events: seq<Event>)
    requires Run(Start(model, thinking), events).prewalk.Armed?
    ensures var s := Run(Start(model, thinking), events);
      Step(s, Select).prewalk == (if s.internalTransition then s.prewalk else Idle)
  {
    ActiveExactlyWithSnapshot(model, thinking, events);
  }

  // ----- Commands one at a time -----------------------------------------------------------------

  datatype History = Off | On(snapshot: Target) | Confused

  function TrackFast(h: History, o: Observed): History {
    match o
    case FastOn(t) => if h.Off? then On(t) else Confused
    case FastOffBegun(t) => if h == On(t) then h else Confused
    case FastExited => if h.On? then Off else Confused
    case FastOff => if h.Confused? then Confused else Off
    case _ => h
  }

  function FastOf(log: seq<Observed>): History {
    if log == [] then Off else TrackFast(FastOf(log[..|log| - 1]), log[|log| - 1])
  }

  lemma FastMore(log: seq<Observed>, o: Observed)
    ensures FastOf(log + [o]) == TrackFast(FastOf(log), o)
  {
    assert (log + [o])[..|log|] == log;
  }

  ghost predicate FastIdle(operations: map<nat, Operation>) {
    forall k <- operations :: operations[k].purpose.HandOff?
  }

  /** No Fast command begins while another is in flight. */
  ghost predicate Serialized(start: State, events: seq<Event>) {
    forall n :: 0 <= n < |events| && (events[n].CommandOn? || events[n].CommandOff?) ==>
        FastIdle(Run(start, events[..n]).operations)
  }

  ghost predicate OneFast(operations: map<nat, Operation>, active: bool) {
    && (forall j, k | j in operations && k in operations ::
          !operations[j].purpose.HandOff? && !operations[k].purpose.HandOff? ==> j == k)
    && (forall k <- operations :: operations[k].purpose.Enable? ==> !active)
  }

  ghost predicate FastInv(s: State) {
    && (s.active <==> s.snapshot.Some?)
    && OneFast(s.operations, s.active)
    && FastOf(s.log) == if s.snapshot.Some? then On(s.snapshot.value) else Off
  }

  lemma FastApply(s: State, purpose: Purpose, target: Target, ports: Ports)
    requires FastInv(s) && Numbered(s.operations, s.nextOperation)
    requires purpose.HandOff? || FastIdle(s.operations)
    requires purpose.Enable? ==> !s.active
    ensures FastInv(Apply(s, purpose, target, ports))
  {
  }

  lemma FastCancel(s: State)
    requires FastInv(s)
    ensures FastInv(CancelArmed(s))
  {
    FastMore(s.log, Canceled);
  }

  lemma FastHandOff(s: State, ports: Ports)
    requires FastInv(s) && Numbered(s.operations, s.nextOperation) && s.prewalk.Armed?
    ensures FastInv(Apply(s.(candidate := Applying, prewalk := Switching, log := s.log + [HandedOff(s.prewalk.target)]),
                          HandOff, s.prewalk.target, ports))
  {
    FastMore(s.log, HandedOff(s.prewalk.target));
    FastApply(s.(candidate := Applying, prewalk := Switching, log := s.log + [HandedOff(s.prewalk.target)]),
              HandOff, s.prewalk.target, ports);
  }

  lemma FastProbed(s: State, inWorkspace: bool, trusted: bool, builtin: bool, ports: Ports)
    requires FastInv(s) && Numbered(s.operations, s.nextOperation)
    ensures FastInv(PathProbed(s, inWorkspace, trusted, builtin, ports))
  {
    FastCancel(s.(candidate := NoCandidate));
    if s.prewalk.Armed? {
      FastHandOff(s, ports);
    }
  }

  lemma FastEnabled(t: State, snapshot: Target)
    requires FastInv(t) && !t.active && FastIdle(t.operations)
    ensures var u := CancelArmed(t);
      FastInv(u.(snapshot := Some(snapshot), active := true, log := u.log + [FastOn(snapshot)]))
  {
    FastCancel(t);
    FastMore(CancelArmed(t).log, FastOn(snapshot));
  }

  lemma FastRemoved(s: State, k: nat)
    requires FastInv(s) && k in s.operations
    ensures FastInv(s.(operations := s.operations - {k}))
    ensures s.operations[k].purpose.Enable? ==> !s.active && FastIdle(s.operations - {k})
  {
    if s.operations[k].purpose.Enable? {
      forall j | j in s.operations - {k} ensures s.operations[j].purpose.HandOff? {
        assert j in s.operations && j != k;
      }
    }
  }

  lemma FastDisabled(t: State)
    requires FastInv(t)
    ensures FastInv(t.(active := false, snapshot := None, log := t.log + [FastOff]))
  {
    FastMore(t.log, FastOff);
  }

  lemma FastWentOn(s: State, k: nat)
    requires FastInv(s)
    ensures FastInv(WentOn(s, k))
  {
    if k in s.operations && s.operations[k].stage.Back? {
      var t := s.(operations := s.operations - {k});
      FastRemoved(s, k);
      match s.operations[k].purpose {
        case HandOff => FastMore(s.log, ArmLost);
        case Enable(snapshot) => FastEnabled(t, snapshot);
        case Disable => FastDisabled(t);
      }
    }
  }

  lemma FastNotified(s: State)
    requires FastInv(s)
    ensures FastInv(Notified(s))
  {
    FastCancel(s);
    FastMore(CancelArmed(s).log, SelectionNoticed);
  }

  lemma FastSelected(s: State)
    requires FastInv(s)
    ensures FastInv(Selected(s))
  {
    FastNotified(s);
    FastMore(s.log, SelectionIgnored);
    FastMore(s.log, FastExited);
  }

  lemma FastConsidered(s: State, relevant: bool, trusted: bool, builtin: bool)
    requires FastInv(s)
    ensures FastInv(Considered(s, relevant, trusted, builtin))
  {
    if s.waiting > 0 {
      FastCancel(s.(waiting := s.waiting - 1));
    }
  }

  lemma FastModelSet(s: State, k: nat, changed: bool, clamped: string, ports: Ports)
    requires FastInv(s)
    ensures FastInv(ModelSet(s, k, changed, clamped, ports))
  {
    var s' := ModelSet(s, k, changed, clamped, ports);
    assert forall j <- s'.operations :: j in s.operations && s'.operations[j].purpose == s.operations[j].purpose;
  }

  lemma FastCommandOff(s: State, ports: Ports)
    requires FastInv(s) && Numbered(s.operations, s.nextOperation) && FastIdle(s.operations) && s.snapshot.Some?
    ensures FastInv(Apply(s.(log := s.log + [FastOffBegun(s.snapshot.value)]), Disable, s.snapshot.value, ports))
  {
    FastMore(s.log, FastOffBegun(s.snapshot.value));
    FastApply(s.(log := s.log + [FastOffBegun(s.snapshot.value)]), Disable, s.snapshot.value, ports);
  }

  lemma FastStep(s: State, e: Event)
    requires FastInv(s) && Numbered(s.operations, s.nextOperation)
    requires e.CommandOn? || e.CommandOff? ==> FastIdle(s.operations)
    ensures FastInv(Step(s, e))
  {
    match e {
      case Arm(_, _, _, resolved) =>
        if resolved.Some? {
          FastMore(s.log, ArmedWith(resolved.value));
        }
      case Cancel => FastCancel(s);
      case Consider(relevant, trusted, builtin) => FastConsidered(s, relevant, trusted, builtin);
      case Probed(inWorkspace, trusted, builtin, ports) => FastProbed(s, inWorkspace, trusted, builtin, ports);
      case CommandOn(_, resolved, ports) =>
        if resolved.Some? && !s.active {
          FastApply(s, Enable(Target(s.model, s.thinking)), resolved.value, ports);
        }
      case CommandOff(_, ports) =>
        if s.snapshot.Some? {
          FastCommandOff(s, ports);
        }
      case SetModelReturns(k, changed, clamped, ports) => FastModelSet(s, k, changed, clamped, ports);
      case GoOn(k) => FastWentOn(s, k);
      case Select => FastSelected(s);
      case FinishExit =>
        if s.exits > 0 {
          FastNotified(s.(exits := s.exits - 1));
        }
      case _ =>
    }
  }

  /**
   With Fast commands one at a time, Fast is never switched on over an earlier snapshot, and every off goes back to
   the snapshot of the on it undoes; hand-offs, arms and selections may come at any moment.
   */
  lemma {:induction false} OffUndoesMatchingOn(model: Option<string>, thinking: string, events: seq<Event>)
    requires Serialized(Start(model, thinking), events)
    ensures FastInv(Run(Start(model, thinking), events))
    decreases |events|
  {
    var start := Start(model, thinking);
    if events != [] {
      var init := events[..|events| - 1];
      forall n | 0 <= n < |init| && (init[n].CommandOn? || init[n].CommandOff?)
        ensures FastIdle(Run(start, init[..n]).operations)
      {
        assert init[..n] == events[..n];
      }
      OffUndoesMatchingOn(model, thinking, init);
      StartOk(model, thinking);
      RunKeeps(start, init);
      FastStep(Run(start, init), events[|events| - 1]);
    }
  }

  /** An operation that runs to its end undisturbed, its setModel succeeding. */
  function Completed(s: State, k: nat, clamped: string, ports: Ports): State {
    WentOn(ModelSet(s, k, true, clamped, ports), k)
  }

  /**
   On and off with nothing in between: the off asks for the model and the level there were before the on, whatever the
   on came to; the model is back afterwards, and so is the level, unless the session moves it elsewhere when asked. An
   on that fails leaves Fast off without a snapshot.
   */
  lemma OnThenOffRestores(s: State, target: Target, clampedOn: string, toFast: Ports, clampedOff: string, back: Ports)
    requires s.operations == map[] && !s.active && s.snapshot.None?
    requires back.context && back.available && !back.thinkingFails
    ensures var on := Completed(Step(s, CommandOn(true, Some(target), toFast)), s.nextOperation, clampedOn, toFast);
      if !on.active then on.snapshot.None?
      else
        var begun := Step(on, CommandOff(true, back));
        var off := Completed(begun, on.nextOperation, clampedOff, back);
        && on.snapshot == Some(Target(s.model, s.thinking))
        && on.nextOperation in begun.operations
        && begun.operations[on.nextOperation].target == Target(s.model, s.thinking)
        && !off.active && off.snapshot.None?
        && (s.model.Some? ==> off.model == s.model)
        && (off.thinking == s.thinking || off.thinking == back.level)
  {
    var on := Completed(Step(s, CommandOn(true, Some(target), toFast)), s.nextOperation, clampedOn, toFast);
    OnHolds(s, target, clampedOn, toFast);
    if on.active {
      OffRestores(on, clampedOff, back);
    }
  }

  lemma OnHolds(s: State, target: Target, clamped: string, ports: Ports)
    requires s.operations == map[] && !s.active && s.snapshot.None?
    ensures var on := Completed(Step(s, CommandOn(true, Some(target), ports)), s.nextOperation, clamped, ports);
      && on.operations == map[]
      && (if on.active then on.snapshot == Some(Target(s.model, s.thinking)) else on.snapshot.None?)
  {
    var begun := Step(s, CommandOn(true, Some(target), ports));
    assert begun.operations.Keys == {s.nextOperation};
    var applied := ModelSet(begun, s.nextOperation, true, clamped, ports);
    assert applied.operations.Keys == {s.nextOperation};
    assert applied.operations - {s.nextOperation} == map[];
  }

  lemma OffRestores(on: State, clamped: string, ports: Ports)
    requires on.operations == map[] && on.active && on.snapshot.Some?
    requires ports.context && ports.available && !ports.thinkingFails
    ensures var begun := Step(on, CommandOff(true, ports));
      var off := Completed(begun, on.nextOperation, clamped, ports);
      && on.nextOperation in begun.operations && begun.operations[on.nextOperation].target == on.snapshot.value
      && !off.active && off.snapshot.None?
      && (on.snapshot.value.model.Some? ==> off.model == on.snapshot.value.model)
      && (off.thinking == on.snapshot.value.thinking || off.thinking == ports.level)
  {
    var begun := Step(on, CommandOff(true, ports));
    assert begun.operations.Keys == {on.nextOperation};
  }

  // ----- What can go wrong ----------------------------------------------------------------------

  lemma RunMore(start: State, events: seq<Event>, e: Event)
    ensures Run(start, events + [e]) == Step(Run(start, events), e)
  {
    assert (events + [e])[..|events|] == events;
  }

  const LOW := Target(Some("fast"), "low")
  const READY := Ports(true, true, false, "low")

  /** Armed, then Fast is switched on; the user selects a model meanwhile; switching on fails; a write is handed off. */
  lemma IgnoredSelectionIsHandedOff()
    ensures exists events ::
      Run(Start(Some("slow"), "high"), events).log == [ArmedWith(LOW), SelectionIgnored, HandedOff(LOW)]
  {
    var s0 := Start(Some("slow"), "high");
    var e1 := [] + [Arm(true, true, true, Some(LOW))];
    RunMore(s0, [], Arm(true, true, true, Some(LOW)));
    var s1 := Run(s0, e1);
    assert s1 == s0.(prewalk := Armed(LOW), log := [ArmedWith(LOW)]);
    var e2 := e1 + [CommandOn(true, Some(LOW), READY)];
    RunMore(s0, e1, CommandOn(true, Some(LOW), READY));
    var s2 := Run(s0, e2);
    assert s2.operations == map[0 := Operation(Enable(Target(Some("slow"), "high")), LOW, SettingModel)];
    assert s2.internalTransition && s2.prewalk == Armed(LOW) && !s2.active && s2.log == s1.log;
    var e3 := e2 + [Select];
    RunMore(s0, e2, Select);
    assert Run(s0, e3) == s2.(log := [ArmedWith(LOW), SelectionIgnored]);
    SelectionIgnoredContinues(s0, e3);
  }

  lemma SelectionIgnoredContinues(s0: State, e3: seq<Event>)
    requires var s := Run(s0, e3);
      && s.prewalk == Armed(LOW) && !s.active && s.candidate == NoCandidate && s.waiting == 0
      && 0 in s.operations && s.operations[0].stage == SettingModel && s.operations[0].purpose.Enable?
      && s.log == [ArmedWith(LOW), SelectionIgnored]
    ensures exists events :: Run(s0, events).log == [ArmedWith(LOW), SelectionIgnored, HandedOff(LOW)]
  {
    var e4 := e3 + [SetModelReturns(0, false, "", READY)];
    RunMore(s0, e3, SetModelReturns(0, false, "", READY));
    var e5 := e4 + [ToolResult];
    RunMore(s0, e4, ToolResult);
    var e6 := e5 + [Consider(true, true, true)];
    RunMore(s0, e5, Consider(true, true, true));
    assert Run(s0, e6).candidate == Probing && Run(s0, e6).prewalk == Armed(LOW);
    var e7 := e6 + [Probed(true, true, true, READY)];
    RunMore(s0, e6, Probed(true, true, true, READY));
    assert Run(s0, e7).log == [ArmedWith(LOW), SelectionIgnored, HandedOff(LOW)];
  }

  /** Armed, a write is handed off; the user arms again while the model is being switched; the switch ends. */
  lemma LaterArmIsLost()
    ensures exists events :: Run(Start(Some("slow"), "high"), events).log
                          == [ArmedWith(LOW), HandedOff(LOW), ArmedWith(LOW), ArmLost]
                          && Run(Start(Some("slow"), "high"), events).prewalk == Idle
                          && Run(Start(Some("slow"), "high"), events).model == LOW.model
  {
    var s0 := Start(Some("slow"), "high");
    var arm := Arm(true, true, true, Some(LOW));
    var e1 := [] + [arm];
    RunMore(s0, [], arm);
    var e2 := e1 + [ToolResult];
    RunMore(s0, e1, ToolResult);
    var e3 := e2 + [Consider(true, true, true)];
    RunMore(s0, e2, Consider(true, true, true));
    assert Run(s0, e3) == s0.(prewalk := Armed(LOW), candidate := Probing, log := [ArmedWith(LOW)]);
    var e4 := e3 + [Probed(true, true, true, READY)];
    RunMore(s0, e3, Probed(true, true, true, READY));
    ArmedAgain(s0, e4);
  }

  lemma ArmedAgain(s0: State, e4: seq<Event>)
    requires var s := Run(s0, e4);
      && s.prewalk == Switching && !s.active && s.log == [ArmedWith(LOW), HandedOff(LOW)]
      && 0 in s.operations && s.operations[0] == Operation(HandOff, LOW, SettingModel)
    ensures exists events :: Run(s0, events).log == [ArmedWith(LOW), HandedOff(LOW), ArmedWith(LOW), ArmLost]
                          && Run(s0, events).prewalk == Idle && Run(s0, events).model == LOW.model
  {
    var arm := Arm(true, true, true, Some(LOW));
    var e5 := e4 + [arm];
    RunMore(s0, e4, arm);
    var e6 := e5 + [SetModelReturns(0, true, "low", READY)];
    RunMore(s0, e5, SetModelReturns(0, true, "low", READY));
    var e7 := e6 + [GoOn(0)];
    RunMore(s0, e6, GoOn(0));
    assert Run(s0, e7).log == [ArmedWith(LOW), HandedOff(LOW), ArmedWith(LOW), ArmLost];
  }
}
