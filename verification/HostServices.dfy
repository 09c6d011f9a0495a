/** No service runs a stale unit file, over any run of cycles that commit or are rolled back. */
module HostServices {
  import opened HostCycle
  import opened HostExecutor
  import opened HostGoals
  import opened HostGuard
  import opened HostModel
  import opened HostPlanner
  import opened HostRollback
  import opened HostWorld
  import opened Paths
  import opened Wrappers

  // ---- The units of a configuration ----

  /** Planned units with one name are one unit: the sanitised names keep exports apart. */
  predicate UnitsAgree(units: seq<UnitFile>) {
    forall a, b :: a in units && b in units && a.name == b.name ==> a == b
  }

  predicate Serves(turn: Turn, unit: UnitFile) {
    && Ready(turn)
    && Isolated(SafetyFor(turn))
    && UnitsAgree(UnitFiles(Files(turn.config, turn.opts, turn.lib)))
    && unit in UnitFiles(Files(turn.config, turn.opts, turn.lib))
    && UnitAllowed(SafetyFor(turn), unit.name)
  }

  function FileOf(turn: Turn, w: World, unit: UnitFile): Option<string> {
    FileAt(w.fs, UnitPath(turn.opts, unit.name))
  }

  // The installed file passes for the desired one: the planner compares hashes.
  predicate Matched(turn: Turn, w: World, unit: UnitFile) {
    FileOf(turn, w, unit).Some?
      && turn.lib.contentHash(FileOf(turn, w, unit).value) == turn.lib.contentHash(unit.contents)
  }

  /** If the unit's file is the desired one and the unit is active, then it runs that file. */
  predicate Fresh(turn: Turn, w: World, unit: UnitFile) {
    Matched(turn, w, unit) && UnitOf(w, unit.name).active ==>
      FileOf(turn, w, unit) == Some(UnitOf(w, unit.name).running)
  }

  // ---- What one operation does to a unit ----

  predicate Touches(op: Operation, u: string) {
    (op.EnableAndStartVirtiofsdService? || op.RestartVirtiofsdService?) && op.unitName == u
  }

  lemma StageKeepsServices(s: ExecState, op: Operation, fault: Fault)
    ensures Stage(s, op, fault).world.units == s.world.units && Stage(s, op, fault).world.loaded == s.world.loaded
    ensures !op.InstallOrUpdateSystemdUnit? && !op.RedefineDomain? ==> Stage(s, op, fault) == s.(ok := true)
  {
    hide WriteAtomic, BackupPath, Blocked;
  }

  lemma EffectOnUnits(env: Env, w: World, op: Operation, u: string)
    requires OperationEffect(env, w, op).Some?
    ensures var after := OperationEffect(env, w, op).value;
      && (!Touches(op, u) ==> UnitOf(after, u) == UnitOf(w, u))
      && (op.InstallOrUpdateSystemdUnit? || op.RedefineDomain? ==> after.loaded == w.loaded)
      && (after.loaded == w.loaded || after.loaded == w.fs)
  {
    hide CreateDirAll, WriteAtomic, CreatedDisk, ParentExists, UnitPath;
  }

  lemma OperationOnUnits(env: Env, safety: ExecuteSafety, s: ExecState, op: Operation, faults: StepFaults, u: string)
    ensures !Touches(op, u) ==> UnitOf(ExecOperation(env, safety, s, op, faults).world, u) == UnitOf(s.world, u)
    ensures ExecOperation(env, safety, s, op, faults).world.loaded == s.world.loaded
         || ExecOperation(env, safety, s, op, faults).world.loaded == s.world.fs
  {
    hide Validate, Stage, OperationEffect;
    StageKeepsServices(s, op, faults.stage);
    var staged := Stage(s, op, faults.stage);
    if OperationEffect(env, staged.world, op).Some? {
      EffectOnUnits(env, staged.world, op, u);
    }
  }

  lemma EnableOnUnit(env: Env, safety: ExecuteSafety, s: ExecState, op: Operation, faults: StepFaults, u: string)
    requires op.EnableAndStartVirtiofsdService? && op.unitName == u
    ensures var after, unit := ExecOperation(env, safety, s, op, faults), UnitOf(s.world, u);
      var text := FileAt(s.world.fs, UnitPath(env.opts, u));
      && after.world.fs == s.world.fs
      && (after.world.loaded == s.world.loaded || after.world.loaded == s.world.fs)
      && (UnitOf(after.world, u) == unit
          || (text.Some? && UnitOf(after.world, u) == if unit.active then unit.(enabled := true)
              else Unit(true, true, text.value)))
      && (after.ok ==> (
            && after.world.loaded == s.world.fs && text.Some?
            && UnitOf(after.world, u) == if unit.active then unit.(enabled := true) else Unit(true, true, text.value)))
  {
    hide Validate, UnitPath, FileAt;
  }

  lemma RestartOnUnit(env: Env, safety: ExecuteSafety, s: ExecState, op: Operation, faults: StepFaults, u: string)
    requires op.RestartVirtiofsdService? && op.unitName == u
    ensures var after, unit := ExecOperation(env, safety, s, op, faults), UnitOf(s.world, u);
      var text :=
        if FileAt(s.world.loaded, UnitPath(env.opts, u)).Some? then FileAt(s.world.loaded, UnitPath(env.opts, u))
                  else FileAt(s.world.fs, UnitPath(env.opts, u));
      && after.world.fs == s.world.fs && after.world.loaded == s.world.loaded
      && (UnitOf(after.world, u) == unit
          || (text.Some? && UnitOf(after.world, u) == unit.(active := true, running := text.value)))
      && (after.ok ==> text.Some? && UnitOf(after.world, u) == unit.(active := true, running := text.value))
  {
    hide Validate, UnitPath, FileAt;
  }

  lemma ReloadLoads(env: Env, safety: ExecuteSafety, s: ExecState, op: Operation, faults: StepFaults)
    requires op.ReloadSystemdUnits?
    ensures ExecOperation(env, safety, s, op, faults).ok ==>
      ExecOperation(env, safety, s, op, faults).world.loaded == s.world.fs
    ensures ExecOperation(env, safety, s, op, faults).world.fs == s.world.fs
  {
  }

  // ---- What the planner decides about a unit ----

  lemma ServeFacts(turn: Turn, unit: UnitFile)
    requires Serves(turn, unit)
    ensures Ready(turn) && ExportsResolve(turn.config) && FromConfig(turn.config, turn.opts) == Some(SafetyFor(turn))
    ensures Isolated(SafetyFor(turn)) && UnitAllowed(SafetyFor(turn), unit.name)
    ensures SafetyFor(turn).unitDir == turn.opts.unitDir && SafetyFor(turn).artifactDir == turn.opts.artifactDir
    ensures UnitPath(turn.opts, unit.name) == UnitFilePath(SafetyFor(turn), unit.name)
    ensures unit in UnitFiles(Files(turn.config, turn.opts, turn.lib))
    ensures IsServiceName(unit.name)
    ensures forall v :: v in UnitFiles(Files(turn.config, turn.opts, turn.lib)) && v.name == unit.name ==> v == unit
    ensures !Under(UnitPath(turn.opts, unit.name), turn.opts.artifactDir)
  {
    hide FromConfig, Files, UnitFiles, IsServiceName, IsPlainName, Under;
    ReadyIs(turn);
    SafetyDirs(turn.config, turn.opts, SafetyFor(turn));
  }

  // An install of the unit's file, or a start of the unit, comes only from the goals of that unit.
  lemma InstallsOf(turn: Turn, unit: UnitFile, actual: ActualState, changed: set<string>, ctx: Context, g: Goal)
    requires Serves(turn, unit) && IsGoal(turn.config, turn.opts, turn.lib, g)
    requires ctx == ContextOf(turn.config, turn.opts, turn.lib)
    ensures var step := DecideStep(ctx, actual, StepOf(turn.config, turn.opts, turn.lib, g), changed);
      step.Apply? && step.operation.InstallOrUpdateSystemdUnit?
        && step.operation.path == UnitPath(turn.opts, unit.name) ==>
        g == Installed(unit) && step.operation.contents == unit.contents
  {
    hide *;
    StepIs(turn.config, turn.opts, turn.lib, g);
    if g.Installed? || g.Enabled? {
      GoalUnit(turn.config, turn.opts, turn.lib, g);
    }
    ServeFacts(turn, unit);
    ContextOptions(turn.config, turn.opts, turn.lib);
    var step := StepOf(turn.config, turn.opts, turn.lib, g);
    InstallsAreWrites(ctx, actual, changed, step);
    match g
    case Rendered(file) =>
      ArtifactUnder(turn.opts, file);
    case Installed(v) =>
      SameUnitPath(turn.opts, v.name, unit.name);
    case _ =>
  }

  lemma ArtifactUnder(opts: Options, file: RenderedFile)
    ensures Under(opts.artifactDir + file.relative, opts.artifactDir)
  {
  }

  lemma SameUnitPath(opts: Options, u: string, v: string)
    ensures UnitPath(opts, u) == UnitPath(opts, v) ==> u == v
  {
    assert UnitPath(opts, u)[|opts.unitDir|] == Normal(u);
    assert UnitPath(opts, v)[|opts.unitDir|] == Normal(v);
  }

  lemma InstallsAreWrites(ctx: Context, actual: ActualState, changed: set<string>, step: ApplyStep)
    ensures var decided := DecideStep(ctx, actual, step, changed);
      decided.Apply? && decided.operation.InstallOrUpdateSystemdUnit? ==>
        step.WriteFile? && decided.operation.path == step.path && decided.operation.contents == step.contents
  {
    hide PathOf, DomainForXml;
  }

  // A start or restart of a unit comes only from its enable step.
  lemma StartsAreEnables(
    ctx: Context, config: HostConfig, actual: ActualState, changed: set<string>, verb: Verb, arg: Arg)
    requires verb == Define || verb == Autostart || verb == Start
    ensures var decided := DecideStep(ctx, actual, RunStep(VirshCommand(config, ctx.opts, verb, arg), None), changed);
      decided.Apply? ==>
        && !decided.operation.EnableAndStartVirtiofsdService?
        && !decided.operation.RestartVirtiofsdService?
        && !decided.operation.ReloadSystemdUnits?
  {
    hide PathOf, DomainForXml;
  }

  lemma QuietSteps(ctx: Context, actual: ActualState, changed: set<string>, step: ApplyStep)
    requires !step.RunStep? || (step.creates.Some? && step.command.program == ctx.opts.qemuImg
      && FirstArg(step.command) == Some(Fixed(QemuCreate)))
             || step.command.args == [Fixed(DaemonReload)]
    ensures var decided := DecideStep(ctx, actual, step, changed);
      decided.Apply? ==>
        && !decided.operation.EnableAndStartVirtiofsdService?
        && !decided.operation.RestartVirtiofsdService?
  {
    hide PathOf, DomainForXml;
  }

  lemma StartsOf(turn: Turn, unit: UnitFile, actual: ActualState, changed: set<string>, ctx: Context, g: Goal)
    requires Serves(turn, unit) && IsGoal(turn.config, turn.opts, turn.lib, g)
    requires ctx == ContextOf(turn.config, turn.opts, turn.lib)
    ensures var step := DecideStep(ctx, actual, StepOf(turn.config, turn.opts, turn.lib, g), changed);
      step.Apply? && Touches(step.operation, unit.name) ==> g == Enabled(unit)
  {
    hide *;
    StepIs(turn.config, turn.opts, turn.lib, g);
    if g.Installed? || g.Enabled? {
      GoalUnit(turn.config, turn.opts, turn.lib, g);
    }
    ServeFacts(turn, unit);
    ContextOptions(turn.config, turn.opts, turn.lib);
    var step := StepOf(turn.config, turn.opts, turn.lib, g);
    TouchesStarts(DecideStep(ctx, actual, step, changed), unit.name);
    match g
    case Defined(node) =>
      StartsAreEnables(ctx, turn.config, actual, changed, Define, PathArg(XmlPath(turn.opts, node)));
    case Autostarted(node) => StartsAreEnables(ctx, turn.config, actual, changed, Autostart, Word(node.domain));
    case Started(node) => StartsAreEnables(ctx, turn.config, actual, changed, Start, Word(node.domain));
    case Enabled(v) =>
      EnableDecision(ctx, actual, changed, v.name);
      TouchesOne(DecideStep(ctx, actual, step, changed), v.name, unit.name);
    case DiskImage(node) =>
      QemuCreates(turn.opts.qemuImg, node);
      QuietSteps(ctx, actual, changed, step);
    case Reloaded =>
      ReloadArgs(turn.opts);
      QuietSteps(ctx, actual, changed, step);
    case _ => QuietSteps(ctx, actual, changed, step);
  }

  lemma TouchesStarts(step: ReconcileStep, u: string)
    ensures step.Apply? && Touches(step.operation, u) ==>
      step.operation.EnableAndStartVirtiofsdService? || step.operation.RestartVirtiofsdService?
  {
  }

  lemma TouchesOne(step: ReconcileStep, u: string, v: string)
    requires step.Apply? ==>
      (step.operation.EnableAndStartVirtiofsdService? || step.operation.RestartVirtiofsdService?)
        && step.operation.unitName == u
    ensures step.Apply? && Touches(step.operation, v) ==> u == v
  {
  }

  lemma ReloadArgs(opts: Options)
    ensures ReloadCommand(opts).args == [Fixed(DaemonReload)] && ReloadCommand(opts).program == opts.systemctl
  {
  }

  // ---- What the inspection says of a unit, and what is planned for it ----

  lemma UnitObserved(turn: Turn, w: World, unit: UnitFile)
    requires Serves(turn, unit)
    ensures var actual := Observe(turn, w);
      && PathOf(actual, UnitPath(turn.opts, unit.name)) == InspectPath(w, turn.lib, UnitPath(turn.opts, unit.name))
      && unit.name in actual.units
      && actual.units[unit.name] == InspectUnit(w, turn.opts, turn.opts.systemctl in actual.tools, unit.name)
  {
    hide *;
    ServeFacts(turn, unit);
    UnitIsGoal(turn, unit);
    StepIs(turn.config, turn.opts, turn.lib, Installed(unit));
    var i := GoalStep(turn, Installed(unit));
    var p, steps := UnitPath(turn.opts, unit.name), ApplyPlan(turn.config, turn.opts, turn.lib);
    UnitPathName(turn.opts, unit);
    ObserveIs(turn, w);
    InspectsPath(w, turn.config, steps, turn.opts, turn.lib, i, p);
    InspectsUnit(w, turn.config, steps, turn.opts, turn.lib, i, unit.name);
  }

  lemma ObserveIs(turn: Turn, w: World)
    ensures Observe(turn, w) == Inspect(
      w, turn.config, ApplyPlan(turn.config, turn.opts, turn.lib), turn.opts, turn.lib)
  {
    hide ApplyPlan, Inspect;
  }

  lemma UnitPathName(opts: Options, unit: UnitFile)
    ensures FileName(UnitPath(opts, unit.name)) == Some(unit.name)
    ensures UnitNameFor(opts, UnitPath(opts, unit.name)) == Some(unit.name)
    ensures UnitPath(opts, unit.name) in StepPaths(WriteFile(UnitPath(opts, unit.name), unit.contents))
  {
    assert Parent(UnitPath(opts, unit.name)) == Some(opts.unitDir);
  }

  lemma UnitIsGoal(turn: Turn, unit: UnitFile)
    requires unit in UnitFiles(Files(turn.config, turn.opts, turn.lib))
    ensures IsGoal(turn.config, turn.opts, turn.lib, Installed(unit))
    ensures IsGoal(turn.config, turn.opts, turn.lib, Reloaded)
    ensures IsGoal(turn.config, turn.opts, turn.lib, Enabled(unit))
  {
    hide Files, UnitFiles;
  }

  lemma CurrentIsMatched(turn: Turn, w: World, unit: UnitFile)
    ensures Matched(turn, w, unit) <==>
      IsCurrentFile(InspectPath(w, turn.lib, UnitPath(turn.opts, unit.name)), turn.lib.contentHash(unit.contents))
  {
    hide UnitPath;
  }

  lemma {:induction false} ChangedAre(ctx: Context, actual: ActualState, steps: seq<ApplyStep>, n: nat, u: string)
    requires n <= |steps|
    ensures u in Changed(ctx, actual, steps, n) <==>
      exists i :: 0 <= i < n && ChangedUnit(ctx, actual, steps[i]) == Some(u)
  {
    hide ChangedUnit;
    if n > 0 {
      ChangedAre(ctx, actual, steps, n - 1, u);
    }
  }

  lemma ChangedStep(ctx: Context, actual: ActualState, step: ApplyStep, u: string)
    ensures ChangedUnit(ctx, actual, step) == Some(u) <==>
      step.WriteFile? && step.path == UnitPath(ctx.opts, u)
        && !IsCurrentFile(PathOf(actual, step.path), ctx.contentHash(step.contents))
  {
    hide PathOf, IsCurrentFile;
    if step.WriteFile? {
      assert UnitNameFor(ctx.opts, step.path) == Some(u) ==> step.path == UnitPath(ctx.opts, u);
      assert Parent(UnitPath(ctx.opts, u)) == Some(ctx.opts.unitDir);
    }
  }

  // Only the unit's own install step writes its file.
  lemma WritesOf(turn: Turn, unit: UnitFile, g: Goal)
    requires Serves(turn, unit) && IsGoal(turn.config, turn.opts, turn.lib, g)
    ensures var step := StepOf(turn.config, turn.opts, turn.lib, g);
      step.WriteFile? && step.path == UnitPath(turn.opts, unit.name) ==> g == Installed(unit)
  {
    hide *;
    ServeFacts(turn, unit);
    StepIs(turn.config, turn.opts, turn.lib, g);
    match g
    case Rendered(file) => ArtifactUnder(turn.opts, file);
    case Installed(v) =>
      GoalUnit(turn.config, turn.opts, turn.lib, g);
      SameUnitPath(turn.opts, v.name, unit.name);
    case _ =>
  }

  /** The unit counts as changed at a step exactly when its file does not match and its install came before. */
  lemma ChangedUnits(turn: Turn, w: World, unit: UnitFile, i: nat)
    requires Serves(turn, unit) && i <= |Goals(turn.config, turn.opts, turn.lib)|
    ensures unit.name in ChangedTo(turn.config, turn.opts, turn.lib, Observe(turn, w), i) <==>
      !Matched(turn, w, unit) && exists k :: 0 <= k < i && Goals(turn.config, turn.opts, turn.lib)[k] == Installed(unit)
  {
    hide *;
    var config, opts, lib, actual := turn.config, turn.opts, turn.lib, Observe(turn, w);
    var ctx, steps, goals := ContextOf(config, opts, lib), ApplyPlan(config, opts, lib), Goals(config, opts, lib);
    PlanLength(config, opts, lib, actual);
    PlanServesGoals(config, opts, lib);
    StepsLength(config, opts, lib, goals);
    ChangedToIs(turn, actual, i);
    ChangedAre(ctx, actual, steps, i, unit.name);
    ContextOptions(config, opts, lib);
    UnitObserved(turn, w, unit);
    CurrentIsMatched(turn, w, unit);
    forall k | 0 <= k < i
      ensures ChangedUnit(ctx, actual, steps[k]) == Some(unit.name) <==>
        goals[k] == Installed(unit) && !Matched(turn, w, unit)
    {
      PlanStepAt(config, opts, lib, actual, k);
      WritesOf(turn, unit, goals[k]);
      ChangedStep(ctx, actual, steps[k], unit.name);
      if goals[k] == Installed(unit) {
        StepIs(config, opts, lib, goals[k]);
      }
    }
  }

  lemma StepsLength(config: HostConfig, opts: Options, lib: Library, goals: seq<Goal>)
    ensures |Steps(config, opts, lib, goals)| == |goals|
  {
    hide StepOf;
  }

  lemma ChangedToIs(turn: Turn, actual: ActualState, i: nat)
    requires i <= |ApplyPlan(turn.config, turn.opts, turn.lib)|
    ensures ChangedTo(turn.config, turn.opts, turn.lib, actual, i)
         == Changed(ContextOf(turn.config, turn.opts, turn.lib), actual, ApplyPlan(turn.config, turn.opts, turn.lib), i)
  {
    hide ApplyPlan, ContextOf, Changed;
  }

  lemma InstallDecided(turn: Turn, w: World, unit: UnitFile, i: nat)
    requires Serves(turn, unit)
    requires i < |Goals(turn.config, turn.opts, turn.lib)|
    requires Goals(turn.config, turn.opts, turn.lib)[i] == Installed(unit)
    ensures i < |PlanFor(turn, w)|
    ensures PlanFor(turn, w)[i] == if Matched(turn, w, unit) then SkipAlreadyCorrect
      else Apply(InstallOrUpdateSystemdUnit(unit.name, UnitPath(turn.opts, unit.name), unit.contents))
  {
    hide *;
    var config, opts, lib, actual := turn.config, turn.opts, turn.lib, Observe(turn, w);
    var ctx := ContextOf(config, opts, lib);
    PlanIs(turn, w);
    PlanLength(config, opts, lib, actual);
    PlanStepAt(config, opts, lib, actual, i);
    StepIs(config, opts, lib, Installed(unit));
    ContextOptions(config, opts, lib);
    UnitObserved(turn, w, unit);
    CurrentIsMatched(turn, w, unit);
    FileDecision(ctx, actual, ChangedTo(config, opts, lib, actual, i), UnitPath(opts, unit.name), unit.contents);
    InstallOperation(ctx, unit);
  }

  lemma FileDecision(ctx: Context, actual: ActualState, changed: set<string>, p: Path, contents: string)
    ensures DecideStep(ctx, actual, WriteFile(p, contents), changed)
         == if IsCurrentFile(PathOf(actual, p), ctx.contentHash(contents)) then SkipAlreadyCorrect
            else Apply(OperationForStep(ctx, WriteFile(p, contents)))
  {
  }

  lemma ReloadDecision(ctx: Context, actual: ActualState, changed: set<string>)
    ensures var step := DecideStep(ctx, actual, RunStep(ReloadCommand(ctx.opts), None), changed);
      step.Refuse? || (step.Apply? && step.operation.ReloadSystemdUnits?)
        || (changed == {} && step == SkipAlreadyCorrect)
  {
    hide PathOf, DecideVirsh;
  }

  lemma ReloadDecided(turn: Turn, w: World, unit: UnitFile, i: nat, k: nat)
    requires Serves(turn, unit) && !Matched(turn, w, unit)
    requires i < |Goals(turn.config, turn.opts, turn.lib)| && Goals(turn.config, turn.opts, turn.lib)[i] == Reloaded
    requires k < |Goals(turn.config, turn.opts, turn.lib)|
    requires Goals(turn.config, turn.opts, turn.lib)[k] == Installed(unit)
    ensures i < |PlanFor(turn, w)|
    ensures PlanFor(turn, w)[i].Refuse?
      || (PlanFor(turn, w)[i].Apply? && PlanFor(turn, w)[i].operation.ReloadSystemdUnits?)
  {
    hide *;
    var config, opts, lib, actual := turn.config, turn.opts, turn.lib, Observe(turn, w);
    PlanIs(turn, w);
    PlanLength(config, opts, lib, actual);
    PlanStepAt(config, opts, lib, actual, i);
    StepIs(config, opts, lib, Reloaded);
    ContextOptions(config, opts, lib);
    ServiceOrder(config, opts, lib, k, i);
    ChangedUnits(turn, w, unit, i);
    ReloadDecision(ContextOf(config, opts, lib), actual, ChangedTo(config, opts, lib, actual, i));
  }

  lemma EnableDecisionExact(ctx: Context, actual: ActualState, changed: set<string>, u: string)
    requires u in actual.units
    ensures var step, state :=
      DecideStep(ctx, actual, RunStep(EnableCommand(ctx.opts, u), None), changed), actual.units[u];
      || step.Refuse?
      || (state.enabled == Some(true) && state.active == Some(true) && u !in changed && step == SkipAlreadyCorrect)
      || (state.enabled == Some(true) && state.active == Some(true) && u in changed
          && step.Apply? && step.operation.RestartVirtiofsdService? && step.operation.unitName == u)
      || (!(state.enabled == Some(true) && state.active == Some(true))
          && step.Apply? && step.operation.EnableAndStartVirtiofsdService? && step.operation.unitName == u)
  {
    hide PathOf, DecideVirsh;
  }

  lemma NoToolRefuses(ctx: Context, actual: ActualState, changed: set<string>, command: Command)
    requires command.program !in actual.tools
    ensures DecideStep(ctx, actual, RunStep(command, None), changed).Refuse?
  {
    hide OperationForCommand;
  }

  lemma EnableProgram(opts: Options, u: string)
    ensures EnableCommand(opts, u).program == opts.systemctl
  {
  }

  predicate Runs(w: World, u: string) {
    UnitOf(w, u).enabled && UnitOf(w, u).active
  }

  lemma InspectRuns(w: World, opts: Options, u: string)
    ensures Runs(w, u) <==>
      InspectUnit(w, opts, true, u).enabled == Some(true) && InspectUnit(w, opts, true, u).active == Some(true)
  {
  }

  lemma EnableDecided(turn: Turn, w: World, unit: UnitFile, i: nat, k: nat)
    requires Serves(turn, unit)
    requires i < |Goals(turn.config, turn.opts, turn.lib)|
    requires Goals(turn.config, turn.opts, turn.lib)[i] == Enabled(unit)
    requires k < i && Goals(turn.config, turn.opts, turn.lib)[k] == Installed(unit)
    ensures i < |PlanFor(turn, w)|
    ensures var step := PlanFor(turn, w)[i];
      || step.Refuse?
      || (Runs(w, unit.name) && Matched(turn, w, unit) && step == SkipAlreadyCorrect)
      || (Runs(w, unit.name) && !Matched(turn, w, unit)
          && step.Apply? && step.operation.RestartVirtiofsdService? && step.operation.unitName == unit.name)
      || (!Runs(w, unit.name) && step.Apply? && step.operation.EnableAndStartVirtiofsdService?
          && step.operation.unitName == unit.name)
  {
    hide *;
    var config, opts, lib, actual := turn.config, turn.opts, turn.lib, Observe(turn, w);
    var ctx, changed := ContextOf(config, opts, lib), ChangedTo(config, opts, lib, actual, i);
    PlanIs(turn, w);
    PlanLength(config, opts, lib, actual);
    PlanStepAt(config, opts, lib, actual, i);
    StepIs(config, opts, lib, Enabled(unit));
    ContextOptions(config, opts, lib);
    ChangedUnits(turn, w, unit, i);
    UnitObserved(turn, w, unit);
    EnableProgram(opts, unit.name);
    if opts.systemctl in actual.tools {
      InspectRuns(w, opts, unit.name);
      EnableDecisionExact(ctx, actual, changed, unit.name);
    } else {
      NoToolRefuses(ctx, actual, changed, EnableCommand(opts, unit.name));
    }
  }

  // ---- The run ----

  /** What a cycle makes of the unit: it restarts a running unit whose file changed, and starts a stopped one. */
  function Settled(turn: Turn, w: World, unit: UnitFile): Unit {
    var before := UnitOf(w, unit.name);
    if before.active then
      if before.enabled && !Matched(turn, w, unit) then before.(running := unit.contents) else before.(enabled := true)
    else Unit(true, true, if Matched(turn, w, unit) then FileOf(turn, w, unit).value else unit.contents)
  }

  function SettledFile(turn: Turn, w: World, unit: UnitFile): Option<string> {
    if Matched(turn, w, unit) then FileOf(turn, w, unit) else Some(unit.contents)
  }

  predicate Passed(turn: Turn, n: nat, g: Goal) {
    exists k :: 0 <= k < n && k < |Goals(turn.config, turn.opts, turn.lib)|
      && Goals(turn.config, turn.opts, turn.lib)[k] == g
  }

  predicate Progress(turn: Turn, w: World, unit: UnitFile, s: ExecState, n: nat) {
    && (Matched(turn, w, unit) ==> FileOf(turn, s.world, unit) == FileOf(turn, w, unit))
    && (s.ok && Passed(turn, n, Installed(unit)) ==> FileOf(turn, s.world, unit) == SettledFile(turn, w, unit))
    && (s.ok && Passed(turn, n, Reloaded) && !Matched(turn, w, unit) ==>
          FileAt(s.world.loaded, UnitPath(turn.opts, unit.name)) == Some(unit.contents))
    && (UnitOf(s.world, unit.name) == UnitOf(w, unit.name) || UnitOf(s.world, unit.name) == Settled(turn, w, unit))
    && (s.ok && Passed(turn, n, Enabled(unit)) ==> UnitOf(s.world, unit.name) == Settled(turn, w, unit))
  }

  lemma PassedNext(turn: Turn, n: nat, g: Goal)
    requires n < |Goals(turn.config, turn.opts, turn.lib)|
    ensures Passed(turn, n + 1, g) <==> Passed(turn, n, g) || Goals(turn.config, turn.opts, turn.lib)[n] == g
  {
    hide Goals;
    if Passed(turn, n, g) {
      var k :|
        0 <= k < n && k < |Goals(turn.config, turn.opts, turn.lib)| && Goals(turn.config, turn.opts, turn.lib)[k] == g;
      assert 0 <= k < n + 1;
    }
  }

  // Behind the reload, every unit file is installed; at an enable step, the reload is behind.
  lemma PassedOrder(turn: Turn, n: nat, unit: UnitFile)
    requires n < |Goals(turn.config, turn.opts, turn.lib)|
    requires unit in UnitFiles(Files(turn.config, turn.opts, turn.lib))
    ensures Passed(turn, n, Reloaded) || Goals(turn.config, turn.opts, turn.lib)[n] == Reloaded ==>
      Passed(turn, n, Installed(unit)) && Goals(turn.config, turn.opts, turn.lib)[n] != Installed(unit)
    ensures Goals(turn.config, turn.opts, turn.lib)[n] == Enabled(unit) ==> Passed(turn, n, Reloaded)
  {
    hide *;
    UnitIsGoal(turn, unit);
    var i := GoalStep(turn, Installed(unit));
    var r := GoalStep(turn, Reloaded);
    PassedDirect(turn, n, Reloaded);
    PassedAt(turn, n, Installed(unit), i);
    PassedAt(turn, n, Reloaded, r);
    ServiceOrder(turn.config, turn.opts, turn.lib, n, r);
    ServiceOrder(turn.config, turn.opts, turn.lib, i, n);
    ServiceOrder(turn.config, turn.opts, turn.lib, r, n);
    if Passed(turn, n, Reloaded) {
      var k := PassedIndex(turn, n, Reloaded);
      ServiceOrder(turn.config, turn.opts, turn.lib, i, k);
      ServiceOrder(turn.config, turn.opts, turn.lib, n, k);
    }
  }

  lemma PassedDirect(turn: Turn, n: nat, g: Goal)
    ensures Passed(turn, n, g) ==> n > 0
  {
    hide Goals;
  }

  lemma PassedAt(turn: Turn, n: nat, g: Goal, k: nat)
    requires k < |Goals(turn.config, turn.opts, turn.lib)|
    requires Goals(turn.config, turn.opts, turn.lib)[k] == g
    ensures k < n ==> Passed(turn, n, g)
  {
    hide Goals;
  }

  lemma PassedIndex(turn: Turn, n: nat, g: Goal) returns (k: nat)
    requires Passed(turn, n, g)
    ensures k < n && k < |Goals(turn.config, turn.opts, turn.lib)| && Goals(turn.config, turn.opts, turn.lib)[k] == g
  {
    hide Goals;
    k :| 0 <= k < n && k < |Goals(turn.config, turn.opts, turn.lib)| && Goals(turn.config, turn.opts, turn.lib)[k] == g;
  }

  // A step that neither installs nor starts the unit.
  lemma QuietProgress(turn: Turn, w: World, unit: UnitFile, s: ExecState, t: ExecState, n: nat)
    requires n < |Goals(turn.config, turn.opts, turn.lib)|
    requires unit in UnitFiles(Files(turn.config, turn.opts, turn.lib))
    requires s.ok && Progress(turn, w, unit, s, n)
    requires FileOf(turn, t.world, unit) == FileOf(turn, s.world, unit)
    requires UnitOf(t.world, unit.name) == UnitOf(s.world, unit.name)
    requires t.world.loaded == s.world.loaded || t.world.loaded == s.world.fs
    requires Goals(turn.config, turn.opts, turn.lib)[n] != Enabled(unit)
    requires Goals(turn.config, turn.opts, turn.lib)[n] == Installed(unit) ==>
      FileOf(turn, s.world, unit) == SettledFile(turn, w, unit)
    requires Goals(turn.config, turn.opts, turn.lib)[n] == Reloaded && t.ok && !Matched(turn, w, unit) ==>
      t.world.loaded == s.world.fs
    ensures Progress(turn, w, unit, t, n + 1)
  {
    hide Goals, Files, UnitFiles, Matched, Settled, Passed, FileAt, UnitPath, UnitOf;
    PassedNext(turn, n, Installed(unit));
    PassedNext(turn, n, Reloaded);
    PassedNext(turn, n, Enabled(unit));
    PassedOrder(turn, n, unit);
  }

  lemma InstallProgress(turn: Turn, w: World, unit: UnitFile, s: ExecState, t: ExecState, n: nat)
    requires n < |Goals(turn.config, turn.opts, turn.lib)|
    requires unit in UnitFiles(Files(turn.config, turn.opts, turn.lib))
    requires s.ok && Progress(turn, w, unit, s, n) && !Matched(turn, w, unit)
    requires Goals(turn.config, turn.opts, turn.lib)[n] == Installed(unit)
    requires t.ok ==> FileOf(turn, t.world, unit) == Some(unit.contents)
    requires UnitOf(t.world, unit.name) == UnitOf(s.world, unit.name)
    ensures Progress(turn, w, unit, t, n + 1)
  {
    hide Goals, Files, UnitFiles, Matched, Settled, Passed, FileAt, UnitPath, UnitOf;
    PassedNext(turn, n, Reloaded);
    PassedNext(turn, n, Enabled(unit));
    PassedOrder(turn, n, unit);
  }

  lemma InstallWrites(env: Env, safety: ExecuteSafety, s: ExecState, op: Operation, faults: StepFaults)
    requires op.InstallOrUpdateSystemdUnit?
    ensures ExecOperation(env, safety, s, op, faults).ok ==>
      FileAt(ExecOperation(env, safety, s, op, faults).world.fs, op.path) == Some(op.contents)
  {
    hide Validate, StageFile, WriteAtomic, FileAt;
    var staged := StageFile(s, op.path, op.contents, faults.stage);
    if WriteAtomic(staged.world.fs, op.path, op.contents).Some? {
      WriteReads(staged.world.fs, op.path, op.contents);
    }
  }

  lemma EnableProgress(turn: Turn, w: World, unit: UnitFile, s: ExecState, t: ExecState, n: nat)
    requires n < |Goals(turn.config, turn.opts, turn.lib)|
    requires unit in UnitFiles(Files(turn.config, turn.opts, turn.lib))
    requires s.ok && Progress(turn, w, unit, s, n)
    requires Goals(turn.config, turn.opts, turn.lib)[n] == Enabled(unit)
    requires t.world.fs == s.world.fs && (t.world.loaded == s.world.loaded || t.world.loaded == s.world.fs)
    requires UnitOf(t.world, unit.name) == UnitOf(s.world, unit.name)
      || UnitOf(t.world, unit.name) == Settled(turn, w, unit)
    requires t.ok ==> UnitOf(t.world, unit.name) == Settled(turn, w, unit)
    ensures Progress(turn, w, unit, t, n + 1)
  {
    hide Goals, Files, UnitFiles, Matched, Settled, Passed, FileAt, UnitPath, UnitOf;
    PassedNext(turn, n, Installed(unit));
    PassedNext(turn, n, Reloaded);
    PassedOrder(turn, n, unit);
  }

  // What the enable step finds, and so what it makes of the unit.
  lemma EnableSettles(turn: Turn, w: World, unit: UnitFile, s: ExecState, op: Operation, faults: StepFaults, n: nat)
    requires Serves(turn, unit) && n < |Goals(turn.config, turn.opts, turn.lib)|
    requires s.ok && Progress(turn, w, unit, s, n)
    requires Goals(turn.config, turn.opts, turn.lib)[n] == Enabled(unit)
    requires Touches(op, unit.name)
    requires op.RestartVirtiofsdService? ==> Runs(w, unit.name) && !Matched(turn, w, unit)
    requires op.EnableAndStartVirtiofsdService? ==> !Runs(w, unit.name)
    ensures Progress(turn, w, unit, ExecOperation(EnvFor(turn), SafetyFor(turn), s, op, faults), n + 1)
  {
    hide Goals, Files, UnitFiles, Ready, Isolated, UnitAllowed, SafetyFor, UnitsAgree, Passed;
    hide UnitPath, FileAt, ExecOperation, UnitOf, Matched;
    PassedOrder(turn, n, unit);
    var t := ExecOperation(EnvFor(turn), SafetyFor(turn), s, op, faults);
    MatchedFile(turn, w, unit);
    if op.EnableAndStartVirtiofsdService? {
      EnableOnUnit(EnvFor(turn), SafetyFor(turn), s, op, faults, unit.name);
    } else {
      RestartOnUnit(EnvFor(turn), SafetyFor(turn), s, op, faults, unit.name);
    }
    EnableProgress(turn, w, unit, s, t, n);
  }

  lemma MatchedFile(turn: Turn, w: World, unit: UnitFile)
    ensures Matched(turn, w, unit) ==> FileOf(turn, w, unit).Some?
  {
    hide FileOf;
  }

  // What an applied step may be, by the goal it serves.
  lemma AppliedTo(turn: Turn, w: World, unit: UnitFile, n: nat)
    requires Serves(turn, unit) && n < |Goals(turn.config, turn.opts, turn.lib)|
    ensures n < |PlanFor(turn, w)|
    ensures var step, g := PlanFor(turn, w)[n], Goals(turn.config, turn.opts, turn.lib)[n];
      && (step.Apply? && step.operation.InstallOrUpdateSystemdUnit?
          && step.operation.path == UnitPath(turn.opts, unit.name) ==>
            g == Installed(unit))
      && (step.Apply? && Touches(step.operation, unit.name) ==> g == Enabled(unit))
  {
    hide *;
    var config, opts, lib, actual := turn.config, turn.opts, turn.lib, Observe(turn, w);
    var ctx, changed := ContextOf(config, opts, lib), ChangedTo(config, opts, lib, actual, n);
    PlanIs(turn, w);
    PlanLength(config, opts, lib, actual);
    PlanStepAt(config, opts, lib, actual, n);
    InstallsOf(turn, unit, actual, changed, ctx, Goals(config, opts, lib)[n]);
    StartsOf(turn, unit, actual, changed, ctx, Goals(config, opts, lib)[n]);
  }

  lemma KeepsUnitFile(turn: Turn, unit: UnitFile, s: ExecState, op: Operation, faults: StepFaults)
    requires Serves(turn, unit)
    requires !(op.InstallOrUpdateSystemdUnit? && op.path == UnitPath(turn.opts, unit.name))
    ensures FileOf(turn, ExecOperation(EnvFor(turn), SafetyFor(turn), s, op, faults).world, unit)
      == FileOf(turn, s.world, unit)
  {
    hide *;
    ServeFacts(turn, unit);
    FileOfIs(turn, s.world, unit);
    FileOfIs(turn, ExecOperation(EnvFor(turn), SafetyFor(turn), s, op, faults).world, unit);
    if Validate(SafetyFor(turn), op) {
      ElsewhereRewinds(EnvFor(turn), SafetyFor(turn), s.world.fs, s, op, faults, unit.name);
    } else {
      RefusedOperation(EnvFor(turn), SafetyFor(turn), s, op, faults);
    }
  }

  lemma FileOfIs(turn: Turn, w: World, unit: UnitFile)
    ensures FileOf(turn, w, unit) == FileAt(w.fs, UnitPath(turn.opts, unit.name))
  {
  }

  lemma RefusedOperation(env: Env, safety: ExecuteSafety, s: ExecState, op: Operation, faults: StepFaults)
    requires !Validate(safety, op)
    ensures ExecOperation(env, safety, s, op, faults) == s.(ok := false)
  {
    hide Validate;
  }

  lemma EnvIs(turn: Turn)
    ensures EnvFor(turn).opts == turn.opts
  {
  }

  lemma StepProgress(turn: Turn, w: World, unit: UnitFile, s: ExecState, faults: StepFaults, n: nat)
    requires Serves(turn, unit)
    requires n < |Goals(turn.config, turn.opts, turn.lib)| && n < |PlanFor(turn, w)| && !PlanFor(turn, w)[n].Refuse?
    requires s.ok && Progress(turn, w, unit, s, n)
    ensures Progress(turn, w, unit, ExecStep(EnvFor(turn), SafetyFor(turn), s, PlanFor(turn, w)[n], faults), n + 1)
  {
    hide *;
    ServeFacts(turn, unit);
    var step, g := PlanFor(turn, w)[n], Goals(turn.config, turn.opts, turn.lib)[n];
    var t := ExecStep(EnvFor(turn), SafetyFor(turn), s, step, faults);
    AppliedTo(turn, w, unit, n);
    PassedOrder(turn, n, unit);
    ExecStepIs(EnvFor(turn), SafetyFor(turn), s, step, faults);
    if g == Installed(unit) {
      InstallStep(turn, w, unit, s, faults, n);
    } else if g == Enabled(unit) {
      EnableStep(turn, w, unit, s, faults, n);
    } else {
      if step.Apply? {
        OperationOnUnits(EnvFor(turn), SafetyFor(turn), s, step.operation, faults, unit.name);
        KeepsUnitFile(turn, unit, s, step.operation, faults);
      }
      if g == Reloaded && !Matched(turn, w, unit) {
        var k := PassedIndex(turn, n, Installed(unit));
        ReloadDecided(turn, w, unit, n, k);
        ReloadLoads(EnvFor(turn), SafetyFor(turn), s, step.operation, faults);
      }
      QuietProgress(turn, w, unit, s, t, n);
    }
  }

  lemma ExecStepIs(env: Env, safety: ExecuteSafety, s: ExecState, step: ReconcileStep, faults: StepFaults)
    ensures ExecStep(env, safety, s, step, faults) == if step.Apply? then
      ExecOperation(env, safety, s, step.operation, faults) else s
  {
    hide ExecOperation;
  }

  lemma InstallStep(turn: Turn, w: World, unit: UnitFile, s: ExecState, faults: StepFaults, n: nat)
    requires Serves(turn, unit)
    requires n < |Goals(turn.config, turn.opts, turn.lib)|
    requires Goals(turn.config, turn.opts, turn.lib)[n] == Installed(unit)
    requires s.ok && Progress(turn, w, unit, s, n)
    requires n < |PlanFor(turn, w)|
    ensures Progress(turn, w, unit, ExecStep(EnvFor(turn), SafetyFor(turn), s, PlanFor(turn, w)[n], faults), n + 1)
  {
    hide *;
    ServeFacts(turn, unit);
    var step := PlanFor(turn, w)[n];
    var t := ExecStep(EnvFor(turn), SafetyFor(turn), s, step, faults);
    ExecStepIs(EnvFor(turn), SafetyFor(turn), s, step, faults);
    InstallDecided(turn, w, unit, n);
    PassedOrder(turn, n, unit);
    if Matched(turn, w, unit) {
      MatchedProgress(turn, w, unit, s, n);
      QuietProgress(turn, w, unit, s, t, n);
    } else {
      NotTouching(step.operation, unit.name);
      OperationOnUnits(EnvFor(turn), SafetyFor(turn), s, step.operation, faults, unit.name);
      InstallWrites(EnvFor(turn), SafetyFor(turn), s, step.operation, faults);
      FileOfIs(turn, t.world, unit);
      InstallProgress(turn, w, unit, s, t, n);
    }
  }

  lemma MatchedProgress(turn: Turn, w: World, unit: UnitFile, s: ExecState, n: nat)
    requires Progress(turn, w, unit, s, n) && Matched(turn, w, unit)
    ensures FileOf(turn, s.world, unit) == SettledFile(turn, w, unit)
  {
    hide Passed, Matched, FileOf;
  }

  lemma NotTouching(op: Operation, u: string)
    requires op.InstallOrUpdateSystemdUnit?
    ensures !Touches(op, u)
  {
  }

  lemma TouchesIs(op: Operation, u: string)
    ensures Touches(op, u) <==> (op.EnableAndStartVirtiofsdService? || op.RestartVirtiofsdService?) && op.unitName == u
  {
  }

  lemma EnableStep(turn: Turn, w: World, unit: UnitFile, s: ExecState, faults: StepFaults, n: nat)
    requires Serves(turn, unit)
    requires n < |Goals(turn.config, turn.opts, turn.lib)|
    requires Goals(turn.config, turn.opts, turn.lib)[n] == Enabled(unit)
    requires s.ok && Progress(turn, w, unit, s, n)
    requires n < |PlanFor(turn, w)| && !PlanFor(turn, w)[n].Refuse?
    ensures Progress(turn, w, unit, ExecStep(EnvFor(turn), SafetyFor(turn), s, PlanFor(turn, w)[n], faults), n + 1)
  {
    hide *;
    var step := PlanFor(turn, w)[n];
    ServeFacts(turn, unit);
    ExecStepIs(EnvFor(turn), SafetyFor(turn), s, step, faults);
    PassedOrder(turn, n, unit);
    var k := PassedIndex(turn, n, Installed(unit));
    EnableDecided(turn, w, unit, n, k);
    if step.Apply? {
      TouchesIs(step.operation, unit.name);
      EnableSettles(turn, w, unit, s, step.operation, faults, n);
    } else {
      AlreadySettled(turn, w, unit, s, n);
      EnableProgress(turn, w, unit, s, s, n);
    }
  }

  lemma AlreadySettled(turn: Turn, w: World, unit: UnitFile, s: ExecState, n: nat)
    requires Progress(turn, w, unit, s, n) && Matched(turn, w, unit) && Runs(w, unit.name)
    ensures UnitOf(s.world, unit.name) == Settled(turn, w, unit)
  {
    hide Passed, Matched, FileOf;
  }

  lemma {:induction false} RunProgress(turn: Turn, w: World, unit: UnitFile, steps: nat -> StepFaults, n: nat)
    requires Serves(turn, unit)
    requires !HasRefusals(PlanFor(turn, w)) && n <= |PlanFor(turn, w)|
    ensures Progress(turn, w, unit, RunTo(EnvFor(turn), SafetyFor(turn), w, PlanFor(turn, w), steps, n), n)
  {
    hide *;
    ServeFacts(turn, unit);
    var plan := PlanFor(turn, w);
    PlanIs(turn, w);
    PlanLength(turn.config, turn.opts, turn.lib, Observe(turn, w));
    RunToIs(EnvFor(turn), SafetyFor(turn), w, plan, steps, n);
    if n == 0 {
      StartProgress(turn, w, unit);
    } else {
      RunProgress(turn, w, unit, steps, n - 1);
      var before := RunTo(EnvFor(turn), SafetyFor(turn), w, plan, steps, n - 1);
      if before.ok {
        NoRefusal(plan, n - 1);
        StepProgress(turn, w, unit, before, steps(n - 1), n - 1);
      } else {
        StoppedProgress(turn, w, unit, before, n - 1);
      }
    }
  }

  lemma RunToIs(
    env: Env, safety: ExecuteSafety, w: World, plan: seq<ReconcileStep>, steps: nat -> StepFaults, n: nat)
    requires n <= |plan|
    ensures n == 0 ==> RunTo(env, safety, w, plan, steps, n) == ExecState(w, [], true)
    ensures n > 0 && RunTo(env, safety, w, plan, steps, n - 1).ok ==>
      RunTo(env, safety, w, plan, steps, n)
        == ExecStep(env, safety, RunTo(env, safety, w, plan, steps, n - 1), plan[n - 1], steps(n - 1))
    ensures n > 0 && !RunTo(env, safety, w, plan, steps, n - 1).ok ==>
      RunTo(env, safety, w, plan, steps, n) == RunTo(env, safety, w, plan, steps, n - 1)
  {
    hide ExecStep;
  }

  lemma StartProgress(turn: Turn, w: World, unit: UnitFile)
    ensures Progress(turn, w, unit, ExecState(w, [], true), 0)
  {
    hide Goals, Matched, FileOf;
  }

  lemma StoppedProgress(turn: Turn, w: World, unit: UnitFile, s: ExecState, n: nat)
    requires !s.ok && Progress(turn, w, unit, s, n)
    ensures Progress(turn, w, unit, s, n + 1)
  {
    hide Goals, Matched, FileOf;
  }

  lemma NoRefusal(plan: seq<ReconcileStep>, i: nat)
    requires !HasRefusals(plan) && i < |plan|
    ensures !plan[i].Refuse?
  {
  }

  // ---- The end of a cycle ----

  lemma {:induction false} RestoreKeepsUnits(w: World, actions: seq<RollbackAction>, undo: nat -> Fault, k: nat)
    requires k <= |actions|
    ensures Restore(w, actions, undo, k).world.units == w.units
    decreases k
  {
    hide RenameNode, RemoveNode;
    if k > 0 {
      var tried := Attempt(w, UndoEffect(w, actions[k - 1]), undo(k - 1));
      if tried.ok {
        RestoreKeepsUnits(tried.world, actions, undo, k - 1);
      }
    }
  }

  lemma {:induction false} CommitKeepsServices(w: World, actions: seq<RollbackAction>, discard: nat -> Fault, k: nat)
    requires k <= |actions|
    ensures Commit(w, actions, discard, k).world.units == w.units
  {
    hide RemoveNode;
    if k > 0 {
      CommitKeepsServices(w, actions, discard, k - 1);
    }
  }

  /** After a cycle that ran all its steps, the unit's file and its state in systemd are exactly these. */
  lemma CommittedUnit(turn: Turn, w: World, unit: UnitFile)
    requires Serves(turn, unit)
    requires Cycle(turn, w).outcome.Committed? || Cycle(turn, w).outcome.CommitFailed?
    ensures FileOf(turn, Cycle(turn, w).world, unit) == SettledFile(turn, w, unit)
    ensures UnitOf(Cycle(turn, w).world, unit.name) == Settled(turn, w, unit)
  {
    hide *;
    ServeFacts(turn, unit);
    CycleIs(turn, w);
    var env, safety, plan := EnvFor(turn), SafetyFor(turn), PlanFor(turn, w);
    ExecuteIs(env, safety, w, plan, turn.schedule);
    RunProgress(turn, w, unit, turn.schedule.steps, |plan|);
    var ran := RunTo(env, safety, w, plan, turn.schedule.steps, |plan|);
    PlanIs(turn, w);
    PlanLength(turn.config, turn.opts, turn.lib, Observe(turn, w));
    UnitIsGoal(turn, unit);
    var i := GoalStep(turn, Installed(unit));
    var e := GoalStep(turn, Enabled(unit));
    PassedAt(turn, |plan|, Installed(unit), i);
    PassedAt(turn, |plan|, Enabled(unit), e);
    ProgressAtEnd(turn, w, unit, ran, |plan|);
    RunWellFormed(env, safety, w, plan, turn.schedule.steps, |plan|);
    CommitKeepsUnits(safety, ran.world, ran.actions, turn.schedule.discard, |ran.actions|, unit.name);
    CommitKeepsServices(ran.world, ran.actions, turn.schedule.discard, |ran.actions|);
    FileOfIs(turn, ran.world, unit);
    FileOfIs(turn, Cycle(turn, w).world, unit);
    SameUnits(ran.world, Cycle(turn, w).world, unit.name);
  }

  lemma SameUnits(a: World, b: World, u: string)
    requires a.units == b.units
    ensures UnitOf(a, u) == UnitOf(b, u)
  {
  }

  lemma ProgressAtEnd(turn: Turn, w: World, unit: UnitFile, s: ExecState, n: nat)
    requires s.ok && Progress(turn, w, unit, s, n)
    requires Passed(turn, n, Installed(unit)) && Passed(turn, n, Enabled(unit))
    ensures FileOf(turn, s.world, unit) == SettledFile(turn, w, unit)
    ensures UnitOf(s.world, unit.name) == Settled(turn, w, unit)
  {
    hide Passed, Settled, SettledFile, FileOf, Matched;
  }

  lemma CycleIs(turn: Turn, w: World)
    requires Cycle(turn, w).outcome != Refused
    ensures Ready(turn) && Cycle(turn, w) == Execute(EnvFor(turn), SafetyFor(turn), w, PlanFor(turn, w), turn.schedule)
    ensures ExportsResolve(turn.config) && !HasRefusals(PlanFor(turn, w))
  {
    hide Ready, PlanFor, SafetyFor, HasRefusals, RunTo, Commit, Restore;
    if Ready(turn) {
      ReadyIs(turn);
    }
  }

  lemma ExecuteIs(env: Env, safety: ExecuteSafety, w: World, plan: seq<ReconcileStep>, schedule: Schedule)
    requires !HasRefusals(plan)
    ensures var ran := RunTo(env, safety, w, plan, schedule.steps, |plan|);
      var end := Execute(env, safety, w, plan, schedule);
      && (end.outcome.Committed? || end.outcome.CommitFailed? <==> ran.ok)
      && (ran.ok ==> end.world == Commit(ran.world, ran.actions, schedule.discard, |ran.actions|).world)
      && (!ran.ok ==> end.world == Restore(ran.world, ran.actions, schedule.undo, |ran.actions|).world)
  {
    hide RunTo, Commit, Restore;
  }

  /** After a cycle that was rolled back, the file is as before, and systemd holds the unit as before or as settled. */
  lemma RolledBackUnit(turn: Turn, w: World, unit: UnitFile)
    requires Serves(turn, unit) && Cycle(turn, w).outcome.RolledBack?
    ensures FileOf(turn, Cycle(turn, w).world, unit) == FileOf(turn, w, unit)
    ensures UnitOf(Cycle(turn, w).world, unit.name) == UnitOf(w, unit.name)
         || UnitOf(Cycle(turn, w).world, unit.name) == Settled(turn, w, unit)
  {
    hide *;
    ServeFacts(turn, unit);
    CycleIs(turn, w);
    var env, safety, plan := EnvFor(turn), SafetyFor(turn), PlanFor(turn, w);
    ExecuteIs(env, safety, w, plan, turn.schedule);
    RunProgress(turn, w, unit, turn.schedule.steps, |plan|);
    var ran := RunTo(env, safety, w, plan, turn.schedule.steps, |plan|);
    ProgressUnit(turn, w, unit, ran, |plan|);
    RollbackRestoresUnits(env, safety, w, plan, turn.schedule, unit.name);
    RestoreKeepsUnits(ran.world, ran.actions, turn.schedule.undo, |ran.actions|);
    FileOfIs(turn, w, unit);
    FileOfIs(turn, Cycle(turn, w).world, unit);
    SameUnits(ran.world, Cycle(turn, w).world, unit.name);
  }

  lemma ProgressUnit(turn: Turn, w: World, unit: UnitFile, s: ExecState, n: nat)
    requires Progress(turn, w, unit, s, n)
    ensures UnitOf(s.world, unit.name) == UnitOf(w, unit.name) || UnitOf(s.world, unit.name) == Settled(turn, w, unit)
  {
    hide Passed, Settled, SettledFile, FileOf, Matched;
  }

  // ---- Freshness ----

  /** The one branch that starts nothing anew: a running unit that is not enabled gets `enable --now`, not a restart. */
  predicate LeavesStale(turn: Turn, w: World, unit: UnitFile) {
    && !Matched(turn, w, unit)
    && UnitOf(w, unit.name).active
    && !UnitOf(w, unit.name).enabled
    && UnitOf(w, unit.name).running != unit.contents
  }

  /** From a fresh unit, a cycle that ran all its steps leaves it fresh exactly when it did not take that branch. */
  lemma CommittedFresh(turn: Turn, w: World, unit: UnitFile)
    requires Serves(turn, unit) && Fresh(turn, w, unit)
    requires Cycle(turn, w).outcome.Committed? || Cycle(turn, w).outcome.CommitFailed?
    ensures Fresh(turn, Cycle(turn, w).world, unit) <==> !LeavesStale(turn, w, unit)
    ensures Matched(turn, Cycle(turn, w).world, unit) && Runs(Cycle(turn, w).world, unit.name)
  {
    hide Serves, Cycle, UnitPath, FileAt;
    CommittedUnit(turn, w, unit);
  }

  /** Freshness and "active only if enabled" survive every cycle that commits, is refused, or is rolled back. */
  lemma CycleFresh(turn: Turn, w: World, unit: UnitFile)
    requires Serves(turn, unit) && Fresh(turn, w, unit)
    requires UnitOf(w, unit.name).active ==> UnitOf(w, unit.name).enabled
    requires !Cycle(turn, w).outcome.RollbackFailed?
    ensures Fresh(turn, Cycle(turn, w).world, unit)
    ensures UnitOf(Cycle(turn, w).world, unit.name).active ==> UnitOf(Cycle(turn, w).world, unit.name).enabled
  {
    hide Serves, Cycle, UnitPath, FileAt;
    match Cycle(turn, w).outcome
    case Refused => RefusedUnchanged(turn, w);
    case RolledBack => RolledBackUnit(turn, w, unit);
    case _ => CommittedUnit(turn, w, unit);
  }

  lemma RefusedUnchanged(turn: Turn, w: World)
    requires Cycle(turn, w).outcome.Refused?
    ensures Cycle(turn, w).world == w
  {
    hide Ready, PlanFor, SafetyFor, HasRefusals, RunTo, Commit, Restore;
  }

  function Retry(turn: Turn, schedules: seq<Schedule>): seq<Turn> {
    seq(|schedules|, i requires 0 <= i < |schedules| => turn.(schedule := schedules[i]))
  }

  // No cycle of the run ends with a rollback that itself failed.
  predicate RollbacksComplete(turns: seq<Turn>, w: World) {
    forall i :: 0 <= i < |turns| ==> !Cycle(turns[i], Cycles(turns[..i], w)).outcome.RollbackFailed?
  }

  /**
   * With the configuration held fixed, over any run of cycles, under any faults after which the rollback completes: a
   * unit that is active and whose file is the desired one runs that file.
   */
  lemma {:induction false} NoStaleService(turn: Turn, schedules: seq<Schedule>, w: World, unit: UnitFile)
    requires Serves(turn, unit) && Fresh(turn, w, unit)
    requires UnitOf(w, unit.name).active ==> UnitOf(w, unit.name).enabled
    requires RollbacksComplete(Retry(turn, schedules), w)
    ensures Fresh(turn, Cycles(Retry(turn, schedules), w), unit)
    ensures UnitOf(Cycles(Retry(turn, schedules), w), unit.name).active ==>
      UnitOf(Cycles(Retry(turn, schedules), w), unit.name).enabled
  {
    hide Serves, Fresh, Cycle, UnitOf;
    if schedules != [] {
      var turns, front := Retry(turn, schedules), schedules[..|schedules| - 1];
      var last := turn.(schedule := schedules[|schedules| - 1]);
      assert turns[..|turns| - 1] == Retry(turn, front);
      forall i | 0 <= i < |front|
        ensures !Cycle(Retry(turn, front)[i], Cycles(Retry(turn, front)[..i], w)).outcome.RollbackFailed?
      {
        assert Retry(turn, front)[..i] == turns[..i];
        assert Retry(turn, front)[i] == turns[i];
      }
      NoStaleService(turn, front, w, unit);
      assert turns[|turns| - 1] == last;
      SameTurn(turn, last, Cycles(Retry(turn, front), w), unit);
      SameTurn(turn, last, Cycles(turns, w), unit);
      CycleFresh(last, Cycles(Retry(turn, front), w), unit);
    }
  }

  lemma SameTurn(turn: Turn, other: Turn, w: World, unit: UnitFile)
    requires other == turn.(schedule := other.schedule)
    ensures Serves(other, unit) <==> Serves(turn, unit)
    ensures Fresh(other, w, unit) <==> Fresh(turn, w, unit)
  {
    hide FromConfig, Files, UnitFiles, Isolated, UnitAllowed, UnitPath, FileAt;
  }
}
