/** The executor: the guard computed from the configuration, the staged rollback, and the run of a plan. */
module HostExecutor {
  import opened HostModel
  import opened HostPlanner
  import opened HostWorld
  import opened Paths
  import opened Wrappers

  // ---- The guard ----

  datatype ExecuteSafety = ExecuteSafety(
    artifactDir: Path,
    unitDir: Path,
    units: set<string>,
    rootDirs: set<Path>,
    rootDisks: set<Path>,
    seeds: set<Path>,
    sockets: set<Path>,
    domains: set<string>)

  // `checked_path`
  predicate CheckedPath(p: Path) {
    p != [] && !Traverses(p)
  }

  // The executor's parent directory: of a bare file name it is ".".
  function ParentDirForPath(p: Path): Path {
    match Parent(p)
    case Some(parent) => if parent == [] then [CurDir] else parent
    case None => [CurDir]
  }

  predicate SocketsChecked(node: NodeConfig, opts: Options) {
    forall e :: e in node.exports ==> CheckedPath(SocketPath(opts, node.domain, e))
  }

  predicate NodeChecked(node: NodeConfig, opts: Options) {
    && CheckedPath(node.rootDisk.image)
    && CheckedPath(ParentDirForPath(node.rootDisk.image))
    && CheckedPath(SeedImagePath(node.rootDisk.image, node.domain))
    && SocketsChecked(node, opts)
  }

  function SafetyOf(nodes: seq<NodeConfig>, opts: Options): ExecuteSafety {
    ExecuteSafety(
      opts.artifactDir,
      opts.unitDir,
      set n, e | n in nodes && e in n.exports :: UnitName(n.domain, e),
      set n | n in nodes :: ParentDirForPath(n.rootDisk.image),
      set n | n in nodes :: n.rootDisk.image,
      set n | n in nodes :: SeedImagePath(n.rootDisk.image, n.domain),
      set n, e | n in nodes && e in n.exports :: SocketPath(opts, n.domain, e),
      set n | n in nodes :: n.domain)
  }

  // `ExecuteSafety::from_config`
  function FromConfig(config: HostConfig, opts: Options): Option<ExecuteSafety> {
    if CheckedPath(opts.artifactDir) && CheckedPath(opts.unitDir)
        && (forall n {:trigger NodeChecked(n, opts)} :: n in config.nodes ==> NodeChecked(n, opts))
    then Some(SafetyOf(config.nodes, opts)) else None
  }

  predicate Mentions(command: Command, p: Path) {
    PathArg(p) in command.args
  }

  predicate UnitAllowed(safety: ExecuteSafety, u: string) {
    u in safety.units && UNIT_PREFIX <= u && IsServiceName(u)
  }

  // `ExecuteSafety::validate`
  predicate Validate(safety: ExecuteSafety, op: Operation) {
    match op
    case CreateDirectory(path) =>
      CheckedPath(path) && (path in safety.rootDirs || Under(path, safety.artifactDir) || Under(path, safety.unitDir))
    case WriteRenderedArtifact(path, _) => CheckedPath(path) && Under(path, safety.artifactDir)
    case CreateRootDisk(path, command) => CheckedPath(path) && path in safety.rootDisks && Mentions(command, path)
    case ResizeRootDisk(path, _, command) => CheckedPath(path) && path in safety.rootDisks && Mentions(command, path)
    case RewriteSeedImage(path, _) => CheckedPath(path) && path in safety.seeds
    case InstallOrUpdateSystemdUnit(u, path, _) =>
      UnitAllowed(safety, u) && CheckedPath(path) && path == Join(safety.unitDir, Parse(u))
    case ReloadSystemdUnits(_) => true
    case EnableAndStartVirtiofsdService(u, socket, _) =>
      UnitAllowed(safety, u) && CheckedPath(socket) && socket in safety.sockets
    case RestartVirtiofsdService(u, socket, _) =>
      UnitAllowed(safety, u) && CheckedPath(socket) && socket in safety.sockets
    case DefineDomain(d, xmlPath, command) =>
      d in safety.domains && CheckedPath(xmlPath) && Under(xmlPath, safety.artifactDir) && Mentions(command, xmlPath)
    case RedefineDomain(d, xmlPath, _, command) =>
      d in safety.domains && CheckedPath(xmlPath) && Under(xmlPath, safety.artifactDir) && Mentions(command, xmlPath)
    case RedefineDomainRequiresShutdown(_, _) => false
    case EnableDomainAutostart(d, _) => d in safety.domains
    case StartDomain(d, _) => d in safety.domains
    case RunCommand(_, _) => false
  }

  // ---- Exported datasets ----

  // `reconcile_operation_target_paths`
  function Targets(op: Operation): set<Path> {
    match op
    case CreateDirectory(path) => {path}
    case WriteRenderedArtifact(path, _) => {path}
    case RewriteSeedImage(path, _) => {path}
    case InstallOrUpdateSystemdUnit(_, path, _) => {path}
    case CreateRootDisk(path, _) => {path}
    case ResizeRootDisk(path, _, _) => {path}
    case RedefineDomain(_, xmlPath, _, _) => {xmlPath}
    case RedefineDomainRequiresShutdown(_, xmlPath) => {xmlPath}
    case RunCommand(_, creates) => if creates.Some? then {creates.value} else {}
    case _ => {}
  }

  // `verify_no_dataset_mutating_operations`
  predicate AvoidsDatasets(exports: map<string, ExportConfig>, plan: seq<ReconcileStep>) {
    forall i, t, e :: 0 <= i < |plan| && plan[i].Apply? && t in Targets(plan[i].operation) && e in exports
      ==> !Under(t, exports[e].sourcePath)
  }

  // ---- Faults ----

  /** A step fails before its effect, or after it (a later sync, wait or reply fails), or not at all. */
  datatype Fault = Clean | Before | After

  datatype StepFaults = StepFaults(stage: Fault, act: Fault)

  datatype Schedule = Schedule(steps: nat -> StepFaults, undo: nat -> Fault, discard: nat -> Fault)

  datatype Attempted = Attempted(world: World, ok: bool)

  function Attempt(w: World, effect: Option<World>, fault: Fault): Attempted {
    if fault.Before? || effect.None? then Attempted(w, false) else Attempted(effect.value, fault.Clean?)
  }

  function OnFiles(w: World, fs: Option<FileSystem>): Option<World> {
    match fs
    case None => None
    case Some(files) => Some(w.(fs := files))
  }

  // ---- Rollback ----

  datatype RollbackAction =
    | RestoreFile(path: Path, backup: Path)
    | RemoveCreated(path: Path)
    | RestoreDomain(domain: string, backup: Path, command: Command)

  function ActionPath(a: RollbackAction): Path {
    match a
    case RestoreFile(path, _) => path
    case RemoveCreated(path) => path
    case RestoreDomain(_, backup, _) => backup
  }

  predicate Staged(actions: seq<RollbackAction>, p: Path) {
    exists i :: 0 <= i < |actions| && ActionPath(actions[i]) == p
  }

  const BACKUP_INFIX := ".nas-csi."
  const FILE_BACKUP := "bak"
  const DOMAIN_BACKUP := ".previous.xml"

  // `backup_path_for`
  function BackupPath(p: Path, suffix: string): Path {
    var parent := match Parent(p) case Some(directory) => directory case None => [CurDir];
    var name := match FileName(p) case Some(n) => n case None => "artifact";
    Join(parent, Parse(name + BACKUP_INFIX + suffix))
  }

  function DomainBackupPath(xmlPath: Path, d: string): Path {
    BackupPath(xmlPath, d + DOMAIN_BACKUP)
  }

  datatype ExecState = ExecState(world: World, actions: seq<RollbackAction>, ok: bool)

  // `stage_file_change`
  function StageFile(s: ExecState, path: Path, contents: string, fault: Fault): ExecState {
    if Staged(s.actions, path) then s.(ok := true)
    else if fault.Before? then s.(ok := false)
    else if FileAt(s.world.fs, path) == Some(contents) then s.(ok := fault.Clean?)
    else if FileAt(s.world.fs, path).Some? then
      var backup := BackupPath(path, FILE_BACKUP);
      var tried :=
        Attempt(s.world, OnFiles(s.world, WriteAtomic(s.world.fs, backup, FileAt(s.world.fs, path).value)), fault);
      ExecState(tried.world, if tried.ok then s.actions + [RestoreFile(path, backup)] else s.actions, tried.ok)
    else if path in s.world.fs || Blocked(s.world.fs, path) || fault.After? then s.(ok := false)
    else ExecState(s.world, s.actions + [RemoveCreated(path)], true)
  }

  function RestoreCommand(command: Command, backup: Path): Command
    requires command.args != []
  {
    command.(args := command.args[|command.args| - 1 := PathArg(backup)])
  }

  // `stage_domain_redefine`
  function StageDomain(
    s: ExecState, d: string, xmlPath: Path, command: Command, previousXml: Option<string>, fault: Fault): ExecState
  {
    var backup := DomainBackupPath(xmlPath, d);
    if previousXml.None? then s.(ok := false)
    else if Staged(s.actions, backup) then s.(ok := true)
    else
      var tried := Attempt(s.world, OnFiles(s.world, WriteAtomic(s.world.fs, backup, previousXml.value)), fault);
      if tried.ok && command.args != [] then
        ExecState(tried.world, s.actions + [RestoreDomain(d, backup, RestoreCommand(command, backup))], true)
      else ExecState(tried.world, s.actions, false)
  }

  function RemoveNode(fs: FileSystem, p: Path): Option<FileSystem> {
    if p in fs && fs[p].Directory? then None else Some(fs - {p})
  }

  // `fs::rename` of a file
  function RenameNode(fs: FileSystem, from: Path, to: Path): Option<FileSystem> {
    if from !in fs || fs[from].Directory? || IsDirectoryAt(fs, to) then None else Some((fs - {from})[to := fs[from]])
  }

  function UndoEffect(w: World, a: RollbackAction): Option<World> {
    match a
    case RestoreFile(path, backup) => OnFiles(w, RenameNode(w.fs, backup, path))
    case RemoveCreated(path) => OnFiles(w, RemoveNode(w.fs, path))
    case RestoreDomain(d, backup, _) => DefineEffect(w, d, backup)
  }

  // `ExecutionRollback::restore` on the first `k` actions: the last one first, stopping at the first error.
  function Restore(w: World, actions: seq<RollbackAction>, undo: nat -> Fault, k: nat): Attempted
    requires k <= |actions|
    decreases k
  {
    if k == 0 then Attempted(w, true)
    else
      var tried := Attempt(w, UndoEffect(w, actions[k - 1]), undo(k - 1));
      if tried.ok then Restore(tried.world, actions, undo, k - 1) else tried
  }

  function DiscardEffect(w: World, a: RollbackAction): Option<World> {
    if a.RemoveCreated? then Some(w) else OnFiles(w, RemoveNode(w.fs, a.backup))
  }

  // `ExecutionRollback::commit` up to action `k`.
  function Commit(w: World, actions: seq<RollbackAction>, discard: nat -> Fault, k: nat): Attempted
    requires k <= |actions|
  {
    if k == 0 then Attempted(w, true)
    else
      var before := Commit(w, actions, discard, k - 1);
      if before.ok then Attempt(before.world, DiscardEffect(before.world, actions[k - 1]), discard(k - 1)) else before
  }

  // ---- Running a plan ----

  datatype Env = Env(opts: Options, imageBytes: DiskInfo -> string)

  function OperationEffect(env: Env, w: World, op: Operation): Option<World> {
    match op
    case CreateDirectory(path) => OnFiles(w, CreateDirAll(w.fs, path))
    case WriteRenderedArtifact(path, contents) => OnFiles(w, WriteAtomic(w.fs, path, contents))
    case InstallOrUpdateSystemdUnit(_, path, contents) => OnFiles(w, WriteAtomic(w.fs, path, contents))
    case RewriteSeedImage(path, contents) => OnFiles(w, WriteAtomic(w.fs, path, contents))
    case CreateRootDisk(path, command) => CreateDiskEffect(w, path, command, env.imageBytes)
    case ResizeRootDisk(path, _, command) => ResizeDiskEffect(w, path, command, env.imageBytes)
    case ReloadSystemdUnits(_) => Some(w.(loaded := w.fs))
    case EnableAndStartVirtiofsdService(u, _, _) => EnableEffect(w, env.opts, u)
    case RestartVirtiofsdService(u, _, _) => RestartEffect(w, env.opts, u)
    case DefineDomain(d, xmlPath, _) => DefineEffect(w, d, xmlPath)
    case RedefineDomain(d, xmlPath, _, _) => DefineEffect(w, d, xmlPath)
    case RedefineDomainRequiresShutdown(_, _) => None
    case EnableDomainAutostart(d, _) => AutostartEffect(w, d)
    case StartDomain(d, _) => StartEffect(w, d)
    case RunCommand(_, _) => None
  }

  // What an operation does before its effect.
  function Stage(s: ExecState, op: Operation, fault: Fault): ExecState {
    match op
    case InstallOrUpdateSystemdUnit(_, path, contents) => StageFile(s, path, contents, fault)
    case RedefineDomain(d, xmlPath, previousXml, command) => StageDomain(s, d, xmlPath, command, previousXml, fault)
    case _ => s.(ok := true)
  }

  // `execute_reconcile_operation`
  function ExecOperation(env: Env, safety: ExecuteSafety, s: ExecState, op: Operation, faults: StepFaults): ExecState {
    if !Validate(safety, op) then s.(ok := false)
    else
      var staged := Stage(s, op, faults.stage);
      if !staged.ok then staged
      else
        var tried := Attempt(staged.world, OperationEffect(env, staged.world, op), faults.act);
        ExecState(tried.world, staged.actions, tried.ok)
  }

  function ExecStep(env: Env, safety: ExecuteSafety, s: ExecState, step: ReconcileStep, faults: StepFaults): ExecState {
    if step.Apply? then ExecOperation(env, safety, s, step.operation, faults) else s
  }

  function RunTo(
    env: Env, safety: ExecuteSafety, w: World, plan: seq<ReconcileStep>, steps: nat -> StepFaults, n: nat): ExecState
    requires n <= |plan|
  {
    if n == 0 then ExecState(w, [], true)
    else
      var before := RunTo(env, safety, w, plan, steps, n - 1);
      if before.ok then ExecStep(env, safety, before, plan[n - 1], steps(n - 1)) else before
  }

  datatype Outcome = Refused | Committed | CommitFailed | RolledBack | RollbackFailed

  datatype Executed = Executed(world: World, outcome: Outcome)

  // `execute_reconcile_plan`
  function Execute(env: Env, safety: ExecuteSafety, w: World, plan: seq<ReconcileStep>, schedule: Schedule): Executed {
    if HasRefusals(plan) then Executed(w, Refused)
    else
      var ran := RunTo(env, safety, w, plan, schedule.steps, |plan|);
      if ran.ok then
        var done := Commit(ran.world, ran.actions, schedule.discard, |ran.actions|);
        Executed(done.world, if done.ok then Committed else CommitFailed)
      else
        var undone := Restore(ran.world, ran.actions, schedule.undo, |ran.actions|);
        Executed(undone.world, if undone.ok then RolledBack else RollbackFailed)
  }

  // ---- The executor as the agent runs it ----

  /** The host the agent changes. */
  class Host {
    var world: World

    constructor (w: World)
      ensures world == w
    {
      world := w;
    }

    method Try(effect: Option<World>, fault: Fault) returns (ok: bool)
      modifies this
      ensures Attempted(world, ok) == Attempt(old(world), effect, fault)
    {
      if fault.Before? || effect.None? {
        return false;
      }
      world := effect.value;
      ok := fault.Clean?;
    }
  }

  /** `ExecutionRollback`: actions are pushed while a plan runs, and walked backwards when a step fails. */
  class ExecutionRollback {
    var actions: seq<RollbackAction>

    constructor ()
      ensures actions == []
    {
      actions := [];
    }

    method StageFileChange(host: Host, path: Path, contents: string, fault: Fault) returns (ok: bool)
      modifies this, host
      ensures ExecState(host.world, actions, ok)
        == StageFile(ExecState(old(host.world), old(actions), true), path, contents, fault)
    {
      hide BackupPath, WriteAtomic, Blocked, Attempt;
      if Staged(actions, path) {
        return true;
      }
      if fault.Before? {
        return false;
      }
      match FileAt(host.world.fs, path)
      case Some(existing) =>
        if existing == contents {
          return fault.Clean?;
        }
        var backup := BackupPath(path, FILE_BACKUP);
        ok := host.Try(OnFiles(host.world, WriteAtomic(host.world.fs, backup, existing)), fault);
        if ok {
          actions := actions + [RestoreFile(path, backup)];
        }
      case None =>
        if path in host.world.fs || Blocked(host.world.fs, path) || fault.After? {
          return false;
        }
        actions := actions + [RemoveCreated(path)];
        ok := true;
    }

    method StageDomainRedefine(
        host: Host, d: string, xmlPath: Path, command: Command, previousXml: Option<string>, fault: Fault)
      returns (ok: bool)
      modifies this, host
      ensures ExecState(host.world, actions, ok)
           == StageDomain(ExecState(old(host.world), old(actions), true), d, xmlPath, command, previousXml, fault)
    {
      hide DomainBackupPath, WriteAtomic, Attempt;
      if previousXml.None? {
        return false;
      }
      var backup := DomainBackupPath(xmlPath, d);
      if Staged(actions, backup) {
        return true;
      }
      ok := host.Try(OnFiles(host.world, WriteAtomic(host.world.fs, backup, previousXml.value)), fault);
      if ok && command.args != [] {
        actions := actions + [RestoreDomain(d, backup, RestoreCommand(command, backup))];
      } else {
        ok := false;
      }
    }

    method RestoreAll(host: Host, undo: nat -> Fault) returns (ok: bool)
      modifies host
      ensures Attempted(host.world, ok) == Restore(old(host.world), actions, undo, |actions|)
    {
      hide UndoEffect, Attempt;
      var k := |actions|;
      ok := true;
      while k > 0 && ok
        invariant 0 <= k <= |actions|
        invariant if ok then Restore(host.world, actions, undo, k) == Restore(old(host.world), actions, undo, |actions|)
                  else Attempted(host.world, ok) == Restore(old(host.world), actions, undo, |actions|)
      {
        ok := host.Try(UndoEffect(host.world, actions[k - 1]), undo(k - 1));
        k := k - 1;
      }
    }

    method CommitAll(host: Host, discard: nat -> Fault) returns (ok: bool)
      modifies host
      ensures Attempted(host.world, ok) == Commit(old(host.world), actions, discard, |actions|)
    {
      hide DiscardEffect, Attempt;
      ok := true;
      for k := 0 to |actions|
        invariant Attempted(host.world, ok) == Commit(old(host.world), actions, discard, k)
      {
        if ok {
          ok := host.Try(DiscardEffect(host.world, actions[k]), discard(k));
        }
      }
    }
  }

  method ExecuteReconcileOperation(
      env: Env, safety: ExecuteSafety, host: Host, rollback: ExecutionRollback, op: Operation, faults: StepFaults)
    returns (ok: bool)
    modifies host, rollback
    ensures ExecState(host.world, rollback.actions, ok)
         == ExecOperation(env, safety, ExecState(old(host.world), old(rollback.actions), true), op, faults)
  {
    hide Validate, StageFile, StageDomain, OperationEffect, Attempt;
    if !Validate(safety, op) {
      return false;
    }
    ok := true;
    match op {
      case InstallOrUpdateSystemdUnit(_, path, contents) =>
        ok := rollback.StageFileChange(host, path, contents, faults.stage);
      case RedefineDomain(d, xmlPath, previousXml, command) =>
        ok := rollback.StageDomainRedefine(host, d, xmlPath, command, previousXml, faults.stage);
      case _ =>
    }
    if ok {
      ok := host.Try(OperationEffect(env, host.world, op), faults.act);
    }
  }

  /** The plan runs step by step; the first failing step starts the rollback, and a plan that ends is committed. */
  method ExecuteReconcilePlan(env: Env, safety: ExecuteSafety, host: Host, plan: seq<ReconcileStep>, schedule: Schedule)
    returns (outcome: Outcome)
    modifies host
    ensures Executed(host.world, outcome) == Execute(env, safety, old(host.world), plan, schedule)
  {
    hide ExecOperation, Restore, Commit;
    if HasRefusals(plan) {
      return Refused;
    }
    var rollback := new ExecutionRollback();
    for n := 0 to |plan|
      invariant fresh(rollback)
      invariant ExecState(host.world, rollback.actions, true)
        == RunTo(env, safety, old(host.world), plan, schedule.steps, n)
    {
      if plan[n].Apply? {
        var ok := ExecuteReconcileOperation(env, safety, host, rollback, plan[n].operation, schedule.steps(n));
        if !ok {
          StoppedRun(env, safety, old(host.world), plan, schedule.steps, n + 1, |plan|);
          var undone := rollback.RestoreAll(host, schedule.undo);
          return if undone then RolledBack else RollbackFailed;
        }
      }
    }
    var done := rollback.CommitAll(host, schedule.discard);
    outcome := if done then Committed else CommitFailed;
  }

  // A run that has failed changes nothing more.
  lemma {:induction false} StoppedRun(
    env: Env, safety: ExecuteSafety, w: World, plan: seq<ReconcileStep>, steps: nat -> StepFaults, n: nat, m: nat)
    requires n <= m <= |plan|
    requires !RunTo(env, safety, w, plan, steps, n).ok
    ensures RunTo(env, safety, w, plan, steps, m) == RunTo(env, safety, w, plan, steps, n)
  {
    hide ExecStep;
    if n < m {
      StoppedRun(env, safety, w, plan, steps, n, m - 1);
    }
  }

  /** The guard's sets are filled node by node and export by export; one bad path refuses the configuration. */
  method BuildSafety(config: HostConfig, opts: Options) returns (r: Option<ExecuteSafety>)
    ensures r == FromConfig(config, opts)
  {
    hide CheckedPath, SocketPath, SeedImagePath, UnitName, ParentDirForPath;
    if !CheckedPath(opts.artifactDir) || !CheckedPath(opts.unitDir) {
      return None;
    }
    var nodes := config.nodes;
    var safety := ExecuteSafety(opts.artifactDir, opts.unitDir, {}, {}, {}, {}, {}, {});
    for i := 0 to |nodes|
      invariant forall n :: n in nodes[..i] ==> NodeChecked(n, opts)
      invariant safety == SafetyOf(nodes[..i], opts)
    {
      var node := nodes[i];
      var image, seed := node.rootDisk.image, SeedImagePath(node.rootDisk.image, node.domain);
      if !CheckedPath(image) || !CheckedPath(ParentDirForPath(image)) || !CheckedPath(seed) {
        assert node in nodes && !NodeChecked(node, opts);
        return None;
      }
      var units, sockets := {}, {};
      for j := 0 to |node.exports|
        invariant units == set e | e in node.exports[..j] :: UnitName(node.domain, e)
        invariant sockets == set e | e in node.exports[..j] :: SocketPath(opts, node.domain, e)
        invariant forall e :: e in node.exports[..j] ==> CheckedPath(SocketPath(opts, node.domain, e))
      {
        var e := node.exports[j];
        if !CheckedPath(SocketPath(opts, node.domain, e)) {
          assert node in nodes && e in node.exports && !NodeChecked(node, opts);
          return None;
        }
        assert node.exports[..j + 1] == node.exports[..j] + [e];
        units := units + {UnitName(node.domain, e)};
        sockets := sockets + {SocketPath(opts, node.domain, e)};
      }
      assert node.exports[..|node.exports|] == node.exports;
      assert nodes[..i + 1] == nodes[..i] + [node];
      safety := ExecuteSafety(
        opts.artifactDir, opts.unitDir, safety.units + units, safety.rootDirs + {ParentDirForPath(image)},
        safety.rootDisks + {image}, safety.seeds + {seed}, safety.sockets + sockets, safety.domains + {node.domain});
      GrowsByNode(nodes[..i], node, opts);
    }
    assert nodes[..|nodes|] == nodes;
    r := Some(safety);
  }

  lemma GrowsByNode(nodes: seq<NodeConfig>, node: NodeConfig, opts: Options)
    ensures SafetyOf(nodes + [node], opts) == (
      var s := SafetyOf(nodes, opts);
      ExecuteSafety(
        opts.artifactDir, opts.unitDir,
        s.units + (set e | e in node.exports :: UnitName(node.domain, e)),
        s.rootDirs + {ParentDirForPath(node.rootDisk.image)},
        s.rootDisks + {node.rootDisk.image},
        s.seeds + {SeedImagePath(node.rootDisk.image, node.domain)},
        s.sockets + (set e | e in node.exports :: SocketPath(opts, node.domain, e)),
        s.domains + {node.domain}))
  {
    hide SocketPath, SeedImagePath, UnitName, ParentDirForPath;
    var a, b := SafetyOf(nodes + [node], opts), SafetyOf(nodes, opts);
    assert a.units == b.units + (set e | e in node.exports :: UnitName(node.domain, e));
    assert a.rootDirs == b.rootDirs + {ParentDirForPath(node.rootDisk.image)};
    assert a.rootDisks == b.rootDisks + {node.rootDisk.image};
    assert a.seeds == b.seeds + {SeedImagePath(node.rootDisk.image, node.domain)};
    assert a.sockets == b.sockets + (set e | e in node.exports :: SocketPath(opts, node.domain, e));
    assert a.domains == b.domains + {node.domain};
  }
}
