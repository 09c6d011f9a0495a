/** What a run may touch: for any plan at all, the files outside the guarded set, and the exported datasets. */
module HostFrame {
  import opened HostExecutor
  import opened HostModel
  import opened HostPlanner
  import opened HostWorld
  import opened Paths
  import opened Wrappers

  // ---- Change confined to a set of paths ----

  /** Only `files` change, no directory is lost, and what else is new is a directory on the way to `files` or `dirs`. */
  ghost predicate Confined(before: FileSystem, after: FileSystem, files: iset<Path>, dirs: iset<Path>) {
    && (forall p :: p in before && p !in files ==> p in after && after[p] == before[p])
    && (forall p :: p in before && before[p].Directory? ==> p in after && after[p].Directory?)
    && (forall p :: p in after && p !in before && p !in files
          ==> after[p].Directory? && exists t :: t in files + dirs && p <= t)
  }

  lemma ConfinedTwice(a: FileSystem, b: FileSystem, c: FileSystem, files: iset<Path>, dirs: iset<Path>)
    requires Confined(a, b, files, dirs) && Confined(b, c, files, dirs)
    ensures Confined(a, c, files, dirs)
  {
  }

  lemma DirectoriesConfined(fs: FileSystem, p: Path, t: Path, files: iset<Path>, dirs: iset<Path>)
    requires t in files + dirs && p <= t
    requires CreateDirAll(fs, p).Some?
    ensures Confined(fs, CreateDirAll(fs, p).value, files, dirs)
  {
    hide Blocked;
    forall q | q in Prefixes(p)
      ensures q <= t
    {
    }
  }

  lemma WriteConfined(fs: FileSystem, p: Path, contents: string, files: iset<Path>, dirs: iset<Path>)
    requires p in files
    requires WriteAtomic(fs, p, contents).Some?
    ensures Confined(fs, WriteAtomic(fs, p, contents).value, files, dirs)
  {
    hide CreateDirAll;
    match Parent(p)
    case None =>
    case Some(parent) =>
      if parent != [] {
        DirectoriesConfined(fs, parent, p, files, dirs);
      }
  }

  // ---- What one operation writes ----

  function FileTargets(op: Operation): set<Path> {
    match op
    case WriteRenderedArtifact(path, _) => {path}
    case RewriteSeedImage(path, _) => {path}
    case InstallOrUpdateSystemdUnit(_, path, _) => {path, BackupPath(path, FILE_BACKUP)}
    case CreateRootDisk(path, _) => {path}
    case ResizeRootDisk(path, _, _) => {path}
    case RedefineDomain(d, xmlPath, _, _) => {DomainBackupPath(xmlPath, d)}
    case _ => {}
  }

  function DirTargets(op: Operation): set<Path> {
    if op.CreateDirectory? then {op.path} else {}
  }

  ghost predicate Covers(files: iset<Path>, dirs: iset<Path>, op: Operation) {
    && (forall p :: p in FileTargets(op) ==> p in files)
    && (forall p :: p in DirTargets(op) ==> p in dirs)
  }

  ghost predicate ActionWithin(a: RollbackAction, files: iset<Path>) {
    ActionPath(a) in files && (a.RestoreFile? ==> a.backup in files)
  }

  ghost predicate ActionsWithin(actions: seq<RollbackAction>, files: iset<Path>) {
    forall i :: 0 <= i < |actions| ==> ActionWithin(actions[i], files)
  }

  lemma EffectConfined(env: Env, w: World, op: Operation, files: iset<Path>, dirs: iset<Path>)
    requires Covers(files, dirs, op)
    requires OperationEffect(env, w, op).Some?
    ensures Confined(w.fs, OperationEffect(env, w, op).value.fs, files, dirs)
  {
    hide CreateDirAll, WriteAtomic, BackupPath, UnitPath, CreatedDisk, ParentExists;
    match op
    case CreateDirectory(path) => DirectoriesConfined(w.fs, path, path, files, dirs);
    case WriteRenderedArtifact(path, contents) => WriteConfined(w.fs, path, contents, files, dirs);
    case InstallOrUpdateSystemdUnit(_, path, contents) => WriteConfined(w.fs, path, contents, files, dirs);
    case RewriteSeedImage(path, contents) => WriteConfined(w.fs, path, contents, files, dirs);
    case _ =>
  }

  lemma StageConfined(s: ExecState, op: Operation, fault: Fault, files: iset<Path>, dirs: iset<Path>)
    requires Covers(files, dirs, op)
    ensures Confined(s.world.fs, Stage(s, op, fault).world.fs, files, dirs)
    ensures ActionsWithin(s.actions, files) ==> ActionsWithin(Stage(s, op, fault).actions, files)
  {
    hide WriteAtomic, BackupPath, Blocked;
    match op
    case InstallOrUpdateSystemdUnit(_, path, contents) =>
      var backup, current := BackupPath(path, FILE_BACKUP), FileAt(s.world.fs, path);
      if current.Some? && WriteAtomic(s.world.fs, backup, current.value).Some? {
        WriteConfined(s.world.fs, backup, current.value, files, dirs);
      }
    case RedefineDomain(d, xmlPath, previousXml, _) =>
      var backup := DomainBackupPath(xmlPath, d);
      if previousXml.Some? && WriteAtomic(s.world.fs, backup, previousXml.value).Some? {
        WriteConfined(s.world.fs, backup, previousXml.value, files, dirs);
      }
    case _ =>
  }

  lemma OperationConfined(
    env: Env, safety: ExecuteSafety, s: ExecState, op: Operation, faults: StepFaults, files: iset<Path>,
    dirs: iset<Path>)
    requires Validate(safety, op) ==> Covers(files, dirs, op)
    ensures Confined(s.world.fs, ExecOperation(env, safety, s, op, faults).world.fs, files, dirs)
    ensures ActionsWithin(s.actions, files) ==> ActionsWithin(ExecOperation(env, safety, s, op, faults).actions, files)
  {
    hide Validate, Stage, OperationEffect, Confined, Covers, ActionsWithin;
    assert Confined(s.world.fs, s.world.fs, files, dirs) by {
      SameIsConfined(s.world.fs, files, dirs);
    }
    if Validate(safety, op) {
      StageConfined(s, op, faults.stage, files, dirs);
      var staged := Stage(s, op, faults.stage);
      if OperationEffect(env, staged.world, op).Some? {
        EffectConfined(env, staged.world, op, files, dirs);
        ConfinedTwice(s.world.fs, staged.world.fs, OperationEffect(env, staged.world, op).value.fs, files, dirs);
      }
    }
  }

  lemma SameIsConfined(fs: FileSystem, files: iset<Path>, dirs: iset<Path>)
    ensures Confined(fs, fs, files, dirs)
  {
  }

  // ---- A whole run ----

  ghost predicate CoversPlan(safety: ExecuteSafety, plan: seq<ReconcileStep>, files: iset<Path>, dirs: iset<Path>) {
    forall i :: 0 <= i < |plan| && plan[i].Apply? && Validate(safety, plan[i].operation) ==>
      Covers(files, dirs, plan[i].operation)
  }

  lemma {:induction false} RunConfined(
    env: Env, safety: ExecuteSafety, w: World, plan: seq<ReconcileStep>, steps: nat -> StepFaults, n: nat,
    files: iset<Path>, dirs: iset<Path>)
    requires n <= |plan|
    requires CoversPlan(safety, plan, files, dirs)
    ensures Confined(w.fs, RunTo(env, safety, w, plan, steps, n).world.fs, files, dirs)
    ensures ActionsWithin(RunTo(env, safety, w, plan, steps, n).actions, files)
  {
    hide Validate, ExecOperation, Confined, Covers, ActionWithin;
    if n == 0 {
      SameIsConfined(w.fs, files, dirs);
    } else {
      RunConfined(env, safety, w, plan, steps, n - 1, files, dirs);
      var before := RunTo(env, safety, w, plan, steps, n - 1);
      if before.ok && plan[n - 1].Apply? {
        OperationConfined(env, safety, before, plan[n - 1].operation, steps(n - 1), files, dirs);
        ConfinedTwice(
          w.fs, before.world.fs, ExecOperation(env, safety, before, plan[n - 1].operation, steps(n - 1)).world.fs,
          files, dirs);
      }
    }
  }

  lemma UndoConfined(w: World, a: RollbackAction, files: iset<Path>, dirs: iset<Path>)
    requires ActionWithin(a, files)
    ensures UndoEffect(w, a).Some? ==> Confined(w.fs, UndoEffect(w, a).value.fs, files, dirs)
    ensures DiscardEffect(w, a).Some? ==> Confined(w.fs, DiscardEffect(w, a).value.fs, files, dirs)
  {
  }

  lemma {:induction false} RestoreConfined(
    w: World, actions: seq<RollbackAction>, undo: nat -> Fault, k: nat, files: iset<Path>, dirs: iset<Path>)
    requires k <= |actions|
    requires ActionsWithin(actions, files)
    ensures Confined(w.fs, Restore(w, actions, undo, k).world.fs, files, dirs)
    decreases k
  {
    hide UndoEffect, Confined, ActionWithin;
    SameIsConfined(w.fs, files, dirs);
    if k > 0 {
      assert ActionWithin(actions[k - 1], files);
      UndoConfined(w, actions[k - 1], files, dirs);
      var tried := Attempt(w, UndoEffect(w, actions[k - 1]), undo(k - 1));
      if tried.ok {
        RestoreConfined(tried.world, actions, undo, k - 1, files, dirs);
        ConfinedTwice(w.fs, tried.world.fs, Restore(tried.world, actions, undo, k - 1).world.fs, files, dirs);
      }
    }
  }

  lemma {:induction false} CommitConfined(
    w: World, actions: seq<RollbackAction>, discard: nat -> Fault, k: nat, files: iset<Path>, dirs: iset<Path>)
    requires k <= |actions|
    requires ActionsWithin(actions, files)
    ensures Confined(w.fs, Commit(w, actions, discard, k).world.fs, files, dirs)
  {
    hide DiscardEffect, Confined, ActionWithin;
    SameIsConfined(w.fs, files, dirs);
    if k > 0 {
      CommitConfined(w, actions, discard, k - 1, files, dirs);
      var before := Commit(w, actions, discard, k - 1);
      assert ActionWithin(actions[k - 1], files);
      UndoConfined(before.world, actions[k - 1], files, dirs);
      ConfinedTwice(w.fs, before.world.fs, Commit(w, actions, discard, k).world.fs, files, dirs) by {
        SameIsConfined(before.world.fs, files, dirs);
      }
    }
  }

  lemma ExecuteConfined(
    env: Env, safety: ExecuteSafety, w: World, plan: seq<ReconcileStep>, schedule: Schedule,
    files: iset<Path>, dirs: iset<Path>)
    requires CoversPlan(safety, plan, files, dirs)
    ensures Confined(w.fs, Execute(env, safety, w, plan, schedule).world.fs, files, dirs)
  {
    hide CoversPlan, Confined, ActionsWithin, RunTo, Commit, Restore;
    SameIsConfined(w.fs, files, dirs);
    if !HasRefusals(plan) {
      RunConfined(env, safety, w, plan, schedule.steps, |plan|, files, dirs);
      var ran := RunTo(env, safety, w, plan, schedule.steps, |plan|);
      var end := Execute(env, safety, w, plan, schedule);
      if ran.ok {
        CommitConfined(ran.world, ran.actions, schedule.discard, |ran.actions|, files, dirs);
      } else {
        RestoreConfined(ran.world, ran.actions, schedule.undo, |ran.actions|, files, dirs);
      }
      ConfinedTwice(w.fs, ran.world.fs, end.world.fs, files, dirs);
    }
  }

  // ---- The guarded footprint ----

  /** The files the guard's sets allow besides root disks, and the backups beside them. */
  ghost predicate BesidesDisks(safety: ExecuteSafety, p: Path) {
    || Under(p, safety.artifactDir)
    || p in safety.seeds
    || (exists u :: u in safety.units && p == Join(safety.unitDir, Parse(u)))
    || (exists u :: u in safety.units && p == BackupPath(Join(safety.unitDir, Parse(u)), FILE_BACKUP))
    || (exists d, x :: d in safety.domains && Under(x, safety.artifactDir) && p == DomainBackupPath(x, d))
  }

  ghost predicate InFootprint(safety: ExecuteSafety, p: Path) {
    p in safety.rootDisks || BesidesDisks(safety, p)
  }

  /** For any plan at all, under any faults: every node outside the footprint is kept, and no file appears there. */
  lemma FootprintFrame(env: Env, safety: ExecuteSafety, w: World, plan: seq<ReconcileStep>, schedule: Schedule, p: Path)
    requires !InFootprint(safety, p)
    ensures p in w.fs ==>
      p in Execute(env, safety, w, plan, schedule).world.fs
        && Execute(env, safety, w, plan, schedule).world.fs[p] == w.fs[p]
    ensures FileAt(Execute(env, safety, w, plan, schedule).world.fs, p) == FileAt(w.fs, p)
  {
    hide Execute, BackupPath, Join;
    var files, dirs := iset q | InFootprint(safety, q), iset q: Path | |q| >= 0;
    forall i | 0 <= i < |plan| && plan[i].Apply? && Validate(safety, plan[i].operation)
      ensures Covers(files, dirs, plan[i].operation)
    {
      TargetsInFootprint(safety, plan[i].operation);
    }
    ExecuteConfined(env, safety, w, plan, schedule, files, dirs);
  }

  lemma TargetsInFootprint(safety: ExecuteSafety, op: Operation)
    requires Validate(safety, op)
    ensures forall p :: p in FileTargets(op) ==> InFootprint(safety, p)
    ensures forall p :: p in FileTargets(op) && !op.CreateRootDisk? && !op.ResizeRootDisk? ==> BesidesDisks(safety, p)
  {
    hide BackupPath, Join, Under;
  }

  // ---- Exported datasets ----

  // The XML paths of redefinitions name a file, as every path the planner renders does.
  predicate NamesXmlFiles(plan: seq<ReconcileStep>) {
    forall i :: 0 <= i < |plan| && plan[i].Apply? && plan[i].operation.RedefineDomain?
      ==> FileName(plan[i].operation.xmlPath).Some? && '/' !in FileName(plan[i].operation.xmlPath).value
  }

  lemma BackupBeside(p: Path, suffix: string)
    requires FileName(p).Some? && '/' !in FileName(p).value && '/' !in suffix
    ensures BackupPath(p, suffix) == p[..|p| - 1] + [Normal(FileName(p).value + BACKUP_INFIX + suffix)]
  {
    var name := FileName(p).value + BACKUP_INFIX + suffix;
    assert |name| >= 3;
    JoinPlain(p[..|p| - 1], name);
  }

  // A path next to a target lies under a directory that does not hold the target only if it is that directory.
  lemma BesideOutside(p: Path, name: string, root: Path)
    requires p != [] && !Under(p, root)
    requires Under(p[..|p| - 1] + [Normal(name)], root)
    ensures root == p[..|p| - 1] + [Normal(name)]
  {
    var b := p[..|p| - 1] + [Normal(name)];
    assert forall k :: 0 <= k < |p| - 1 ==> b[k] == p[k];
  }

  lemma UnitNamePlain(d: string, e: string)
    ensures IsPlainName(UnitName(d, e)) && UNIT_PREFIX <= UnitName(d, e) && IsServiceName(UnitName(d, e))
  {
    var u := UnitName(d, e);
    assert u[0] == 'n';
    assert |u| > 10;
    assert '/' !in SafePathSegment(d) && '/' !in SafePathSegment(e);
    assert '/' !in UNIT_PREFIX && '/' !in UNIT_SUFFIX;
    assert u[|u| - |UNIT_SUFFIX|..] == UNIT_SUFFIX;
    assert u[..|UNIT_PREFIX|] == UNIT_PREFIX;
  }

  lemma AllowedUnitPath(config: HostConfig, opts: Options, safety: ExecuteSafety, u: string)
    requires FromConfig(config, opts) == Some(safety)
    requires u in safety.units
    ensures IsPlainName(u) && Join(safety.unitDir, Parse(u)) == UnitPath(opts, u)
  {
    hide UnitName, IsPlainName, CheckedPath, SocketPath, SeedImagePath;
    var n, e :| n in config.nodes && e in n.exports && u == UnitName(n.domain, e);
    UnitNamePlain(n.domain, e);
    JoinPlain(opts.unitDir, u);
  }

  // Under an export, what a checked operation writes is at most the export's own root, through a backup.
  lemma TargetsOutsideDataset(
    config: HostConfig, opts: Options, safety: ExecuteSafety, plan: seq<ReconcileStep>, i: nat, e: string, p: Path)
    requires FromConfig(config, opts) == Some(safety)
    requires forall n :: n in config.nodes ==> '/' !in n.domain
    requires AvoidsDatasets(config.exports, plan) && NamesXmlFiles(plan)
    requires i < |plan| && plan[i].Apply? && Validate(safety, plan[i].operation)
    requires e in config.exports && Under(p, config.exports[e].sourcePath)
    requires p in FileTargets(plan[i].operation) || p in DirTargets(plan[i].operation)
    ensures p in FileTargets(plan[i].operation) && p == config.exports[e].sourcePath
  {
    hide NodeChecked, CheckedPath, Under, Parse, Join, BackupPath, UnitName, SocketPath, SeedImagePath;
    var op, root := plan[i].operation, config.exports[e].sourcePath;
    assert p in Targets(op) ==> !Under(p, root);
    match op
    case InstallOrUpdateSystemdUnit(u, path, _) =>
      AllowedUnitPath(config, opts, safety, u);
      assert path in Targets(op);
      BackupBeside(path, FILE_BACKUP);
      BesideOutside(path, u + BACKUP_INFIX + FILE_BACKUP, root);
    case RedefineDomain(d, xmlPath, _, _) =>
      assert xmlPath in Targets(op);
      SuffixPlain(d);
      BackupBeside(xmlPath, d + DOMAIN_BACKUP);
      BesideOutside(xmlPath, FileName(xmlPath).value + BACKUP_INFIX + (d + DOMAIN_BACKUP), root);
    case _ =>
  }

  lemma SuffixPlain(d: string)
    requires '/' !in d
    ensures '/' !in d + DOMAIN_BACKUP
  {
    assert '/' !in DOMAIN_BACKUP;
  }

  // The backup an operation may write beside its target.
  function BackupOf(op: Operation): Option<Path> {
    match op
    case InstallOrUpdateSystemdUnit(_, path, _) => Some(BackupPath(path, FILE_BACKUP))
    case RedefineDomain(d, xmlPath, _, _) => Some(DomainBackupPath(xmlPath, d))
    case _ => None
  }

  // The operation's backup lies outside the dataset, or at a root that is a directory, where none can be written.
  predicate SparesDataset(w: World, op: Operation, root: Path) {
    BackupOf(op).Some? && Under(BackupOf(op).value, root) ==> BackupOf(op).value == root && IsDirectoryAt(w.fs, root)
  }

  /** No backup the guard lets the plan write lies in the dataset. */
  predicate BackupsSpare(safety: ExecuteSafety, w: World, plan: seq<ReconcileStep>, root: Path) {
    forall i :: 0 <= i < |plan| && plan[i].Apply? && Validate(safety, plan[i].operation) ==>
      SparesDataset(w, plan[i].operation, root)
  }

  lemma TargetsByBackup(op: Operation, p: Path)
    ensures p in FileTargets(op) ==> p in Targets(op) || BackupOf(op) == Some(p)
    ensures BackupOf(op) == Some(p) ==> p in FileTargets(op)
    ensures p in DirTargets(op) ==> p in Targets(op)
  {
    hide BackupPath, DomainBackupPath;
  }

  /** Whatever fails, a plan that passes the dataset check and whose backups spare a dataset changes nothing at or below
      that dataset's root. */
  lemma DatasetsUntouched(
    env: Env, exports: map<string, ExportConfig>, safety: ExecuteSafety, w: World, plan: seq<ReconcileStep>,
    schedule: Schedule, e: string, p: Path)
    requires AvoidsDatasets(exports, plan)
    requires e in exports && BackupsSpare(safety, w, plan, exports[e].sourcePath)
    requires Under(p, exports[e].sourcePath)
    ensures p in w.fs <==> p in Execute(env, safety, w, plan, schedule).world.fs
    ensures p in w.fs ==> Execute(env, safety, w, plan, schedule).world.fs[p] == w.fs[p]
  {
    hide Execute, Validate, Targets, FileTargets, DirTargets, BackupOf;
    var root := exports[e].sourcePath;
    var files := iset q | !Under(q, root) || (q == root && IsDirectoryAt(w.fs, root));
    var dirs := iset q | !Under(q, root);
    forall i | 0 <= i < |plan| && plan[i].Apply? && Validate(safety, plan[i].operation)
      ensures Covers(files, dirs, plan[i].operation)
    {
      var op := plan[i].operation;
      forall q | q in FileTargets(op) || q in DirTargets(op)
        ensures q in FileTargets(op) ==> q in files
        ensures q in DirTargets(op) ==> q in dirs
      {
        TargetsByBackup(op, q);
      }
    }
    ExecuteConfined(env, safety, w, plan, schedule, files, dirs);
    if p != root {
      assert forall t :: p <= t ==> Under(t, root) && |root| < |t|;
    }
  }

  /** In particular with domain names without slashes, when the dataset's root is a directory. */
  lemma SlashFreeSpares(
    config: HostConfig, opts: Options, safety: ExecuteSafety, w: World, plan: seq<ReconcileStep>, e: string)
    requires FromConfig(config, opts) == Some(safety)
    requires forall n :: n in config.nodes ==> '/' !in n.domain
    requires AvoidsDatasets(config.exports, plan) && NamesXmlFiles(plan)
    requires e in config.exports && IsDirectoryAt(w.fs, config.exports[e].sourcePath)
    ensures BackupsSpare(safety, w, plan, config.exports[e].sourcePath)
  {
    hide FromConfig, Validate, AvoidsDatasets, NamesXmlFiles, FileTargets, Targets, BackupOf, Under;
    var root := config.exports[e].sourcePath;
    forall i | 0 <= i < |plan| && plan[i].Apply? && Validate(safety, plan[i].operation)
        && BackupOf(plan[i].operation).Some? && Under(BackupOf(plan[i].operation).value, root)
      ensures BackupOf(plan[i].operation).value == root
    {
      TargetsByBackup(plan[i].operation, BackupOf(plan[i].operation).value);
      TargetsOutsideDataset(config, opts, safety, plan, i, e, BackupOf(plan[i].operation).value);
    }
  }
}
