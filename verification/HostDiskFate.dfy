/** What becomes of a disk in a committed cycle: exactly the plans that write another file over it destroy it. */
module HostDiskFate {
  import opened HostCycle
  import opened HostDisks
  import opened HostExecutor
  import opened HostFrame
  import opened HostGoals
  import opened HostModel
  import opened HostPlanned
  import opened HostPlanner
  import opened HostRollback
  import opened HostServices
  import opened HostSettled
  import opened HostWorld
  import opened Paths
  import opened Wrappers

  // ---- Plans that write over a path ----

  predicate WritesPath(op: Operation, p: Path) {
    (op.WriteRenderedArtifact? || op.RewriteSeedImage? || op.InstallOrUpdateSystemdUnit?) && op.path == p
  }

  // A unit's backup is written if the unit had a file; a redefined domain's always is.
  predicate BacksUp(w: World, op: Operation, p: Path) {
    BackupOf(op) == Some(p) && (op.InstallOrUpdateSystemdUnit? ==> FileAt(w.fs, op.path).Some?)
  }

  predicate Overwrites(w: World, op: Operation, p: Path) {
    WritesPath(op, p) || BacksUp(w, op, p)
  }

  /** The plan writes a rendered artifact, a seed image, a unit file or a backup at the path. */
  predicate Overwritten(turn: Turn, w: World, p: Path) {
    exists i :: 0 <= i < |PlanFor(turn, w)| && PlanFor(turn, w)[i].Apply?
      && Overwrites(w, PlanFor(turn, w)[i].operation, p)
  }

  lemma OverwritesTargets(w: World, op: Operation, p: Path)
    ensures Overwrites(w, op, p) ==> p in FileTargets(op) && !op.CreateRootDisk? && !op.ResizeRootDisk?
    ensures p in FileTargets(op) && !Overwrites(w, op, p) ==>
      op.CreateRootDisk? || op.ResizeRootDisk?
      || (op.InstallOrUpdateSystemdUnit? && op.path != p && BackupPath(op.path, FILE_BACKUP) == p
          && FileAt(w.fs, op.path).None?)
  {
    hide BackupPath, DomainBackupPath, FileAt;
  }

  // ---- Not overwritten ----

  // A unit without a file is staged without a backup, so nothing but its file changes.
  lemma NoBackupWritten(
    env: Env, safety: ExecuteSafety, before: FileSystem, s: ExecState, op: Operation, faults: StepFaults,
    files: iset<Path>, dirs: iset<Path>)
    requires op.InstallOrUpdateSystemdUnit? && op.path in files
    requires op.path != BackupPath(op.path, FILE_BACKUP)
    requires Rewindable(before, s.world.fs, s.actions, op.path, BackupPath(op.path, FILE_BACKUP))
    requires FileAt(before, op.path).None? && ActionsWithin(s.actions, files)
    ensures Confined(s.world.fs, ExecOperation(env, safety, s, op, faults).world.fs, files, dirs)
    ensures ActionsWithin(ExecOperation(env, safety, s, op, faults).actions, files)
  {
    hide Validate, WriteAtomic, BackupPath, FileAt, Blocked, Confined;
    SameIsConfined(s.world.fs, files, dirs);
    StagedWithoutBackup(before, s, op.path, op.contents, faults.stage, files);
    if WriteAtomic(s.world.fs, op.path, op.contents).Some? {
      WriteConfined(s.world.fs, op.path, op.contents, files, dirs);
    }
    hide StageFile, ActionsWithin;
  }

  lemma StagedWithoutBackup(
    before: FileSystem, s: ExecState, q: Path, contents: string, fault: Fault, files: iset<Path>)
    requires q in files && q != BackupPath(q, FILE_BACKUP)
    requires Rewindable(before, s.world.fs, s.actions, q, BackupPath(q, FILE_BACKUP)) && FileAt(before, q).None?
    requires ActionsWithin(s.actions, files)
    ensures StageFile(s, q, contents, fault).world == s.world
    ensures ActionsWithin(StageFile(s, q, contents, fault).actions, files)
  {
    hide WriteAtomic, BackupPath, FileAt, Blocked;
  }

  lemma {:induction false} RunGrowsUnlessOverwritten(
    env: Env, safety: ExecuteSafety, w: World, plan: seq<ReconcileStep>, steps: nat -> StepFaults, n: nat, p: Path,
    info: DiskInfo)
    requires n <= |plan| && Isolated(safety) && PlanGrows(plan, p, info.virtualSize) && InfoAt(w, p) == Some(info)
    requires forall i :: 0 <= i < |plan| && plan[i].Apply? ==> !Overwrites(w, plan[i].operation, p)
    ensures HoldsGrown(RunTo(env, safety, w, plan, steps, n).world, p, info)
    ensures ActionsWithin(RunTo(env, safety, w, plan, steps, n).actions, AllBut(p))
  {
    hide ExecOperation, OnlyGrows, SparesDisk, InfoAt, Validate, Isolated, Overwrites, Rewindable, BackupPath;
    if n > 0 {
      RunGrowsUnlessOverwritten(env, safety, w, plan, steps, n - 1, p, info);
      var s := RunTo(env, safety, w, plan, steps, n - 1);
      if plan[n - 1].Apply? && s.ok {
        GrowsUnlessOverwritten(env, safety, w, plan, steps, n, p, info);
      }
    }
  }

  lemma GrowsUnlessOverwritten(
    env: Env, safety: ExecuteSafety, w: World, plan: seq<ReconcileStep>, steps: nat -> StepFaults, n: nat, p: Path,
    info: DiskInfo)
    requires 0 < n <= |plan| && Isolated(safety) && plan[n - 1].Apply?
    requires OnlyGrows(plan[n - 1].operation, p, info.virtualSize) && !Overwrites(w, plan[n - 1].operation, p)
    requires HoldsGrown(RunTo(env, safety, w, plan, steps, n - 1).world, p, info)
    requires ActionsWithin(RunTo(env, safety, w, plan, steps, n - 1).actions, AllBut(p))
    ensures var t :=
      ExecOperation(env, safety, RunTo(env, safety, w, plan, steps, n - 1), plan[n - 1].operation, steps(n - 1));
      HoldsGrown(t.world, p, info) && ActionsWithin(t.actions, AllBut(p))
  {
    hide *;
    var s, op := RunTo(env, safety, w, plan, steps, n - 1), plan[n - 1].operation;
    OverwritesTargets(w, op, p);
    SparesDiskIs(op, p);
    if Validate(safety, op) && !SparesDisk(op, p) {
      InstallAllowed(safety, op);
      UnitTargets(safety, op, op.unitName);
      RunRewinds(env, safety, w, plan, steps, n - 1, op.unitName);
      InAllBut(op.path, p);
      NoBackupWritten(env, safety, w.fs, s, op, steps(n - 1), AllBut(p), Everywhere());
      GrownKept(s.world, ExecOperation(env, safety, s, op, steps(n - 1)).world, p, info);
    } else {
      OperationGrows(env, safety, s, op, steps(n - 1), p, info);
    }
  }

  lemma InAllBut(q: Path, p: Path)
    ensures q in AllBut(p) <==> q != p
  {
  }

  lemma SparesDiskIs(op: Operation, p: Path)
    ensures SparesDisk(op, p) <==> op.CreateRootDisk? || op.ResizeRootDisk? || p !in FileTargets(op)
  {
    hide FileTargets;
  }

  lemma InstallAllowed(safety: ExecuteSafety, op: Operation)
    requires Validate(safety, op) && op.InstallOrUpdateSystemdUnit?
    ensures UnitAllowed(safety, op.unitName)
  {
    hide UnitAllowed, CheckedPath;
  }

  lemma GrownKept(a: World, b: World, p: Path, info: DiskInfo)
    requires HoldsGrown(a, p, info) && Confined(a.fs, b.fs, AllBut(p), Everywhere())
    ensures HoldsGrown(b, p, info)
  {
  }

  // ---- Overwritten ----

  // Since `before`, the node at the path has stayed, or it is no image any more.
  predicate StaysOrClears(before: World, w: World, p: Path) {
    (p in before.fs && p in w.fs && w.fs[p] == before.fs[p]) || InfoAt(w, p).None?
  }

  lemma WriteClears(w: World, q: Path, contents: string, p: Path)
    requires WriteAtomic(w.fs, q, contents).Some?
    ensures StaysOrClears(w, w.(fs := WriteAtomic(w.fs, q, contents).value), p)
  {
    hide Blocked;
  }

  lemma DirectoriesClear(w: World, q: Path, p: Path)
    requires CreateDirAll(w.fs, q).Some?
    ensures StaysOrClears(w, w.(fs := CreateDirAll(w.fs, q).value), p)
  {
    hide Blocked;
  }

  lemma StageClears(s: ExecState, op: Operation, fault: Fault, p: Path)
    ensures StaysOrClears(s.world, Stage(s, op, fault).world, p)
  {
    hide WriteAtomic, BackupPath, Blocked, FileAt;
    match op
    case InstallOrUpdateSystemdUnit(_, path, contents) =>
      var backup, current := BackupPath(path, FILE_BACKUP), FileAt(s.world.fs, path);
      if current.Some? && WriteAtomic(s.world.fs, backup, current.value).Some? {
        WriteClears(s.world, backup, current.value, p);
      }
    case RedefineDomain(d, xmlPath, previousXml, _) =>
      if previousXml.Some? && WriteAtomic(s.world.fs, DomainBackupPath(xmlPath, d), previousXml.value).Some? {
        WriteClears(s.world, DomainBackupPath(xmlPath, d), previousXml.value, p);
      }
    case _ =>
  }

  lemma EffectClears(env: Env, w: World, op: Operation, p: Path)
    requires OperationEffect(env, w, op).Some? && !((op.CreateRootDisk? || op.ResizeRootDisk?) && op.path == p)
    ensures StaysOrClears(w, OperationEffect(env, w, op).value, p)
  {
    hide WriteAtomic, CreateDirAll, CreatedDisk, ParentExists, UnitPath;
    match op
    case CreateDirectory(path) => DirectoriesClear(w, path, p);
    case WriteRenderedArtifact(path, contents) => WriteClears(w, path, contents, p);
    case InstallOrUpdateSystemdUnit(_, path, contents) => WriteClears(w, path, contents, p);
    case RewriteSeedImage(path, contents) => WriteClears(w, path, contents, p);
    case _ =>
  }

  lemma ClearsTwice(a: World, b: World, c: World, p: Path)
    requires StaysOrClears(a, b, p) && StaysOrClears(b, c, p)
    ensures StaysOrClears(a, c, p)
  {
  }

  lemma SameClears(w: World, p: Path)
    ensures StaysOrClears(w, w, p)
  {
  }

  lemma OperationClears(env: Env, safety: ExecuteSafety, s: ExecState, op: Operation, faults: StepFaults, p: Path)
    requires !((op.CreateRootDisk? || op.ResizeRootDisk?) && op.path == p)
    ensures StaysOrClears(s.world, ExecOperation(env, safety, s, op, faults).world, p)
  {
    hide Validate, Stage, OperationEffect, StaysOrClears;
    SameClears(s.world, p);
    StageClears(s, op, faults.stage, p);
    var staged := Stage(s, op, faults.stage);
    if OperationEffect(env, staged.world, op).Some? {
      EffectClears(env, staged.world, op, p);
      ClearsTwice(s.world, staged.world, OperationEffect(env, staged.world, op).value, p);
    }
  }

  // No operation of the plan is about a disk at the path.
  predicate NoDiskAt(plan: seq<ReconcileStep>, p: Path) {
    forall i :: 0 <= i < |plan| && plan[i].Apply? ==>
      !((plan[i].operation.CreateRootDisk? || plan[i].operation.ResizeRootDisk?) && plan[i].operation.path == p)
  }

  // From one point of the run to a later one.
  lemma {:induction false} RunClears(
    env: Env, safety: ExecuteSafety, w: World, plan: seq<ReconcileStep>, steps: nat -> StepFaults, m: nat, n: nat,
    p: Path)
    requires m <= n <= |plan| && NoDiskAt(plan, p)
    ensures StaysOrClears(RunTo(env, safety, w, plan, steps, m).world, RunTo(env, safety, w, plan, steps, n).world, p)
    decreases n
  {
    hide ExecOperation, StaysOrClears;
    if m == n {
      SameClears(RunTo(env, safety, w, plan, steps, m).world, p);
    } else {
      RunClears(env, safety, w, plan, steps, m, n - 1, p);
      var before := RunTo(env, safety, w, plan, steps, n - 1);
      if before.ok && plan[n - 1].Apply? {
        OperationClears(env, safety, before, plan[n - 1].operation, steps(n - 1), p);
        ClearsTwice(
          RunTo(env, safety, w, plan, steps, m).world, before.world,
          ExecOperation(env, safety, before, plan[n - 1].operation, steps(n - 1)).world, p);
      }
    }
  }

  lemma {:induction false} CommitClears(w: World, actions: seq<RollbackAction>, discard: nat -> Fault, k: nat, p: Path)
    requires k <= |actions|
    ensures StaysOrClears(w, Commit(w, actions, discard, k).world, p)
  {
    if k > 0 {
      CommitClears(w, actions, discard, k - 1, p);
    }
  }

  // A run that is through was fine, and its steps too, at every point.
  lemma {:induction false} FineBefore(
    env: Env, safety: ExecuteSafety, w: World, plan: seq<ReconcileStep>, steps: nat -> StepFaults, m: nat, n: nat)
    requires m <= n <= |plan| && RunTo(env, safety, w, plan, steps, n).ok
    ensures RunTo(env, safety, w, plan, steps, m).ok
    decreases n
  {
    hide ExecStep;
    if m < n {
      FineBefore(env, safety, w, plan, steps, m, n - 1);
    }
  }

  // Staged actions stay staged.
  lemma {:induction false} StaysStaged(
    env: Env, safety: ExecuteSafety, w: World, plan: seq<ReconcileStep>, steps: nat -> StepFaults, m: nat, n: nat,
    p: Path)
    requires m <= n <= |plan| && Isolated(safety) && Staged(RunTo(env, safety, w, plan, steps, m).actions, p)
    ensures Staged(RunTo(env, safety, w, plan, steps, n).actions, p)
    decreases n
  {
    hide ExecOperation, Isolated, Staged, WellFormedAction;
    if m < n {
      StaysStaged(env, safety, w, plan, steps, m, n - 1, p);
      var before := RunTo(env, safety, w, plan, steps, n - 1);
      if before.ok && plan[n - 1].Apply? {
        Appends(env, safety, before, plan[n - 1].operation, steps(n - 1));
        StagedLonger(
          before.actions, ExecOperation(env, safety, before, plan[n - 1].operation, steps(n - 1)).actions, p);
      }
    }
  }

  lemma StagedLonger(a: seq<RollbackAction>, b: seq<RollbackAction>, p: Path)
    requires |a| <= |b| && b[..|a|] == a
    ensures Staged(a, p) ==> Staged(b, p)
  {
    if Staged(a, p) {
      var i :| 0 <= i < |a| && ActionPath(a[i]) == p;
      assert b[..|a|][i] == b[i];
    }
  }

  // What a successful operation leaves at its own path, and stages.
  lemma OperationWrites(env: Env, safety: ExecuteSafety, s: ExecState, op: Operation, faults: StepFaults)
    requires ExecOperation(env, safety, s, op, faults).ok
    ensures op.WriteRenderedArtifact? || op.RewriteSeedImage? || op.InstallOrUpdateSystemdUnit? ==>
      FileAt(ExecOperation(env, safety, s, op, faults).world.fs, op.path) == Some(op.contents)
    ensures op.RedefineDomain? ==>
      Staged(ExecOperation(env, safety, s, op, faults).actions, DomainBackupPath(op.xmlPath, op.domain))
    ensures Validate(safety, op)
  {
    hide Validate, WriteAtomic, BackupPath, DomainBackupPath, Blocked, FileAt, DefineEffect, StageFile;
    var staged := Stage(s, op, faults.stage);
    if op.WriteRenderedArtifact? || op.RewriteSeedImage? || op.InstallOrUpdateSystemdUnit? {
      WriteReads(staged.world.fs, op.path, op.contents);
    }
    if op.RedefineDomain? {
      DomainStaged(s, op.domain, op.xmlPath, op.command, op.previousXml, faults.stage);
    }
  }

  lemma DomainStaged(
    s: ExecState, d: string, xmlPath: Path, command: Command, previousXml: Option<string>, fault: Fault)
    requires StageDomain(s, d, xmlPath, command, previousXml, fault).ok
    ensures Staged(StageDomain(s, d, xmlPath, command, previousXml, fault).actions, DomainBackupPath(xmlPath, d))
  {
    hide WriteAtomic, DomainBackupPath;
    var t := StageDomain(s, d, xmlPath, command, previousXml, fault);
    if |t.actions| > |s.actions| {
      assert ActionPath(t.actions[|s.actions|]) == DomainBackupPath(xmlPath, d);
    }
  }

  // Installing a unit whose file is another one stages that file's backup.
  lemma InstallStages(
    env: Env, safety: ExecuteSafety, before: FileSystem, s: ExecState, op: Operation, faults: StepFaults)
    requires Isolated(safety) && op.InstallOrUpdateSystemdUnit? && ExecOperation(env, safety, s, op, faults).ok
    requires Rewindable(before, s.world.fs, s.actions, op.path, BackupPath(op.path, FILE_BACKUP))
    requires FileAt(before, op.path) != Some(op.contents)
    ensures Staged(ExecOperation(env, safety, s, op, faults).actions, op.path)
  {
    hide WriteAtomic, BackupPath, Blocked, FileAt, CheckedPath, IsServiceName, Parse, Join, Isolated;
    var t := StageFile(s, op.path, op.contents, faults.stage);
    if |t.actions| > |s.actions| {
      assert ActionPath(t.actions[|s.actions|]) == op.path;
    }
  }

  // ---- The plan of a well-formed configuration ----

  // The goal behind a planned write is about a file, and its contents are not there yet.
  lemma PlannedMismatch(turn: Turn, w: World, i: nat, op: Operation)
    requires op.WriteRenderedArtifact? || op.RewriteSeedImage? || op.InstallOrUpdateSystemdUnit?
    requires WellFormed(turn) && i < |PlanFor(turn, w)| && PlanFor(turn, w)[i] == Apply(op)
    ensures FileAt(w.fs, op.path) != Some(op.contents)
  {
    hide *;
    var config, opts, lib, actual := turn.config, turn.opts, turn.lib, Observe(turn, w);
    PlanIs(turn, w);
    PlanLength(config, opts, lib, actual);
    PlanStepAt(config, opts, lib, actual, i);
    PlannedOperation(turn, w, i);
    var g := Goals(config, opts, lib)[i];
    StepIs(config, opts, lib, g);
    OperationForIs(turn, g, op);
    if g.Enabled? {
      TouchesIs(op, g.unit.name);
    }
    FileSkips(turn, w, ContextOf(config, opts, lib), ChangedTo(config, opts, lib, actual, i), g, op.path, op.contents);
    SameContents(lib, w, op.path, op.contents);
  }

  lemma WritesPathIs(op: Operation, p: Path)
    ensures WritesPath(op, p) <==>
      (op.WriteRenderedArtifact? || op.RewriteSeedImage? || op.InstallOrUpdateSystemdUnit?) && op.path == p
  {
  }

  lemma SameContents(lib: Library, w: World, p: Path, contents: string)
    ensures FileAt(w.fs, p) == Some(contents) ==> HasFile(lib, w, p, contents)
  {
    hide FileAt;
  }

  lemma DiskGoal(turn: Turn, g: Goal, op: Operation)
    requires OperationFor(turn, g, op)
    ensures op.CreateRootDisk? || op.ResizeRootDisk? <==> g.DiskImage?
    ensures g.DiskImage? ==> op.path == g.node.rootDisk.image
  {
    hide *;
    OperationForIs(turn, g, op);
    if g.Enabled? {
      TouchesIs(op, g.unit.name);
    }
  }

  // What is overwritten is no disk of the configuration.
  lemma NotADisk(turn: Turn, w: World, i: nat, p: Path)
    requires WellFormed(turn) && i < |PlanFor(turn, w)| && PlanFor(turn, w)[i].Apply?
    requires Overwrites(w, PlanFor(turn, w)[i].operation, p)
    ensures NoDiskAt(PlanFor(turn, w), p)
  {
    hide *;
    var plan, goals := PlanFor(turn, w), Goals(turn.config, turn.opts, turn.lib);
    PlanIs(turn, w);
    PlanLength(turn.config, turn.opts, turn.lib, Observe(turn, w));
    PlanStepAt(turn.config, turn.opts, turn.lib, Observe(turn, w), i);
    PlannedOperation(turn, w, i);
    OverwritesTargets(w, plan[i].operation, p);
    DiskGoal(turn, goals[i], plan[i].operation);
    forall j | 0 <= j < |plan| && plan[j].Apply?
        && (plan[j].operation.CreateRootDisk? || plan[j].operation.ResizeRootDisk?)
      ensures plan[j].operation.path != p
    {
      PlanStepAt(turn.config, turn.opts, turn.lib, Observe(turn, w), j);
      PlannedOperation(turn, w, j);
      DiskGoal(turn, goals[j], plan[j].operation);
      KeyPathIs(turn, goals[j]);
      WritesApart(turn, goals[i], plan[i].operation, goals[j]);
    }
    NoDiskAtIs(plan, p);
  }

  lemma NoDiskAtIs(plan: seq<ReconcileStep>, p: Path)
    requires forall i :: 0 <= i < |plan| && plan[i].Apply? ==>
      (plan[i].operation.CreateRootDisk? || plan[i].operation.ResizeRootDisk? ==> plan[i].operation.path != p)
    ensures NoDiskAt(plan, p)
  {
  }

  lemma ClearedFor(a: World, b: World, p: Path, contents: string)
    requires StaysOrClears(a, b, p) && FileAt(b.fs, p) == Some(contents) && FileAt(a.fs, p) != Some(contents)
    ensures InfoAt(b, p).None?
  {
  }

  lemma StaysCleared(a: World, b: World, p: Path)
    requires StaysOrClears(a, b, p) && InfoAt(a, p).None?
    ensures InfoAt(b, p).None?
  {
  }

  // The state behind one applied step of a run that goes through.
  lemma StepDone(
    env: Env, safety: ExecuteSafety, w: World, plan: seq<ReconcileStep>, steps: nat -> StepFaults, i: nat)
    requires i < |plan| && plan[i].Apply? && RunTo(env, safety, w, plan, steps, |plan|).ok
    ensures var s := RunTo(env, safety, w, plan, steps, i);
      && s.ok && RunTo(env, safety, w, plan, steps, i + 1) == ExecOperation(env, safety, s, plan[i].operation, steps(i))
      && ExecOperation(env, safety, s, plan[i].operation, steps(i)).ok
  {
    hide ExecOperation;
    FineBefore(env, safety, w, plan, steps, i, |plan|);
    FineBefore(env, safety, w, plan, steps, i + 1, |plan|);
  }

  lemma {:induction false} RunStart(
    env: Env, safety: ExecuteSafety, w: World, plan: seq<ReconcileStep>, steps: nat -> StepFaults)
    ensures RunTo(env, safety, w, plan, steps, 0) == ExecState(w, [], true)
  {
  }

  lemma PathOverwritten(turn: Turn, w: World, i: nat, p: Path)
    requires WellFormed(turn) && Cycle(turn, w).outcome.Committed?
    requires i < |PlanFor(turn, w)| && PlanFor(turn, w)[i].Apply? && WritesPath(PlanFor(turn, w)[i].operation, p)
    requires NoDiskAt(PlanFor(turn, w), p)
    ensures InfoAt(Cycle(turn, w).world, p).None?
  {
    hide *;
    CycleIs(turn, w);
    var env, safety, plan, steps := EnvFor(turn), SafetyFor(turn), PlanFor(turn, w), turn.schedule.steps;
    ExecuteIs(env, safety, w, plan, turn.schedule);
    var ran := RunTo(env, safety, w, plan, steps, |plan|);
    WritesPathIs(plan[i].operation, p);
    PlannedMismatch(turn, w, i, plan[i].operation);
    StepDone(env, safety, w, plan, steps, i);
    OperationWrites(env, safety, RunTo(env, safety, w, plan, steps, i), plan[i].operation, steps(i));
    RunStart(env, safety, w, plan, steps);
    RunClears(env, safety, w, plan, steps, 0, i + 1, p);
    ClearedFor(w, RunTo(env, safety, w, plan, steps, i + 1).world, p, plan[i].operation.contents);
    RunClears(env, safety, w, plan, steps, i + 1, |plan|, p);
    StaysCleared(RunTo(env, safety, w, plan, steps, i + 1).world, ran.world, p);
    CommitClears(ran.world, ran.actions, turn.schedule.discard, |ran.actions|, p);
    StaysCleared(ran.world, Cycle(turn, w).world, p);
  }

  lemma GoneIsNone(w: World, p: Path)
    requires p !in w.fs
    ensures InfoAt(w, p).None?
  {
  }

  // A staged backup is removed by the commit.
  lemma BackupRemoved(w: World, actions: seq<RollbackAction>, discard: nat -> Fault, a: RollbackAction)
    requires a in actions && !a.RemoveCreated? && Commit(w, actions, discard, |actions|).ok
    ensures a.backup !in Commit(w, actions, discard, |actions|).world.fs
  {
    hide Commit;
    CommitDiscards(w, actions, discard, |actions|);
  }

  lemma StagedUnitBackup(before: FileSystem, fs: FileSystem, actions: seq<RollbackAction>, p: Path, b: Path)
    requires Rewindable(before, fs, actions, p, b) && Staged(actions, p) && FileAt(before, p).Some?
    ensures RestoreFile(p, b) in actions
  {
    hide FileAt, Staged;
  }

  lemma StagedDomainBackup(safety: ExecuteSafety, actions: seq<RollbackAction>, x: Path, d: string)
    returns (a: RollbackAction)
    requires WellFormedActions(safety, actions) && Staged(actions, DomainBackupPath(x, d))
    ensures a in actions && a.RestoreDomain? && a.backup == DomainBackupPath(x, d)
  {
    hide UnitFilePath, UnitBackup, DomainBackupPath, IsServiceName;
    var i :| 0 <= i < |actions| && ActionPath(actions[i]) == DomainBackupPath(x, d);
    a := actions[i];
    assert WellFormedAction(safety, a);
    if !a.RestoreDomain? {
      var u :| UnitAllowed(safety, u) && ActionPath(a) == UnitFilePath(safety, u);
      UnitNamesApart(safety, u, u, x, d);
    }
  }

  lemma BackupOfIs(op: Operation)
    ensures op.InstallOrUpdateSystemdUnit? ==> BackupOf(op) == Some(BackupPath(op.path, FILE_BACKUP))
    ensures op.RedefineDomain? ==> BackupOf(op) == Some(DomainBackupPath(op.xmlPath, op.domain))
    ensures BackupOf(op).Some? <==> op.InstallOrUpdateSystemdUnit? || op.RedefineDomain?
  {
    hide BackupPath, DomainBackupPath;
  }

  lemma CommittedIs(turn: Turn, w: World)
    requires Cycle(turn, w).outcome.Committed?
    ensures var ran :=
      RunTo(EnvFor(turn), SafetyFor(turn), w, PlanFor(turn, w), turn.schedule.steps, |PlanFor(turn, w)|);
      Commit(ran.world, ran.actions, turn.schedule.discard, |ran.actions|).ok
  {
    hide Ready, PlanFor, SafetyFor, RunTo, Commit, Restore, HasRefusals;
  }

  // What stood where a backup goes is gone: the backup replaced it, and the commit removed the backup.
  lemma BackupGone(turn: Turn, w: World, i: nat, p: Path)
    requires WellFormed(turn) && Cycle(turn, w).outcome.Committed?
    requires i < |PlanFor(turn, w)| && PlanFor(turn, w)[i].Apply? && BacksUp(w, PlanFor(turn, w)[i].operation, p)
    ensures p !in Cycle(turn, w).world.fs
  {
    hide *;
    CycleIs(turn, w);
    WellFormedFacts(turn);
    CommittedIs(turn, w);
    var env, safety, plan, steps := EnvFor(turn), SafetyFor(turn), PlanFor(turn, w), turn.schedule.steps;
    ExecuteIs(env, safety, w, plan, turn.schedule);
    var ran, op := RunTo(env, safety, w, plan, steps, |plan|), plan[i].operation;
    BacksUpIs(w, op, p);
    BackupOfIs(op);
    StepDone(env, safety, w, plan, steps, i);
    var s := RunTo(env, safety, w, plan, steps, i);
    OperationWrites(env, safety, s, op, steps(i));
    RunWellFormed(env, safety, w, plan, steps, |plan|);
    if op.InstallOrUpdateSystemdUnit? {
      InstallAllowed(safety, op);
      UnitTargets(safety, op, op.unitName);
      PlannedMismatch(turn, w, i, op);
      RunRewinds(env, safety, w, plan, steps, i, op.unitName);
      InstallStages(env, safety, w.fs, s, op, steps(i));
      StaysStaged(env, safety, w, plan, steps, i + 1, |plan|, op.path);
      RunRewinds(env, safety, w, plan, steps, |plan|, op.unitName);
      StagedUnitBackup(w.fs, ran.world.fs, ran.actions, op.path, p);
      BackupRemoved(ran.world, ran.actions, turn.schedule.discard, RestoreFile(op.path, p));
    } else {
      StaysStaged(env, safety, w, plan, steps, i + 1, |plan|, p);
      var a := StagedDomainBackup(safety, ran.actions, op.xmlPath, op.domain);
      BackupRemoved(ran.world, ran.actions, turn.schedule.discard, a);
    }
  }

  lemma BacksUpIs(w: World, op: Operation, p: Path)
    ensures BacksUp(w, op, p) <==>
      BackupOf(op) == Some(p) && (op.InstallOrUpdateSystemdUnit? ==> FileAt(w.fs, op.path).Some?)
    ensures Overwrites(w, op, p) <==> WritesPath(op, p) || BacksUp(w, op, p)
  {
    hide BackupOf, FileAt;
  }

  lemma NotOverwritten(turn: Turn, w: World, p: Path, info: DiskInfo)
    requires WellFormed(turn) && Cycle(turn, w).outcome.Committed? && InfoAt(w, p) == Some(info)
    requires forall i :: 0 <= i < |PlanFor(turn, w)| && PlanFor(turn, w)[i].Apply? ==>
      !Overwrites(w, PlanFor(turn, w)[i].operation, p)
    ensures HoldsGrown(Cycle(turn, w).world, p, info)
  {
    hide *;
    CycleIs(turn, w);
    WellFormedFacts(turn);
    var env, safety, plan, steps := EnvFor(turn), SafetyFor(turn), PlanFor(turn, w), turn.schedule.steps;
    ExecuteIs(env, safety, w, plan, turn.schedule);
    PlanGrowsAll(turn, w, p, info);
    RunGrowsUnlessOverwritten(env, safety, w, plan, steps, |plan|, p, info);
    var ran := RunTo(env, safety, w, plan, steps, |plan|);
    CommitConfined(ran.world, ran.actions, turn.schedule.discard, |ran.actions|, AllBut(p), Everywhere());
    GrownKept(ran.world, Cycle(turn, w).world, p, info);
  }

  /** In a committed cycle of a well-formed configuration a disk at any path is kept, or grown, exactly if the plan
      writes no artifact, seed image, unit file or backup there; otherwise it is gone. */
  lemma DiskFate(turn: Turn, w: World, p: Path, info: DiskInfo)
    requires WellFormed(turn) && Cycle(turn, w).outcome.Committed? && InfoAt(w, p) == Some(info)
    ensures HoldsGrown(Cycle(turn, w).world, p, info) <==> !Overwritten(turn, w, p)
    ensures Overwritten(turn, w, p) ==> InfoAt(Cycle(turn, w).world, p).None?
  {
    hide WellFormed, Cycle, PlanFor, Overwrites, InfoAt;
    if Overwritten(turn, w, p) {
      var i :|
        0 <= i < |PlanFor(turn, w)| && PlanFor(turn, w)[i].Apply? && Overwrites(w, PlanFor(turn, w)[i].operation, p);
      BacksUpIs(w, PlanFor(turn, w)[i].operation, p);
      hide WritesPath, BacksUp;
      NotADisk(turn, w, i, p);
      if WritesPath(PlanFor(turn, w)[i].operation, p) {
        PathOverwritten(turn, w, i, p);
      } else {
        BackupGone(turn, w, i, p);
        GoneIsNone(Cycle(turn, w).world, p);
      }
    } else {
      NotOverwritten(turn, w, p, info);
    }
  }

  // ---- Over whole runs ----

  // A committed cycle of a well-formed configuration, or any cycle that writes nothing else at the path.
  predicate Judged(turn: Turn, w: World, p: Path) {
    || (WellFormed(turn) && Cycle(turn, w).outcome.Committed?)
    || Cycle(turn, w).outcome.Refused?
    || CycleSpares(turn, w, p)
  }

  predicate Destroys(turn: Turn, w: World, p: Path) {
    WellFormed(turn) && Cycle(turn, w).outcome.Committed? && Overwritten(turn, w, p)
  }

  lemma OneCycle(turn: Turn, w: World, p: Path, info: DiskInfo)
    requires Judged(turn, w, p) && InfoAt(w, p) == Some(info)
    ensures HoldsGrown(Cycle(turn, w).world, p, info) <==> !Destroys(turn, w, p)
  {
    hide WellFormed, Cycle, Overwritten, CycleSpares, InfoAt, Grown;
    if WellFormed(turn) && Cycle(turn, w).outcome.Committed? {
      DiskFate(turn, w, p, info);
    } else if Cycle(turn, w).outcome.Refused? {
      RefusedUnchanged(turn, w);
      SameIsGrown(info);
    } else {
      CycleGrows(turn, w, p, info);
    }
  }

  lemma SameIsGrown(info: DiskInfo)
    ensures Grown(info, info)
  {
  }

  predicate KeptBehind(turns: seq<Turn>, w: World, p: Path, info: DiskInfo, k: nat)
    requires k <= |turns|
  {
    HoldsGrown(Cycles(turns[..k], w), p, info)
  }

  predicate DestroysAt(turns: seq<Turn>, w: World, p: Path, i: nat)
    requires i < |turns|
  {
    Destroys(turns[i], Cycles(turns[..i], w), p)
  }

  predicate JudgedAt(turns: seq<Turn>, w: World, p: Path, i: nat)
    requires i < |turns|
  {
    Judged(turns[i], Cycles(turns[..i], w), p)
  }

  lemma DestroysNext(turns: seq<Turn>, w: World, p: Path, info: DiskInfo, i: nat)
    requires i < |turns| && JudgedAt(turns, w, p, i) && KeptBehind(turns, w, p, info, i)
    ensures KeptBehind(turns, w, p, info, i + 1) <==> !DestroysAt(turns, w, p, i)
  {
    hide Judged, Destroys, Cycle, InfoAt, Overwritten;
    assert turns[..i + 1][..i] == turns[..i];
    var before := Cycles(turns[..i], w);
    OneCycle(turns[i], before, p, InfoAt(before, p).value);
    if Destroys(turns[i], before, p) {
      DestroyedIs(turns[i], before, p);
    }
  }

  lemma DestroyedIs(turn: Turn, w: World, p: Path)
    requires Destroys(turn, w, p) && InfoAt(w, p).Some?
    ensures InfoAt(Cycle(turn, w).world, p).None?
  {
    hide WellFormed, Cycle, Overwritten, InfoAt;
    DiskFate(turn, w, p, InfoAt(w, p).value);
  }

  lemma KeptAtFirst(turns: seq<Turn>, w: World, p: Path, info: DiskInfo)
    requires InfoAt(w, p) == Some(info)
    ensures KeptBehind(turns, w, p, info, 0)
  {
    hide InfoAt, Cycle;
    assert turns[..0] == [];
  }

  /** Over any sequence of cycles that commit, are refused, or spare the path, with configurations, options and faults
      changing arbitrarily: a disk is there and has not shrunk behind every cycle, exactly if none of them committed a
      plan that writes another file over it. */
  lemma DisksFate(turns: seq<Turn>, w: World, p: Path, info: DiskInfo)
    requires forall i :: 0 <= i < |turns| ==> JudgedAt(turns, w, p, i)
    requires InfoAt(w, p) == Some(info)
    ensures (forall k :: 0 <= k <= |turns| ==> KeptBehind(turns, w, p, info, k))
       <==> (forall i :: 0 <= i < |turns| ==> !DestroysAt(turns, w, p, i))
  {
    hide *;
    KeptAtFirst(turns, w, p, info);
    if forall i :: 0 <= i < |turns| ==> !DestroysAt(turns, w, p, i) {
      for k := 0 to |turns|
        invariant forall j :: 0 <= j <= k ==> KeptBehind(turns, w, p, info, j)
      {
        DestroysNext(turns, w, p, info, k);
      }
    } else {
      var i :| 0 <= i < |turns| && DestroysAt(turns, w, p, i);
      if KeptBehind(turns, w, p, info, i) {
        DestroysNext(turns, w, p, info, i);
      }
    }
  }

  // ---- Disks where a configuration keeps its own files ----

  function WantedContents(turn: Turn, g: Goal): string
    requires g.Rendered? || g.SeedWritten?
  {
    if g.Rendered? then g.file.contents
    else SeedContents(turn.lib, Files(turn.config, turn.opts, turn.lib), g.node)
  }

  lemma ManagedSkips(turn: Turn, w: World, i: nat, g: Goal)
    requires g.Rendered? || g.SeedWritten?
    requires i < |Goals(turn.config, turn.opts, turn.lib)| && Goals(turn.config, turn.opts, turn.lib)[i] == g
    ensures i < |PlanFor(turn, w)| && KeyPath(turn, g).Some?
    ensures PlanFor(turn, w)[i] == SkipAlreadyCorrect
       <==> HasFile(turn.lib, w, KeyPath(turn, g).value, WantedContents(turn, g))
  {
    hide *;
    var config, opts, lib, actual := turn.config, turn.opts, turn.lib, Observe(turn, w);
    PlanIs(turn, w);
    PlanLength(config, opts, lib, actual);
    PlanStepAt(config, opts, lib, actual, i);
    StepIs(config, opts, lib, g);
    KeyPathIs(turn, g);
    WantedIs(turn, g);
    FileSkips(
      turn, w, ContextOf(config, opts, lib), ChangedTo(config, opts, lib, actual, i), g, KeyPath(turn, g).value,
      WantedContents(turn, g));
  }

  lemma WantedIs(turn: Turn, g: Goal)
    ensures g.Rendered? ==> WantedContents(turn, g) == g.file.contents
    ensures g.SeedWritten? ==>
      WantedContents(turn, g) == SeedContents(turn.lib, Files(turn.config, turn.opts, turn.lib), g.node)
  {
    hide SeedContents, Files;
  }

  /** A disk where the configuration keeps a rendered artifact or a seed image survives a committed cycle exactly if its
      bytes pass for the wanted contents. */
  lemma ManagedPathFate(turn: Turn, w: World, g: Goal, info: DiskInfo)
    requires WellFormed(turn) && Cycle(turn, w).outcome.Committed?
    requires IsGoal(turn.config, turn.opts, turn.lib, g) && (g.Rendered? || g.SeedWritten?)
    requires KeyPath(turn, g).Some? && InfoAt(w, KeyPath(turn, g).value) == Some(info)
    ensures HoldsGrown(Cycle(turn, w).world, KeyPath(turn, g).value, info)
       <==> HasFile(turn.lib, w, KeyPath(turn, g).value, WantedContents(turn, g))
  {
    hide *;
    var plan, p := PlanFor(turn, w), KeyPath(turn, g).value;
    DiskFate(turn, w, p, info);
    CycleIs(turn, w);
    var i := GoalStep(turn, g);
    ManagedSkips(turn, w, i, g);
    NoRefusal(plan, i);
    if plan[i].Apply? {
      PlannedOperation(turn, w, i);
      ManagedWrites(turn, g, plan[i].operation);
      BacksUpIs(w, plan[i].operation, p);
      OverwrittenAt(turn, w, p, i);
    }
    if Overwritten(turn, w, p) {
      var k := WhoOverwrites(turn, w, p);
      ForeignSpares(turn, w, k, g);
      ManagedSkipsAt(turn, w, k, g);
    }
  }

  lemma ManagedWrites(turn: Turn, g: Goal, op: Operation)
    requires OperationFor(turn, g, op) && (g.Rendered? || g.SeedWritten?)
    ensures KeyPath(turn, g).Some? && WritesPath(op, KeyPath(turn, g).value)
  {
    hide *;
    OperationForIs(turn, g, op);
    KeyPathIs(turn, g);
    WritesPathIs(op, op.path);
  }

  lemma OverwrittenAt(turn: Turn, w: World, p: Path, i: nat)
    requires i < |PlanFor(turn, w)| && PlanFor(turn, w)[i].Apply? && Overwrites(w, PlanFor(turn, w)[i].operation, p)
    ensures Overwritten(turn, w, p)
  {
    hide PlanFor, Overwrites;
  }

  lemma WhoOverwrites(turn: Turn, w: World, p: Path) returns (i: nat)
    requires Overwritten(turn, w, p)
    ensures i < |PlanFor(turn, w)| && PlanFor(turn, w)[i].Apply? && Overwrites(w, PlanFor(turn, w)[i].operation, p)
  {
    hide PlanFor, Overwrites;
    i :| 0 <= i < |PlanFor(turn, w)| && PlanFor(turn, w)[i].Apply? && Overwrites(w, PlanFor(turn, w)[i].operation, p);
  }

  // Only the goal's own step writes at its path.
  lemma ForeignSpares(turn: Turn, w: World, k: nat, g: Goal)
    requires WellFormed(turn) && IsGoal(turn.config, turn.opts, turn.lib, g) && KeyPath(turn, g).Some?
    requires k < |PlanFor(turn, w)| && PlanFor(turn, w)[k].Apply?
    requires Overwrites(w, PlanFor(turn, w)[k].operation, KeyPath(turn, g).value)
    ensures k < |Goals(turn.config, turn.opts, turn.lib)| && Goals(turn.config, turn.opts, turn.lib)[k] == g
  {
    hide *;
    PlanIs(turn, w);
    PlanLength(turn.config, turn.opts, turn.lib, Observe(turn, w));
    PlanStepAt(turn.config, turn.opts, turn.lib, Observe(turn, w), k);
    PlannedOperation(turn, w, k);
    OverwritesTargets(w, PlanFor(turn, w)[k].operation, KeyPath(turn, g).value);
    var h := Goals(turn.config, turn.opts, turn.lib)[k];
    if h != g {
      WritesApart(turn, h, PlanFor(turn, w)[k].operation, g);
    }
  }

  lemma ManagedSkipsAt(turn: Turn, w: World, k: nat, g: Goal)
    requires g.Rendered? || g.SeedWritten?
    requires k < |Goals(turn.config, turn.opts, turn.lib)| && Goals(turn.config, turn.opts, turn.lib)[k] == g
    requires k < |PlanFor(turn, w)| && PlanFor(turn, w)[k].Apply?
    ensures KeyPath(turn, g).Some? && !HasFile(turn.lib, w, KeyPath(turn, g).value, WantedContents(turn, g))
  {
    hide *;
    ManagedSkips(turn, w, k, g);
  }
}
