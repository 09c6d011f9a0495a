/** What becomes of an exported dataset in a cycle that passes the dataset check. */
module HostDatasetFate {
  import opened HostCycle
  import opened HostDiskFate
  import opened HostExecutor
  import opened HostFrame
  import opened HostModel
  import opened HostPlanned
  import opened HostRollback
  import opened HostWorld
  import opened Paths
  import opened Wrappers

  /** Everything at or below the root is as it was: nothing is changed, lost or new. */
  ghost predicate SameUnder(a: FileSystem, b: FileSystem, root: Path) {
    forall q :: Under(q, root) ==> (q in a <==> q in b) && (q in a ==> a[q] == b[q])
  }

  // The plan backs a unit file or a domain up at the path.
  predicate BackedUpOnto(turn: Turn, w: World, p: Path) {
    exists i ::
      0 <= i < |PlanFor(turn, w)| && PlanFor(turn, w)[i].Apply? && BacksUp(w, PlanFor(turn, w)[i].operation, p)
  }

  predicate FileAtRoot(w: World, root: Path) {
    root in w.fs && !w.fs[root].Directory?
  }

  ghost function Beyond(root: Path): iset<Path> {
    iset q | !Under(q, root)
  }

  lemma BeyondIs(root: Path, q: Path)
    ensures q in Beyond(root) <==> !Under(q, root)
  {
  }

  lemma ConfinedBeyond(a: FileSystem, b: FileSystem, root: Path)
    requires Confined(a, b, Beyond(root), Beyond(root))
    ensures SameUnder(a, b, root)
  {
    forall q | Under(q, root)
      ensures (q in a <==> q in b) && (q in a ==> a[q] == b[q])
    {
      assert forall t :: q <= t ==> Under(t, root);
    }
  }

  // ---- No backup is written at the root ----

  // A unit without a file: it is staged without a backup.
  ghost predicate WithoutBackup(w: World, op: Operation, files: iset<Path>) {
    op.InstallOrUpdateSystemdUnit? && FileAt(w.fs, op.path).None? && op.path in files
  }

  ghost predicate SparesPlan(
    safety: ExecuteSafety, w: World, plan: seq<ReconcileStep>, files: iset<Path>, dirs: iset<Path>)
  {
    forall i :: 0 <= i < |plan| && plan[i].Apply? && Validate(safety, plan[i].operation) ==>
      Covers(files, dirs, plan[i].operation) || WithoutBackup(w, plan[i].operation, files)
  }

  lemma {:induction false} RunSpares(
    env: Env, safety: ExecuteSafety, w: World, plan: seq<ReconcileStep>, steps: nat -> StepFaults, n: nat,
    files: iset<Path>, dirs: iset<Path>)
    requires n <= |plan| && Isolated(safety) && SparesPlan(safety, w, plan, files, dirs)
    ensures Confined(w.fs, RunTo(env, safety, w, plan, steps, n).world.fs, files, dirs)
    ensures ActionsWithin(RunTo(env, safety, w, plan, steps, n).actions, files)
  {
    hide Validate, ExecOperation, Confined, Covers, ActionWithin, Isolated, WithoutBackup;
    if n == 0 {
      SameIsConfined(w.fs, files, dirs);
    } else {
      RunSpares(env, safety, w, plan, steps, n - 1, files, dirs);
      var s := RunTo(env, safety, w, plan, steps, n - 1);
      if s.ok && plan[n - 1].Apply? {
        StepSpares(env, safety, w, plan, steps, n, files, dirs);
        ConfinedTwice(
          w.fs, s.world.fs, ExecOperation(env, safety, s, plan[n - 1].operation, steps(n - 1)).world.fs, files, dirs);
      }
    }
  }

  lemma StepSpares(
    env: Env, safety: ExecuteSafety, w: World, plan: seq<ReconcileStep>, steps: nat -> StepFaults, n: nat,
    files: iset<Path>, dirs: iset<Path>)
    requires 0 < n <= |plan| && Isolated(safety) && plan[n - 1].Apply?
    requires Validate(safety, plan[n - 1].operation) ==>
      Covers(files, dirs, plan[n - 1].operation) || WithoutBackup(w, plan[n - 1].operation, files)
    requires ActionsWithin(RunTo(env, safety, w, plan, steps, n - 1).actions, files)
    ensures var s := RunTo(env, safety, w, plan, steps, n - 1);
      var t := ExecOperation(env, safety, s, plan[n - 1].operation, steps(n - 1));
      Confined(s.world.fs, t.world.fs, files, dirs) && ActionsWithin(t.actions, files)
  {
    hide *;
    var s, op := RunTo(env, safety, w, plan, steps, n - 1), plan[n - 1].operation;
    if Validate(safety, op) && !Covers(files, dirs, op) {
      WithoutBackupIs(w, op, files);
      InstallAllowed(safety, op);
      UnitTargets(safety, op, op.unitName);
      UnitsApart(safety, op.unitName, op.unitName);
      RunRewinds(env, safety, w, plan, steps, n - 1, op.unitName);
      NoBackupWritten(env, safety, w.fs, s, op, steps(n - 1), files, dirs);
    } else {
      OperationConfined(env, safety, s, op, steps(n - 1), files, dirs);
    }
  }

  lemma WithoutBackupIs(w: World, op: Operation, files: iset<Path>)
    ensures WithoutBackup(w, op, files) <==>
      op.InstallOrUpdateSystemdUnit? && FileAt(w.fs, op.path).None? && op.path in files
  {
    hide FileAt;
  }

  lemma ExecuteSpares(
    env: Env, safety: ExecuteSafety, w: World, plan: seq<ReconcileStep>, schedule: Schedule, files: iset<Path>,
    dirs: iset<Path>)
    requires Isolated(safety) && SparesPlan(safety, w, plan, files, dirs)
    ensures Confined(w.fs, Execute(env, safety, w, plan, schedule).world.fs, files, dirs)
  {
    hide SparesPlan, Confined, ActionsWithin, RunTo, Commit, Restore, Isolated;
    SameIsConfined(w.fs, files, dirs);
    if !HasRefusals(plan) {
      RunSpares(env, safety, w, plan, schedule.steps, |plan|, files, dirs);
      var ran := RunTo(env, safety, w, plan, schedule.steps, |plan|);
      if ran.ok {
        CommitConfined(ran.world, ran.actions, schedule.discard, |ran.actions|, files, dirs);
      } else {
        RestoreConfined(ran.world, ran.actions, schedule.undo, |ran.actions|, files, dirs);
      }
      ConfinedTwice(w.fs, ran.world.fs, Execute(env, safety, w, plan, schedule).world.fs, files, dirs);
    }
  }

  // ---- What a checked plan of a well-formed configuration writes under a dataset ----

  // At most the root itself, and only as a backup.
  lemma OnlyTheRoot(turn: Turn, w: World, e: string, i: nat, q: Path)
    requires WellFormed(turn) && e in turn.config.exports && AvoidsDatasets(turn.config.exports, PlanFor(turn, w))
    requires i < |PlanFor(turn, w)| && PlanFor(turn, w)[i].Apply?
    requires Validate(SafetyFor(turn), PlanFor(turn, w)[i].operation)
    requires Under(q, turn.config.exports[e].sourcePath)
    requires q in FileTargets(PlanFor(turn, w)[i].operation) || q in DirTargets(PlanFor(turn, w)[i].operation)
    ensures q == turn.config.exports[e].sourcePath && q in FileTargets(PlanFor(turn, w)[i].operation)
    ensures BackupOf(PlanFor(turn, w)[i].operation) == Some(q)
  {
    hide *;
    WellFormedFacts(turn);
    PlannedNamesXml(turn, w);
    forall n | n in turn.config.nodes
      ensures '/' !in n.domain
    {
      PlainDomain(turn, n);
    }
    TargetsOutsideDataset(turn.config, turn.opts, SafetyFor(turn), PlanFor(turn, w), i, e, q);
    TargetsByBackup(PlanFor(turn, w)[i].operation, q);
    AvoidsAt(turn.config.exports, PlanFor(turn, w), i, e, q);
  }

  lemma AvoidsAt(exports: map<string, ExportConfig>, plan: seq<ReconcileStep>, i: nat, e: string, t: Path)
    requires AvoidsDatasets(exports, plan) && i < |plan| && plan[i].Apply? && e in exports
    ensures t in Targets(plan[i].operation) ==> !Under(t, exports[e].sourcePath)
  {
    hide Targets, Under;
  }

  lemma CoversIs(op: Operation, files: iset<Path>, dirs: iset<Path>)
    requires forall q :: q in FileTargets(op) ==> q in files
    requires forall q :: q in DirTargets(op) ==> q in dirs
    ensures Covers(files, dirs, op)
  {
    hide FileTargets, DirTargets;
  }

  lemma SparesPlanIs(safety: ExecuteSafety, w: World, plan: seq<ReconcileStep>, files: iset<Path>, dirs: iset<Path>)
    requires forall i :: 0 <= i < |plan| && plan[i].Apply? && Validate(safety, plan[i].operation) ==>
      Covers(files, dirs, plan[i].operation) || WithoutBackup(w, plan[i].operation, files)
    ensures SparesPlan(safety, w, plan, files, dirs)
  {
    hide Validate, Covers, WithoutBackup;
  }

  lemma NotBackedUp(turn: Turn, w: World, p: Path, i: nat)
    requires !BackedUpOnto(turn, w, p) && i < |PlanFor(turn, w)| && PlanFor(turn, w)[i].Apply?
    ensures !BacksUp(w, PlanFor(turn, w)[i].operation, p)
  {
    hide PlanFor, BacksUp;
  }

  lemma NothingUnderRoot(turn: Turn, w: World, e: string)
    requires WellFormed(turn) && e in turn.config.exports && AvoidsDatasets(turn.config.exports, PlanFor(turn, w))
    requires !BackedUpOnto(turn, w, turn.config.exports[e].sourcePath)
    ensures var root := turn.config.exports[e].sourcePath;
      SparesPlan(SafetyFor(turn), w, PlanFor(turn, w), Beyond(root), Beyond(root))
  {
    hide *;
    var safety, plan, root := SafetyFor(turn), PlanFor(turn, w), turn.config.exports[e].sourcePath;
    forall i | 0 <= i < |plan| && plan[i].Apply? && Validate(safety, plan[i].operation)
      ensures Covers(Beyond(root), Beyond(root), plan[i].operation) || WithoutBackup(w, plan[i].operation, Beyond(root))
    {
      var op := plan[i].operation;
      NotBackedUp(turn, w, root, i);
      BacksUpIs(w, op, root);
      BackupOfIs(op);
      forall q | q in FileTargets(op) || q in DirTargets(op)
        ensures q in Beyond(root) || (q == root && BackupOf(op) == Some(root))
      {
        BeyondIs(root, q);
        if Under(q, root) {
          OnlyTheRoot(turn, w, e, i, q);
        }
      }
      if BackupOf(op) == Some(root) {
        TargetsAre(op);
        AvoidsAt(turn.config.exports, plan, i, e, op.path);
        InstallTarget(op);
        BeyondIs(root, op.path);
        WithoutBackupIs(w, op, Beyond(root));
      } else {
        CoversIs(op, Beyond(root), Beyond(root));
      }
    }
    SparesPlanIs(safety, w, plan, Beyond(root), Beyond(root));
  }

  lemma InstallTarget(op: Operation)
    requires op.InstallOrUpdateSystemdUnit?
    ensures op.path in Targets(op)
  {
  }

  /** Whatever fails, a planned cycle that passes the dataset check changes nothing at or below a dataset's root that is
      a directory, or where the plan writes no backup. */
  lemma DatasetKept(turn: Turn, w: World, e: string)
    requires WellFormed(turn) && e in turn.config.exports && AvoidsDatasets(turn.config.exports, PlanFor(turn, w))
    requires
      || IsDirectoryAt(w.fs, turn.config.exports[e].sourcePath)
      || !BackedUpOnto(turn, w, turn.config.exports[e].sourcePath)
    ensures SameUnder(w.fs, Cycle(turn, w).world.fs, turn.config.exports[e].sourcePath)
  {
    hide *;
    var root := turn.config.exports[e].sourcePath;
    WellFormedFacts(turn);
    if IsDirectoryAt(w.fs, root) {
      WellFormedSpares(turn, w, e);
      forall q | Under(q, root)
        ensures (q in w.fs <==> q in Cycle(turn, w).world.fs)
        ensures (q in w.fs ==> w.fs[q] == Cycle(turn, w).world.fs[q])
      {
        CycleKeepsDatasets(turn, w, e, q);
      }
      SameUnderIs(w.fs, Cycle(turn, w).world.fs, root);
    } else {
      NothingUnderRoot(turn, w, e);
      ExecuteSpares(
        EnvFor(turn), SafetyFor(turn), w, PlanFor(turn, w), turn.schedule, Beyond(root), Beyond(root));
      CycleExecutes(turn, w);
      ConfinedBeyond(w.fs, Cycle(turn, w).world.fs, root);
    }
  }

  lemma SameUnderIs(a: FileSystem, b: FileSystem, root: Path)
    ensures SameUnder(a, b, root) <==>
      (forall q :: Under(q, root) ==> (q in a <==> q in b) && (q in a ==> a[q] == b[q]))
  {
    hide Under;
  }

  // ---- A backup is written at the root ----

  // Below the root, nothing changes in any case.
  lemma BelowKept(turn: Turn, w: World, e: string, q: Path)
    requires WellFormed(turn) && e in turn.config.exports && AvoidsDatasets(turn.config.exports, PlanFor(turn, w))
    requires Under(q, turn.config.exports[e].sourcePath) && q != turn.config.exports[e].sourcePath
    ensures q in w.fs <==> q in Cycle(turn, w).world.fs
    ensures q in w.fs ==> w.fs[q] == Cycle(turn, w).world.fs[q]
  {
    hide *;
    WellFormedFacts(turn);
    var safety, plan, root := SafetyFor(turn), PlanFor(turn, w), turn.config.exports[e].sourcePath;
    forall i | 0 <= i < |plan| && plan[i].Apply? && Validate(safety, plan[i].operation)
      ensures Covers(UpTo(root), Beyond(root), plan[i].operation)
    {
      forall t | t in FileTargets(plan[i].operation) || t in DirTargets(plan[i].operation)
        ensures t in FileTargets(plan[i].operation) ==> t in UpTo(root)
        ensures t in DirTargets(plan[i].operation) ==> t in Beyond(root)
      {
        UpToIs(root, t);
        BeyondIs(root, t);
        if Under(t, root) {
          OnlyTheRoot(turn, w, e, i, t);
          BackupNoDirectory(plan[i].operation);
        }
      }
      CoversIs(plan[i].operation, UpTo(root), Beyond(root));
    }
    CoversPlanIs(safety, plan, UpTo(root), Beyond(root));
    ExecuteConfined(EnvFor(turn), safety, w, plan, turn.schedule, UpTo(root), Beyond(root));
    CycleExecutes(turn, w);
    BelowConfined(w.fs, Cycle(turn, w).world.fs, root, q);
  }

  ghost function UpTo(root: Path): iset<Path> {
    iset q | !Under(q, root) || q == root
  }

  lemma UpToIs(root: Path, q: Path)
    ensures q in UpTo(root) <==> !Under(q, root) || q == root
  {
    hide Under;
  }

  lemma BackupNoDirectory(op: Operation)
    ensures BackupOf(op).Some? ==> DirTargets(op) == {}
  {
    hide BackupPath;
  }

  lemma CoversPlanIs(safety: ExecuteSafety, plan: seq<ReconcileStep>, files: iset<Path>, dirs: iset<Path>)
    requires forall i :: 0 <= i < |plan| && plan[i].Apply? && Validate(safety, plan[i].operation) ==>
      Covers(files, dirs, plan[i].operation)
    ensures CoversPlan(safety, plan, files, dirs)
  {
    hide Validate, Covers;
  }

  lemma BelowConfined(a: FileSystem, b: FileSystem, root: Path, q: Path)
    requires Confined(a, b, UpTo(root), Beyond(root)) && Under(q, root) && q != root
    ensures (q in a <==> q in b) && (q in a ==> a[q] == b[q])
  {
    assert forall t :: q <= t ==> Under(t, root) && |root| < |t|;
  }

  /** In a committed cycle that passes the dataset check, a dataset is untouched except exactly where its root is a file
      and the plan backs a unit file or a domain up onto it: then that file is gone. */
  lemma DatasetFate(turn: Turn, w: World, e: string)
    requires WellFormed(turn) && Cycle(turn, w).outcome.Committed?
    requires e in turn.config.exports && AvoidsDatasets(turn.config.exports, PlanFor(turn, w))
    ensures var root := turn.config.exports[e].sourcePath;
      SameUnder(w.fs, Cycle(turn, w).world.fs, root) <==> !(FileAtRoot(w, root) && BackedUpOnto(turn, w, root))
    ensures var root := turn.config.exports[e].sourcePath;
      FileAtRoot(w, root) && BackedUpOnto(turn, w, root) ==> root !in Cycle(turn, w).world.fs
  {
    hide *;
    var root := turn.config.exports[e].sourcePath;
    var after := Cycle(turn, w).world.fs;
    RootIs(w, root);
    if IsDirectoryAt(w.fs, root) || !BackedUpOnto(turn, w, root) {
      DatasetKept(turn, w, e);
    } else {
      var i := WhoBacksUp(turn, w, root);
      BackupGone(turn, w, i, root);
      SameUnderIs(w.fs, after, root);
      UnderItself(root);
      forall q | Under(q, root) && q != root
        ensures (q in w.fs <==> q in after) && (q in w.fs ==> w.fs[q] == after[q])
      {
        BelowKept(turn, w, e, q);
      }
    }
  }

  lemma RootIs(w: World, root: Path)
    ensures FileAtRoot(w, root) <==> root in w.fs && !IsDirectoryAt(w.fs, root)
    ensures IsDirectoryAt(w.fs, root) ==> root in w.fs
  {
  }

  lemma UnderItself(root: Path)
    ensures Under(root, root)
  {
  }

  lemma WhoBacksUp(turn: Turn, w: World, p: Path) returns (i: nat)
    requires BackedUpOnto(turn, w, p)
    ensures i < |PlanFor(turn, w)| && PlanFor(turn, w)[i].Apply? && BacksUp(w, PlanFor(turn, w)[i].operation, p)
  {
    hide PlanFor, BacksUp;
    i :| 0 <= i < |PlanFor(turn, w)| && PlanFor(turn, w)[i].Apply? && BacksUp(w, PlanFor(turn, w)[i].operation, p);
  }
}
