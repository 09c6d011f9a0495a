/** Hosts and configurations for which a condition of the host theorems fails, and what then happens. */
module HostWitnesses {
  import opened HostConvergence
  import opened HostCycle
  import opened HostDatasetFate
  import opened HostDiskFate
  import opened HostDisks
  import opened HostExecutor
  import opened HostGoals
  import opened HostGuard
  import opened HostModel
  import opened HostPlanned
  import opened HostPlanner
  import opened HostScene
  import opened HostServices
  import opened HostSettled
  import opened HostUpkeep
  import opened HostWorld
  import opened Paths
  import opened Wrappers

  // ---- A seed image over a disk ----

  /**
   * A well-formed configuration whose seed image path is an existing disk: the guard accepts the write, the cycle goes
   * through without a fault, and the disk is gone.
   */
  lemma SeedDestroysDisk(sizeGib: nat, root: Path, scene: Scene)
    requires Suits(scene, sizeGib) && scene.seed == "" && scene.seedDisk.Some?
    ensures var turn, w := SmallTurn(sizeGib, root), SceneWorld(sizeGib, root, scene);
      && WellFormed(turn) && Seed(turn.config.nodes[0]) == SEED && InfoAt(w, SEED) == scene.seedDisk
      && Cycle(turn, w).outcome.Committed? && InfoAt(Cycle(turn, w).world, SEED).None?
  {
    hide *;
    var turn, w := SmallTurn(sizeGib, root), SceneWorld(sizeGib, root, scene);
    TurnIs(sizeGib, root);
    SmallIsWellFormed(sizeGib, root);
    SceneCommits(sizeGib, root, scene);
    SceneSeed(sizeGib, root, scene);
    var g := SeedWritten(SmallNode(sizeGib));
    SmallDiskPaths(sizeGib);
    SeedIsGoal(turn, SmallNode(sizeGib));
    KeyPathIs(turn, g);
    SeedIsWanted(turn, w, g);
    ManagedPathFate(turn, w, g, scene.seedDisk.value);
    DiskFate(turn, w, SEED, scene.seedDisk.value);
  }

  lemma SceneSeed(sizeGib: nat, root: Path, scene: Scene)
    ensures InfoAt(SceneWorld(sizeGib, root, scene), SEED) == scene.seedDisk
    ensures FileAt(SceneWorld(sizeGib, root, scene).fs, SEED) == Some(scene.seed)
  {
    hide *;
    var w := SceneWorld(sizeGib, root, scene);
    WorldIs(sizeGib, root, scene);
    ScenePaths(Files(SmallTurn(sizeGib, root).config, OPTIONS, SmallTurn(sizeGib, root).lib), scene);
    FileHolds(SmallLibrary(), w, SEED, scene.seed, scene.seedDisk);
  }

  lemma SeedIsGoal(turn: Turn, n: NodeConfig)
    requires n in turn.config.nodes
    ensures IsGoal(turn.config, turn.opts, turn.lib, SeedWritten(n))
  {
    hide Files, UnitFiles;
  }

  lemma SeedIsWanted(turn: Turn, w: World, g: Goal)
    requires turn.lib == SmallLibrary() && g.SeedWritten? && FileAt(w.fs, SEED) == Some("")
    ensures !HasFile(turn.lib, w, SEED, WantedContents(turn, g))
  {
    hide FileAt, Files, SmallHash;
    LibraryIs();
    hide SmallLibrary;
    HashesDiffer("seed");
  }

  // ---- A disk too large for 64 bits of bytes ----

  /** A disk of 2^34 GiB or more is created, and the next plan is not empty. */
  lemma TooLargeDisk(sizeGib: nat, root: Path, scene: Scene)
    requires scene.disk.None? && sizeGib >= 0x4_0000_0000
    ensures var turn, w := SmallTurn(sizeGib, root), SceneWorld(sizeGib, root, scene);
      && WellFormed(turn) && NoCollisions(turn, w) && Cycle(turn, w).outcome.Committed?
      && !AllLast(turn, w) && !AllSkip(PlanFor(turn, Cycle(turn, w).world))
  {
    hide *;
    var turn, w := SmallTurn(sizeGib, root), SceneWorld(sizeGib, root, scene);
    TurnIs(sizeGib, root);
    NoDiskSuits(scene, sizeGib);
    SmallIsWellFormed(sizeGib, root);
    SceneCommits(sizeGib, root, scene);
    LibraryIs();
    SceneCollides(sizeGib, root, scene);
    FinishedOutcome(turn, w);
    Converges(turn, w);
    NodeIs(sizeGib);
    SmallDiskPaths(sizeGib);
    WorldIs(sizeGib, root, scene);
    ScenePaths(Files(turn.config, OPTIONS, turn.lib), scene);
    var n := SmallNode(sizeGib);
    DiskIsGoal(turn, n);
    HoldsIs(turn, w, DiskImage(n));
    GoneIsNone(w, IMAGE);
    AbsentDisk(w, n);
    NeverFits(n);
    LastsIs(turn, w, DiskImage(n));
    var i := GoalStep(turn, DiskImage(n));
    LastsAt(turn, w, i);
  }

  lemma NoDiskSuits(scene: Scene, sizeGib: nat)
    requires scene.disk.None?
    ensures Suits(scene, sizeGib)
  {
  }

  lemma AbsentDisk(w: World, n: NodeConfig)
    requires InfoAt(w, n.rootDisk.image).None?
    ensures !HasDisk(w, n)
  {
  }

  lemma NeverFits(n: NodeConfig)
    requires n.rootDisk.sizeGib >= 0x4_0000_0000
    ensures !Fits(n)
  {
  }

  lemma LastsAt(turn: Turn, w: World, i: nat)
    requires i < |Goals(turn.config, turn.opts, turn.lib)|
    ensures AllLast(turn, w) ==> Lasts(turn, w, Goals(turn.config, turn.opts, turn.lib)[i])
  {
    hide Goals, Lasts;
  }

  // The only domain is defined already.
  lemma SceneCollides(sizeGib: nat, root: Path, scene: Scene)
    ensures NoCollisions(SmallTurn(sizeGib, root), SceneWorld(sizeGib, root, scene))
  {
    hide *;
    var turn, w := SmallTurn(sizeGib, root), SceneWorld(sizeGib, root, scene);
    TurnIs(sizeGib, root);
    DomainHolds(sizeGib, root, scene);
    HoldsDefined(turn, w, Defined(SmallNode(sizeGib)));
    AllDefined(turn, w, SmallNode(sizeGib));
  }

  lemma AllDefined(turn: Turn, w: World, n: NodeConfig)
    requires turn.config.nodes == [n] && Holds(turn, w, Defined(n))
    ensures NoCollisions(turn, w)
  {
    hide Holds, HasFile, XmlWritten, XmlPath, SpecOf;
  }

  // ---- A unit that keeps running its old file ----

  const SMALL_UNIT := UnitFile(UNIT, UNIT_TEXT)

  /**
   * A running unit that is not enabled, and whose file changes: the cycle goes through, and the unit runs the old
   * file.
   */
  lemma StaleService(sizeGib: nat, root: Path, scene: Scene)
    requires Suits(scene, sizeGib) && scene.installed == "" && scene.unit == Unit(false, true, "")
    ensures var turn, w := SmallTurn(sizeGib, root), SceneWorld(sizeGib, root, scene);
      && Serves(turn, SMALL_UNIT) && Fresh(turn, w, SMALL_UNIT) && LeavesStale(turn, w, SMALL_UNIT)
      && Cycle(turn, w).outcome.Committed? && !Fresh(turn, Cycle(turn, w).world, SMALL_UNIT)
  {
    hide *;
    var turn, w := SmallTurn(sizeGib, root), SceneWorld(sizeGib, root, scene);
    TurnIs(sizeGib, root);
    SmallIsWellFormed(sizeGib, root);
    SceneCommits(sizeGib, root, scene);
    SceneUnit(sizeGib, root, scene);
    SmallIsServed(sizeGib, root);
    WorldIs(sizeGib, root, scene);
    OldUnit(turn, w);
    CommittedFresh(turn, w, SMALL_UNIT);
  }

  lemma SceneUnit(sizeGib: nat, root: Path, scene: Scene)
    ensures FileAt(SceneWorld(sizeGib, root, scene).fs, UNIT_FILE) == Some(scene.installed)
  {
    hide *;
    var w := SceneWorld(sizeGib, root, scene);
    WorldIs(sizeGib, root, scene);
    ScenePaths(Files(SmallTurn(sizeGib, root).config, OPTIONS, SmallTurn(sizeGib, root).lib), scene);
    FileHolds(SmallLibrary(), w, UNIT_FILE, scene.installed, None);
  }

  lemma SmallIsServed(sizeGib: nat, root: Path)
    ensures Serves(SmallTurn(sizeGib, root), SMALL_UNIT)
  {
    hide *;
    TurnIs(sizeGib, root);
    SmallIsWellFormed(sizeGib, root);
    SmallUnitIs();
    SmallUnit(sizeGib, root, SMALL_UNIT);
    UnitServed(SmallTurn(sizeGib, root), SMALL_UNIT);
  }

  lemma SmallUnitIs()
    ensures SMALL_UNIT == UnitFile(UNIT, UNIT_TEXT) && UNIT_TEXT != ""
    ensures UnitPath(OPTIONS, SMALL_UNIT.name) == UNIT_FILE
  {
    hide UnitName, UnitPath;
  }

  lemma OldUnit(turn: Turn, w: World)
    requires turn.opts == OPTIONS && turn.lib == SmallLibrary() && FileAt(w.fs, UNIT_FILE) == Some("")
    ensures !Matched(turn, w, SMALL_UNIT) && Fresh(turn, w, SMALL_UNIT)
    ensures UnitOf(w, UNIT) == Unit(false, true, "") ==> LeavesStale(turn, w, SMALL_UNIT)
  {
    hide FileAt, UnitPath, SmallHash, UnitOf;
    LibraryIs();
    hide SmallLibrary;
    SmallUnitIs();
    HashesDiffer(UNIT_TEXT);
  }

  // ---- A dataset where a unit's backup goes ----

  /**
   * An export whose root is a file where the backup of a unit file goes: the dataset check passes, the cycle goes
   * through without a fault, and the file is gone.
   */
  lemma BackupDestroysDataset(sizeGib: nat, scene: Scene)
    requires Suits(scene, sizeGib) && scene.installed == "" && scene.backup.Some?
    ensures var turn, w := SmallTurn(sizeGib, BACKUP), SceneWorld(sizeGib, BACKUP, scene);
      && WellFormed(turn) && SHARE in turn.config.exports && turn.config.exports[SHARE].sourcePath == BACKUP
      && AvoidsDatasets(turn.config.exports, PlanFor(turn, w)) && Cycle(turn, w).outcome.Committed?
      && BACKUP in w.fs && BACKUP !in Cycle(turn, w).world.fs
  {
    hide *;
    var turn, w := SmallTurn(sizeGib, BACKUP), SceneWorld(sizeGib, BACKUP, scene);
    TurnIs(sizeGib, BACKUP);
    SmallExport(sizeGib, BACKUP);
    SmallIsWellFormed(sizeGib, BACKUP);
    SceneCommits(sizeGib, BACKUP, scene);
    WorldIs(sizeGib, BACKUP, scene);
    ScenePaths(Files(turn.config, OPTIONS, turn.lib), scene);
    FileHolds(turn.lib, w, BACKUP, "", scene.backup);
    UnitWritten(sizeGib, scene, turn, w);
    forall i | 0 <= i < |PlanFor(turn, w)| && PlanFor(turn, w)[i].Apply?
      ensures Possible(PlanFor(turn, w)[i].operation)
    {
      SceneStep(sizeGib, BACKUP, scene, turn, i);
      WorkableIs(PlanFor(turn, w)[i]);
    }
    SparesTheBackup(turn.config.exports, PlanFor(turn, w));
    RootIs(w, BACKUP);
    DatasetFate(turn, w, SHARE);
  }

  lemma SmallExport(sizeGib: nat, root: Path)
    ensures SHARE in SmallTurn(sizeGib, root).config.exports
    ensures forall e :: e in SmallTurn(sizeGib, root).config.exports ==>
      SmallTurn(sizeGib, root).config.exports[e].sourcePath == root
  {
    hide SmallNode, SmallLibrary;
  }

  lemma SparesTheBackup(exports: map<string, ExportConfig>, plan: seq<ReconcileStep>)
    requires forall i :: 0 <= i < |plan| && plan[i].Apply? ==> Possible(plan[i].operation)
    requires forall e :: e in exports ==> exports[e].sourcePath == BACKUP
    ensures AvoidsDatasets(exports, plan)
  {
    hide Possible, Targets, BackupPath, UnitPath, Under;
    forall i, t, e | 0 <= i < |plan| && plan[i].Apply? && t in Targets(plan[i].operation) && e in exports
      ensures !Under(t, exports[e].sourcePath)
    {
      PossibleTargets(plan[i].operation, t);
    }
  }

  lemma PossibleTargets(op: Operation, t: Path)
    requires Possible(op) && t in Targets(op)
    ensures !Under(t, BACKUP)
  {
    hide BackupPath, UnitPath, UnitName, CreatedDisk, Possible;
    PossibleIs(op);
    SmallDiskPaths(0);
    SmallUnitPaths();
    DirectoriesDiffer();
    if t == SEED || t == IMAGE {
      assert t[..2] == IMAGES;
    }
    assert t[..3] == t && BACKUP[..2] == UNITS;
  }

  // The unit file is installed, and the old one backed up.
  lemma UnitWritten(sizeGib: nat, scene: Scene, turn: Turn, w: World)
    requires Suits(scene, sizeGib) && scene.installed == ""
    requires turn == SmallTurn(sizeGib, BACKUP) && w == SceneWorld(sizeGib, BACKUP, scene)
    ensures BackedUpOnto(turn, w, BACKUP)
  {
    hide *;
    TurnIs(sizeGib, BACKUP);
    SmallIsWellFormed(sizeGib, BACKUP);
    SmallUnitIs();
    SmallUnit(sizeGib, BACKUP, SMALL_UNIT);
    SceneUnit(sizeGib, BACKUP, scene);
    UnitIsGoal(turn, SMALL_UNIT);
    var i := GoalStep(turn, Installed(SMALL_UNIT));
    PlannedOperation(turn, w, i);
    SceneStep(sizeGib, BACKUP, scene, turn, i);
    WorkableIs(PlanFor(turn, w)[i]);
    OldUnit(turn, w);
    NotSkipped(turn, w, i);
    var op := PlanFor(turn, w)[i].operation;
    OperationForIs(turn, Installed(SMALL_UNIT), op);
    BackupOfIs(op);
    BackupIs();
    BacksUpIs(w, op, BACKUP);
    BackedUpAt(turn, w, BACKUP, i);
  }

  lemma BackedUpAt(turn: Turn, w: World, p: Path, i: nat)
    requires i < |PlanFor(turn, w)| && PlanFor(turn, w)[i].Apply? && BacksUp(w, PlanFor(turn, w)[i].operation, p)
    ensures BackedUpOnto(turn, w, p)
  {
    hide PlanFor, BacksUp;
  }

  lemma NotSkipped(turn: Turn, w: World, i: nat)
    requires WellFormed(turn) && !Matched(turn, w, SMALL_UNIT)
    requires i < |Goals(turn.config, turn.opts, turn.lib)|
    requires Goals(turn.config, turn.opts, turn.lib)[i] == Installed(SMALL_UNIT)
    ensures i < |PlanFor(turn, w)| && PlanFor(turn, w)[i] != SkipAlreadyCorrect
  {
    hide *;
    var config, opts, lib, actual := turn.config, turn.opts, turn.lib, Observe(turn, w);
    PlanIs(turn, w);
    PlanLength(config, opts, lib, actual);
    PlanStepAt(config, opts, lib, actual, i);
    StepIs(config, opts, lib, Installed(SMALL_UNIT));
    FileSkips(
      turn, w, ContextOf(config, opts, lib), ChangedTo(config, opts, lib, actual, i), Installed(SMALL_UNIT),
      UnitPath(opts, SMALL_UNIT.name), SMALL_UNIT.contents);
    MatchedIsHeld(turn, w, SMALL_UNIT);
  }

  lemma MatchedIsHeld(turn: Turn, w: World, unit: UnitFile)
    ensures Matched(turn, w, unit) <==> HasFile(turn.lib, w, UnitPath(turn.opts, unit.name), unit.contents)
  {
    hide UnitPath, FileAt;
  }

  // ---- A configuration the guard does not fit ----

  /** A node named "systemd": the guard can be built, and refuses operations of the planner's own. */
  lemma GuardRefusesOwnPlan(sizeGib: nat, root: Path, lib: Library)
    ensures var config := SmallConfig(sizeGib, root).(nodes := [SmallNode(sizeGib).(name := SYSTEMD)]);
      && ExportsResolve(config) && FromConfig(config, OPTIONS) == Some(SafetyOf(config.nodes, OPTIONS))
      && !GuardFriendly(config, OPTIONS) && !GuardAccepts(config, OPTIONS, lib, SafetyOf(config.nodes, OPTIONS))
  {
    hide SmallNode, GuardAccepts, SafetyOf, NodeChecked;
    var n := SmallNode(sizeGib).(name := SYSTEMD);
    var config := SmallConfig(sizeGib, root).(nodes := [n]);
    NodeIs(sizeGib);
    NodeChecks(sizeGib);
    SameChecks(SmallNode(sizeGib), SYSTEMD);
    assert !NodeFriendly(OPTIONS, n);
    assert n in config.nodes;
    GuardComplete(config, OPTIONS, lib, SafetyOf(config.nodes, OPTIONS));
  }

  lemma SameChecks(n: NodeConfig, name: string)
    ensures NodeChecked(n.(name := name), OPTIONS) <==> NodeChecked(n, OPTIONS)
  {
    hide CheckedPath, SocketPath, SeedImagePath, ParentDirForPath;
  }
}
