/** A small host, close to settled: one node with one export, and open what its seed, disk, unit and backup are. */
module HostScene {
  import opened ContentHashing
  import opened DomainXml
  import opened HostCycle
  import opened HostDisks
  import opened HostExecutor
  import opened HostFrame
  import opened HostGoals
  import opened HostGuard
  import opened HostModel
  import opened HostPlanned
  import opened HostPlanner
  import opened HostRollback
  import opened HostServices
  import opened HostSettled
  import opened HostUpkeep
  import opened HostWorld
  import opened Paths
  import opened Text
  import opened Types
  import opened Wrappers

  // ---- The configuration ----

  const ARTIFACTS: Path := [RootDir, Normal("a")]
  const UNITS: Path := [RootDir, Normal("u")]
  const IMAGES: Path := [RootDir, Normal("i")]
  const OPTIONS := Options([RootDir, Normal("r")], ARTIFACTS, UNITS, "q", "v", "s", 1, false, false, false)

  const DOMAIN := "d"
  const SHARE := "e"
  const UNIT := UnitName(DOMAIN, SHARE)
  const UNIT_TEXT := "text"

  function SmallNode(sizeGib: nat): NodeConfig {
    NodeConfig(
      "n", DOMAIN, false, 1, 1, "m", "c", "b", "a", RootDisk(IMAGES + [Normal("x")], None, None, None, sizeGib, Qcow2),
      [SHARE])
  }

  function SmallConfig(sizeGib: nat, root: Path): HostConfig {
    HostConfig("l", [SmallNode(sizeGib)], map[SHARE := ExportConfig("t", root, "t", SHARE, ReadWrite)])
  }

  function SmallHash(text: string): string {
    if text == "" then seq(16, i => '0') else seq(16, i => '1')
  }

  function SmallLibrary(): Library {
    WithDomainRenderer(
      Library(SmallHash, SmallHash, spec => "", spec => "", (config, node) => "", node => "", (config, node) => "",
              (config, node, e) => UNIT_TEXT, (user, meta) => "seed"))
  }

  // No fault occurs.
  const CLEAN := Schedule(i => StepFaults(Clean, Clean), i => Clean, i => Clean)

  function SmallTurn(sizeGib: nat, root: Path): Turn {
    Turn(SmallConfig(sizeGib, root), OPTIONS, SmallLibrary(), info => "", CLEAN)
  }

  lemma TurnIs(sizeGib: nat, root: Path)
    ensures var turn := SmallTurn(sizeGib, root);
      && turn.config == SmallConfig(sizeGib, root) && turn.opts == OPTIONS && turn.lib == SmallLibrary()
      && turn.schedule == CLEAN && turn.config.nodes == [SmallNode(sizeGib)]
  {
    hide SmallNode, SmallLibrary;
  }

  lemma NodeIs(sizeGib: nat)
    ensures var n := SmallNode(sizeGib);
      && n.domain == DOMAIN && n.exports == [SHARE] && !n.autostart && n.rootDisk.sizeGib == sizeGib
      && n.rootDisk.sourceImage.None? && n.rootDisk.format == Qcow2
      && n.name != ".." && n.name != SYSTEMD
  {
  }

  lemma LibraryIs()
    ensures var lib := SmallLibrary();
      && RendersDomains(lib) && PrintsHashes(lib)
      && (forall s :: lib.contentHash(s) == SmallHash(s))
      && (forall config, node, e :: lib.unitText(config, node, e) == UNIT_TEXT)
      && (forall user, meta :: lib.seedImage(user, meta) == "seed")
  {
    hide Render, DesiredHash;
    forall s: string
      ensures IsHash(SmallHash(s))
    {
    }
  }

  lemma HashesDiffer(text: string)
    requires text != ""
    ensures SmallHash(text) != SmallHash("")
  {
    assert SmallHash(text)[0] == '1' && SmallHash("")[0] == '0';
  }

  // ---- Its paths ----

  const IMAGE: Path := IMAGES + [Normal("x")]
  const SEED_NAME := "d-seed.img"
  const SEED: Path := IMAGES + [Normal(SEED_NAME)]
  const UNIT_FILE: Path := UnitPath(OPTIONS, UNIT)
  const BACKUP: Path := BackupPath(UNIT_FILE, FILE_BACKUP)

  predicate IsIn(p: Path, dir: Path) {
    |p| == |dir| + 1 && p[..|dir|] == dir
  }

  lemma SmallDiskPaths(sizeGib: nat)
    ensures SmallNode(sizeGib).rootDisk.image == IMAGE && Seed(SmallNode(sizeGib)) == SEED
    ensures IsIn(IMAGE, IMAGES) && IsIn(SEED, IMAGES) && IMAGE != SEED
    ensures Parent(IMAGE) == Some(IMAGES) && Parent(SEED) == Some(IMAGES)
  {
    hide Join, Parse;
    assert DOMAIN + "-seed.img" == SEED_NAME;
    assert IMAGE[..2] == IMAGES && SEED[..2] == IMAGES;
    JoinPlain(IMAGES, SEED_NAME);
    assert |SEED_NAME| != |"x"|;
  }

  lemma SmallUnitPaths()
    ensures IsIn(UNIT_FILE, UNITS) && IsIn(BACKUP, UNITS) && UNIT_FILE != BACKUP
    ensures Parent(UNIT_FILE) == Some(UNITS) && Parent(BACKUP) == Some(UNITS)
  {
    hide UnitName, BackupPath, IsServiceName, IsPlainName;
    UnitNamePlain(DOMAIN, SHARE);
    PlainHasNoSlash(UNIT);
    assert '/' !in FILE_BACKUP;
    BackupBeside(UNIT_FILE, FILE_BACKUP);
    assert UNIT_FILE[..2] == UNITS && BACKUP[..2] == UNITS;
    assert UNIT_FILE[2] != BACKUP[2] by {
      assert |UNIT| < |UNIT + BACKUP_INFIX + FILE_BACKUP|;
    }
  }

  lemma PlainHasNoSlash(s: string)
    requires IsPlainName(s)
    ensures '/' !in s
  {
  }

  lemma DirectoriesDiffer()
    ensures ARTIFACTS != UNITS && ARTIFACTS != IMAGES && UNITS != IMAGES
    ensures |ARTIFACTS| == 2 && |UNITS| == 2 && |IMAGES| == 2
  {
    assert ARTIFACTS[1] != UNITS[1] && ARTIFACTS[1] != IMAGES[1] && UNITS[1] != IMAGES[1];
  }

  // ---- It is well-formed ----

  lemma NodeChecks(sizeGib: nat)
    ensures NodeChecked(SmallNode(sizeGib), OPTIONS)
  {
    hide SmallNode, Seed, SeedImagePath, SocketPath;
    SmallDiskPaths(sizeGib);
    NodeIs(sizeGib);
    SeedIs(SmallNode(sizeGib));
    SocketChecks();
    assert ParentDirForPath(IMAGE) == IMAGES;
  }

  lemma SeedIs(n: NodeConfig)
    ensures Seed(n) == SeedImagePath(n.rootDisk.image, n.domain)
  {
  }

  lemma SocketChecks()
    ensures CheckedPath(SocketPath(OPTIONS, DOMAIN, SHARE))
  {
    assert SafePathSegment(DOMAIN) == "d";
  }

  lemma SmallIsReady(sizeGib: nat, root: Path)
    ensures Ready(SmallTurn(sizeGib, root))
  {
    hide NodeChecked, SmallNode, SmallLibrary, SafetyOf;
    TurnIs(sizeGib, root);
    NodeIs(sizeGib);
    NodeChecks(sizeGib);
    assert CheckedPath(ARTIFACTS) && CheckedPath(UNITS);
    var turn := SmallTurn(sizeGib, root);
    forall n | n in turn.config.nodes
      ensures NodeChecked(n, OPTIONS)
    {
    }
  }

  lemma SmallIsFriendly(sizeGib: nat, root: Path)
    ensures GuardFriendly(SmallTurn(sizeGib, root).config, OPTIONS)
  {
    hide SmallNode, NodeDir;
    TurnIs(sizeGib, root);
    NodeIs(sizeGib);
    SmallDiskPaths(sizeGib);
    var n := SmallNode(sizeGib);
    assert |ARTIFACTS + NodeDir(n)| > |UNITS| by {
      NodeDirLong(n);
    }
    assert NodeFriendly(OPTIONS, n);
  }

  lemma NodeDirLong(n: NodeConfig)
    ensures |NodeDir(n)| > 0
  {
  }

  lemma SmallIsIsolated(sizeGib: nat, root: Path)
    ensures Isolated(SafetyFor(SmallTurn(sizeGib, root)))
  {
    hide SmallNode, SmallLibrary, FromConfig, Seed, Isolated, Ready, UnitName, SocketPath;
    var turn := SmallTurn(sizeGib, root);
    TurnIs(sizeGib, root);
    SmallIsReady(sizeGib, root);
    ReadyIs(turn);
    DirectoriesDiffer();
    SmallDiskPaths(sizeGib);
    var safety := SafetyFor(turn);
    forall p | p in safety.rootDisks + safety.seeds
      ensures !Under(p, UNITS)
    {
      DisksAreImages(sizeGib, turn.config, p);
      assert p[..2] == IMAGES;
    }
    DirectoriesIsolate(turn.config, OPTIONS, safety);
  }

  lemma DisksAreImages(sizeGib: nat, config: HostConfig, p: Path)
    requires config.nodes == [SmallNode(sizeGib)]
    requires p in SafetyOf(config.nodes, OPTIONS).rootDisks + SafetyOf(config.nodes, OPTIONS).seeds
    ensures IsIn(p, IMAGES)
  {
    hide SmallNode, UnitName, SocketPath, IsIn;
    SmallDiskPaths(sizeGib);
    SeedIs(SmallNode(sizeGib));
  }

  // Two files of one node with one export, at one place, are one file.
  lemma OneNodeFiles(config: HostConfig, opts: Options, lib: Library, n: NodeConfig, f: RenderedFile, g: RenderedFile)
    requires config.nodes == [n] && n.exports == [SHARE]
    requires f in Files(config, opts, lib) && g in Files(config, opts, lib) && f.relative == g.relative
    ensures f == g
  {
    hide Files, IsDocument, UnitArtifact, NodeDir, IsDocumentPlace, ContentsAt;
    FilesContain(config, opts, lib, f);
    FilesContain(config, opts, lib, g);
    if IsDocument(config, n, opts, lib, f) {
      if IsDocument(config, n, opts, lib, g) {
        var place := DocumentPlace(config, n, opts, lib, f);
        DocumentHolds(config, n, opts, lib, f, place);
        DocumentHolds(config, n, opts, lib, g, place);
      } else {
        DocumentIsNoUnit(config, n, opts, lib, f, SHARE);
      }
    } else if IsDocument(config, n, opts, lib, g) {
      DocumentIsNoUnit(config, n, opts, lib, g, SHARE);
    }
  }

  lemma SmallUnit(sizeGib: nat, root: Path, u: UnitFile)
    ensures u in UnitFiles(Files(SmallTurn(sizeGib, root).config, OPTIONS, SmallLibrary())) <==>
      u == UnitFile(UNIT, UNIT_TEXT)
  {
    hide SmallNode, SmallLibrary, Files, UnitFiles, UnitName, UnitArtifact, InSystemdDirectory, FileName, IsDocument;
    var config, lib := SmallTurn(sizeGib, root).config, SmallLibrary();
    TurnIs(sizeGib, root);
    NodeIs(sizeGib);
    LibraryIs();
    var n := SmallNode(sizeGib);
    if u in UnitFiles(Files(config, OPTIONS, lib)) {
      var m, e := PlannedUnit(config, OPTIONS, lib, u);
    }
    if u == UnitFile(UNIT, UNIT_TEXT) {
      var f := UnitArtifact(config, n, lib, SHARE);
      UnitsInSystemd(config, n, lib, SHARE);
      UnitArtifactIs(config, n, lib, SHARE);
      assert SHARE in n.exports;
      FilesContain(config, OPTIONS, lib, f);
      assert IsFileOf(config, n, OPTIONS, lib, f);
      UnitFilesAre(Files(config, OPTIONS, lib), u);
    }
  }

  lemma UnitArtifactIs(config: HostConfig, n: NodeConfig, lib: Library, e: string)
    ensures UnitArtifact(config, n, lib, e).contents == lib.unitText(config, n, e)
  {
  }

  lemma SmallDisksApart(sizeGib: nat)
    ensures DisksApart(OPTIONS, [SmallNode(sizeGib)])
  {
    hide SmallNode, Seed;
    SmallDiskPaths(sizeGib);
    DirectoriesDiffer();
  }

  lemma SmallDomainsApart(sizeGib: nat)
    ensures DomainsApart(OPTIONS, [SmallNode(sizeGib)])
  {
    hide SmallNode, XmlPath;
    NodeIs(sizeGib);
    assert '/' !in DOMAIN;
  }

  lemma SmallIsWellFormed(sizeGib: nat, root: Path)
    ensures WellFormed(SmallTurn(sizeGib, root))
  {
    hide *;
    TurnIs(sizeGib, root);
    SmallIsReady(sizeGib, root);
    SmallIsFriendly(sizeGib, root);
    SmallIsIsolated(sizeGib, root);
    SmallFilesAgree(sizeGib, root);
    SmallDisksApart(sizeGib);
    SmallDomainsApart(sizeGib);
    WellFormedIs(SmallTurn(sizeGib, root));
  }

  lemma SmallFilesAgree(sizeGib: nat, root: Path)
    ensures ArtifactsAgree(Files(SmallTurn(sizeGib, root).config, OPTIONS, SmallLibrary()))
    ensures UnitsAgree(UnitFiles(Files(SmallTurn(sizeGib, root).config, OPTIONS, SmallLibrary())))
  {
    hide SmallNode, SmallLibrary, Files, UnitFiles, UnitName;
    var config, lib := SmallTurn(sizeGib, root).config, SmallLibrary();
    TurnIs(sizeGib, root);
    NodeIs(sizeGib);
    var files := Files(config, OPTIONS, lib);
    forall f, g | f in files && g in files && f.relative == g.relative
      ensures f == g
    {
      OneNodeFiles(config, OPTIONS, lib, SmallNode(sizeGib), f, g);
    }
    forall a, b | a in UnitFiles(files) && b in UnitFiles(files)
      ensures a == b
    {
      SmallUnit(sizeGib, root, a);
      SmallUnit(sizeGib, root, b);
    }
  }

  // ---- The host ----

  /**
   * What varies: the disk there is, the seed file, what the unit file holds, the unit's state, and a disk at its
   * backup.
   */
  datatype Scene = Scene(
    disk: Option<DiskInfo>, seed: string, seedDisk: Option<DiskInfo>, installed: string, unit: Unit,
    backup: Option<DiskInfo>)

  function DiskFile(p: Path, info: Option<DiskInfo>): FileSystem {
    if info.Some? then map[p := File("", info)] else map[]
  }

  function Rendering(files: seq<RenderedFile>): FileSystem {
    map p | p in (set f | f in files :: ARTIFACTS + f.relative) ::
      File(ArtifactContents(files, if |p| >= 2 then p[2..] else p), None)
  }

  function SceneFiles(files: seq<RenderedFile>, scene: Scene): FileSystem {
    Rendering(files)
    + map[IMAGES := Directory, SEED := File(scene.seed, scene.seedDisk), UNIT_FILE := File(scene.installed, None)]
    + DiskFile(IMAGE, scene.disk) + DiskFile(BACKUP, scene.backup)
  }

  function SceneWorld(sizeGib: nat, root: Path, scene: Scene): World {
    var turn := SmallTurn(sizeGib, root);
    var fs := SceneFiles(Files(turn.config, OPTIONS, turn.lib), scene);
    World(
      fs, fs, map[UNIT := scene.unit],
      map[DOMAIN := Domain(turn.lib.domainXml(SpecOf(turn.config, SmallNode(sizeGib), OPTIONS)), false, false)],
      {OPTIONS.qemuImg, OPTIONS.virsh, OPTIONS.systemctl})
  }

  lemma WorldIs(sizeGib: nat, root: Path, scene: Scene)
    ensures var w, turn := SceneWorld(sizeGib, root, scene), SmallTurn(sizeGib, root);
      && w.fs == SceneFiles(Files(turn.config, OPTIONS, turn.lib), scene) && UnitOf(w, UNIT) == scene.unit
      && DOMAIN in w.domains && w.domains[DOMAIN].xml
          == turn.lib.domainXml(SpecOf(turn.config, SmallNode(sizeGib), OPTIONS))
      && w.tools == {OPTIONS.qemuImg, OPTIONS.virsh, OPTIONS.systemctl}
  {
    hide SmallTurn, SmallNode, SceneFiles, Files, SpecOf, UnitName;
  }

  lemma {:induction false} ContentsFound(files: seq<RenderedFile>, f: RenderedFile)
    requires ArtifactsAgree(files) && f in files
    ensures ArtifactContents(files, f.relative) == f.contents
  {
    if files[0].relative != f.relative {
      ContentsFound(files[1..], f);
    }
  }

  lemma RenderingHolds(files: seq<RenderedFile>, f: RenderedFile)
    requires ArtifactsAgree(files) && f in files
    ensures ARTIFACTS + f.relative in Rendering(files)
    ensures Rendering(files)[ARTIFACTS + f.relative] == File(f.contents, None)
  {
    hide ArtifactContents, ArtifactsAgree;
    ContentsFound(files, f);
    var p := ARTIFACTS + f.relative;
    assert p[2..] == f.relative;
    assert p in set g | g in files :: ARTIFACTS + g.relative;
  }

  lemma RenderingInside(files: seq<RenderedFile>, p: Path)
    requires p in Rendering(files)
    ensures |p| >= 2 && p[..2] == ARTIFACTS
  {
    hide ArtifactContents;
    var f :| f in files && p == ARTIFACTS + f.relative;
  }

  predicate AllDiffer(a: Path, b: Path, c: Path, d: Path, e: Path) {
    a !in {b, c, d, e} && b !in {c, d, e} && c !in {d, e} && d != e
  }

  // Looking up the paths of a file system put together this way.
  lemma Lookups(
    base: FileSystem, directory: Path, a: Path, x: FsNode, b: Path, y: FsNode, c: Path, first: Option<DiskInfo>,
    d: Path,
    second: Option<DiskInfo>)
    requires AllDiffer(directory, a, b, c, d)
    ensures var fs := base + map[directory := Directory, a := x, b := y] + DiskFile(c, first) + DiskFile(d, second);
      && directory in fs && fs[directory] == Directory && a in fs && fs[a] == x && b in fs && fs[b] == y
      && (c in fs <==> first.Some? || c in base) && (first.Some? ==> fs[c] == File("", first))
      && (d in fs <==> second.Some? || d in base) && (second.Some? ==> fs[d] == File("", second))
      && (forall p :: p in fs ==> p in base || p in {directory, a, b, c, d})
      && (forall p :: p in base && p !in {directory, a, b, c, d} ==> p in fs && fs[p] == base[p])
  {
  }

  lemma PathsDiffer()
    ensures AllDiffer(IMAGES, SEED, UNIT_FILE, IMAGE, BACKUP)
    ensures forall p :: p in {IMAGES, SEED, UNIT_FILE, IMAGE, BACKUP} ==> |p| >= 2 && p[..2] != ARTIFACTS && p != UNITS
  {
    hide UnitName, BackupPath, UnitPath;
    SmallDiskPaths(0);
    SmallUnitPaths();
    DirectoriesDiffer();
  }

  /** What is where. */
  lemma ScenePaths(files: seq<RenderedFile>, scene: Scene)
    ensures var fs := SceneFiles(files, scene);
      && IsDirectoryAt(fs, IMAGES) && SEED in fs && fs[SEED] == File(scene.seed, scene.seedDisk)
      && UNIT_FILE in fs && fs[UNIT_FILE] == File(scene.installed, None)
      && (IMAGE in fs <==> scene.disk.Some?) && (scene.disk.Some? ==> fs[IMAGE] == File("", scene.disk))
      && (BACKUP in fs <==> scene.backup.Some?) && (scene.backup.Some? ==> fs[BACKUP] == File("", scene.backup))
      && (forall p :: p in fs ==> |p| >= 2 && p != UNITS)
      && (forall p :: p in Rendering(files) ==> p in fs && fs[p] == Rendering(files)[p])
  {
    hide *;
    PathsDiffer();
    var base := Rendering(files);
    Lookups(
      base, IMAGES, SEED, File(scene.seed, scene.seedDisk), UNIT_FILE, File(scene.installed, None), IMAGE, scene.disk,
      BACKUP, scene.backup);
    SceneIs(files, scene);
    forall p | p in base
      ensures |p| >= 2 && p != UNITS && p !in {IMAGES, SEED, UNIT_FILE, IMAGE, BACKUP}
    {
      RenderingInside(files, p);
      DirectoriesDiffer();
      WholePath(p);
    }
    DirectoryIs(SceneFiles(files, scene), IMAGES);
  }

  lemma WholePath(p: Path)
    ensures |p| == 2 ==> p[..2] == p
  {
  }

  lemma SceneIs(files: seq<RenderedFile>, scene: Scene)
    ensures SceneFiles(files, scene)
         == Rendering(files)
            + map[IMAGES := Directory, SEED := File(scene.seed, scene.seedDisk),
                  UNIT_FILE := File(scene.installed, None)]
            + DiskFile(IMAGE, scene.disk) + DiskFile(BACKUP, scene.backup)
  {
    hide Rendering, DiskFile, UnitPath, BackupPath;
  }

  lemma DirectoryIs(fs: FileSystem, p: Path)
    ensures IsDirectoryAt(fs, p) <==> p in fs && fs[p] == Directory
  {
  }

  // Nothing but directories on the way to a directory two levels down.
  lemma NotBlocked(fs: FileSystem, p: Path)
    requires |p| == 2 && (forall q :: q in fs ==> |q| >= 2) && (p in fs ==> fs[p].Directory?)
    ensures !Blocked(fs, p)
  {
    assert p[..2] == p;
  }

  // ---- What is planned there ----

  // The disk, if there is one, is as configured.
  predicate Suits(scene: Scene, sizeGib: nat) {
    scene.disk.Some? ==> scene.disk == Some(DiskInfo(FormatName(Qcow2), None, GibToBytes(sizeGib)))
  }

  /** What may be left to do in such a scene: the seed, the disk, the unit. */
  predicate Possible(op: Operation) {
    || (op.RewriteSeedImage? && op.path == SEED)
    || (op.CreateRootDisk? && op.path == IMAGE && CreatedDisk(op.command).Some?)
    || (op.InstallOrUpdateSystemdUnit? && op.path == UNIT_FILE && op.contents == UNIT_TEXT)
    || op.ReloadSystemdUnits?
    || Touches(op, UNIT)
  }

  predicate AboutSmall(sizeGib: nat, g: Goal) {
    match g
    case Rendered(_) => true
    case Reloaded => true
    case Installed(unit) => unit == UnitFile(UNIT, UNIT_TEXT)
    case Enabled(unit) => unit == UnitFile(UNIT, UNIT_TEXT)
    case Autostarted(_) => false
    case Started(_) => false
    case _ => g.node == SmallNode(sizeGib)
  }

  lemma SmallGoal(sizeGib: nat, root: Path, turn: Turn, g: Goal)
    requires turn == SmallTurn(sizeGib, root) && IsGoal(turn.config, turn.opts, turn.lib, g)
    ensures AboutSmall(sizeGib, g)
  {
    hide SmallTurn, SmallNode, SmallLibrary, Files, UnitFiles, UnitName;
    TurnIs(sizeGib, root);
    NodeIs(sizeGib);
    if g.Installed? || g.Enabled? {
      SmallUnit(sizeGib, root, g.unit);
    }
  }

  lemma AboutIs(sizeGib: nat, g: Goal)
    requires AboutSmall(sizeGib, g)
    ensures !g.Autostarted? && !g.Started?
    ensures g.Installed? || g.Enabled? ==> g.unit == UnitFile(UNIT, UNIT_TEXT)
    ensures g.DiskDirectory? || g.DiskImage? || g.SeedCleared? || g.SeedWritten? || g.Defined? ==>
      g.node == SmallNode(sizeGib)
  {
    hide SmallNode, UnitName;
  }

  lemma RenderedHolds(sizeGib: nat, root: Path, scene: Scene, f: RenderedFile)
    requires f in Files(SmallTurn(sizeGib, root).config, OPTIONS, SmallLibrary())
    ensures ARTIFACTS + f.relative in SceneWorld(sizeGib, root, scene).fs
    ensures SceneWorld(sizeGib, root, scene).fs[ARTIFACTS + f.relative] == File(f.contents, None)
  {
    hide *;
    TurnIs(sizeGib, root);
    WorldIs(sizeGib, root, scene);
    SmallFilesAgree(sizeGib, root);
    var files := Files(SmallTurn(sizeGib, root).config, OPTIONS, SmallLibrary());
    RenderingHolds(files, f);
    ScenePaths(files, scene);
  }

  lemma FileHolds(lib: Library, w: World, p: Path, contents: string, image: Option<DiskInfo>)
    requires p in w.fs && w.fs[p] == File(contents, image)
    ensures HasFile(lib, w, p, contents) && FileAt(w.fs, p) == Some(contents) && !IsDirectoryAt(w.fs, p)
    ensures p in w.fs && InfoAt(w, p) == image
  {
  }

  lemma DomainHolds(sizeGib: nat, root: Path, scene: Scene)
    ensures HasDomain(SmallTurn(sizeGib, root).config, OPTIONS, SmallLibrary(), SceneWorld(sizeGib, root, scene),
      SmallNode(sizeGib))
  {
    hide SmallNode, SmallLibrary, SceneWorld, HasDomain, SpecOf, Files, PrintsHashes, RendersDomains, Contains;
    var turn, w, n := SmallTurn(sizeGib, root), SceneWorld(sizeGib, root, scene), SmallNode(sizeGib);
    TurnIs(sizeGib, root);
    NodeIs(sizeGib);
    LibraryIs();
    WorldIs(sizeGib, root, scene);
    ShortName(DOMAIN);
    assert Readable(n);
    MadeDomainHolds(turn.config, OPTIONS, turn.lib, w, n);
  }

  lemma ShortName(s: string)
    requires |s| < |MARKER|
    ensures !Contains(s, MARKER)
  {
  }

  /** Documents, directory and domain are as configured, and so is the disk if there is one. */
  lemma SceneHolds(sizeGib: nat, root: Path, scene: Scene, g: Goal)
    requires Suits(scene, sizeGib) && IsGoal(SmallTurn(sizeGib, root).config, OPTIONS, SmallLibrary(), g)
    requires AboutSmall(sizeGib, g)
    requires g.Rendered? || g.DiskDirectory? || g.Defined? || (g.DiskImage? && scene.disk.Some?)
    ensures Holds(SmallTurn(sizeGib, root), SceneWorld(sizeGib, root, scene), g)
  {
    hide *;
    var turn, w := SmallTurn(sizeGib, root), SceneWorld(sizeGib, root, scene);
    TurnIs(sizeGib, root);
    WorldIs(sizeGib, root, scene);
    ScenePaths(Files(turn.config, OPTIONS, turn.lib), scene);
    AboutIs(sizeGib, g);
    SmallDiskPaths(sizeGib);
    OptionsAre();
    HoldsIs(turn, w, g);
    if g.Rendered? {
      GoalFile(turn.config, OPTIONS, SmallLibrary(), g.file);
      RenderedHolds(sizeGib, root, scene, g.file);
      FileHolds(turn.lib, w, ARTIFACTS + g.file.relative, g.file.contents, None);
    } else if g.DiskDirectory? {
      ImagesParent(SmallNode(sizeGib));
    } else if g.DiskImage? {
      NodeIs(sizeGib);
      FileHolds(turn.lib, w, IMAGE, "", scene.disk);
      DiskHolds(w, SmallNode(sizeGib), scene, sizeGib);
    } else {
      DomainHolds(sizeGib, root, scene);
      HoldsDefined(turn, w, g);
    }
  }

  lemma OptionsAre()
    ensures OPTIONS.artifactDir == ARTIFACTS && OPTIONS.unitDir == UNITS && !OPTIONS.startDomains
    ensures OPTIONS.virsh != OPTIONS.systemctl && OPTIONS.systemctl != OPTIONS.qemuImg
    ensures UNIT_FILE == UnitPath(OPTIONS, UNIT)
  {
  }

  lemma ImagesParent(n: NodeConfig)
    requires Parent(n.rootDisk.image) == Some(IMAGES)
    ensures ParentDirectory(n.rootDisk.image) == IMAGES
  {
  }

  lemma DiskHolds(w: World, n: NodeConfig, scene: Scene, sizeGib: nat)
    requires InfoAt(w, n.rootDisk.image) == scene.disk && scene.disk.Some? && Suits(scene, sizeGib)
    requires n.rootDisk.sizeGib == sizeGib && n.rootDisk.sourceImage.None? && n.rootDisk.format == Qcow2
    ensures HasDisk(w, n)
  {
    hide InfoAt, GibToBytes;
  }

  lemma HoldsDefined(turn: Turn, w: World, g: Goal)
    requires g.Defined?
    ensures Holds(turn, w, g) <==> HasDomain(turn.config, turn.opts, turn.lib, w, g.node)
  {
    hide HasDomain;
  }

  lemma ServicesNotRefused(ctx: Context, actual: ActualState, changed: set<string>, u: string)
    requires ctx.opts.systemctl in actual.tools && ctx.opts.systemctl != ctx.opts.qemuImg
    ensures !DecideStep(ctx, actual, RunStep(ReloadCommand(ctx.opts), None), changed).Refuse?
    ensures !DecideStep(ctx, actual, RunStep(EnableCommand(ctx.opts, u), None), changed).Refuse?
  {
    hide PathOf, DecideVirsh, OperationForCommand;
  }

  lemma MissingDiskCreated(ctx: Context, actual: ActualState, changed: set<string>, n: NodeConfig)
    requires n.rootDisk.image in ctx.disks && ctx.disks[n.rootDisk.image] == DesiredDiskOf(n)
    requires n.rootDisk.sourceImage.None?
    requires PathOf(actual, n.rootDisk.image).kind.IsMissing? && ctx.opts.qemuImg in actual.tools
    ensures DecideStep(ctx, actual, RunStep(QemuCreateCommand(ctx.opts.qemuImg, n), Some(n.rootDisk.image)), changed)
         == Apply(CreateRootDisk(n.rootDisk.image, QemuCreateCommand(ctx.opts.qemuImg, n)))
  {
    hide PathOf, QemuCreateCommand;
    QemuCreates(ctx.opts.qemuImg, n);
  }

  lemma SceneTools(sizeGib: nat, root: Path, scene: Scene, g: Goal)
    ensures HasTool(OPTIONS, SceneWorld(sizeGib, root, scene), g)
  {
    hide *;
    WorldIs(sizeGib, root, scene);
    AllTools(OPTIONS, SceneWorld(sizeGib, root, scene), g);
  }

  lemma AllTools(opts: Options, w: World, g: Goal)
    requires opts.qemuImg in w.tools && opts.virsh in w.tools && opts.systemctl in w.tools
    ensures HasTool(opts, w, g)
  {
  }

  /** Nothing is refused, and only these operations may be left. */
  predicate Workable(step: ReconcileStep) {
    !step.Refuse? && (step.Apply? ==> Possible(step.operation))
  }

  lemma WorkableIs(step: ReconcileStep)
    ensures step == SkipAlreadyCorrect || (step.Apply? && Possible(step.operation)) ==> Workable(step)
    ensures Workable(step) && step.Apply? ==> Possible(step.operation)
    ensures Workable(step) ==> !step.Refuse?
  {
    hide Possible;
  }

  lemma PossibleIs(op: Operation)
    ensures op.RewriteSeedImage? ==> (Possible(op) <==> op.path == SEED)
    ensures op.CreateRootDisk? ==> (Possible(op) <==> op.path == IMAGE && CreatedDisk(op.command).Some?)
    ensures op.InstallOrUpdateSystemdUnit? ==> (Possible(op) <==> op.path == UNIT_FILE && op.contents == UNIT_TEXT)
    ensures op.ReloadSystemdUnits? || Touches(op, UNIT) ==> Possible(op)
    ensures Possible(op) ==>
      op.RewriteSeedImage? || op.CreateRootDisk? || op.InstallOrUpdateSystemdUnit? || op.ReloadSystemdUnits?
        || Touches(op, UNIT)
  {
    hide CreatedDisk, UnitName, UnitPath;
  }

  lemma SceneDecision(sizeGib: nat, root: Path, scene: Scene, turn: Turn, ctx: Context, changed: set<string>, g: Goal)
    requires Suits(scene, sizeGib) && turn == SmallTurn(sizeGib, root)
    requires ctx == ContextOf(turn.config, turn.opts, turn.lib)
    requires IsGoal(turn.config, turn.opts, turn.lib, g)
    ensures Workable(
      DecideStep(ctx, Observe(turn, SceneWorld(sizeGib, root, scene)), StepOf(turn.config, turn.opts, turn.lib, g),
        changed))
  {
    hide *;
    var w := SceneWorld(sizeGib, root, scene);
    var config, opts, lib, actual := turn.config, turn.opts, turn.lib, Observe(turn, w);
    var step := DecideStep(ctx, actual, StepOf(config, opts, lib, g), changed);
    TurnIs(sizeGib, root);
    SmallGoal(sizeGib, root, turn, g);
    AboutIs(sizeGib, g);
    SmallIsWellFormed(sizeGib, root);
    SceneTools(sizeGib, root, scene, g);
    ContextOptions(config, opts, lib);
    StepIs(config, opts, lib, g);
    UnchangedIs(g, changed);
    ToolOfIs(opts, g);
    OptionsAre();
    WorkableIs(step);
    if step.Apply? {
      PossibleIs(step.operation);
    }
    SmallDiskPaths(sizeGib);
    if g.Rendered? || g.DiskDirectory? || g.Defined? || (g.DiskImage? && scene.disk.Some?) {
      SceneHolds(sizeGib, root, scene, g);
      SkipsExactly(turn, w, ctx, changed, g);
    } else if g.DiskImage? {
      SceneMissing(sizeGib, root, scene, turn, ctx, changed);
      CreatedDiskIs(opts.qemuImg, g.node);
    } else if g.SeedCleared? {
      GoalNode(config, opts, lib, g);
      SeedClearedSkipped(config, opts, lib, actual, changed, g.node);
    } else if g.SeedWritten? {
      SimpleDecision(ctx, actual, changed, Seed(g.node), SeedContents(lib, Files(config, opts, lib), g.node));
    } else if g.Installed? {
      WriteDecision(ctx, actual, changed, UnitPath(opts, g.unit.name), g.unit.contents);
      InstallOperation(ctx, g.unit);
    } else {
      ToolObserved(turn, w, g);
      HasToolIs(opts, w, g);
      ServicesNotRefused(ctx, actual, changed, UNIT);
      ReloadDecision(ctx, actual, changed);
      EnableDecision(ctx, actual, changed, UNIT);
      if step.Apply? {
        TouchesIs(step.operation, UNIT);
      }
    }
  }

  lemma SceneMissing(sizeGib: nat, root: Path, scene: Scene, turn: Turn, ctx: Context, changed: set<string>)
    requires scene.disk.None? && turn == SmallTurn(sizeGib, root) && ctx == ContextOf(turn.config, turn.opts, turn.lib)
    ensures var w, n := SceneWorld(sizeGib, root, scene), SmallNode(sizeGib);
      DecideStep(ctx, Observe(turn, w), RunStep(QemuCreateCommand(turn.opts.qemuImg, n), Some(n.rootDisk.image)),
        changed)
      == Apply(CreateRootDisk(n.rootDisk.image, QemuCreateCommand(turn.opts.qemuImg, n)))
  {
    hide *;
    var w, n := SceneWorld(sizeGib, root, scene), SmallNode(sizeGib);
    var config, opts, lib := turn.config, turn.opts, turn.lib;
    TurnIs(sizeGib, root);
    NodeIs(sizeGib);
    SmallDiskPaths(sizeGib);
    WorldIs(sizeGib, root, scene);
    ScenePaths(Files(config, OPTIONS, lib), scene);
    ContextOptions(config, opts, lib);
    SmallDisksApart(sizeGib);
    DiskDesired(turn, n);
    MissingObserved(turn, w, n);
    DiskIsGoal(turn, n);
    ToolOfIs(opts, DiskImage(n));
    SceneTools(sizeGib, root, scene, DiskImage(n));
    HasToolIs(opts, w, DiskImage(n));
    ToolObserved(turn, w, DiskImage(n));
    MissingDiskCreated(ctx, Observe(turn, w), changed, n);
  }

  lemma SceneStep(sizeGib: nat, root: Path, scene: Scene, turn: Turn, i: nat)
    requires Suits(scene, sizeGib) && turn == SmallTurn(sizeGib, root)
    requires i < |PlanFor(turn, SceneWorld(sizeGib, root, scene))|
    ensures Workable(PlanFor(turn, SceneWorld(sizeGib, root, scene))[i])
    ensures PlanFor(turn, SceneWorld(sizeGib, root, scene))[i].Apply? ==>
      Validate(SafetyFor(turn), PlanFor(turn, SceneWorld(sizeGib, root, scene))[i].operation)
  {
    hide *;
    var w := SceneWorld(sizeGib, root, scene);
    var config, opts, lib, actual := turn.config, turn.opts, turn.lib, Observe(turn, w);
    SmallIsWellFormed(sizeGib, root);
    WellFormedFacts(turn);
    PlanIs(turn, w);
    PlanLength(config, opts, lib, actual);
    PlanStepAt(config, opts, lib, actual, i);
    SceneDecision(
      sizeGib, root, scene, turn, ContextOf(config, opts, lib), ChangedTo(config, opts, lib, actual, i),
      Goals(config, opts, lib)[i]);
    FriendlyAccepted(config, opts, lib, SafetyFor(turn));
    AcceptedAt(config, opts, lib, SafetyFor(turn), actual, i);
  }

  lemma AcceptedAt(config: HostConfig, opts: Options, lib: Library, safety: ExecuteSafety, actual: ActualState, i: nat)
    requires GuardAccepts(config, opts, lib, safety) && i < |Plan(config, opts, lib, actual)|
    ensures Plan(config, opts, lib, actual)[i].Apply? ==> Validate(safety, Plan(config, opts, lib, actual)[i].operation)
  {
    hide Plan, Validate;
  }

  // ---- Carrying it out ----

  // The places written to are open, and there is a unit file.
  predicate Open(fs: FileSystem) {
    && FileAt(fs, UNIT_FILE).Some? && IsDirectoryAt(fs, IMAGES)
    && !IsDirectoryAt(fs, BACKUP) && !IsDirectoryAt(fs, SEED) && !IsDirectoryAt(fs, IMAGE)
    && !Blocked(fs, IMAGES) && !Blocked(fs, UNITS)
  }

  predicate OnlyTheUnit(actions: seq<RollbackAction>) {
    forall a :: a in actions ==> a == RestoreFile(UNIT_FILE, BACKUP)
  }

  predicate Working(s: ExecState) {
    s.ok && OnlyTheUnit(s.actions) && Open(s.world.fs)
  }

  lemma WriteInto(fs: FileSystem, dir: Path, p: Path, contents: string)
    requires Parent(p) == Some(dir) && |dir| == 2 && !Blocked(fs, dir) && !IsDirectoryAt(fs, p)
    ensures WriteAtomic(fs, p, contents).Some?
    ensures var r := WriteAtomic(fs, p, contents).value;
      && (forall q :: q in fs && q != p ==> q in r && r[q] == fs[q])
      && (forall q :: q in r && q !in fs && q != p ==> r[q].Directory? && |q| <= 2)
      && FileAt(r, p) == Some(contents)
  {
    hide Blocked;
    forall q | q in Prefixes(dir)
      ensures |q| <= 2
    {
    }
  }

  lemma StaysOpen(fs: FileSystem, r: FileSystem, p: Path, dir: Path)
    requires |p| == 3 && |dir| == 2 && !Blocked(fs, dir)
    requires forall q :: q in fs && q != p ==> q in r && r[q] == fs[q]
    requires forall q :: q in r && q !in fs && q != p ==> r[q].Directory?
    ensures !Blocked(r, dir)
  {
    forall k | 1 <= k <= |dir| && dir[..k] in r
      ensures r[dir[..k]].Directory?
    {
      assert dir[..k] != p;
    }
  }

  lemma OpenAfter(fs: FileSystem, r: FileSystem, p: Path)
    requires Open(fs) && p in {UNIT_FILE, BACKUP, SEED, IMAGE} && FileAt(r, p).Some?
    requires forall q :: q in fs && q != p ==> q in r && r[q] == fs[q]
    requires forall q :: q in r && q !in fs && q != p ==> r[q].Directory? && |q| <= 2
    ensures Open(r)
  {
    hide *;
    SmallDiskPaths(0);
    SmallUnitPaths();
    DirectoriesDiffer();
    InIs(UNIT_FILE);
    InIs(BACKUP);
    InIs(SEED);
    InIs(IMAGE);
    OpenIs(fs);
    StaysOpen(fs, r, p, IMAGES);
    StaysOpen(fs, r, p, UNITS);
    KeptKinds(fs, r, p);
    OpenWhen(r);
  }

  lemma InIs(p: Path)
    ensures IsIn(p, IMAGES) || IsIn(p, UNITS) ==> |p| == 3
  {
  }

  // Files and directories besides the one written stay what they are.
  lemma KeptKinds(fs: FileSystem, r: FileSystem, p: Path)
    requires p in {UNIT_FILE, BACKUP, SEED, IMAGE} && FileAt(r, p).Some? && FileAt(fs, UNIT_FILE).Some? && |p| == 3
    requires IsDirectoryAt(fs, IMAGES)
    requires !IsDirectoryAt(fs, BACKUP) && !IsDirectoryAt(fs, SEED) && !IsDirectoryAt(fs, IMAGE)
    requires |BACKUP| == |SEED| == |IMAGE| == 3
    requires forall q :: q in fs && q != p ==> q in r && r[q] == fs[q]
    requires forall q :: q in r && q !in fs && q != p ==> r[q].Directory? && |q| <= 2
    ensures FileAt(r, UNIT_FILE).Some? && IsDirectoryAt(r, IMAGES)
    ensures !IsDirectoryAt(r, BACKUP) && !IsDirectoryAt(r, SEED) && !IsDirectoryAt(r, IMAGE)
  {
    hide UnitPath, BackupPath;
    assert |IMAGES| == 2;
  }

  lemma OpenWhen(fs: FileSystem)
    requires FileAt(fs, UNIT_FILE).Some? && IsDirectoryAt(fs, IMAGES) && !Blocked(fs, IMAGES) && !Blocked(fs, UNITS)
    requires !IsDirectoryAt(fs, BACKUP) && !IsDirectoryAt(fs, SEED) && !IsDirectoryAt(fs, IMAGE)
    ensures Open(fs)
  {
    hide FileAt, IsDirectoryAt, Blocked;
  }

  lemma OpenWrite(fs: FileSystem, p: Path, contents: string)
    requires Open(fs) && p in {UNIT_FILE, BACKUP, SEED}
    ensures WriteAtomic(fs, p, contents).Some? && Open(WriteAtomic(fs, p, contents).value)
  {
    hide Blocked, UnitPath, UnitName, BackupPath, WriteAtomic, Open;
    SmallDiskPaths(0);
    SmallUnitPaths();
    DirectoriesDiffer();
    var dir := if p == SEED then IMAGES else UNITS;
    OpenIs(fs);
    WriteInto(fs, dir, p, contents);
    OpenAfter(fs, WriteAtomic(fs, p, contents).value, p);
  }

  lemma OpenIs(fs: FileSystem)
    requires Open(fs)
    ensures FileAt(fs, UNIT_FILE).Some? && IsDirectoryAt(fs, IMAGES)
    ensures !IsDirectoryAt(fs, BACKUP) && !IsDirectoryAt(fs, SEED) && !IsDirectoryAt(fs, IMAGE)
    ensures !IsDirectoryAt(fs, UNIT_FILE)
    ensures !Blocked(fs, IMAGES) && !Blocked(fs, UNITS)
  {
    hide Blocked, UnitName, UnitPath, BackupPath;
  }

  lemma StageWorks(s: ExecState, op: Operation)
    requires Working(s) && Possible(op)
    ensures Working(Stage(s, op, Clean))
  {
    hide *;
    PossibleIs(op);
    if op.InstallOrUpdateSystemdUnit? {
      InstallStagesUnit(s, op);
    } else {
      if !op.ReloadSystemdUnits? && !op.RewriteSeedImage? && !op.CreateRootDisk? {
        TouchesIs(op, UNIT);
      }
      PlainStage(s, op);
    }
  }

  lemma PlainStage(s: ExecState, op: Operation)
    requires Working(s) && !op.InstallOrUpdateSystemdUnit? && !op.RedefineDomain?
    ensures Working(Stage(s, op, Clean))
  {
    hide Open, OnlyTheUnit;
  }

  lemma InstallStagesUnit(s: ExecState, op: Operation)
    requires Working(s) && op.InstallOrUpdateSystemdUnit? && op.path == UNIT_FILE
    ensures Working(Stage(s, op, Clean))
  {
    hide Open, FileAt, WriteAtomic, BackupPath, UnitPath, Blocked, Staged;
    OpenIs(s.world.fs);
    OpenWrite(s.world.fs, BACKUP, FileAt(s.world.fs, UNIT_FILE).value);
    BackupIs();
  }

  lemma BackupIs()
    ensures BACKUP == BackupPath(UNIT_FILE, FILE_BACKUP)
  {
    hide BackupPath, UnitPath;
  }

  // The effect of each possible operation succeeds, and leaves the places open.
  lemma EffectWorks(env: Env, w: World, op: Operation)
    requires Open(w.fs) && Possible(op) && env.opts == OPTIONS
    ensures OperationEffect(env, w, op).Some? && Open(OperationEffect(env, w, op).value.fs)
  {
    hide *;
    PossibleIs(op);
    if op.RewriteSeedImage? || op.InstallOrUpdateSystemdUnit? {
      OpenWrite(w.fs, op.path, op.contents);
      WriteEffect(env, w, op);
    } else if op.CreateRootDisk? {
      CreateWorks(env, w, op);
    } else if op.ReloadSystemdUnits? {
      ReloadWorks(env, w, op);
    } else {
      TouchesIs(op, UNIT);
      OpenIs(w.fs);
      OptionsAre();
      ServiceWorks(env, w, op);
    }
  }

  lemma WriteEffect(env: Env, w: World, op: Operation)
    requires op.RewriteSeedImage? || op.InstallOrUpdateSystemdUnit?
    ensures OperationEffect(env, w, op) == OnFiles(w, WriteAtomic(w.fs, op.path, op.contents))
    ensures WriteAtomic(w.fs, op.path, op.contents).Some? ==>
      OnFiles(w, WriteAtomic(w.fs, op.path, op.contents))
        == Some(w.(fs := WriteAtomic(w.fs, op.path, op.contents).value))
  {
    hide WriteAtomic;
  }

  lemma CreateWorks(env: Env, w: World, op: Operation)
    requires Open(w.fs) && op.CreateRootDisk? && op.path == IMAGE && CreatedDisk(op.command).Some?
    ensures OperationEffect(env, w, op).Some? && Open(OperationEffect(env, w, op).value.fs)
  {
    hide Open, CreatedDisk, Blocked, UnitPath, BackupPath;
    OpenIs(w.fs);
    SmallDiskPaths(0);
    OpenAfter(w.fs, OperationEffect(env, w, op).value.fs, IMAGE);
  }

  lemma ReloadWorks(env: Env, w: World, op: Operation)
    requires Open(w.fs) && op.ReloadSystemdUnits?
    ensures OperationEffect(env, w, op).Some? && Open(OperationEffect(env, w, op).value.fs)
  {
    hide Open;
  }

  lemma ServiceWorks(env: Env, w: World, op: Operation)
    requires Open(w.fs) && (op.EnableAndStartVirtiofsdService? || op.RestartVirtiofsdService?)
    requires FileAt(w.fs, UnitPath(env.opts, op.unitName)).Some?
    ensures OperationEffect(env, w, op).Some? && Open(OperationEffect(env, w, op).value.fs)
  {
    hide Open, FileAt, UnitPath;
  }

  lemma OperationWorks(env: Env, safety: ExecuteSafety, s: ExecState, op: Operation, faults: StepFaults)
    requires Working(s) && Possible(op) && Validate(safety, op) && env.opts == OPTIONS
    requires faults == StepFaults(Clean, Clean)
    ensures Working(ExecOperation(env, safety, s, op, faults))
  {
    hide Validate, Stage, OperationEffect, Possible, Open, OnlyTheUnit;
    StageWorks(s, op);
    EffectWorks(env, Stage(s, op, Clean).world, op);
  }

  lemma {:induction false} RunWorks(
    env: Env, safety: ExecuteSafety, w: World, plan: seq<ReconcileStep>, steps: nat -> StepFaults, n: nat)
    requires Open(w.fs) && env.opts == OPTIONS && n <= |plan| && (forall i :: steps(i) == StepFaults(Clean, Clean))
    requires forall i :: 0 <= i < |plan| ==>
      Workable(plan[i]) && (plan[i].Apply? ==> Validate(safety, plan[i].operation))
    ensures Working(RunTo(env, safety, w, plan, steps, n))
  {
    hide Validate, ExecOperation, Possible, Open;
    if n > 0 {
      RunWorks(env, safety, w, plan, steps, n - 1);
      if plan[n - 1].Apply? {
        WorkableIs(plan[n - 1]);
        OperationWorks(env, safety, RunTo(env, safety, w, plan, steps, n - 1), plan[n - 1].operation, steps(n - 1));
      }
    }
  }

  lemma DiscardWorks(w: World, a: RollbackAction)
    requires a == RestoreFile(UNIT_FILE, BACKUP) && !IsDirectoryAt(w.fs, BACKUP)
    ensures DiscardEffect(w, a).Some? && !IsDirectoryAt(DiscardEffect(w, a).value.fs, BACKUP)
  {
    hide UnitPath, BackupPath;
  }

  lemma {:induction false} CommitWorks(w: World, actions: seq<RollbackAction>, discard: nat -> Fault, k: nat)
    requires k <= |actions| && OnlyTheUnit(actions) && !IsDirectoryAt(w.fs, BACKUP) && (forall i :: discard(i) == Clean)
    ensures Commit(w, actions, discard, k).ok && !IsDirectoryAt(Commit(w, actions, discard, k).world.fs, BACKUP)
  {
    hide IsDirectoryAt, DiscardEffect;
    if k > 0 {
      CommitWorks(w, actions, discard, k - 1);
      assert actions[k - 1] in actions;
      DiscardWorks(Commit(w, actions, discard, k - 1).world, actions[k - 1]);
      assert discard(k - 1) == Clean;
    }
  }

  lemma SceneIsOpen(sizeGib: nat, root: Path, scene: Scene)
    ensures Open(SceneWorld(sizeGib, root, scene).fs)
  {
    hide *;
    var turn, w := SmallTurn(sizeGib, root), SceneWorld(sizeGib, root, scene);
    WorldIs(sizeGib, root, scene);
    ScenePaths(Files(turn.config, OPTIONS, turn.lib), scene);
    DirectoriesDiffer();
    DirectoryIs(w.fs, IMAGES);
    NotBlocked(w.fs, IMAGES);
    NotBlocked(w.fs, UNITS);
    FilesAreOpen(w.fs, scene);
  }

  lemma FilesAreOpen(fs: FileSystem, scene: Scene)
    requires IsDirectoryAt(fs, IMAGES) && !Blocked(fs, IMAGES) && !Blocked(fs, UNITS)
    requires UNIT_FILE in fs && fs[UNIT_FILE] == File(scene.installed, None) && SEED in fs
    requires fs[SEED] == File(scene.seed, scene.seedDisk)
    requires IMAGE in fs ==> fs[IMAGE] == File("", scene.disk)
    requires BACKUP in fs ==> fs[BACKUP] == File("", scene.backup)
    ensures Open(fs)
  {
    hide Blocked, UnitPath, BackupPath;
  }

  /** The cycle goes through. */
  lemma SceneCommits(sizeGib: nat, root: Path, scene: Scene)
    requires Suits(scene, sizeGib)
    ensures Cycle(SmallTurn(sizeGib, root), SceneWorld(sizeGib, root, scene)).outcome.Committed?
  {
    hide *;
    var turn, w := SmallTurn(sizeGib, root), SceneWorld(sizeGib, root, scene);
    TurnIs(sizeGib, root);
    var env, safety, plan := EnvFor(turn), SafetyFor(turn), PlanFor(turn, w);
    EnvIs(turn);
    CleanIs();
    SmallIsReady(sizeGib, root);
    SceneIsOpen(sizeGib, root, scene);
    forall i | 0 <= i < |plan|
      ensures Workable(plan[i]) && (plan[i].Apply? ==> Validate(safety, plan[i].operation)) && !plan[i].Refuse?
    {
      SceneStep(sizeGib, root, scene, turn, i);
      WorkableIs(plan[i]);
    }
    RunWorks(env, safety, w, plan, turn.schedule.steps, |plan|);
    var ran := RunTo(env, safety, w, plan, turn.schedule.steps, |plan|);
    WorkingIs(ran);
    CommitWorks(ran.world, ran.actions, turn.schedule.discard, |ran.actions|);
    CycleExecutes(turn, w);
    CommitsWhen(env, safety, w, plan, turn.schedule);
  }

  lemma CleanIs()
    ensures forall i :: CLEAN.steps(i) == StepFaults(Clean, Clean)
    ensures forall i :: CLEAN.discard(i) == Clean
  {
  }

  lemma WorkingIs(s: ExecState)
    requires Working(s)
    ensures s.ok && OnlyTheUnit(s.actions) && !IsDirectoryAt(s.world.fs, BACKUP)
  {
    hide UnitPath, BackupPath, Blocked;
  }

  lemma CommitsWhen(env: Env, safety: ExecuteSafety, w: World, plan: seq<ReconcileStep>, schedule: Schedule)
    requires forall i :: 0 <= i < |plan| ==> !plan[i].Refuse?
    requires var ran := RunTo(env, safety, w, plan, schedule.steps, |plan|);
      ran.ok && Commit(ran.world, ran.actions, schedule.discard, |ran.actions|).ok
    ensures Execute(env, safety, w, plan, schedule).outcome.Committed?
  {
    hide RunTo, Commit;
  }
}
