/** What the steps of a host plan are for: every apply step serves one goal of the configuration. */
module HostGoals {
  import opened HostModel
  import opened HostPlanner
  import opened Paths
  import opened Wrappers

  datatype Goal =
    | Rendered(file: RenderedFile)
    | DiskDirectory(node: NodeConfig)
    | DiskImage(node: NodeConfig)
    | SeedCleared(node: NodeConfig)
    | SeedWritten(node: NodeConfig)
    | Installed(unit: UnitFile)
    | Reloaded
    | Enabled(unit: UnitFile)
    | Defined(node: NodeConfig)
    | Autostarted(node: NodeConfig)
    | Started(node: NodeConfig)

  function Files(config: HostConfig, opts: Options, lib: Library): seq<RenderedFile> {
    Artifacts(config, config.nodes, opts, lib)
  }

  predicate IsGoal(config: HostConfig, opts: Options, lib: Library, g: Goal) {
    var files := Files(config, opts, lib);
    match g
    case Rendered(file) => file in files
    case Installed(unit) => unit in UnitFiles(files)
    case Reloaded => UnitFiles(files) != []
    case Enabled(unit) => unit in UnitFiles(files)
    case Autostarted(node) => node in config.nodes && node.autostart
    case Started(node) => node in config.nodes && opts.startDomains
    case _ => g.node in config.nodes
  }

  function Seed(node: NodeConfig): Path {
    SeedImagePath(node.rootDisk.image, node.domain)
  }

  function SeedContents(lib: Library, files: seq<RenderedFile>, node: NodeConfig): string {
    lib.seedImage(
      ArtifactContents(files, NodeDir(node) + [Normal(CLOUD_INIT), Normal(USER_DATA)]),
      ArtifactContents(files, NodeDir(node) + [Normal(CLOUD_INIT), Normal(META_DATA)]))
  }

  function StepOf(config: HostConfig, opts: Options, lib: Library, g: Goal): ApplyStep {
    match g
    case Rendered(file) => WriteFile(opts.artifactDir + file.relative, file.contents)
    case DiskDirectory(node) => EnsureDirectory(ParentDirectory(node.rootDisk.image))
    case DiskImage(node) => RunStep(QemuCreateCommand(opts.qemuImg, node), Some(node.rootDisk.image))
    case SeedCleared(node) => RemoveFile(Seed(node))
    case SeedWritten(node) => WriteBinaryFile(Seed(node), SeedContents(lib, Files(config, opts, lib), node))
    case Installed(unit) => WriteFile(UnitPath(opts, unit.name), unit.contents)
    case Reloaded => RunStep(ReloadCommand(opts), None)
    case Enabled(unit) => RunStep(EnableCommand(opts, unit.name), None)
    case Defined(node) => RunStep(VirshCommand(config, opts, Define, PathArg(XmlPath(opts, node))), None)
    case Autostarted(node) => RunStep(VirshCommand(config, opts, Autostart, Word(node.domain)), None)
    case Started(node) => RunStep(VirshCommand(config, opts, Start, Word(node.domain)), None)
  }

  // ---- The goals of the plan, in its order ----

  function RenderedGoals(files: seq<RenderedFile>): seq<Goal> {
    seq(|files|, i requires 0 <= i < |files| => Rendered(files[i]))
  }

  function DiskGoals(nodes: seq<NodeConfig>): seq<Goal> {
    if nodes == [] then []
    else
      [DiskDirectory(nodes[0]), DiskImage(nodes[0]), SeedCleared(nodes[0]), SeedWritten(nodes[0])]
      + DiskGoals(nodes[1..])
  }

  function InstallGoals(units: seq<UnitFile>): seq<Goal> {
    seq(|units|, i requires 0 <= i < |units| => Installed(units[i]))
  }

  function EnableGoals(units: seq<UnitFile>): seq<Goal> {
    seq(|units|, i requires 0 <= i < |units| => Enabled(units[i]))
  }

  function ReloadGoals(units: seq<UnitFile>): seq<Goal> {
    if units == [] then [] else [Reloaded]
  }

  function DomainGoals(opts: Options, nodes: seq<NodeConfig>): seq<Goal> {
    if nodes == [] then []
    else
      [Defined(nodes[0])]
      + (if nodes[0].autostart then [Autostarted(nodes[0])] else [])
      + (if opts.startDomains then [Started(nodes[0])] else [])
      + DomainGoals(opts, nodes[1..])
  }

  function Goals(config: HostConfig, opts: Options, lib: Library): seq<Goal> {
    var files := Files(config, opts, lib);
    RenderedGoals(files) + DiskGoals(config.nodes) + InstallGoals(UnitFiles(files)) + ReloadGoals(UnitFiles(files))
    + EnableGoals(UnitFiles(files)) + DomainGoals(opts, config.nodes)
  }

  function Steps(config: HostConfig, opts: Options, lib: Library, goals: seq<Goal>): seq<ApplyStep> {
    seq(|goals|, i requires 0 <= i < |goals| => StepOf(config, opts, lib, goals[i]))
  }

  lemma StepsAppend(config: HostConfig, opts: Options, lib: Library, a: seq<Goal>, b: seq<Goal>)
    ensures Steps(config, opts, lib, a + b) == Steps(config, opts, lib, a) + Steps(config, opts, lib, b)
  {
    hide StepOf;
  }

  lemma WriteStepsGoals(config: HostConfig, opts: Options, lib: Library, files: seq<RenderedFile>)
    ensures Steps(config, opts, lib, RenderedGoals(files)) == WriteSteps(opts, files)
  {
  }

  lemma {:induction false} DiskStepsGoals(config: HostConfig, opts: Options, lib: Library, nodes: seq<NodeConfig>)
    ensures Steps(config, opts, lib, DiskGoals(nodes)) == AllDiskSteps(opts, lib, Files(config, opts, lib), nodes)
  {
    hide QemuCreateCommand, NodeDir, SeedImagePath, ParentDirectory, Files, ArtifactContents;
    if nodes != [] {
      DiskStepsGoals(config, opts, lib, nodes[1..]);
      var first := [DiskDirectory(nodes[0]), DiskImage(nodes[0]), SeedCleared(nodes[0]), SeedWritten(nodes[0])];
      StepsAppend(config, opts, lib, first, DiskGoals(nodes[1..]));
      assert Steps(config, opts, lib, first) == DiskSteps(opts, lib, Files(config, opts, lib), nodes[0]);
    }
  }

  lemma InstallStepsGoals(config: HostConfig, opts: Options, lib: Library, units: seq<UnitFile>)
    ensures Steps(config, opts, lib, InstallGoals(units)) == InstallSteps(opts, units)
  {
    hide UnitPath;
  }

  lemma EnableStepsGoals(config: HostConfig, opts: Options, lib: Library, units: seq<UnitFile>)
    ensures Steps(config, opts, lib, EnableGoals(units)) == EnableSteps(opts, units)
  {
    hide EnableCommand;
  }

  lemma {:induction false} DomainStepsGoals(config: HostConfig, opts: Options, lib: Library, nodes: seq<NodeConfig>)
    ensures Steps(config, opts, lib, DomainGoals(opts, nodes)) == AllDomainSteps(config, opts, nodes)
  {
    hide VirshCommand, XmlPath;
    if nodes != [] {
      DomainStepsGoals(config, opts, lib, nodes[1..]);
      var node := nodes[0];
      var first := [Defined(node)] + (if node.autostart then [Autostarted(node)] else [])
                   + (if opts.startDomains then [Started(node)] else []);
      StepsAppend(config, opts, lib, first, DomainGoals(opts, nodes[1..]));
      assert Steps(config, opts, lib, first) == DomainSteps(config, opts, node);
    }
  }

  /** The plan is the goals' steps, in the goals' order. */
  lemma PlanServesGoals(config: HostConfig, opts: Options, lib: Library)
    ensures ApplyPlan(config, opts, lib) == Steps(config, opts, lib, Goals(config, opts, lib))
  {
    hide Steps, Files, WriteSteps, AllDiskSteps, InstallSteps, EnableSteps, AllDomainSteps, UnitFiles;
    hide RenderedGoals, DiskGoals, InstallGoals, EnableGoals, DomainGoals, ReloadGoals, ReloadCommand, Artifacts;
    var files := Files(config, opts, lib);
    var units := UnitFiles(files);
    FilesAre(config, opts, lib);
    WriteStepsGoals(config, opts, lib, files);
    DiskStepsGoals(config, opts, lib, config.nodes);
    InstallStepsGoals(config, opts, lib, units);
    ReloadStepsGoals(config, opts, lib, units);
    EnableStepsGoals(config, opts, lib, units);
    DomainStepsGoals(config, opts, lib, config.nodes);
    var a, b, c := RenderedGoals(files), DiskGoals(config.nodes), InstallGoals(units);
    var d, e, f := ReloadGoals(units), EnableGoals(units), DomainGoals(opts, config.nodes);
    StepsAppend(config, opts, lib, a, b);
    StepsAppend(config, opts, lib, a + b, c);
    StepsAppend(config, opts, lib, a + b + c, d);
    StepsAppend(config, opts, lib, a + b + c + d, e);
    StepsAppend(config, opts, lib, a + b + c + d + e, f);
    assert ServiceSteps(opts, units)
        == InstallSteps(opts, units) + (if units != [] then [RunStep(ReloadCommand(opts), None)] else [])
          + EnableSteps(opts, units);
  }

  lemma FilesAre(config: HostConfig, opts: Options, lib: Library)
    ensures Files(config, opts, lib) == Artifacts(config, config.nodes, opts, lib)
  {
  }

  lemma ReloadStepsGoals(config: HostConfig, opts: Options, lib: Library, units: seq<UnitFile>)
    ensures Steps(config, opts, lib, ReloadGoals(units)) == if units != [] then [RunStep(ReloadCommand(opts), None)]
      else []
  {
    hide ReloadCommand;
  }

  lemma {:induction false} DiskGoalsAre(nodes: seq<NodeConfig>, g: Goal)
    ensures g in DiskGoals(nodes) <==>
      (g.DiskDirectory? || g.DiskImage? || g.SeedCleared? || g.SeedWritten?) && g.node in nodes
  {
    if nodes != [] {
      DiskGoalsAre(nodes[1..], g);
    }
  }

  lemma {:induction false} DomainGoalsAre(opts: Options, nodes: seq<NodeConfig>, g: Goal)
    ensures g in DomainGoals(opts, nodes) <==>
      (g.Defined? || (g.Autostarted? && g.node.autostart) || (g.Started? && opts.startDomains)) && g.node in nodes
  {
    if nodes != [] {
      DomainGoalsAre(opts, nodes[1..], g);
    }
  }

  lemma GoalsAre(config: HostConfig, opts: Options, lib: Library, g: Goal)
    ensures g in Goals(config, opts, lib) <==> IsGoal(config, opts, lib, g)
  {
    hide Files, UnitFiles, DiskGoals, DomainGoals;
    DiskGoalsAre(config.nodes, g);
    DomainGoalsAre(opts, config.nodes, g);
    var files := Files(config, opts, lib);
    var units := UnitFiles(files);
    match g
    case Rendered(file) =>
      assert g in RenderedGoals(files) <==> file in files by { RenderedGoalsAre(files, file); }
    case Installed(unit) => UnitGoalsAre(units, unit);
    case Enabled(unit) => UnitGoalsAre(units, unit);
    case _ =>
  }

  lemma RenderedGoalsAre(files: seq<RenderedFile>, file: RenderedFile)
    ensures Rendered(file) in RenderedGoals(files) <==> file in files
  {
    if file in files {
      var i :| 0 <= i < |files| && files[i] == file;
      assert RenderedGoals(files)[i] == Rendered(file);
    }
  }

  lemma UnitGoalsAre(units: seq<UnitFile>, unit: UnitFile)
    ensures Installed(unit) in InstallGoals(units) <==> unit in units
    ensures Enabled(unit) in EnableGoals(units) <==> unit in units
  {
    if unit in units {
      var i :| 0 <= i < |units| && units[i] == unit;
      assert InstallGoals(units)[i] == Installed(unit);
      assert EnableGoals(units)[i] == Enabled(unit);
    }
  }

  // ---- The rendered files ----

  function UnitArtifact(config: HostConfig, node: NodeConfig, lib: Library, e: string): RenderedFile {
    RenderedFile(NodeDir(node) + [Normal(SYSTEMD), Normal(UnitName(node.domain, e))], lib.unitText(config, node, e))
  }

  // A node's files besides its units, by their place in the node's directory.
  predicate IsDocumentPlace(place: Path) {
    || place == [Normal(DOMAIN_XML)]
    || place == [Normal(CLOUD_INIT), Normal(USER_DATA)]
    || place == [Normal(CLOUD_INIT), Normal(META_DATA)]
    || place == [Normal(K3S), Normal(K3S_CONFIG)]
  }

  predicate IsDocument(config: HostConfig, node: NodeConfig, opts: Options, lib: Library, f: RenderedFile) {
    var dir := NodeDir(node);
    || f == RenderedFile(dir + [Normal(DOMAIN_XML)], lib.domainXml(SpecOf(config, node, opts)))
    || f == RenderedFile(dir + [Normal(CLOUD_INIT), Normal(USER_DATA)], lib.userData(config, node))
    || f == RenderedFile(dir + [Normal(CLOUD_INIT), Normal(META_DATA)], lib.metaData(node))
    || f == RenderedFile(dir + [Normal(K3S), Normal(K3S_CONFIG)], lib.k3sConfig(config, node))
  }

  predicate IsFileOf(config: HostConfig, node: NodeConfig, opts: Options, lib: Library, f: RenderedFile) {
    IsDocument(config, node, opts, lib, f) || exists e :: e in node.exports && f == UnitArtifact(config, node, lib, e)
  }

  lemma UnitArtifactsAre(config: HostConfig, node: NodeConfig, lib: Library, ids: seq<string>, f: RenderedFile)
    ensures f in UnitArtifacts(config, node, lib, ids) <==>
      exists e :: e in ids && f == UnitArtifact(config, node, lib, e)
  {
    hide NodeDir, UnitName;
    forall i | 0 <= i < |ids|
      ensures UnitArtifacts(config, node, lib, ids)[i] == UnitArtifact(config, node, lib, ids[i])
    {
    }
  }

  lemma {:induction false} ArtifactsAre(
    config: HostConfig, nodes: seq<NodeConfig>, opts: Options, lib: Library, f: RenderedFile)
    ensures f in Artifacts(config, nodes, opts, lib) <==>
      exists n :: n in nodes && f in NodeArtifacts(config, n, opts, lib)
  {
    hide NodeArtifacts;
    if nodes != [] {
      ArtifactsAre(config, nodes[1..], opts, lib, f);
    }
  }

  lemma NodeArtifactsAre(config: HostConfig, node: NodeConfig, opts: Options, lib: Library, f: RenderedFile)
    ensures f in NodeArtifacts(config, node, opts, lib) <==> IsFileOf(config, node, opts, lib, f)
  {
    hide NodeDir, UnitName, SpecOf, UnitArtifacts;
    UnitArtifactsAre(config, node, lib, node.exports, f);
  }

  lemma FilesContain(config: HostConfig, opts: Options, lib: Library, f: RenderedFile)
    ensures f in Files(config, opts, lib) <==> exists n :: n in config.nodes && IsFileOf(config, n, opts, lib, f)
  {
    hide IsDocument, NodeArtifacts, UnitArtifact;
    ArtifactsAre(config, config.nodes, opts, lib, f);
    forall n | n in config.nodes
      ensures f in NodeArtifacts(config, n, opts, lib) <==> IsFileOf(config, n, opts, lib, f)
    {
      NodeArtifactsAre(config, n, opts, lib, f);
    }
  }

  predicate IsUnitFile(f: RenderedFile, u: UnitFile) {
    InSystemdDirectory(f.relative) && FileName(f.relative) == Some(u.name) && f.contents == u.contents
  }

  lemma {:induction false} UnitFilesAre(files: seq<RenderedFile>, u: UnitFile)
    ensures u in UnitFiles(files) <==> exists f :: f in files && IsUnitFile(f, u)
  {
    hide InSystemdDirectory, FileName;
    if files != [] {
      UnitFilesAre(files[1..], u);
      if u in UnitFiles(files) && u !in UnitFiles(files[1..]) {
        assert files[0] in files;
      }
    }
  }

  lemma SystemdName(name: string)
    ensures SafePathSegment(name) == SYSTEMD <==> name == SYSTEMD
    ensures SafePathSegment(name) == ".." <==> name == ".."
  {
    if SafePathSegment(name) == SYSTEMD {
      forall i | 0 <= i < |name|
        ensures name[i] == SYSTEMD[i]
      {
        assert SafeChar(name[i]) == SYSTEMD[i];
      }
    }
    if SafePathSegment(name) == ".." {
      assert SafePathSegment(name)[0] == SafeChar(name[0]) && SafePathSegment(name)[1] == SafeChar(name[1]);
      assert name == [name[0], name[1]];
    }
  }

  // Only a node that is itself named "systemd" has its documents taken for units.
  lemma DocumentsInSystemd(node: NodeConfig, place: Path)
    requires IsDocumentPlace(place)
    ensures InSystemdDirectory(NodeDir(node) + place) <==> node.name == SYSTEMD
  {
    hide SafePathSegment;
    SystemdName(node.name);
    var relative := NodeDir(node) + place;
    if node.name == SYSTEMD {
      assert relative[1] == Normal(SYSTEMD);
    } else {
      assert forall i :: 0 < i < |relative| - 1 ==> relative[i] != Normal(SYSTEMD);
    }
  }

  lemma UnitsInSystemd(config: HostConfig, node: NodeConfig, lib: Library, e: string)
    ensures var f := UnitArtifact(config, node, lib, e);
      InSystemdDirectory(f.relative) && FileName(f.relative) == Some(UnitName(node.domain, e))
  {
    hide UnitName, SafePathSegment;
    var f := UnitArtifact(config, node, lib, e);
    assert f.relative[|NodeDir(node)|] == Normal(SYSTEMD);
  }

  // ---- The planner's context ----

  lemma {:induction false} NodeSocketsAre(opts: Options, domain: string, ids: seq<string>, u: string)
    ensures u in NodeSockets(opts, domain, ids) <==> exists e :: e in ids && u == UnitName(domain, e)
    ensures u in NodeSockets(opts, domain, ids) ==>
      exists e :: e in ids && u == UnitName(domain, e)
        && NodeSockets(opts, domain, ids)[u] == SocketPath(opts, domain, e)
  {
    hide UnitName, SocketPath;
    if ids != [] {
      NodeSocketsAre(opts, domain, ids[..|ids| - 1], u);
      assert ids == ids[..|ids| - 1] + [ids[|ids| - 1]];
    }
  }

  lemma {:induction false} SocketsAre(opts: Options, nodes: seq<NodeConfig>, u: string)
    ensures u in DesiredSockets(opts, nodes) <==>
      exists n, e :: n in nodes && e in n.exports && u == UnitName(n.domain, e)
    ensures u in DesiredSockets(opts, nodes) ==>
      exists n, e :: n in nodes && e in n.exports && u == UnitName(n.domain, e)
                  && DesiredSockets(opts, nodes)[u] == SocketPath(opts, n.domain, e)
  {
    hide UnitName, SocketPath, NodeSockets;
    if nodes != [] {
      var last := nodes[|nodes| - 1];
      SocketsAre(opts, nodes[..|nodes| - 1], u);
      NodeSocketsAre(opts, last.domain, last.exports, u);
      assert nodes == nodes[..|nodes| - 1] + [last];
      assert last in nodes;
    }
  }

  predicate ServesDomain(config: HostConfig, opts: Options, lib: Library, node: NodeConfig, desired: DesiredDomain) {
    desired == DesiredDomainOf(config, opts, lib, node)
  }

  lemma {:induction false} DomainsAre(
    config: HostConfig, opts: Options, lib: Library, nodes: seq<NodeConfig>, d: string)
    ensures d in DesiredDomains(config, opts, lib, nodes) <==> exists n :: n in nodes && n.domain == d
    ensures d in DesiredDomains(config, opts, lib, nodes) ==>
      exists n :: n in nodes && n.domain == d
        && ServesDomain(config, opts, lib, n, DesiredDomains(config, opts, lib, nodes)[d])
  {
    hide DesiredDomainOf;
    if nodes != [] {
      var last := nodes[|nodes| - 1];
      DomainsAre(config, opts, lib, nodes[..|nodes| - 1], d);
      assert nodes == nodes[..|nodes| - 1] + [last];
      assert last in nodes;
    }
  }

  lemma {:induction false} DisksAre(nodes: seq<NodeConfig>, p: Path)
    ensures p in DesiredDisks(nodes) <==> exists n :: n in nodes && n.rootDisk.image == p
    ensures p in DesiredDisks(nodes) ==>
      exists n :: n in nodes && n.rootDisk.image == p && DesiredDisks(nodes)[p] == DesiredDiskOf(n)
  {
    hide DesiredDiskOf;
    if nodes != [] {
      var last := nodes[|nodes| - 1];
      DisksAre(nodes[..|nodes| - 1], p);
      assert nodes == nodes[..|nodes| - 1] + [last];
      assert last in nodes;
    }
  }

  lemma SeedsAreBinaries(config: HostConfig, opts: Options, lib: Library, node: NodeConfig)
    requires node in config.nodes
    ensures Seed(node) in ContextOf(config, opts, lib).binaries
  {
    hide ApplyPlan, Goals, Files, Seed, DesiredDomains, DesiredDisks, DesiredSockets;
    PlanServesGoals(config, opts, lib);
    GoalsAre(config, opts, lib, SeedWritten(node));
    var goals := Goals(config, opts, lib);
    var i :| 0 <= i < |goals| && goals[i] == SeedWritten(node);
    assert Steps(config, opts, lib, goals)[i] == StepOf(config, opts, lib, SeedWritten(node));
    assert Steps(config, opts, lib, goals)[i] in ApplyPlan(config, opts, lib);
  }

  // ---- The reconcile plan, goal by goal ----

  function Plan(config: HostConfig, opts: Options, lib: Library, actual: ActualState): seq<ReconcileStep> {
    Reconcile(ContextOf(config, opts, lib), actual, ApplyPlan(config, opts, lib), |ApplyPlan(config, opts, lib)|)
  }

  function ChangedTo(config: HostConfig, opts: Options, lib: Library, actual: ActualState, i: nat): set<string> {
    var steps := ApplyPlan(config, opts, lib);
    Changed(ContextOf(config, opts, lib), actual, steps, if i <= |steps| then i else |steps|)
  }

  lemma PlanStepAt(config: HostConfig, opts: Options, lib: Library, actual: ActualState, i: nat)
    requires i < |Goals(config, opts, lib)|
    ensures |Plan(config, opts, lib, actual)| == |Goals(config, opts, lib)| == |ApplyPlan(config, opts, lib)|
    ensures ApplyPlan(config, opts, lib)[i] == StepOf(config, opts, lib, Goals(config, opts, lib)[i])
    ensures Plan(config, opts, lib, actual)[i]
         == DecideStep(ContextOf(config, opts, lib), actual, StepOf(config, opts, lib, Goals(config, opts, lib)[i]),
                       ChangedTo(config, opts, lib, actual, i))
    ensures IsGoal(config, opts, lib, Goals(config, opts, lib)[i])
  {
    hide ApplyPlan, Goals, DecideStep, ContextOf, StepOf, IsGoal, Reconcile, Changed;
    PlanServesGoals(config, opts, lib);
    ReconcileAt(ContextOf(config, opts, lib), actual, ApplyPlan(config, opts, lib), |ApplyPlan(config, opts, lib)|, i);
    GoalsAre(config, opts, lib, Goals(config, opts, lib)[i]);
  }

  lemma PlanLength(config: HostConfig, opts: Options, lib: Library, actual: ActualState)
    ensures |Plan(config, opts, lib, actual)| == |Goals(config, opts, lib)|
  {
    hide ApplyPlan, Goals, DecideStep, ContextOf, StepOf, Reconcile;
    PlanServesGoals(config, opts, lib);
  }

  // ---- What each kind of goal asks for ----

  lemma StepIs(config: HostConfig, opts: Options, lib: Library, g: Goal)
    ensures var step := StepOf(config, opts, lib, g);
      match g
      case Rendered(file) => step == WriteFile(opts.artifactDir + file.relative, file.contents)
      case DiskDirectory(node) => step == EnsureDirectory(ParentDirectory(node.rootDisk.image))
      case DiskImage(node) => step == RunStep(QemuCreateCommand(opts.qemuImg, node), Some(node.rootDisk.image))
      case SeedCleared(node) => step == RemoveFile(Seed(node))
      case SeedWritten(node) => step == WriteBinaryFile(Seed(node), SeedContents(lib, Files(config, opts, lib), node))
      case Installed(unit) => step == WriteFile(UnitPath(opts, unit.name), unit.contents)
      case Reloaded => step == RunStep(ReloadCommand(opts), None)
      case Enabled(unit) => step == RunStep(EnableCommand(opts, unit.name), None)
      case Defined(node) => step == RunStep(VirshCommand(config, opts, Define, PathArg(XmlPath(opts, node))), None)
      case Autostarted(node) => step == RunStep(VirshCommand(config, opts, Autostart, Word(node.domain)), None)
      case Started(node) => step == RunStep(VirshCommand(config, opts, Start, Word(node.domain)), None)
  {
    hide UnitPath, Seed, SeedContents, XmlPath, EnableCommand, ReloadCommand, VirshCommand, QemuCreateCommand;
    hide ParentDirectory, Files;
  }

  lemma GoalFile(config: HostConfig, opts: Options, lib: Library, f: RenderedFile)
    requires IsGoal(config, opts, lib, Rendered(f))
    ensures f in Files(config, opts, lib)
  {
    hide Files, UnitFiles;
  }

  lemma GoalUnit(config: HostConfig, opts: Options, lib: Library, g: Goal)
    requires IsGoal(config, opts, lib, g)
    requires g.Installed? || g.Enabled?
    ensures g.unit in UnitFiles(Files(config, opts, lib))
  {
    hide Files, UnitFiles;
  }

  lemma GoalNode(config: HostConfig, opts: Options, lib: Library, g: Goal)
    requires IsGoal(config, opts, lib, g)
    requires g.DiskDirectory? || g.DiskImage? || g.SeedCleared? || g.SeedWritten? || g.Defined? || g.Autostarted?
      || g.Started?
    ensures g.node in config.nodes
  {
    hide Files, UnitFiles;
  }

  // ---- The order of the service goals ----

  predicate ServiceRank(g: Goal, lo: int, hi: int) {
    lo <= (if g.Installed? then 1 else if g.Reloaded? then 2 else if g.Enabled? then 3 else 0) <= hi
  }

  lemma {:induction false} DiskRanks(nodes: seq<NodeConfig>)
    ensures forall i :: 0 <= i < |DiskGoals(nodes)| ==> ServiceRank(DiskGoals(nodes)[i], 0, 0)
  {
    if nodes != [] {
      DiskRanks(nodes[1..]);
    }
  }

  lemma {:induction false} DomainRanks(opts: Options, nodes: seq<NodeConfig>)
    ensures forall i :: 0 <= i < |DomainGoals(opts, nodes)| ==> ServiceRank(DomainGoals(opts, nodes)[i], 0, 0)
  {
    if nodes != [] {
      DomainRanks(opts, nodes[1..]);
    }
  }

  /** Unit files are installed before the reload, and units are enabled after it. */
  lemma ServiceOrder(config: HostConfig, opts: Options, lib: Library, i: nat, j: nat)
    requires i < |Goals(config, opts, lib)| && j < |Goals(config, opts, lib)|
    ensures Goals(config, opts, lib)[i].Installed? && Goals(config, opts, lib)[j].Reloaded? ==> i < j
    ensures Goals(config, opts, lib)[i].Reloaded? && Goals(config, opts, lib)[j].Enabled? ==> i < j
  {
    hide Files, UnitFiles, DiskGoals, DomainGoals;
    var files := Files(config, opts, lib);
    var units := UnitFiles(files);
    DiskRanks(config.nodes);
    DomainRanks(opts, config.nodes);
    SplitOrder(
      RenderedGoals(files) + DiskGoals(config.nodes), InstallGoals(units), ReloadGoals(units), EnableGoals(units),
      DomainGoals(opts, config.nodes), i, j);
  }

  lemma SplitOrder(a: seq<Goal>, b: seq<Goal>, c: seq<Goal>, d: seq<Goal>, e: seq<Goal>, i: nat, j: nat)
    requires forall k :: 0 <= k < |a| ==> ServiceRank(a[k], 0, 0)
    requires forall k :: 0 <= k < |b| ==> ServiceRank(b[k], 1, 1)
    requires forall k :: 0 <= k < |c| ==> ServiceRank(c[k], 2, 2)
    requires forall k :: 0 <= k < |d| ==> ServiceRank(d[k], 3, 3)
    requires forall k :: 0 <= k < |e| ==> ServiceRank(e[k], 0, 0)
    requires i < |a + b + c + d + e| && j < |a + b + c + d + e|
    ensures (a + b + c + d + e)[i].Installed? && (a + b + c + d + e)[j].Reloaded? ==> i < j
    ensures (a + b + c + d + e)[i].Reloaded? && (a + b + c + d + e)[j].Enabled? ==> i < j
  {
    var all := a + b + c + d + e;
    var x, y, z := |a|, |a| + |b|, |a| + |b| + |c|;
    forall k | 0 <= k < |all|
      ensures ServiceRank(all[k], 1, 1) ==> x <= k < y
      ensures ServiceRank(all[k], 2, 2) ==> y <= k < z
      ensures ServiceRank(all[k], 3, 3) ==> z <= k
    {
    }
  }

  lemma QemuCreates(program: string, n: NodeConfig)
    ensures QemuCreateCommand(program, n).program == program
    ensures FirstArg(QemuCreateCommand(program, n)) == Some(Fixed(QemuCreate))
  {
  }

  /** All rendered files are written before anything else is done. */
  lemma RenderedFirst(config: HostConfig, opts: Options, lib: Library, i: nat, j: nat)
    requires i < |Goals(config, opts, lib)| && j < |Goals(config, opts, lib)|
    requires Goals(config, opts, lib)[i].Rendered? && !Goals(config, opts, lib)[j].Rendered?
    ensures i < j
  {
    hide Files, UnitFiles, DomainGoals, DiskGoals;
    NotRendered(config, opts, lib, i);
    assert forall k :: 0 <= k < |RenderedGoals(Files(config, opts, lib))| ==> Goals(config, opts, lib)[k].Rendered?;
  }

  lemma NotRendered(config: HostConfig, opts: Options, lib: Library, i: nat)
    requires i < |Goals(config, opts, lib)|
    ensures Goals(config, opts, lib)[i].Rendered? ==> i < |RenderedGoals(Files(config, opts, lib))|
  {
    hide Files, UnitFiles, DomainGoals, DiskGoals;
    var files := Files(config, opts, lib);
    var units := UnitFiles(files);
    var g := Goals(config, opts, lib)[i];
    if i >= |RenderedGoals(files)| {
      var rest := DiskGoals(config.nodes) + InstallGoals(units) + ReloadGoals(units) + EnableGoals(units)
        + DomainGoals(opts, config.nodes);
      assert Goals(config, opts, lib) == RenderedGoals(files) + rest;
      assert g in rest;
      DiskGoalsAre(config.nodes, g);
      DomainGoalsAre(opts, config.nodes, g);
    }
  }
}
