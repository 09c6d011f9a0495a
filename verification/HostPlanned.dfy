/** Which operation each goal of a well-formed configuration can have planned, and what it may write. */
module HostPlanned {
  import opened HostCycle
  import opened HostExecutor
  import opened HostFrame
  import opened HostGoals
  import opened HostGuard
  import opened HostModel
  import opened HostPlanner
  import opened HostRollback
  import opened HostServices
  import opened HostWorld
  import opened Paths
  import opened Wrappers

  // ---- Well-formed configurations ----

  predicate ArtifactsAgree(files: seq<RenderedFile>) {
    forall f, g :: f in files && g in files && f.relative == g.relative ==> f == g
  }

  predicate DisksApart(opts: Options, nodes: seq<NodeConfig>) {
    && (forall n, m :: n in nodes && m in nodes && n.rootDisk.image == m.rootDisk.image ==> n == m)
    && (forall n, m {:trigger Seed(n), Seed(m)} :: n in nodes && m in nodes && Seed(n) == Seed(m) ==> n == m)
    && (forall n, m {:trigger n in nodes, Seed(m)} :: n in nodes && m in nodes ==> n.rootDisk.image != Seed(m))
    && (forall n :: n in nodes ==> !Under(n.rootDisk.image, opts.artifactDir) && !Under(Seed(n), opts.artifactDir))
  }

  predicate DomainsApart(opts: Options, nodes: seq<NodeConfig>) {
    && DistinctDomains(nodes)
    && (forall n, m {:trigger XmlPath(opts, n), XmlPath(opts, m)} ::
          n in nodes && m in nodes && XmlPath(opts, n) == XmlPath(opts, m) ==> n == m)
    && (forall n :: n in nodes ==> '/' !in n.domain)
  }

  /**
   * Names, images, seeds, units and directories of the configuration are kept apart, and the guard accepts its plans.
   */
  predicate WellFormed(turn: Turn) {
    && Ready(turn)
    && GuardFriendly(turn.config, turn.opts)
    && Isolated(SafetyFor(turn))
    && ArtifactsAgree(Files(turn.config, turn.opts, turn.lib))
    && UnitsAgree(UnitFiles(Files(turn.config, turn.opts, turn.lib)))
    && DisksApart(turn.opts, turn.config.nodes)
    && DomainsApart(turn.opts, turn.config.nodes)
  }

  lemma WellFormedFacts(turn: Turn)
    requires WellFormed(turn)
    ensures Ready(turn) && ExportsResolve(turn.config) && FromConfig(turn.config, turn.opts) == Some(SafetyFor(turn))
    ensures GuardFriendly(turn.config, turn.opts) && Isolated(SafetyFor(turn))
    ensures ArtifactsAgree(Files(turn.config, turn.opts, turn.lib))
    ensures UnitsAgree(UnitFiles(Files(turn.config, turn.opts, turn.lib)))
    ensures DisksApart(turn.opts, turn.config.nodes) && DomainsApart(turn.opts, turn.config.nodes)
    ensures DistinctDomains(turn.config.nodes)
    ensures SafetyFor(turn).artifactDir == turn.opts.artifactDir && SafetyFor(turn).unitDir == turn.opts.unitDir
    ensures turn.config.nodes != [] ==> turn.opts.virsh != turn.opts.systemctl
  {
    hide FromConfig, Files, UnitFiles, Isolated, ArtifactsAgree, UnitsAgree, DisksApart;
    hide DistinctDomains, NodeFriendly;
    ReadyIs(turn);
    SafetyDirs(turn.config, turn.opts, SafetyFor(turn));
  }

  lemma WellFormedIs(turn: Turn)
    requires Ready(turn) && GuardFriendly(turn.config, turn.opts) && Isolated(SafetyFor(turn))
    requires ArtifactsAgree(Files(turn.config, turn.opts, turn.lib))
    requires UnitsAgree(UnitFiles(Files(turn.config, turn.opts, turn.lib)))
    requires DisksApart(turn.opts, turn.config.nodes) && DomainsApart(turn.opts, turn.config.nodes)
    ensures WellFormed(turn)
  {
    hide Ready, GuardFriendly, Isolated, ArtifactsAgree, UnitsAgree, Files, UnitFiles, DisksApart, DomainsApart;
    hide SafetyFor;
  }

  // Every planned unit of a well-formed configuration is served.
  lemma UnitServed(turn: Turn, unit: UnitFile)
    requires WellFormed(turn)
    requires unit in UnitFiles(Files(turn.config, turn.opts, turn.lib))
    ensures Serves(turn, unit)
  {
    hide *;
    WellFormedFacts(turn);
    Friendly(turn.config, turn.opts);
    FriendlyNames(turn.opts, turn.config.nodes);
    var n, e := PlannedUnit(turn.config, turn.opts, turn.lib, unit);
    ExportInSafety(turn.config, turn.opts, SafetyFor(turn), n, e);
    ServesIs(turn, unit);
  }

  lemma FriendlyNames(opts: Options, nodes: seq<NodeConfig>)
    requires forall n :: n in nodes ==> NodeFriendly(opts, n)
    ensures forall n :: n in nodes ==> n.name != SYSTEMD
  {
  }

  lemma ServesIs(turn: Turn, unit: UnitFile)
    requires Ready(turn) && Isolated(SafetyFor(turn))
    requires UnitsAgree(UnitFiles(Files(turn.config, turn.opts, turn.lib)))
    requires unit in UnitFiles(Files(turn.config, turn.opts, turn.lib)) && UnitAllowed(SafetyFor(turn), unit.name)
    ensures Serves(turn, unit)
  {
    hide Ready, Isolated, UnitsAgree, Files, UnitFiles, UnitAllowed;
  }

  // ---- The operation of each goal ----

  /** What `Apply` can be planned for a goal. */
  predicate OperationFor(turn: Turn, g: Goal, op: Operation) {
    match g
    case Rendered(file) => op == WriteRenderedArtifact(turn.opts.artifactDir + file.relative, file.contents)
    case DiskDirectory(node) => op == CreateDirectory(ParentDirectory(node.rootDisk.image))
    case DiskImage(node) =>
      || op == CreateRootDisk(node.rootDisk.image, QemuCreateCommand(turn.opts.qemuImg, node))
      || op == ResizeRootDisk(node.rootDisk.image, DesiredDiskOf(node).sizeBytes,
                              QemuResizeCommand(turn.opts.qemuImg, node.rootDisk.image, node.rootDisk.sizeGib))
    case SeedCleared(_) => false
    case SeedWritten(node) =>
      op == RewriteSeedImage(Seed(node), SeedContents(turn.lib, Files(turn.config, turn.opts, turn.lib), node))
    case Installed(unit) => op == InstallOrUpdateSystemdUnit(unit.name, UnitPath(turn.opts, unit.name), unit.contents)
    case Reloaded => op.ReloadSystemdUnits?
    case Enabled(unit) => Touches(op, unit.name)
    case Defined(node) =>
      (op.DefineDomain? || op.RedefineDomain?) && op.domain == node.domain && op.xmlPath == XmlPath(turn.opts, node)
    case Autostarted(node) => op.EnableDomainAutostart? && op.domain == node.domain
    case Started(node) => op.StartDomain? && op.domain == node.domain
  }

  lemma RenderedOperation(turn: Turn, ctx: Context, f: RenderedFile)
    requires WellFormed(turn) && ctx.opts == turn.opts
    requires f in Files(turn.config, turn.opts, turn.lib)
    ensures OperationForStep(ctx, WriteFile(turn.opts.artifactDir + f.relative, f.contents))
         == WriteRenderedArtifact(turn.opts.artifactDir + f.relative, f.contents)
  {
    hide *;
    WellFormedFacts(turn);
    var config, opts, lib := turn.config, turn.opts, turn.lib;
    Friendly(config, opts);
    SafetyDirs(config, opts, SafetyFor(turn));
    var n, document, place, e := FileOrigin(config, opts, lib, f);
    var path := opts.artifactDir + f.relative;
    if document {
      assert path == opts.artifactDir + NodeDir(n) + place;
      DocumentOperation(opts, n, place);
    } else {
      ExportInSafety(config, opts, SafetyFor(turn), n, e);
      UnitArtifactName(opts, config, n, lib, e);
      if Parent(path) == Some(opts.unitDir) {
        ArtifactUnder(opts, f);
        IsolatedUnit(SafetyFor(turn), opts, UnitName(n.domain, e));
      }
    }
    NotAUnit(ctx, path, f.contents);
  }

  lemma NotAUnit(ctx: Context, p: Path, contents: string)
    requires Parent(p) != Some(ctx.opts.unitDir)
    ensures OperationForStep(ctx, WriteFile(p, contents)) == WriteRenderedArtifact(p, contents)
  {
  }

  lemma UnitArtifactName(opts: Options, config: HostConfig, n: NodeConfig, lib: Library, e: string)
    ensures var path := opts.artifactDir + UnitArtifact(config, n, lib, e).relative;
      Parent(path) == Some(opts.unitDir) ==> path == UnitPath(opts, UnitName(n.domain, e))
  {
    hide UnitName, SafePathSegment;
    var path := opts.artifactDir + UnitArtifact(config, n, lib, e).relative;
    assert path[|path| - 1] == Normal(UnitName(n.domain, e));
  }

  lemma IsolatedUnit(safety: ExecuteSafety, opts: Options, u: string)
    requires Isolated(safety) && UnitAllowed(safety, u) && safety.unitDir == opts.unitDir
    requires safety.artifactDir == opts.artifactDir
    ensures !Under(UnitPath(opts, u), opts.artifactDir)
  {
    hide IsPlainName, IsServiceName, Under;
    IsolatedAt(safety, u);
  }

  lemma DiskDesired(turn: Turn, n: NodeConfig)
    requires DisksApart(turn.opts, turn.config.nodes) && n in turn.config.nodes
    ensures n.rootDisk.image in DesiredDisks(turn.config.nodes)
    ensures DesiredDisks(turn.config.nodes)[n.rootDisk.image] == DesiredDiskOf(n)
  {
    hide DesiredDisks, DesiredDiskOf, Under, Seed;
    DisksAre(turn.config.nodes, n.rootDisk.image);
  }

  lemma DiskOperation(ctx: Context, actual: ActualState, changed: set<string>, n: NodeConfig)
    requires n.rootDisk.image in ctx.disks && ctx.disks[n.rootDisk.image] == DesiredDiskOf(n)
    ensures var step :=
      DecideStep(ctx, actual, RunStep(QemuCreateCommand(ctx.opts.qemuImg, n), Some(n.rootDisk.image)), changed);
      step.Apply? ==>
        || step.operation == CreateRootDisk(n.rootDisk.image, QemuCreateCommand(ctx.opts.qemuImg, n))
        || step.operation == ResizeRootDisk(n.rootDisk.image, DesiredDiskOf(n).sizeBytes,
                                            QemuResizeCommand(ctx.opts.qemuImg, n.rootDisk.image, n.rootDisk.sizeGib))
  {
    hide PathOf, BaseImageVerified, QemuCreateCommand;
    QemuCreates(ctx.opts.qemuImg, n);
    assert DesiredDiskOf(n).sizeGib == n.rootDisk.sizeGib;
  }

  // The XML path of a node leads back to its own domain.
  lemma XmlServes(turn: Turn, domains: map<string, DesiredDomain>, n: NodeConfig)
    requires DomainsApart(turn.opts, turn.config.nodes) && n in turn.config.nodes
    requires domains == DesiredDomains(turn.config, turn.opts, turn.lib, turn.config.nodes)
    ensures DomainForXml(domains, XmlPath(turn.opts, n)).Some?
    ensures ServesDomain(turn.config, turn.opts, turn.lib, n, DomainForXml(domains, XmlPath(turn.opts, n)).value)
  {
    hide DesiredDomains, XmlPath, SpecOf, DistinctDomains;
    var m := XmlFindsDomain(turn.config, turn.opts, turn.lib, domains, n);
    var found := DomainForXml(domains, XmlPath(turn.opts, n));
    assert found.value.xmlPath == XmlPath(turn.opts, n);
    assert found.value.xmlPath == XmlPath(turn.opts, m);
  }

  lemma ServedDomain(config: HostConfig, opts: Options, lib: Library, n: NodeConfig, desired: DesiredDomain)
    requires ServesDomain(config, opts, lib, n, desired)
    ensures desired.domain == n.domain && desired.xmlPath == XmlPath(opts, n)
    ensures desired.desiredHash == lib.domainHash(SpecOf(config, n, opts))
  {
    hide XmlPath, SpecOf;
  }

  /** Every operation applied for a goal is the one the goal names. */
  lemma PlannedOperation(turn: Turn, w: World, i: nat)
    requires WellFormed(turn)
    requires i < |Goals(turn.config, turn.opts, turn.lib)|
    ensures i < |PlanFor(turn, w)|
    ensures PlanFor(turn, w)[i].Apply? ==>
      OperationFor(turn, Goals(turn.config, turn.opts, turn.lib)[i], PlanFor(turn, w)[i].operation)
  {
    hide *;
    var config, opts, lib, actual := turn.config, turn.opts, turn.lib, Observe(turn, w);
    PlanIs(turn, w);
    PlanLength(config, opts, lib, actual);
    PlanStepAt(config, opts, lib, actual, i);
    DecidedOperation(
      turn, ContextOf(config, opts, lib), actual, ChangedTo(config, opts, lib, actual, i), Goals(config, opts, lib)[i]);
  }

  lemma DecidedOperation(turn: Turn, ctx: Context, actual: ActualState, changed: set<string>, g: Goal)
    requires WellFormed(turn)
    requires IsGoal(turn.config, turn.opts, turn.lib, g) && ctx == ContextOf(turn.config, turn.opts, turn.lib)
    ensures var step := DecideStep(ctx, actual, StepOf(turn.config, turn.opts, turn.lib, g), changed);
      step.Apply? ==> OperationFor(turn, g, step.operation)
  {
    hide *;
    var config, opts, lib := turn.config, turn.opts, turn.lib;
    var decided := DecideStep(ctx, actual, StepOf(config, opts, lib, g), changed);
    WellFormedFacts(turn);
    ContextOptions(config, opts, lib);
    StepIs(config, opts, lib, g);
    if decided.Apply? {
      OperationForIs(turn, g, decided.operation);
    }
    match g
    case Rendered(file) =>
      GoalFile(config, opts, lib, file);
      WriteDecision(ctx, actual, changed, opts.artifactDir + file.relative, file.contents);
      RenderedOperation(turn, ctx, file);
    case DiskDirectory(node) => SimpleDecision(ctx, actual, changed, ParentDirectory(node.rootDisk.image), "");
    case DiskImage(node) =>
      GoalNode(config, opts, lib, g);
      DiskDesired(turn, node);
      DiskOperation(ctx, actual, changed, node);
    case SeedCleared(node) =>
      GoalNode(config, opts, lib, g);
      SeedClearedSkipped(config, opts, lib, actual, changed, node);
    case SeedWritten(node) =>
      SimpleDecision(ctx, actual, changed, Seed(node), SeedContents(lib, Files(config, opts, lib), node));
    case Installed(unit) =>
      WriteDecision(ctx, actual, changed, UnitPath(opts, unit.name), unit.contents);
      InstallOperation(ctx, unit);
    case Reloaded => ReloadDecision(ctx, actual, changed);
    case Enabled(unit) =>
      EnableDecision(ctx, actual, changed, unit.name);
      if decided.Apply? {
        TouchesIs(decided.operation, unit.name);
      }
    case Defined(node) =>
      GoalNode(config, opts, lib, g);
      NonEmpty(config.nodes, node);
      XmlServes(turn, ctx.domains, node);
      ServedDomain(config, opts, lib, node, DomainForXml(ctx.domains, XmlPath(opts, node)).value);
      DefineDecision(ctx, config, actual, changed, XmlPath(opts, node));
    case Autostarted(node) =>
      GoalNode(config, opts, lib, g);
      NonEmpty(config.nodes, node);
      PowerDecision(ctx, config, actual, changed, node.domain);
    case Started(node) =>
      GoalNode(config, opts, lib, g);
      NonEmpty(config.nodes, node);
      PowerDecision(ctx, config, actual, changed, node.domain);
  }

  // `OperationFor`, spelled out per kind of goal.
  lemma OperationForIs(turn: Turn, g: Goal, op: Operation)
    ensures match g
      case Rendered(file) =>
        OperationFor(turn, g, op) <==> op == WriteRenderedArtifact(turn.opts.artifactDir + file.relative, file.contents)
      case DiskDirectory(node) =>
        OperationFor(turn, g, op) <==> op == CreateDirectory(ParentDirectory(node.rootDisk.image))
      case DiskImage(node) => OperationFor(turn, g, op) <==>
        (|| op == CreateRootDisk(node.rootDisk.image, QemuCreateCommand(turn.opts.qemuImg, node))
         || op == ResizeRootDisk(node.rootDisk.image, DesiredDiskOf(node).sizeBytes,
                                 QemuResizeCommand(turn.opts.qemuImg, node.rootDisk.image, node.rootDisk.sizeGib)))
      case SeedCleared(_) => !OperationFor(turn, g, op)
      case SeedWritten(node) => OperationFor(turn, g, op) <==>
        op == RewriteSeedImage(Seed(node), SeedContents(turn.lib, Files(turn.config, turn.opts, turn.lib), node))
      case Installed(unit) => OperationFor(turn, g, op) <==>
        op == InstallOrUpdateSystemdUnit(unit.name, UnitPath(turn.opts, unit.name), unit.contents)
      case Reloaded => OperationFor(turn, g, op) <==> op.ReloadSystemdUnits?
      case Enabled(unit) => OperationFor(turn, g, op) <==> Touches(op, unit.name)
      case Defined(node) => OperationFor(turn, g, op) <==>
        ((op.DefineDomain? || op.RedefineDomain?) && op.domain == node.domain && op.xmlPath == XmlPath(turn.opts, node))
      case Autostarted(node) => OperationFor(turn, g, op) <==> op.EnableDomainAutostart? && op.domain == node.domain
      case Started(node) => OperationFor(turn, g, op) <==> op.StartDomain? && op.domain == node.domain
  {
    hide UnitPath, Seed, SeedContents, XmlPath, QemuCreateCommand, QemuResizeCommand, ParentDirectory;
    hide Files, DesiredDiskOf, Touches;
  }

  lemma PowerDecision(ctx: Context, config: HostConfig, actual: ActualState, changed: set<string>, d: string)
    requires ctx.opts.virsh != ctx.opts.systemctl
    ensures var step :=
      DecideStep(ctx, actual, RunStep(VirshCommand(config, ctx.opts, Autostart, Word(d)), None), changed);
      step.Apply? ==> step.operation.EnableDomainAutostart? && step.operation.domain == d
    ensures var step := DecideStep(ctx, actual, RunStep(VirshCommand(config, ctx.opts, Start, Word(d)), None), changed);
      step.Apply? ==> step.operation.StartDomain? && step.operation.domain == d
  {
    hide PathOf, DecideSystemctl, OperationForCommand, DomainForXml;
  }

  lemma NonEmpty(nodes: seq<NodeConfig>, n: NodeConfig)
    requires n in nodes
    ensures nodes != []
  {
  }

  // ---- What the operation of one goal may write of another's ----

  /** The file a goal is about, for the goals whose files nothing else may write. */
  function KeyPath(turn: Turn, g: Goal): Option<Path> {
    match g
    case Rendered(file) => Some(turn.opts.artifactDir + file.relative)
    case DiskImage(node) => Some(node.rootDisk.image)
    case SeedWritten(node) => Some(Seed(node))
    case _ => None
  }

  lemma KeyPathIs(turn: Turn, g: Goal)
    ensures g.Rendered? ==> KeyPath(turn, g) == Some(turn.opts.artifactDir + g.file.relative)
    ensures g.DiskImage? ==> KeyPath(turn, g) == Some(g.node.rootDisk.image)
    ensures g.SeedWritten? ==> KeyPath(turn, g) == Some(Seed(g.node))
    ensures g.Rendered? || g.DiskImage? || g.SeedWritten? <==> KeyPath(turn, g).Some?
  {
    hide Seed;
  }

  // The place of a key path: below the artifacts, or a disk or seed of the configuration.
  lemma KeyPlace(turn: Turn, g: Goal)
    requires WellFormed(turn) && IsGoal(turn.config, turn.opts, turn.lib, g)
    requires KeyPath(turn, g).Some?
    ensures g.Rendered? ==> Under(KeyPath(turn, g).value, turn.opts.artifactDir)
    ensures g.DiskImage? ==> KeyPath(turn, g).value in SafetyFor(turn).rootDisks
    ensures g.SeedWritten? ==> KeyPath(turn, g).value in SafetyFor(turn).seeds
    ensures !g.Rendered? ==> !Under(KeyPath(turn, g).value, turn.opts.artifactDir)
  {
    hide *;
    WellFormedFacts(turn);
    KeyPathIs(turn, g);
    if g.Rendered? {
      ArtifactUnder(turn.opts, g.file);
    } else {
      GoalNode(turn.config, turn.opts, turn.lib, g);
      NodeInSafety(turn.config, turn.opts, SafetyFor(turn), g.node);
      DisksOutside(turn, g.node);
    }
  }

  lemma DisksOutside(turn: Turn, n: NodeConfig)
    requires DisksApart(turn.opts, turn.config.nodes) && n in turn.config.nodes
    ensures !Under(n.rootDisk.image, turn.opts.artifactDir) && !Under(Seed(n), turn.opts.artifactDir)
  {
    hide Under, Seed;
  }

  lemma DisksDiffer(turn: Turn, n: NodeConfig, m: NodeConfig)
    requires DisksApart(turn.opts, turn.config.nodes) && n in turn.config.nodes && m in turn.config.nodes
    ensures n.rootDisk.image == m.rootDisk.image ==> n == m
    ensures Seed(n) == Seed(m) ==> n == m
    ensures n.rootDisk.image != Seed(m)
  {
    hide Under, Seed;
  }

  // Two goals with key paths share one only if they are one goal.
  lemma KeysDiffer(turn: Turn, g: Goal, h: Goal)
    requires WellFormed(turn)
    requires IsGoal(turn.config, turn.opts, turn.lib, g) && IsGoal(turn.config, turn.opts, turn.lib, h)
    requires KeyPath(turn, g).Some? && KeyPath(turn, g) == KeyPath(turn, h)
    ensures g == h
  {
    hide *;
    WellFormedFacts(turn);
    KeyPlace(turn, g);
    KeyPlace(turn, h);
    KeyPathIs(turn, g);
    KeyPathIs(turn, h);
    if g.Rendered? && h.Rendered? {
      GoalFile(turn.config, turn.opts, turn.lib, g.file);
      GoalFile(turn.config, turn.opts, turn.lib, h.file);
      SameRelative(turn.opts, g.file, h.file);
      AgreeingFiles(Files(turn.config, turn.opts, turn.lib), g.file, h.file);
    } else if !g.Rendered? && !h.Rendered? {
      GoalNode(turn.config, turn.opts, turn.lib, g);
      GoalNode(turn.config, turn.opts, turn.lib, h);
      DisksDiffer(turn, g.node, h.node);
      DisksDiffer(turn, h.node, g.node);
    }
  }

  lemma SameRelative(opts: Options, f: RenderedFile, g: RenderedFile)
    requires opts.artifactDir + f.relative == opts.artifactDir + g.relative
    ensures f.relative == g.relative
  {
    assert f.relative == (opts.artifactDir + f.relative)[|opts.artifactDir|..];
    assert g.relative == (opts.artifactDir + g.relative)[|opts.artifactDir|..];
  }

  lemma AgreeingFiles(files: seq<RenderedFile>, f: RenderedFile, g: RenderedFile)
    requires ArtifactsAgree(files) && f in files && g in files && f.relative == g.relative
    ensures f == g
  {
  }

  // The names of rendered files are too short, or end differently, for a domain backup.
  lemma RenderedIsNoBackup(turn: Turn, f: RenderedFile, x: Path, d: string)
    requires f in Files(turn.config, turn.opts, turn.lib)
    ensures turn.opts.artifactDir + f.relative != DomainBackupPath(x, d)
  {
    hide *;
    DomainBackupEnds(x, d);
    var n, document, place, e := FileOrigin(turn.config, turn.opts, turn.lib, f);
    if document {
      DocumentEnds(turn.opts.artifactDir + NodeDir(n), place);
      assert turn.opts.artifactDir + f.relative == turn.opts.artifactDir + NodeDir(n) + place;
    } else {
      UnitArtifactEnds(turn.opts, turn.config, n, turn.lib, e);
    }
  }

  lemma DocumentEnds(dir: Path, place: Path)
    requires IsDocumentPlace(place)
    ensures !EndsIn(dir + place, DOMAIN_BACKUP)
  {
    assert FileName(dir + place) == FileName(place);
  }

  lemma UnitArtifactEnds(opts: Options, config: HostConfig, n: NodeConfig, lib: Library, e: string)
    ensures !EndsIn(opts.artifactDir + UnitArtifact(config, n, lib, e).relative, DOMAIN_BACKUP)
  {
    hide UnitName, EndsIn, IsServiceName, IsPlainName;
    UnitNamePlain(n.domain, e);
    var p, u := opts.artifactDir + UnitArtifact(config, n, lib, e).relative, UnitName(n.domain, e);
    assert FileName(p) == Some(u);
    ServiceEnds(p, u);
    if EndsIn(p, DOMAIN_BACKUP) {
      LastLetter(p, DOMAIN_BACKUP);
      LastLetter(p, UNIT_SUFFIX);
    }
  }

  lemma ServiceEnds(p: Path, u: string)
    requires FileName(p) == Some(u) && IsServiceName(u)
    ensures EndsIn(p, UNIT_SUFFIX)
  {
  }

  lemma XmlBackupInside(turn: Turn, n: NodeConfig)
    requires '/' !in n.domain
    ensures Under(DomainBackupPath(XmlPath(turn.opts, n), n.domain), turn.opts.artifactDir)
  {
    hide BackupPath, NodeDir;
    var x := XmlPath(turn.opts, n);
    SuffixPlain(n.domain);
    XmlFileName(turn.opts, n);
    BackupBeside(x, n.domain + DOMAIN_BACKUP);
    assert x[..|x| - 1] == turn.opts.artifactDir + NodeDir(n);
  }

  lemma XmlFileName(opts: Options, n: NodeConfig)
    ensures FileName(XmlPath(opts, n)) == Some(DOMAIN_XML) && '/' !in DOMAIN_XML
  {
    hide NodeDir;
  }

  /** The operation of one goal writes no file that another goal is about. */
  lemma WritesApart(turn: Turn, h: Goal, op: Operation, g: Goal)
    requires WellFormed(turn)
    requires IsGoal(turn.config, turn.opts, turn.lib, g) && IsGoal(turn.config, turn.opts, turn.lib, h)
    requires OperationFor(turn, h, op) && KeyPath(turn, g).Some? && g != h
    ensures KeyPath(turn, g).value !in FileTargets(op)
  {
    hide *;
    WellFormedFacts(turn);
    OperationForIs(turn, h, op);
    KeyPathIs(turn, h);
    KeyPathIs(turn, g);
    KeyPlace(turn, g);
    TargetsAre(op);
    var p := KeyPath(turn, g).value;
    if h.Rendered? || h.DiskImage? || h.SeedWritten? {
      if KeyPath(turn, h) == KeyPath(turn, g) {
        KeysDiffer(turn, g, h);
      }
    } else if h.Installed? {
      GoalUnit(turn.config, turn.opts, turn.lib, h);
      UnitServed(turn, h.unit);
      ServeFacts(turn, h.unit);
      UnitOutside(SafetyFor(turn), h.unit.name);
      UnitBackupIs(turn, h.unit);
    } else if h.Defined? {
      GoalNode(turn.config, turn.opts, turn.lib, h);
      if g.Rendered? {
        GoalFile(turn.config, turn.opts, turn.lib, g.file);
        RenderedIsNoBackup(turn, g.file, XmlPath(turn.opts, h.node), h.node.domain);
      } else {
        PlainDomain(turn, h.node);
        XmlBackupInside(turn, h.node);
      }
    } else if h.Enabled? {
      TouchesIs(op, h.unit.name);
    }
  }

  lemma PlainDomain(turn: Turn, n: NodeConfig)
    requires DomainsApart(turn.opts, turn.config.nodes) && n in turn.config.nodes
    ensures '/' !in n.domain
  {
    hide DistinctDomains, XmlPath;
  }

  lemma UnitOutside(safety: ExecuteSafety, u: string)
    requires Isolated(safety) && UnitAllowed(safety, u)
    ensures !Under(UnitFilePath(safety, u), safety.artifactDir) && !Under(UnitBackup(safety, u), safety.artifactDir)
    ensures UnitFilePath(safety, u) !in safety.rootDisks + safety.seeds
    ensures UnitBackup(safety, u) !in safety.rootDisks + safety.seeds
  {
    hide IsServiceName, IsPlainName, UnitFilePath, UnitBackup, Under;
  }

  lemma UnitBackupIs(turn: Turn, unit: UnitFile)
    requires Serves(turn, unit)
    ensures BackupPath(UnitPath(turn.opts, unit.name), FILE_BACKUP) == UnitBackup(SafetyFor(turn), unit.name)
  {
    hide *;
    ServeFacts(turn, unit);
    IsolatedAt(SafetyFor(turn), unit.name);
    UnitPaths(SafetyFor(turn), unit.name);
  }

  // `FileTargets`, spelled out.
  lemma TargetsAre(op: Operation)
    ensures op.WriteRenderedArtifact? || op.RewriteSeedImage? || op.CreateRootDisk? || op.ResizeRootDisk? ==>
      FileTargets(op) == {op.path}
    ensures op.InstallOrUpdateSystemdUnit? ==> FileTargets(op) == {op.path, BackupPath(op.path, FILE_BACKUP)}
    ensures op.RedefineDomain? ==> FileTargets(op) == {DomainBackupPath(op.xmlPath, op.domain)}
    ensures op.CreateDirectory? || op.DefineDomain? || op.EnableDomainAutostart? || op.StartDomain? ==>
      FileTargets(op) == {}
    ensures op.ReloadSystemdUnits? || op.EnableAndStartVirtiofsdService? || op.RestartVirtiofsdService? ==>
      FileTargets(op) == {}
  {
    hide BackupPath, DomainBackupPath;
  }

  // ---- Directories that keep files apart ----

  /** Unit and artifact directories that do not nest, and no disk or seed among the units, isolate the unit files. */
  lemma DirectoriesIsolate(config: HostConfig, opts: Options, safety: ExecuteSafety)
    requires FromConfig(config, opts) == Some(safety)
    requires !Under(opts.unitDir, opts.artifactDir) && !Under(opts.artifactDir, opts.unitDir)
    requires forall p :: p in safety.rootDisks + safety.seeds ==> !Under(p, opts.unitDir)
    ensures Isolated(safety)
  {
    hide FromConfig, UnitName, IsPlainName, CheckedPath;
    SafetyDirs(config, opts, safety);
    forall u | u in safety.units
      ensures IsPlainName(u) && Outside(safety, UnitFilePath(safety, u)) && Outside(safety, UnitBackup(safety, u))
    {
      AllowedUnitPath(config, opts, safety, u);
      InUnitDirectory(safety, u);
      InUnitDirectory(safety, u + BACKUP_INFIX + FILE_BACKUP);
    }
  }

  lemma InUnitDirectory(safety: ExecuteSafety, name: string)
    requires !Under(safety.unitDir, safety.artifactDir) && !Under(safety.artifactDir, safety.unitDir)
    requires forall p :: p in safety.rootDisks + safety.seeds ==> !Under(p, safety.unitDir)
    ensures Outside(safety, safety.unitDir + [Normal(name)])
  {
    var p, a := safety.unitDir + [Normal(name)], safety.artifactDir;
    assert Under(p, safety.unitDir);
    assert |a| <= |safety.unitDir| ==> p[..|a|] == safety.unitDir[..|a|];
    assert p[..|p|] == p;
  }

  // ---- Datasets, for planned runs ----

  lemma PlannedNamesXml(turn: Turn, w: World)
    requires WellFormed(turn)
    ensures NamesXmlFiles(PlanFor(turn, w))
  {
    hide WellFormed, PlanFor, OperationFor, Goals, IsGoal, XmlPath, Observe, Plan, Touches;
    PlanIs(turn, w);
    PlanLength(turn.config, turn.opts, turn.lib, Observe(turn, w));
    var plan, goals := PlanFor(turn, w), Goals(turn.config, turn.opts, turn.lib);
    forall i | 0 <= i < |plan| && plan[i].Apply? && plan[i].operation.RedefineDomain?
      ensures FileName(plan[i].operation.xmlPath).Some? && '/' !in FileName(plan[i].operation.xmlPath).value
    {
      PlannedOperation(turn, w, i);
      RedefinesNode(turn, goals[i], plan[i].operation);
      XmlFileName(turn.opts, goals[i].node);
    }
  }

  lemma RedefinesNode(turn: Turn, g: Goal, op: Operation)
    requires OperationFor(turn, g, op) && op.RedefineDomain?
    ensures g.Defined? && op.xmlPath == XmlPath(turn.opts, g.node)
  {
    hide *;
    OperationForIs(turn, g, op);
    if g.Enabled? {
      TouchesIs(op, g.unit.name);
    }
  }

  /** A cycle whose plan passes the dataset check, and whose backups spare a dataset, leaves its files as they are. */
  lemma CycleKeepsDatasets(turn: Turn, w: World, e: string, p: Path)
    requires AvoidsDatasets(turn.config.exports, PlanFor(turn, w)) && e in turn.config.exports
    requires BackupsSpare(SafetyFor(turn), w, PlanFor(turn, w), turn.config.exports[e].sourcePath)
    requires Under(p, turn.config.exports[e].sourcePath)
    ensures p in w.fs <==> p in Cycle(turn, w).world.fs
    ensures p in w.fs ==> Cycle(turn, w).world.fs[p] == w.fs[p]
  {
    hide *;
    if Ready(turn) {
      DatasetsUntouched(
        EnvFor(turn), turn.config.exports, SafetyFor(turn), w, PlanFor(turn, w), turn.schedule, e, p);
      CycleExecutes(turn, w);
    } else {
      NotReady(turn, w);
    }
  }

  lemma NotReady(turn: Turn, w: World)
    requires !Ready(turn)
    ensures Cycle(turn, w) == Executed(w, Refused)
  {
    hide Ready;
  }

  /** A well-formed configuration spares every dataset whose root is a directory, or bears no backup's name. */
  lemma WellFormedSpares(turn: Turn, w: World, e: string)
    requires WellFormed(turn) && e in turn.config.exports && AvoidsDatasets(turn.config.exports, PlanFor(turn, w))
    requires
      || IsDirectoryAt(w.fs, turn.config.exports[e].sourcePath)
      || !(EndsIn(turn.config.exports[e].sourcePath, FILE_BACKUP)
          || EndsIn(turn.config.exports[e].sourcePath, DOMAIN_BACKUP))
    ensures BackupsSpare(SafetyFor(turn), w, PlanFor(turn, w), turn.config.exports[e].sourcePath)
  {
    hide *;
    WellFormedFacts(turn);
    PlannedNamesXml(turn, w);
    forall n | n in turn.config.nodes
      ensures '/' !in n.domain
    {
      PlainDomain(turn, n);
    }
    var config, opts, safety, plan := turn.config, turn.opts, SafetyFor(turn), PlanFor(turn, w);
    var root := config.exports[e].sourcePath;
    forall i | 0 <= i < |plan| && plan[i].Apply? && Validate(safety, plan[i].operation)
      ensures SparesDataset(w, plan[i].operation, root)
    {
      var op := plan[i].operation;
      SparesDatasetIs(w, op, root);
      if BackupOf(op).Some? && Under(BackupOf(op).value, root) {
        TargetsByBackup(op, BackupOf(op).value);
        TargetsOutsideDataset(config, opts, safety, plan, i, e, BackupOf(op).value);
        BackupName(op);
      }
    }
    BackupsSpareIs(safety, w, plan, root);
  }

  lemma SparesDatasetIs(w: World, op: Operation, root: Path)
    ensures SparesDataset(w, op, root) <==>
      (BackupOf(op).Some? && Under(BackupOf(op).value, root) ==>
        BackupOf(op).value == root && IsDirectoryAt(w.fs, root))
  {
    hide BackupOf, Under;
  }

  lemma BackupsSpareIs(safety: ExecuteSafety, w: World, plan: seq<ReconcileStep>, root: Path)
    requires forall i :: 0 <= i < |plan| && plan[i].Apply? && Validate(safety, plan[i].operation) ==>
      SparesDataset(w, plan[i].operation, root)
    ensures BackupsSpare(safety, w, plan, root)
  {
    hide Validate, SparesDataset;
  }

  lemma BackupName(op: Operation)
    ensures BackupOf(op).Some? ==> EndsIn(BackupOf(op).value, FILE_BACKUP) || EndsIn(BackupOf(op).value, DOMAIN_BACKUP)
  {
    hide BackupPath, EndsIn;
    match op
    case InstallOrUpdateSystemdUnit(_, path, _) =>
      assert '/' !in FILE_BACKUP && |FILE_BACKUP| >= 3;
      BackupEnds(path, "", FILE_BACKUP);
      assert "" + FILE_BACKUP == FILE_BACKUP;
    case RedefineDomain(d, xmlPath, _, _) => DomainBackupEnds(xmlPath, d);
    case _ =>
  }

  lemma CycleExecutes(turn: Turn, w: World)
    requires Ready(turn)
    ensures Cycle(turn, w) == Execute(EnvFor(turn), SafetyFor(turn), w, PlanFor(turn, w), turn.schedule)
  {
    hide Ready, PlanFor, SafetyFor, Execute;
  }
}
