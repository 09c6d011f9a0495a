/** What a run brings about: each goal is made by its own operation and left alone by the others'. */
module HostUpkeep {
  import opened ContentHashing
  import opened DomainXml
  import opened HostCycle
  import opened HostDisks
  import opened HostExecutor
  import opened HostFrame
  import opened HostGoals
  import opened HostGuard
  import opened HostModel
  import opened HostPlanned
  import opened HostPlanner
  import opened HostRollback
  import opened HostServices
  import opened HostSettled
  import opened HostWorld
  import opened Paths
  import opened Text
  import opened Wrappers

  // ---- What one operation does to the goals of others, and to its own ----

  lemma NodesKept(env: Env, safety: ExecuteSafety, s: ExecState, op: Operation, faults: StepFaults, p: Path)
    requires p !in FileTargets(op)
    ensures FileAt(ExecOperation(env, safety, s, op, faults).world.fs, p) == FileAt(s.world.fs, p)
    ensures InfoAt(ExecOperation(env, safety, s, op, faults).world, p) == InfoAt(s.world, p)
  {
    hide ExecOperation, FileTargets, Validate;
    var files, dirs := TargetsOf(op), Everywhere();
    OperationConfined(env, safety, s, op, faults, files, dirs);
    KeptFile(s.world.fs, ExecOperation(env, safety, s, op, faults).world.fs, files, p);
    KeptDisk(s.world, ExecOperation(env, safety, s, op, faults).world, files, p);
  }

  lemma KeptDisk(a: World, b: World, files: iset<Path>, p: Path)
    requires Confined(a.fs, b.fs, files, Everywhere()) && p !in files
    ensures InfoAt(b, p) == InfoAt(a, p)
  {
  }

  lemma DirectoriesKept(env: Env, safety: ExecuteSafety, s: ExecState, op: Operation, faults: StepFaults, p: Path)
    requires IsDirectoryAt(s.world.fs, p)
    ensures IsDirectoryAt(ExecOperation(env, safety, s, op, faults).world.fs, p)
  {
    hide ExecOperation, FileTargets, Validate;
    OperationConfined(env, safety, s, op, faults, TargetsOf(op), Everywhere());
  }

  // ---- Domains ----

  predicate SameDomain(a: World, b: World, d: string) {
    (d in a.domains <==> d in b.domains) && (d in a.domains ==> a.domains[d] == b.domains[d])
  }

  lemma StageKeepsDomains(s: ExecState, op: Operation, fault: Fault)
    ensures Stage(s, op, fault).world.domains == s.world.domains && Stage(s, op, fault).world.tools == s.world.tools
  {
    hide WriteAtomic, BackupPath, Blocked;
  }

  lemma EffectOnDomains(env: Env, w: World, op: Operation, d: string)
    requires OperationEffect(env, w, op).Some?
    ensures var after := OperationEffect(env, w, op).value;
      && after.tools == w.tools
      && (!op.DefineDomain? && !op.RedefineDomain? && !op.EnableDomainAutostart? && !op.StartDomain? ==>
          after.domains == w.domains)
      && ((op.DefineDomain? || op.RedefineDomain? || op.EnableDomainAutostart? || op.StartDomain?) && op.domain != d ==>
            SameDomain(w, after, d))
      && (d in w.domains ==>
            && d in after.domains
            && (w.domains[d].autostart ==> after.domains[d].autostart)
            && (w.domains[d].active ==> after.domains[d].active)
            && (!((op.DefineDomain? || op.RedefineDomain?) && op.domain == d) ==>
                after.domains[d].xml == w.domains[d].xml))
  {
    hide CreateDirAll, WriteAtomic, CreatedDisk, ParentExists, UnitPath, FileAt;
  }

  lemma DomainsAfter(env: Env, safety: ExecuteSafety, s: ExecState, op: Operation, faults: StepFaults, d: string)
    ensures var after := ExecOperation(env, safety, s, op, faults).world;
      && after.tools == s.world.tools
      && (d in s.world.domains ==>
            && d in after.domains
            && (s.world.domains[d].autostart ==> after.domains[d].autostart)
            && (s.world.domains[d].active ==> after.domains[d].active)
            && (!((op.DefineDomain? || op.RedefineDomain?) && op.domain == d) ==>
                after.domains[d].xml == s.world.domains[d].xml))
  {
    hide Validate, Stage, OperationEffect;
    StageKeepsDomains(s, op, faults.stage);
    var staged := Stage(s, op, faults.stage);
    if OperationEffect(env, staged.world, op).Some? {
      EffectOnDomains(env, staged.world, op, d);
    }
  }

  lemma PowerOn(env: Env, safety: ExecuteSafety, s: ExecState, op: Operation, faults: StepFaults)
    requires ExecOperation(env, safety, s, op, faults).ok
    ensures var after := ExecOperation(env, safety, s, op, faults).world;
      && (op.EnableDomainAutostart? ==> op.domain in after.domains && after.domains[op.domain].autostart)
      && (op.StartDomain? ==> op.domain in after.domains && after.domains[op.domain].active)
  {
    hide Validate;
  }

  lemma Defines(env: Env, safety: ExecuteSafety, s: ExecState, op: Operation, faults: StepFaults, xml: string)
    requires op.DefineDomain? || op.RedefineDomain?
    requires ExecOperation(env, safety, s, op, faults).ok
    requires FileAt(s.world.fs, op.xmlPath) == Some(xml) && op.xmlPath != DomainBackupPath(op.xmlPath, op.domain)
    ensures var after := ExecOperation(env, safety, s, op, faults).world;
      op.domain in after.domains && after.domains[op.domain].xml == xml
  {
    hide Validate, Stage, FileTargets, DomainBackupPath, FileAt;
    var staged := Stage(s, op, faults.stage);
    StageKeepsFile(s, op, faults.stage, op.xmlPath);
  }

  lemma StageKeepsFile(s: ExecState, op: Operation, fault: Fault, p: Path)
    requires op.DefineDomain? || (op.RedefineDomain? && p != DomainBackupPath(op.xmlPath, op.domain))
    ensures FileAt(Stage(s, op, fault).world.fs, p) == FileAt(s.world.fs, p)
  {
    hide Stage, FileTargets, DomainBackupPath;
    TargetsAre(op);
    StageConfined(s, op, fault, TargetsOf(op), Everywhere());
    KeptFile(s.world.fs, Stage(s, op, fault).world.fs, TargetsOf(op), p);
  }

  // ---- Files and disks ----

  lemma WritesContents(env: Env, safety: ExecuteSafety, s: ExecState, op: Operation, faults: StepFaults)
    requires op.WriteRenderedArtifact? || op.RewriteSeedImage?
    requires ExecOperation(env, safety, s, op, faults).ok
    ensures FileAt(ExecOperation(env, safety, s, op, faults).world.fs, op.path) == Some(op.contents)
  {
    hide Validate, WriteAtomic, FileAt;
    if WriteAtomic(s.world.fs, op.path, op.contents).Some? {
      WriteReads(s.world.fs, op.path, op.contents);
    }
  }

  lemma MakesDirectory(env: Env, safety: ExecuteSafety, s: ExecState, op: Operation, faults: StepFaults)
    requires op.CreateDirectory? && ExecOperation(env, safety, s, op, faults).ok
    ensures IsDirectoryAt(ExecOperation(env, safety, s, op, faults).world.fs, op.path)
  {
    assert op.path != [] ==> op.path[..|op.path|] == op.path && op.path in Prefixes(op.path);
  }

  predicate SameBase(info: DiskInfo, n: NodeConfig) {
    && info.format == FormatName(n.rootDisk.format)
    && (n.rootDisk.sourceImage.Some? ==> info.backing == n.rootDisk.sourceImage)
  }

  /** A disk of the configured format and base, of exactly the configured GiB. */
  predicate MadeDisk(w: World, n: NodeConfig) {
    && InfoAt(w, n.rootDisk.image).Some?
    && SameBase(InfoAt(w, n.rootDisk.image).value, n)
    && InfoAt(w, n.rootDisk.image).value.virtualSize == n.rootDisk.sizeGib * GIB
  }

  predicate Fits(n: NodeConfig) {
    n.rootDisk.sizeGib * GIB <= U64_LIMIT
  }

  lemma MadeDiskHolds(w: World, n: NodeConfig)
    requires MadeDisk(w, n)
    ensures HasDisk(w, n) <==> Fits(n)
  {
    hide InfoAt, GibToBytes;
    GibToBytesSaturates(n.rootDisk.sizeGib);
  }

  lemma CreatedDiskIs(program: string, n: NodeConfig)
    ensures CreatedDisk(QemuCreateCommand(program, n))
         == Some(DiskInfo(FormatName(n.rootDisk.format), n.rootDisk.sourceImage, n.rootDisk.sizeGib * GIB))
  {
  }

  lemma CreatesDisk(env: Env, safety: ExecuteSafety, s: ExecState, faults: StepFaults, n: NodeConfig, program: string)
    requires ExecOperation(env, safety, s, CreateRootDisk(n.rootDisk.image, QemuCreateCommand(program, n)), faults).ok
    ensures MadeDisk(ExecOperation(
      env, safety, s, CreateRootDisk(n.rootDisk.image, QemuCreateCommand(program, n)), faults).world, n)
  {
    hide Validate, QemuCreateCommand, CreatedDisk, ParentExists;
    CreatedDiskIs(program, n);
  }

  lemma ResizesDisk(
    env: Env, safety: ExecuteSafety, s: ExecState, faults: StepFaults, n: NodeConfig, program: string, bytes: nat)
    requires InfoAt(s.world, n.rootDisk.image).Some?
    requires SameBase(InfoAt(s.world, n.rootDisk.image).value, n)
    requires ExecOperation(
      env, safety, s, ResizeRootDisk(
        n.rootDisk.image, bytes, QemuResizeCommand(program, n.rootDisk.image, n.rootDisk.sizeGib)), faults).ok
    ensures MadeDisk(ExecOperation(
      env, safety, s, ResizeRootDisk(
        n.rootDisk.image, bytes, QemuResizeCommand(program, n.rootDisk.image, n.rootDisk.sizeGib)), faults).world, n)
  {
    hide Validate;
  }

  // ---- Domains as defined ----

  predicate MadeDomain(config: HostConfig, opts: Options, lib: Library, w: World, n: NodeConfig) {
    && n.domain in w.domains
    && w.domains[n.domain].xml == lib.domainXml(SpecOf(config, n, opts))
  }

  ghost predicate PrintsHashes(lib: Library) {
    forall s: string :: IsHash(lib.contentHash(s))
  }

  predicate Readable(n: NodeConfig) {
    !Contains(n.domain, MARKER)
  }

  lemma MadeDomainHolds(config: HostConfig, opts: Options, lib: Library, w: World, n: NodeConfig)
    requires MadeDomain(config, opts, lib, w, n) && PrintsHashes(lib) && RendersDomains(lib)
    ensures HasDomain(config, opts, lib, w, n) <==> Readable(n)
  {
    hide ExtractDesiredHash, ExtractManaged, Contains, ExportsOf, SeedImagePath, PrintsHashes, RendersDomains;
    var spec := SpecOf(config, n, opts);
    RenderedIs(lib, spec);
  }

  lemma RenderedIs(lib: Library, spec: DomainSpec)
    requires PrintsHashes(lib) && RendersDomains(lib)
    ensures ExtractDesiredHash(lib.domainXml(spec)) ==
      if Contains(spec.name, MARKER) then None else Some(lib.domainHash(spec))
    ensures ExtractManaged(lib.domainXml(spec))
  {
    hide *;
    DomainRenderer(lib, spec);
    HashIsHash(lib, spec);
    DesiredHashRoundTrip(spec, lib.contentHash);
    RenderedIsManaged(spec, lib.contentHash);
  }

  lemma DomainRenderer(lib: Library, spec: DomainSpec)
    requires RendersDomains(lib)
    ensures lib.domainXml(spec) == Render(spec, lib.contentHash)
    ensures lib.domainHash(spec) == DesiredHash(spec, lib.contentHash)
  {
    hide Render, DesiredHash;
  }

  lemma HashIsHash(lib: Library, spec: DomainSpec)
    requires PrintsHashes(lib)
    ensures IsHash(DesiredHash(spec, lib.contentHash))
  {
    hide RenderWithMetadata, IsHash;
  }

  // ---- The goals a run brings about and keeps ----

  predicate Lasting(g: Goal) {
    !g.SeedCleared? && !g.Installed? && !g.Reloaded? && !g.Enabled?
  }

  /** What the operation of a goal leaves behind. */
  predicate Made(turn: Turn, w: World, g: Goal) {
    match g
    case Rendered(file) => FileAt(w.fs, turn.opts.artifactDir + file.relative) == Some(file.contents)
    case SeedWritten(node) =>
      FileAt(w.fs, Seed(node)) == Some(SeedContents(turn.lib, Files(turn.config, turn.opts, turn.lib), node))
    case DiskImage(node) => MadeDisk(w, node)
    case Defined(node) => MadeDomain(turn.config, turn.opts, turn.lib, w, node)
    case _ => Holds(turn, w, g)
  }

  /** From `w` to `now`: a goal the host had is still there, and one it lacked was made. */
  predicate Kept(turn: Turn, w: World, now: World, g: Goal) {
    if Holds(turn, w, g) then Holds(turn, now, g) && (g.Rendered? && Made(turn, w, g) ==> Made(turn, now, g))
    else Made(turn, now, g)
  }

  predicate XmlWritten(turn: Turn, w: World, n: NodeConfig) {
    FileAt(w.fs, XmlPath(turn.opts, n)) == Some(turn.lib.domainXml(SpecOf(turn.config, n, turn.opts)))
  }

  /** The XML of a domain still to be defined, if the planner takes the file there for it by its hash, is that file. */
  predicate NoCollisions(turn: Turn, w: World) {
    forall n :: n in turn.config.nodes && !Holds(turn, w, Defined(n)) ==>
      (HasFile(turn.lib, w, XmlPath(turn.opts, n), turn.lib.domainXml(SpecOf(turn.config, n, turn.opts))) ==>
        XmlWritten(turn, w, n))
  }

  // `Made`, spelled out.
  lemma MadeIs(turn: Turn, w: World, g: Goal)
    ensures g.Rendered? ==>
      (Made(turn, w, g) <==> FileAt(w.fs, turn.opts.artifactDir + g.file.relative) == Some(g.file.contents))
    ensures g.SeedWritten? ==>
      (Made(turn, w, g) <==>
         FileAt(w.fs, Seed(g.node)) == Some(SeedContents(turn.lib, Files(turn.config, turn.opts, turn.lib), g.node)))
    ensures g.DiskImage? ==> (Made(turn, w, g) <==> MadeDisk(w, g.node))
    ensures g.Defined? ==> (Made(turn, w, g) <==> MadeDomain(turn.config, turn.opts, turn.lib, w, g.node))
    ensures !g.Rendered? && !g.SeedWritten? && !g.DiskImage? && !g.Defined? ==>
      (Made(turn, w, g) <==> Holds(turn, w, g))
  {
    hide Files, Seed, SeedContents, MadeDisk, MadeDomain, Holds, FileAt;
  }

  lemma DefinedIs(turn: Turn, w: World, g: Goal)
    requires g.Defined?
    ensures Holds(turn, w, g) <==> HasDomain(turn.config, turn.opts, turn.lib, w, g.node)
  {
    hide HasDomain;
  }

  // The state a goal depends on.
  predicate SameAspect(turn: Turn, a: World, b: World, g: Goal) {
    && (KeyPath(turn, g).Some? ==>
          FileAt(b.fs, KeyPath(turn, g).value) == FileAt(a.fs, KeyPath(turn, g).value)
          && InfoAt(b, KeyPath(turn, g).value) == InfoAt(a, KeyPath(turn, g).value))
    && (g.DiskDirectory? ==> (IsDirectoryAt(a.fs, ParentDirectory(g.node.rootDisk.image)) ==>
                                IsDirectoryAt(b.fs, ParentDirectory(g.node.rootDisk.image))))
    && (g.Defined? || g.Autostarted? || g.Started? ==> DomainGrows(a, b, g.node.domain))
    && (g.Defined? && g.node.domain in a.domains && g.node.domain in b.domains ==>
          b.domains[g.node.domain].xml == a.domains[g.node.domain].xml)
  }

  predicate DomainGrows(a: World, b: World, d: string) {
    d in a.domains ==>
      && d in b.domains
      && (a.domains[d].autostart ==> b.domains[d].autostart)
      && (a.domains[d].active ==> b.domains[d].active)
  }

  lemma AspectKeeps(turn: Turn, w: World, a: World, b: World, g: Goal)
    requires Lasting(g) && SameAspect(turn, a, b, g)
    requires Kept(turn, w, a, g)
    ensures Kept(turn, w, b, g)
  {
    hide Files, Holds, Made, FileAt, InfoAt, Seed, SeedContents, ParentDirectory, IsDirectoryAt;
    hide SpecOf, ExtractDesiredHash, ExtractManaged, MadeDisk;
    HoldsIs(turn, a, g);
    HoldsIs(turn, b, g);
    MadeIs(turn, a, g);
    MadeIs(turn, b, g);
    if g.Defined? {
      DefinedIs(turn, a, g);
      DefinedIs(turn, b, g);
    }
    if g.DiskImage? {
      DiskAspect(a, b, g.node);
    }
  }

  lemma DiskAspect(a: World, b: World, n: NodeConfig)
    requires InfoAt(b, n.rootDisk.image) == InfoAt(a, n.rootDisk.image)
    ensures MadeDisk(b, n) <==> MadeDisk(a, n)
    ensures HasDisk(b, n) <==> HasDisk(a, n)
  {
    hide InfoAt, Matches, SameBase;
  }

  /** The operation of one goal leaves the state other goals depend on. */
  lemma OperationKeepsAspect(turn: Turn, s: ExecState, op: Operation, faults: StepFaults, h: Goal, g: Goal)
    requires WellFormed(turn)
    requires IsGoal(turn.config, turn.opts, turn.lib, g) && IsGoal(turn.config, turn.opts, turn.lib, h) && g != h
    requires OperationFor(turn, h, op)
    ensures SameAspect(turn, s.world, ExecOperation(EnvFor(turn), SafetyFor(turn), s, op, faults).world, g)
  {
    hide *;
    WellFormedFacts(turn);
    var env, safety := EnvFor(turn), SafetyFor(turn);
    var t := ExecOperation(env, safety, s, op, faults);
    KeyPathIs(turn, g);
    if KeyPath(turn, g).Some? {
      WritesApart(turn, h, op, g);
      NodesKept(env, safety, s, op, faults, KeyPath(turn, g).value);
    }
    if g.DiskDirectory? && IsDirectoryAt(s.world.fs, ParentDirectory(g.node.rootDisk.image)) {
      DirectoriesKept(env, safety, s, op, faults, ParentDirectory(g.node.rootDisk.image));
    }
    if g.Defined? || g.Autostarted? || g.Started? {
      DomainsAfter(env, safety, s, op, faults, g.node.domain);
      if g.Defined? {
        DefinesOther(turn, h, op, g);
      }
      DomainGrowsIs(s.world, t.world, g.node.domain);
    }
    SameAspectIs(turn, s.world, t.world, g);
  }

  lemma DomainGrowsIs(a: World, b: World, d: string)
    ensures DomainGrows(a, b, d) <==> (d in a.domains ==>
      && d in b.domains
      && (a.domains[d].autostart ==> b.domains[d].autostart)
      && (a.domains[d].active ==> b.domains[d].active))
  {
  }

  lemma SameAspectIs(turn: Turn, a: World, b: World, g: Goal)
    requires KeyPath(turn, g).Some? ==>
      FileAt(b.fs, KeyPath(turn, g).value) == FileAt(a.fs, KeyPath(turn, g).value)
      && InfoAt(b, KeyPath(turn, g).value) == InfoAt(a, KeyPath(turn, g).value)
    requires g.DiskDirectory? && IsDirectoryAt(a.fs, ParentDirectory(g.node.rootDisk.image)) ==>
      IsDirectoryAt(b.fs, ParentDirectory(g.node.rootDisk.image))
    requires g.Defined? || g.Autostarted? || g.Started? ==> DomainGrows(a, b, g.node.domain)
    requires g.Defined? && g.node.domain in a.domains && g.node.domain in b.domains ==>
      b.domains[g.node.domain].xml == a.domains[g.node.domain].xml
    ensures SameAspect(turn, a, b, g)
  {
    hide KeyPath, FileAt, InfoAt, IsDirectoryAt, ParentDirectory, DomainGrows;
  }

  // Only its own goal defines a domain.
  lemma DefinesOther(turn: Turn, h: Goal, op: Operation, g: Goal)
    requires WellFormed(turn)
    requires IsGoal(turn.config, turn.opts, turn.lib, g) && IsGoal(turn.config, turn.opts, turn.lib, h)
    requires OperationFor(turn, h, op) && g.Defined? && g != h
    ensures !((op.DefineDomain? || op.RedefineDomain?) && op.domain == g.node.domain)
  {
    hide *;
    WellFormedFacts(turn);
    OperationForIs(turn, h, op);
    if h.Defined? {
      GoalNode(turn.config, turn.opts, turn.lib, h);
      GoalNode(turn.config, turn.opts, turn.lib, g);
      if h.node.domain == g.node.domain {
        SameNode(turn.config.nodes, h.node, g.node);
      }
    } else if h.Enabled? {
      TouchesIs(op, h.unit.name);
    }
  }

  // ---- Each goal is made by its own operation ----

  lemma ResizeDecision(
    ctx: Context, actual: ActualState, changed: set<string>, n: NodeConfig, current: Option<DiskInfo>)
    requires n.rootDisk.image in ctx.disks && ctx.disks[n.rootDisk.image] == DesiredDiskOf(n)
    requires ObservedAs(actual, n.rootDisk.image, current)
    ensures var step :=
      DecideStep(ctx, actual, RunStep(QemuCreateCommand(ctx.opts.qemuImg, n), Some(n.rootDisk.image)), changed);
      step.Apply? && step.operation.ResizeRootDisk? ==> current.Some? && SameBase(current.value, n)
  {
    hide PathOf, QemuCreateCommand, BaseImageVerified;
    QemuCreates(ctx.opts.qemuImg, n);
  }

  lemma ResizePlanned(turn: Turn, w: World, i: nat)
    requires WellFormed(turn) && ToolsPresent(turn, w)
    requires i < |Goals(turn.config, turn.opts, turn.lib)| && Goals(turn.config, turn.opts, turn.lib)[i].DiskImage?
    ensures i < |PlanFor(turn, w)|
    ensures var n := Goals(turn.config, turn.opts, turn.lib)[i].node;
      PlanFor(turn, w)[i].Apply? && PlanFor(turn, w)[i].operation.ResizeRootDisk? ==>
        InfoAt(w, n.rootDisk.image).Some? && SameBase(InfoAt(w, n.rootDisk.image).value, n)
  {
    hide *;
    var config, opts, lib, actual := turn.config, turn.opts, turn.lib, Observe(turn, w);
    var g := Goals(config, opts, lib)[i];
    WellFormedFacts(turn);
    ContextOptions(config, opts, lib);
    PlanIs(turn, w);
    PlanLength(config, opts, lib, actual);
    PlanStepAt(config, opts, lib, actual, i);
    StepIs(config, opts, lib, g);
    GoalNode(config, opts, lib, g);
    DiskDesired(turn, g.node);
    ToolAt(turn, w, i);
    HasToolIs(opts, w, g);
    ToolOfIs(opts, g);
    DiskObserved(turn, w, g.node);
    ResizeDecision(
      ContextOf(config, opts, lib), actual, ChangedTo(config, opts, lib, actual, i), g.node,
      InfoAt(w, g.node.rootDisk.image));
  }

  // The run has not touched the disk, or has made it.
  predicate DiskProgress(w: World, now: World, n: NodeConfig) {
    InfoAt(now, n.rootDisk.image) == InfoAt(w, n.rootDisk.image) || MadeDisk(now, n)
  }

  lemma DiskMade(turn: Turn, w: World, s: ExecState, op: Operation, faults: StepFaults, n: NodeConfig)
    requires OperationFor(turn, DiskImage(n), op)
    requires op.ResizeRootDisk? ==> InfoAt(w, n.rootDisk.image).Some? && SameBase(InfoAt(w, n.rootDisk.image).value, n)
    requires DiskProgress(w, s.world, n)
    requires ExecOperation(EnvFor(turn), SafetyFor(turn), s, op, faults).ok
    ensures MadeDisk(ExecOperation(EnvFor(turn), SafetyFor(turn), s, op, faults).world, n)
  {
    hide *;
    OperationForIs(turn, DiskImage(n), op);
    ProgressBase(w, s.world, n);
    if op.CreateRootDisk? {
      CreatesDisk(EnvFor(turn), SafetyFor(turn), s, faults, n, turn.opts.qemuImg);
    } else {
      ResizesDisk(EnvFor(turn), SafetyFor(turn), s, faults, n, turn.opts.qemuImg, DesiredDiskOf(n).sizeBytes);
    }
  }

  lemma ProgressBase(w: World, now: World, n: NodeConfig)
    requires DiskProgress(w, now, n)
    ensures InfoAt(w, n.rootDisk.image).Some? && SameBase(InfoAt(w, n.rootDisk.image).value, n) ==>
      InfoAt(now, n.rootDisk.image).Some? && SameBase(InfoAt(now, n.rootDisk.image).value, n)
  {
    hide InfoAt, SameBase;
  }

  lemma DomainMade(turn: Turn, s: ExecState, op: Operation, faults: StepFaults, n: NodeConfig)
    requires n in turn.config.nodes
    requires OperationFor(turn, Defined(n), op)
    requires XmlWritten(turn, s.world, n)
    requires ExecOperation(EnvFor(turn), SafetyFor(turn), s, op, faults).ok
    ensures MadeDomain(turn.config, turn.opts, turn.lib,
      ExecOperation(EnvFor(turn), SafetyFor(turn), s, op, faults).world, n)
  {
    hide *;
    OperationForIs(turn, Defined(n), op);
    XmlWrittenIs(turn, s.world, n);
    XmlIsNoBackup(turn.opts, n);
    Defines(EnvFor(turn), SafetyFor(turn), s, op, faults, FileAt(s.world.fs, XmlPath(turn.opts, n)).value);
    MadeDomainIs(turn, s.world, ExecOperation(EnvFor(turn), SafetyFor(turn), s, op, faults).world, n);
  }

  lemma XmlWrittenIs(turn: Turn, w: World, n: NodeConfig)
    requires XmlWritten(turn, w, n)
    ensures FileAt(w.fs, XmlPath(turn.opts, n)).Some?
  {
    hide SpecOf, XmlPath, FileAt;
  }

  lemma MadeDomainIs(turn: Turn, w: World, now: World, n: NodeConfig)
    requires XmlWritten(turn, w, n)
    requires n.domain in now.domains && Some(now.domains[n.domain].xml) == FileAt(w.fs, XmlPath(turn.opts, n))
    ensures MadeDomain(turn.config, turn.opts, turn.lib, now, n)
  {
    hide SpecOf, XmlPath, FileAt;
  }

  lemma XmlIsNoBackup(opts: Options, n: NodeConfig)
    ensures XmlPath(opts, n) != DomainBackupPath(XmlPath(opts, n), n.domain)
  {
    hide DomainBackupPath, NodeDir, EndsIn;
    DomainBackupEnds(XmlPath(opts, n), n.domain);
    XmlFileName(opts, n);
    ShortName(XmlPath(opts, n));
  }

  lemma ShortName(p: Path)
    requires FileName(p) == Some(DOMAIN_XML)
    ensures !EndsIn(p, DOMAIN_BACKUP)
  {
  }

  // The XML file of a node is one of the rendered files.
  lemma XmlGoal(turn: Turn, n: NodeConfig) returns (f: RenderedFile)
    requires n in turn.config.nodes
    ensures IsGoal(turn.config, turn.opts, turn.lib, Rendered(f))
    ensures turn.opts.artifactDir + f.relative == XmlPath(turn.opts, n)
    ensures f.contents == turn.lib.domainXml(SpecOf(turn.config, n, turn.opts))
  {
    hide NodeDir, SpecOf, UnitArtifacts, Artifacts, UnitFiles, FileAt;
    var config, opts, lib := turn.config, turn.opts, turn.lib;
    f := NodeArtifacts(config, n, opts, lib)[0];
    ArtifactsAre(config, config.nodes, opts, lib, f);
  }

  // What the run must have brought before a goal's own operation can make it.
  predicate Prepared(turn: Turn, w: World, now: World, op: Operation, g: Goal) {
    && (g.DiskImage? ==> DiskProgress(w, now, g.node))
    && (g.DiskImage? && op.ResizeRootDisk? ==>
          InfoAt(w, g.node.rootDisk.image).Some? && SameBase(InfoAt(w, g.node.rootDisk.image).value, g.node))
    && (g.Defined? ==> XmlWritten(turn, now, g.node))
  }

  lemma PreparedIs(turn: Turn, w: World, now: World, op: Operation, g: Goal)
    ensures Prepared(turn, w, now, op, g) <==>
      && (g.DiskImage? ==> DiskProgress(w, now, g.node))
      && (g.DiskImage? && op.ResizeRootDisk? ==>
            InfoAt(w, g.node.rootDisk.image).Some? && SameBase(InfoAt(w, g.node.rootDisk.image).value, g.node))
      && (g.Defined? ==> XmlWritten(turn, now, g.node))
  {
    hide DiskProgress, InfoAt, SameBase, XmlWritten;
  }

  lemma GoalMade(
    turn: Turn, w: World, env: Env, safety: ExecuteSafety, s: ExecState, op: Operation, faults: StepFaults, g: Goal)
    requires env == EnvFor(turn) && safety == SafetyFor(turn)
    requires IsGoal(turn.config, turn.opts, turn.lib, g) && Lasting(g) && OperationFor(turn, g, op)
    requires Prepared(turn, w, s.world, op, g)
    requires ExecOperation(env, safety, s, op, faults).ok
    ensures Made(turn, ExecOperation(env, safety, s, op, faults).world, g)
  {
    hide *;
    var t := ExecOperation(env, safety, s, op, faults);
    OperationForIs(turn, g, op);
    PreparedIs(turn, w, s.world, op, g);
    MadeIs(turn, t.world, g);
    HoldsIs(turn, t.world, g);
    LastingIs(g);
    if g.Rendered? || g.SeedWritten? {
      WritesContents(env, safety, s, op, faults);
    } else if g.DiskImage? {
      DiskMade(turn, w, s, op, faults, g.node);
    } else if g.Defined? {
      GoalNode(turn.config, turn.opts, turn.lib, g);
      DomainMade(turn, s, op, faults, g.node);
    } else if g.DiskDirectory? {
      MakesDirectory(env, safety, s, op, faults);
    } else {
      PowerOn(env, safety, s, op, faults);
    }
  }

  lemma LastingIs(g: Goal)
    ensures Lasting(g) <==> !g.SeedCleared? && !g.Installed? && !g.Reloaded? && !g.Enabled?
  {
  }

  // ---- The run ----

  lemma StartKept(turn: Turn, w: World, g: Goal)
    ensures Holds(turn, w, g) ==> Kept(turn, w, w, g)
  {
    hide Holds, Made;
  }

  lemma NoCollision(turn: Turn, w: World, n: NodeConfig)
    requires NoCollisions(turn, w) && n in turn.config.nodes && !Holds(turn, w, Defined(n))
    requires HasFile(turn.lib, w, XmlPath(turn.opts, n), turn.lib.domainXml(SpecOf(turn.config, n, turn.opts)))
    ensures XmlWritten(turn, w, n)
  {
    hide Holds, HasFile, XmlWritten, XmlPath, SpecOf;
  }

  lemma KeptIs(turn: Turn, w: World, now: World, g: Goal)
    ensures Holds(turn, w, g) ==>
      (Kept(turn, w, now, g) <==> Holds(turn, now, g) && (g.Rendered? && Made(turn, w, g) ==> Made(turn, now, g)))
    ensures !Holds(turn, w, g) ==> (Kept(turn, w, now, g) <==> Made(turn, now, g))
  {
    hide Holds, Made;
  }

  lemma LastingUnchanged(g: Goal, changed: set<string>)
    requires Lasting(g)
    ensures Unchanged(g, changed)
  {
  }

  lemma AspectProgress(turn: Turn, w: World, a: World, b: World, g: Goal)
    requires g.DiskImage? && SameAspect(turn, a, b, g) && DiskProgress(w, a, g.node)
    ensures DiskProgress(w, b, g.node)
  {
    hide InfoAt, FileAt, SameBase;
  }

  lemma MadeProgress(w: World, now: World, n: NodeConfig)
    requires MadeDisk(now, n)
    ensures DiskProgress(w, now, n)
  {
    hide MadeDisk, InfoAt;
  }

  lemma StartProgressDisk(w: World, n: NodeConfig)
    ensures DiskProgress(w, w, n)
  {
    hide MadeDisk, InfoAt;
  }

  // The XML is in place when its domain is about to be defined.
  lemma XmlBefore(turn: Turn, w: World, now: World, f: RenderedFile, node: NodeConfig)
    requires Kept(turn, w, now, Rendered(f)) && NoCollisions(turn, w)
    requires node in turn.config.nodes && !Holds(turn, w, Defined(node))
    requires turn.opts.artifactDir + f.relative == XmlPath(turn.opts, node)
    requires f.contents == turn.lib.domainXml(SpecOf(turn.config, node, turn.opts))
    ensures XmlWritten(turn, now, node)
  {
    hide *;
    KeptIs(turn, w, now, Rendered(f));
    HoldsIs(turn, w, Rendered(f));
    XmlMade(turn, w, f, node);
    XmlMade(turn, now, f, node);
    if Holds(turn, w, Rendered(f)) {
      NoCollision(turn, w, node);
    }
  }

  lemma XmlMade(turn: Turn, w: World, f: RenderedFile, node: NodeConfig)
    requires turn.opts.artifactDir + f.relative == XmlPath(turn.opts, node)
    requires f.contents == turn.lib.domainXml(SpecOf(turn.config, node, turn.opts))
    ensures Made(turn, w, Rendered(f)) <==> XmlWritten(turn, w, node)
  {
    hide FileAt, XmlPath, SpecOf;
  }

  /** Where the run stands with a goal: what it had or has passed is kept, and its disk is untouched or made. */
  predicate GoalKept(turn: Turn, w: World, now: World, n: nat, g: Goal) {
    && (Holds(turn, w, g) || Passed(turn, n, g) ==> Kept(turn, w, now, g))
    && (g.DiskImage? ==> DiskProgress(w, now, g.node))
  }

  lemma GoalKeptIs(turn: Turn, w: World, now: World, n: nat, g: Goal)
    ensures GoalKept(turn, w, now, n, g) <==>
      && (Holds(turn, w, g) || Passed(turn, n, g) ==> Kept(turn, w, now, g))
      && (g.DiskImage? ==> DiskProgress(w, now, g.node))
  {
    hide Holds, Passed, Kept, DiskProgress;
  }

  lemma {:induction false} RunKeepsGoal(
    turn: Turn, w: World, env: Env, safety: ExecuteSafety, plan: seq<ReconcileStep>, steps: nat -> StepFaults, n: nat,
    g: Goal)
    requires WellFormed(turn)
    requires env == EnvFor(turn) && safety == SafetyFor(turn) && plan == PlanFor(turn, w)
    requires NoCollisions(turn, w) && !HasRefusals(plan)
    requires IsGoal(turn.config, turn.opts, turn.lib, g) && Lasting(g)
    requires n <= |plan| && RunTo(env, safety, w, plan, steps, n).ok
    ensures GoalKept(turn, w, RunTo(env, safety, w, plan, steps, n).world, n, g)
    decreases g.Defined?, n
  {
    hide *;
    RunToIs(env, safety, w, plan, steps, n);
    PassedDirect(turn, n, g);
    GoalKeptIs(turn, w, RunTo(env, safety, w, plan, steps, n).world, n, g);
    if n == 0 {
      StartKept(turn, w, g);
      if g.DiskImage? {
        StartProgressDisk(w, g.node);
      }
    } else {
      var s := RunTo(env, safety, w, plan, steps, n - 1);
      RunKeepsGoal(turn, w, env, safety, plan, steps, n - 1, g);
      GoalKeptIs(turn, w, s.world, n - 1, g);
      PlanIs(turn, w);
      PlanLength(turn.config, turn.opts, turn.lib, Observe(turn, w));
      PassedNext(turn, n - 1, g);
      NoRefusalHasTools(turn, w);
      StepSkips(turn, w, n - 1);
      NoRefusal(plan, n - 1);
      ExecStepIs(env, safety, s, plan[n - 1], steps(n - 1));
      if plan[n - 1].Apply? {
        if g == Goals(turn.config, turn.opts, turn.lib)[n - 1] && g.Defined? {
          LastingUnchanged(g, ChangedTo(turn.config, turn.opts, turn.lib, Observe(turn, w), n - 1));
          PassedXml(turn, w, env, safety, plan, steps, n - 1, g.node);
        }
        AppliedAtIs(turn, w, n - 1, plan[n - 1].operation);
        StepKeepsGoal(turn, w, env, safety, s, plan[n - 1].operation, steps(n - 1), n - 1, g);
      }
    }
  }

  // The rendered XML precedes the definition, so the run so far has kept it.
  lemma PassedXml(
    turn: Turn, w: World, env: Env, safety: ExecuteSafety, plan: seq<ReconcileStep>, steps: nat -> StepFaults, n: nat,
    node: NodeConfig)
    requires WellFormed(turn)
    requires env == EnvFor(turn) && safety == SafetyFor(turn) && plan == PlanFor(turn, w)
    requires NoCollisions(turn, w) && !HasRefusals(plan)
    requires n < |plan| && RunTo(env, safety, w, plan, steps, n).ok
    requires n < |Goals(turn.config, turn.opts, turn.lib)|
    requires Goals(turn.config, turn.opts, turn.lib)[n] == Defined(node) && !Holds(turn, w, Defined(node))
    ensures XmlWritten(turn, RunTo(env, safety, w, plan, steps, n).world, node)
    decreases false, n + 1
  {
    hide *;
    var now := RunTo(env, safety, w, plan, steps, n).world;
    GoalAt(turn, n);
    GoalNode(turn.config, turn.opts, turn.lib, Defined(node));
    var f := XmlGoal(turn, node);
    var i := GoalStep(turn, Rendered(f));
    RenderedFirst(turn.config, turn.opts, turn.lib, i, n);
    PassedAt(turn, n, Rendered(f), i);
    LastingIs(Rendered(f));
    RunKeepsGoal(turn, w, env, safety, plan, steps, n, Rendered(f));
    GoalKeptIs(turn, w, now, n, Rendered(f));
    XmlBefore(turn, w, now, f, node);
  }

  lemma GoalAt(turn: Turn, i: nat)
    requires i < |Goals(turn.config, turn.opts, turn.lib)|
    ensures IsGoal(turn.config, turn.opts, turn.lib, Goals(turn.config, turn.opts, turn.lib)[i])
  {
    hide *;
    GoalsAre(turn.config, turn.opts, turn.lib, Goals(turn.config, turn.opts, turn.lib)[i]);
  }

  predicate AppliedAt(turn: Turn, w: World, n: nat, op: Operation) {
    n < |PlanFor(turn, w)| && PlanFor(turn, w)[n] == Apply(op)
  }

  lemma AppliedAtIs(turn: Turn, w: World, n: nat, op: Operation)
    ensures AppliedAt(turn, w, n, op) <==> n < |PlanFor(turn, w)| && PlanFor(turn, w)[n] == Apply(op)
  {
    hide PlanFor;
  }

  lemma StepKeepsGoal(
    turn: Turn, w: World, env: Env, safety: ExecuteSafety, s: ExecState, op: Operation, faults: StepFaults, n: nat,
    g: Goal)
    requires WellFormed(turn)
    requires env == EnvFor(turn) && safety == SafetyFor(turn)
    requires ToolsPresent(turn, w) && AppliedAt(turn, w, n, op)
    requires IsGoal(turn.config, turn.opts, turn.lib, g) && Lasting(g)
    requires n < |Goals(turn.config, turn.opts, turn.lib)|
    requires ExecOperation(env, safety, s, op, faults).ok
    requires GoalKept(turn, w, s.world, n, g)
    requires g == Goals(turn.config, turn.opts, turn.lib)[n] && g.Defined? ==> XmlWritten(turn, s.world, g.node)
    ensures GoalKept(turn, w, ExecOperation(env, safety, s, op, faults).world, n + 1, g)
  {
    hide *;
    var h, t := Goals(turn.config, turn.opts, turn.lib)[n], ExecOperation(env, safety, s, op, faults);
    GoalAt(turn, n);
    AppliedAtIs(turn, w, n, op);
    PlannedOperation(turn, w, n);
    PassedNext(turn, n, g);
    GoalKeptIs(turn, w, s.world, n, g);
    GoalKeptIs(turn, w, t.world, n + 1, g);
    if g == h {
      StepSkips(turn, w, n);
      LastingUnchanged(g, ChangedTo(turn.config, turn.opts, turn.lib, Observe(turn, w), n));
      if g.DiskImage? {
        ResizePlanned(turn, w, n);
      }
      PreparedIs(turn, w, s.world, op, g);
      GoalMade(turn, w, env, safety, s, op, faults, g);
      KeptIs(turn, w, t.world, g);
      MadeIs(turn, t.world, g);
      if g.DiskImage? {
        MadeProgress(w, t.world, g.node);
      }
    } else {
      OperationKeepsAspect(turn, s, op, faults, h, g);
      if Kept(turn, w, s.world, g) {
        AspectKeeps(turn, w, s.world, t.world, g);
      }
      if g.DiskImage? {
        AspectProgress(turn, w, s.world, t.world, g);
      }
    }
  }
}
