/** What it means for the host to have a goal, and that the planner skips a step exactly when the host has its goal. */
module HostSettled {
  import opened DomainXml
  import opened HostCycle
  import opened HostDisks
  import opened HostGoals
  import opened HostGuard
  import opened HostModel
  import opened HostPlanned
  import opened HostPlanner
  import opened HostServices
  import opened HostWorld
  import opened Paths
  import opened Wrappers

  // ---- Goals as states of the host ----

  predicate HasFile(lib: Library, w: World, p: Path, contents: string) {
    FileAt(w.fs, p).Some? && lib.contentHash(FileAt(w.fs, p).value) == lib.contentHash(contents)
  }

  predicate HasDisk(w: World, n: NodeConfig) {
    && InfoAt(w, n.rootDisk.image).Some?
    && Matches(InfoAt(w, n.rootDisk.image).value, DesiredDiskOf(n))
    && InfoAt(w, n.rootDisk.image).value.virtualSize == GibToBytes(n.rootDisk.sizeGib)
  }

  predicate HasDomain(config: HostConfig, opts: Options, lib: Library, w: World, n: NodeConfig) {
    && n.domain in w.domains
    && ExtractDesiredHash(w.domains[n.domain].xml) == Some(lib.domainHash(SpecOf(config, n, opts)))
    && (ExtractManaged(w.domains[n.domain].xml) || opts.allowAdoption)
  }

  predicate Holds(turn: Turn, w: World, g: Goal) {
    match g
    case Rendered(file) => HasFile(turn.lib, w, turn.opts.artifactDir + file.relative, file.contents)
    case DiskDirectory(node) => IsDirectoryAt(w.fs, ParentDirectory(node.rootDisk.image))
    case DiskImage(node) => HasDisk(w, node)
    case SeedCleared(_) => true
    case SeedWritten(node) =>
      HasFile(turn.lib, w, Seed(node), SeedContents(turn.lib, Files(turn.config, turn.opts, turn.lib), node))
    case Installed(unit) => HasFile(turn.lib, w, UnitPath(turn.opts, unit.name), unit.contents)
    case Reloaded => true
    case Enabled(unit) => Runs(w, unit.name)
    case Defined(node) => HasDomain(turn.config, turn.opts, turn.lib, w, node)
    case Autostarted(node) => node.domain in w.domains && w.domains[node.domain].autostart
    case Started(node) => node.domain in w.domains && w.domains[node.domain].active
  }

  // The program a goal's step runs.
  function ToolOf(opts: Options, g: Goal): Option<string> {
    if g.DiskImage? then Some(opts.qemuImg)
    else if g.Reloaded? || g.Enabled? then Some(opts.systemctl)
    else if g.Defined? || g.Autostarted? || g.Started? then Some(opts.virsh)
    else None
  }

  // What earlier changes in the same plan still ask of the step.
  predicate Unchanged(g: Goal, changed: set<string>) {
    (g.Reloaded? ==> changed == {}) && (g.Enabled? ==> g.unit.name !in changed)
  }

  // ---- Files ----

  lemma ObservedFile(turn: Turn, w: World, g: Goal, p: Path)
    requires IsGoal(turn.config, turn.opts, turn.lib, g)
    requires p in StepPaths(StepOf(turn.config, turn.opts, turn.lib, g))
    ensures PathOf(Observe(turn, w), p) == InspectPath(w, turn.lib, p)
  {
    hide *;
    var i := GoalStep(turn, g);
    ObserveIs(turn, w);
    InspectsPath(w, turn.config, ApplyPlan(turn.config, turn.opts, turn.lib), turn.opts, turn.lib, i, p);
  }

  lemma StepPathIs(p: Path, contents: string)
    ensures p in StepPaths(WriteFile(p, contents)) && p in StepPaths(WriteBinaryFile(p, contents))
    ensures p in StepPaths(EnsureDirectory(p))
  {
  }

  lemma CurrentIsHeld(lib: Library, w: World, p: Path, contents: string)
    ensures IsCurrentFile(InspectPath(w, lib, p), lib.contentHash(contents)) <==> HasFile(lib, w, p, contents)
    ensures InspectPath(w, lib, p).kind.IsDirectory? <==> IsDirectoryAt(w.fs, p)
  {
  }

  lemma FileDecisions(ctx: Context, actual: ActualState, changed: set<string>, p: Path, contents: string)
    ensures (DecideStep(ctx, actual, WriteFile(p, contents), changed) == SkipAlreadyCorrect) <==>
      IsCurrentFile(PathOf(actual, p), ctx.contentHash(contents))
    ensures (DecideStep(ctx, actual, WriteBinaryFile(p, contents), changed) == SkipAlreadyCorrect) <==>
      IsCurrentFile(PathOf(actual, p), ctx.contentHash(contents))
    ensures (DecideStep(ctx, actual, EnsureDirectory(p), changed) == SkipAlreadyCorrect) <==>
      PathOf(actual, p).kind.IsDirectory?
  {
    hide IsCurrentFile, PathOf, OperationForStep;
  }

  // ---- Disks ----

  lemma DiskSkips(ctx: Context, actual: ActualState, changed: set<string>, w: World, n: NodeConfig)
    requires n.rootDisk.image in ctx.disks && ctx.disks[n.rootDisk.image] == DesiredDiskOf(n)
    requires ctx.opts.qemuImg in actual.tools
    requires n.rootDisk.image !in w.fs ==> PathOf(actual, n.rootDisk.image).kind.IsMissing?
    requires n.rootDisk.image in w.fs ==> !PathOf(actual, n.rootDisk.image).kind.IsMissing?
    requires ObservedAs(actual, n.rootDisk.image, InfoAt(w, n.rootDisk.image))
    requires InfoAt(w, n.rootDisk.image).Some? ==> n.rootDisk.image in actual.images && n.rootDisk.image in w.fs
    ensures DecideStep(ctx, actual, RunStep(QemuCreateCommand(ctx.opts.qemuImg, n), Some(n.rootDisk.image)), changed)
      == SkipAlreadyCorrect
      <==> HasDisk(w, n)
  {
    hide PathOf, QemuCreateCommand, BaseImageVerified, InfoAt;
    QemuCreates(ctx.opts.qemuImg, n);
    assert DesiredDiskOf(n).sizeBytes == GibToBytes(n.rootDisk.sizeGib);
  }

  lemma MissingObserved(turn: Turn, w: World, n: NodeConfig)
    requires n in turn.config.nodes && n.rootDisk.image !in w.fs
    ensures PathOf(Observe(turn, w), n.rootDisk.image).kind.IsMissing?
  {
    hide *;
    DiskIsGoal(turn, n);
    StepIs(turn.config, turn.opts, turn.lib, DiskImage(n));
    CreatesPath(QemuCreateCommand(turn.opts.qemuImg, n), n.rootDisk.image);
    ObservedFile(turn, w, DiskImage(n), n.rootDisk.image);
    MissingIs(w, turn.lib, n.rootDisk.image);
  }

  lemma CreatesPath(command: Command, p: Path)
    ensures p in StepPaths(RunStep(command, Some(p)))
  {
  }

  lemma MissingIs(w: World, lib: Library, p: Path)
    requires p !in w.fs
    ensures InspectPath(w, lib, p).kind.IsMissing?
  {
  }

  // ---- Services ----

  lemma ToolObserved(turn: Turn, w: World, g: Goal)
    requires IsGoal(turn.config, turn.opts, turn.lib, g)
    requires ToolOf(turn.opts, g).Some?
    ensures ToolOf(turn.opts, g).value in Observe(turn, w).tools <==> ToolOf(turn.opts, g).value in w.tools
  {
    hide *;
    var i := GoalStep(turn, g);
    ObserveIs(turn, w);
    ToolIs(turn, g);
    InspectsTool(w, turn.config, ApplyPlan(turn.config, turn.opts, turn.lib), turn.opts, turn.lib, i);
  }

  lemma ToolIs(turn: Turn, g: Goal)
    requires ToolOf(turn.opts, g).Some?
    ensures var step := StepOf(turn.config, turn.opts, turn.lib, g);
      step.RunStep? && step.command.program == ToolOf(turn.opts, g).value
  {
    hide Files, UnitFiles;
  }

  lemma EnableSkips(ctx: Context, actual: ActualState, changed: set<string>, w: World, u: string)
    requires ctx.opts.systemctl in actual.tools
    requires u in actual.units && actual.units[u] == InspectUnit(w, ctx.opts, true, u)
    ensures DecideStep(ctx, actual, RunStep(EnableCommand(ctx.opts, u), None), changed) == SkipAlreadyCorrect <==>
      Runs(w, u) && u !in changed
  {
    hide PathOf, DecideVirsh;
  }

  lemma ReloadSkips(ctx: Context, actual: ActualState, changed: set<string>)
    requires ctx.opts.systemctl in actual.tools
    ensures DecideStep(ctx, actual, RunStep(ReloadCommand(ctx.opts), None), changed) == SkipAlreadyCorrect <==>
      changed == {}
  {
    hide PathOf, DecideVirsh;
  }

  // ---- Domains ----

  lemma DomainObserved(turn: Turn, w: World, n: NodeConfig)
    requires n in turn.config.nodes && turn.opts.virsh in w.tools
    ensures n.domain in Observe(turn, w).domains && Observe(turn, w).domains[n.domain] == InspectDomain(w, n.domain)
  {
    hide *;
    DefinedIsGoal(turn, n);
    var i := GoalStep(turn, Defined(n));
    ObserveIs(turn, w);
    ToolOfDefined(turn.opts, n);
    ToolIs(turn, Defined(n));
    InspectsDomain(w, turn.config, ApplyPlan(turn.config, turn.opts, turn.lib), turn.opts, turn.lib, i, n);
  }

  lemma ToolOfDefined(opts: Options, n: NodeConfig)
    ensures ToolOf(opts, Defined(n)) == Some(opts.virsh)
  {
  }

  lemma DefinedIsGoal(turn: Turn, n: NodeConfig)
    requires n in turn.config.nodes
    ensures IsGoal(turn.config, turn.opts, turn.lib, Defined(n))
  {
    hide UnitFiles, Files;
  }

  predicate DomainSkips(ctx: Context, w: World, d: string, desiredHash: string) {
    && d in w.domains
    && ExtractDesiredHash(w.domains[d].xml) == Some(desiredHash)
    && (ExtractManaged(w.domains[d].xml) || ctx.opts.allowAdoption)
  }

  lemma DefineSkips(
    ctx: Context, config: HostConfig, actual: ActualState, changed: set<string>, w: World, xmlPath: Path, d: string)
    requires ctx.opts.virsh != ctx.opts.systemctl && ctx.opts.virsh in actual.tools
    requires DomainForXml(ctx.domains, xmlPath).Some? && DomainForXml(ctx.domains, xmlPath).value.domain == d
    requires d in actual.domains && actual.domains[d] == InspectDomain(w, d)
    ensures DecideStep(ctx, actual, RunStep(VirshCommand(config, ctx.opts, Define, PathArg(xmlPath)), None), changed)
      == SkipAlreadyCorrect
      <==> DomainSkips(ctx, w, d, DomainForXml(ctx.domains, xmlPath).value.desiredHash)
  {
    hide PathOf, DomainForXml, DecideSystemctl, OperationForCommand, ExtractDesiredHash, ExtractManaged;
  }

  lemma PowerSkips(ctx: Context, config: HostConfig, actual: ActualState, changed: set<string>, w: World, d: string)
    requires ctx.opts.virsh != ctx.opts.systemctl && ctx.opts.virsh in actual.tools
    requires d in actual.domains && actual.domains[d] == InspectDomain(w, d)
    ensures DecideStep(ctx, actual, RunStep(VirshCommand(config, ctx.opts, Autostart, Word(d)), None), changed)
      == SkipAlreadyCorrect
      <==> d in w.domains && w.domains[d].autostart
    ensures DecideStep(ctx, actual, RunStep(VirshCommand(config, ctx.opts, Start, Word(d)), None), changed)
      == SkipAlreadyCorrect
      <==> d in w.domains && w.domains[d].active
  {
    hide PathOf, DomainForXml, DecideSystemctl, OperationForCommand, ExtractDesiredHash, ExtractManaged;
  }

  lemma DomainIsHeld(
    config: HostConfig, opts: Options, lib: Library, ctx: Context, w: World, n: NodeConfig, desiredHash: string)
    requires desiredHash == lib.domainHash(SpecOf(config, n, opts)) && ctx.opts == opts
    ensures DomainSkips(ctx, w, n.domain, desiredHash) <==> HasDomain(config, opts, lib, w, n)
  {
    hide SpecOf, ExtractDesiredHash, ExtractManaged;
  }

  // `Holds`, spelled out per kind of goal.
  lemma HoldsIs(turn: Turn, w: World, g: Goal)
    ensures g.Rendered? ==>
      (Holds(turn, w, g) <==> HasFile(turn.lib, w, turn.opts.artifactDir + g.file.relative, g.file.contents))
    ensures g.DiskDirectory? ==> (Holds(turn, w, g) <==> IsDirectoryAt(w.fs, ParentDirectory(g.node.rootDisk.image)))
    ensures g.DiskImage? ==> (Holds(turn, w, g) <==> HasDisk(w, g.node))
    ensures g.SeedCleared? || g.Reloaded? ==> Holds(turn, w, g)
    ensures g.SeedWritten? ==>
      (Holds(turn, w, g) <==> HasFile(
        turn.lib, w, Seed(g.node), SeedContents(turn.lib, Files(turn.config, turn.opts, turn.lib), g.node)))
    ensures g.Installed? ==>
      (Holds(turn, w, g) <==> HasFile(turn.lib, w, UnitPath(turn.opts, g.unit.name), g.unit.contents))
    ensures g.Enabled? ==> (Holds(turn, w, g) <==> Runs(w, g.unit.name))
    ensures g.Autostarted? ==> (Holds(turn, w, g) <==> g.node.domain in w.domains && w.domains[g.node.domain].autostart)
    ensures g.Started? ==> (Holds(turn, w, g) <==> g.node.domain in w.domains && w.domains[g.node.domain].active)
  {
    hide Files, UnitFiles, HasFile, HasDisk, Runs, Seed, SeedContents, UnitPath, ParentDirectory;
    hide IsDirectoryAt;
  }

  lemma DefinedHoldsIs(turn: Turn, w: World, ctx: Context, g: Goal, desired: DesiredDomain)
    requires g.Defined?
    requires ctx.opts == turn.opts && ServesDomain(turn.config, turn.opts, turn.lib, g.node, desired)
    ensures Holds(turn, w, g) <==> DomainSkips(ctx, w, g.node.domain, desired.desiredHash)
  {
    hide Files, UnitFiles, SpecOf, ExtractDesiredHash, ExtractManaged;
    DomainIsHeld(turn.config, turn.opts, turn.lib, ctx, w, g.node, desired.desiredHash);
  }

  lemma UnchangedIs(g: Goal, changed: set<string>)
    ensures !g.Reloaded? && !g.Enabled? ==> Unchanged(g, changed)
    ensures g.Reloaded? ==> (Unchanged(g, changed) <==> changed == {})
    ensures g.Enabled? ==> (Unchanged(g, changed) <==> g.unit.name !in changed)
  {
  }

  lemma ToolOfIs(opts: Options, g: Goal)
    ensures g.DiskImage? ==> ToolOf(opts, g) == Some(opts.qemuImg)
    ensures g.Reloaded? || g.Enabled? ==> ToolOf(opts, g) == Some(opts.systemctl)
    ensures g.Defined? || g.Autostarted? || g.Started? ==> ToolOf(opts, g) == Some(opts.virsh)
  {
  }

  predicate HasTool(opts: Options, w: World, g: Goal) {
    ToolOf(opts, g).Some? ==> ToolOf(opts, g).value in w.tools
  }

  /** With its tool at hand, a step is skipped exactly when the host has its goal and no earlier change asks for it. */
  lemma SkipsExactly(turn: Turn, w: World, ctx: Context, changed: set<string>, g: Goal)
    requires WellFormed(turn) && IsGoal(turn.config, turn.opts, turn.lib, g)
    requires ctx == ContextOf(turn.config, turn.opts, turn.lib) && HasTool(turn.opts, w, g)
    ensures Holds(turn, w, g) && Unchanged(g, changed) <==>
      DecideStep(ctx, Observe(turn, w), StepOf(turn.config, turn.opts, turn.lib, g), changed) == SkipAlreadyCorrect
  {
    hide *;
    var config, opts, lib, actual := turn.config, turn.opts, turn.lib, Observe(turn, w);
    WellFormedFacts(turn);
    ContextOptions(config, opts, lib);
    StepIs(config, opts, lib, g);
    HoldsIs(turn, w, g);
    UnchangedIs(g, changed);
    ToolOfIs(opts, g);
    HasToolIs(opts, w, g);
    match g
    case Rendered(file) => FileSkips(turn, w, ctx, changed, g, opts.artifactDir + file.relative, file.contents);
    case DiskDirectory(node) => FileSkips(turn, w, ctx, changed, g, ParentDirectory(node.rootDisk.image), "");
    case DiskImage(node) =>
      GoalNode(config, opts, lib, g);
      ToolObserved(turn, w, g);
      DiskDesired(turn, node);
      DiskObserved(turn, w, node);
      if node.rootDisk.image !in w.fs {
        MissingObserved(turn, w, node);
      }
      DiskSkips(ctx, actual, changed, w, node);
    case SeedCleared(node) =>
      GoalNode(config, opts, lib, g);
      SeedClearedSkipped(config, opts, lib, actual, changed, node);
    case SeedWritten(node) =>
      FileSkips(turn, w, ctx, changed, g, Seed(node), SeedContents(lib, Files(config, opts, lib), node));
    case Installed(unit) => FileSkips(turn, w, ctx, changed, g, UnitPath(opts, unit.name), unit.contents);
    case Reloaded =>
      ToolObserved(turn, w, g);
      ReloadSkips(ctx, actual, changed);
    case Enabled(unit) =>
      ToolObserved(turn, w, g);
      GoalUnit(config, opts, lib, g);
      UnitServed(turn, unit);
      UnitObserved(turn, w, unit);
      EnableSkips(ctx, actual, changed, w, unit.name);
    case Defined(node) =>
      GoalNode(config, opts, lib, g);
      NonEmpty(config.nodes, node);
      ToolObserved(turn, w, g);
      DomainObserved(turn, w, node);
      XmlServes(turn, ctx.domains, node);
      ServedDomain(config, opts, lib, node, DomainForXml(ctx.domains, XmlPath(opts, node)).value);
      DefinedHoldsIs(turn, w, ctx, g, DomainForXml(ctx.domains, XmlPath(opts, node)).value);
      DefineSkips(ctx, config, actual, changed, w, XmlPath(opts, node), node.domain);
    case Autostarted(node) =>
      GoalNode(config, opts, lib, g);
      NonEmpty(config.nodes, node);
      ToolObserved(turn, w, g);
      DomainObserved(turn, w, node);
      PowerSkips(ctx, config, actual, changed, w, node.domain);
    case Started(node) =>
      GoalNode(config, opts, lib, g);
      NonEmpty(config.nodes, node);
      ToolObserved(turn, w, g);
      DomainObserved(turn, w, node);
      PowerSkips(ctx, config, actual, changed, w, node.domain);
  }

  lemma HasToolIs(opts: Options, w: World, g: Goal)
    ensures HasTool(opts, w, g) && ToolOf(opts, g).Some? ==> ToolOf(opts, g).value in w.tools
  {
    hide ToolOf;
  }

  lemma FileSkips(turn: Turn, w: World, ctx: Context, changed: set<string>, g: Goal, p: Path, contents: string)
    requires IsGoal(turn.config, turn.opts, turn.lib, g)
    requires ctx == ContextOf(turn.config, turn.opts, turn.lib)
    requires StepOf(turn.config, turn.opts, turn.lib, g) in [WriteFile(p, contents), WriteBinaryFile(p, contents),
      EnsureDirectory(p)]
    ensures StepOf(turn.config, turn.opts, turn.lib, g) in [WriteFile(p, contents), WriteBinaryFile(p, contents)] ==>
      (DecideStep(ctx, Observe(turn, w), StepOf(turn.config, turn.opts, turn.lib, g), changed) == SkipAlreadyCorrect
       <==> HasFile(turn.lib, w, p, contents))
    ensures StepOf(turn.config, turn.opts, turn.lib, g) == EnsureDirectory(p) ==>
      (DecideStep(ctx, Observe(turn, w), StepOf(turn.config, turn.opts, turn.lib, g), changed) == SkipAlreadyCorrect
       <==> IsDirectoryAt(w.fs, p))
  {
    hide *;
    ContextOptions(turn.config, turn.opts, turn.lib);
    StepPathIs(p, contents);
    ObservedFile(turn, w, g, p);
    CurrentIsHeld(turn.lib, w, p, contents);
    FileDecisions(ctx, Observe(turn, w), changed, p, contents);
  }

  // A step whose tool is missing is refused, so a plan without refusals has every tool.
  lemma MissingToolRefused(turn: Turn, w: World, ctx: Context, changed: set<string>, g: Goal)
    requires WellFormed(turn) && IsGoal(turn.config, turn.opts, turn.lib, g)
    requires ctx == ContextOf(turn.config, turn.opts, turn.lib) && !HasTool(turn.opts, w, g)
    ensures DecideStep(ctx, Observe(turn, w), StepOf(turn.config, turn.opts, turn.lib, g), changed).Refuse?
  {
    hide *;
    ContextOptions(turn.config, turn.opts, turn.lib);
    LacksTool(turn.opts, w, g);
    ToolOfIs(turn.opts, g);
    ToolObserved(turn, w, g);
    StepIs(turn.config, turn.opts, turn.lib, g);
    if g.DiskImage? {
      NoTool(ctx, Observe(turn, w), changed, g.node);
    } else {
      ToolIs(turn, g);
      PlainCommand(turn, g);
      NoToolRefuses(ctx, Observe(turn, w), changed, StepOf(turn.config, turn.opts, turn.lib, g).command);
    }
  }

  lemma PlainCommand(turn: Turn, g: Goal)
    requires ToolOf(turn.opts, g).Some? && !g.DiskImage?
    ensures var step := StepOf(turn.config, turn.opts, turn.lib, g);
      step.RunStep? && step == RunStep(step.command, None)
  {
    hide Files, UnitFiles;
  }

  lemma LacksTool(opts: Options, w: World, g: Goal)
    ensures !HasTool(opts, w, g) ==> ToolOf(opts, g).Some? && ToolOf(opts, g).value !in w.tools
  {
    hide ToolOf;
  }

  predicate AllSkip(plan: seq<ReconcileStep>) {
    forall i :: 0 <= i < |plan| ==> plan[i] == SkipAlreadyCorrect
  }

  // ---- A host with every goal has nothing to do ----

  predicate ToolsPresent(turn: Turn, w: World) {
    forall i :: 0 <= i < |Goals(turn.config, turn.opts, turn.lib)| ==>
      HasTool(turn.opts, w, Goals(turn.config, turn.opts, turn.lib)[i])
  }

  predicate AllHold(turn: Turn, w: World) {
    forall i :: 0 <= i < |Goals(turn.config, turn.opts, turn.lib)| ==>
      Holds(turn, w, Goals(turn.config, turn.opts, turn.lib)[i])
  }

  lemma NoRefusalHasTools(turn: Turn, w: World)
    requires WellFormed(turn)
    requires !HasRefusals(PlanFor(turn, w))
    ensures ToolsPresent(turn, w)
  {
    hide WellFormed, PlanFor, Goals, HasTool, DecideStep, HasRefusals, Plan, ContextOf, ChangedTo;
    hide Observe, StepOf, IsGoal, ApplyPlan;
    var config, opts, lib, actual := turn.config, turn.opts, turn.lib, Observe(turn, w);
    PlanIs(turn, w);
    PlanLength(config, opts, lib, actual);
    forall i | 0 <= i < |Goals(config, opts, lib)|
      ensures HasTool(opts, w, Goals(config, opts, lib)[i])
    {
      PlanStepAt(config, opts, lib, actual, i);
      NoRefusal(PlanFor(turn, w), i);
      if !HasTool(opts, w, Goals(config, opts, lib)[i]) {
        MissingToolRefused(
          turn, w, ContextOf(config, opts, lib), ChangedTo(config, opts, lib, actual, i), Goals(config, opts, lib)[i]);
      }
    }
  }

  lemma StepSkips(turn: Turn, w: World, i: nat)
    requires WellFormed(turn) && ToolsPresent(turn, w)
    requires i < |Goals(turn.config, turn.opts, turn.lib)|
    ensures i < |PlanFor(turn, w)|
    ensures PlanFor(turn, w)[i] == SkipAlreadyCorrect <==>
      Holds(turn, w, Goals(turn.config, turn.opts, turn.lib)[i])
      && Unchanged(Goals(turn.config, turn.opts, turn.lib)[i],
          ChangedTo(turn.config, turn.opts, turn.lib, Observe(turn, w), i))
  {
    hide *;
    var config, opts, lib, actual := turn.config, turn.opts, turn.lib, Observe(turn, w);
    PlanIs(turn, w);
    PlanLength(config, opts, lib, actual);
    PlanStepAt(config, opts, lib, actual, i);
    ToolAt(turn, w, i);
    SkipsExactly(
      turn, w, ContextOf(config, opts, lib), ChangedTo(config, opts, lib, actual, i), Goals(config, opts, lib)[i]);
  }

  lemma ToolAt(turn: Turn, w: World, i: nat)
    requires ToolsPresent(turn, w) && i < |Goals(turn.config, turn.opts, turn.lib)|
    ensures HasTool(turn.opts, w, Goals(turn.config, turn.opts, turn.lib)[i])
  {
    hide Goals, HasTool;
  }

  lemma HoldsAt(turn: Turn, w: World, i: nat)
    requires AllHold(turn, w) && i < |Goals(turn.config, turn.opts, turn.lib)|
    ensures Holds(turn, w, Goals(turn.config, turn.opts, turn.lib)[i])
  {
    hide Goals, Holds;
  }

  predicate HoldsIfFile(turn: Turn, w: World, g: Goal) {
    g.Rendered? || g.Installed? ==> Holds(turn, w, g)
  }

  // Every rendered and installed file is in place.
  predicate FilesHold(turn: Turn, w: World) {
    forall i :: 0 <= i < |Goals(turn.config, turn.opts, turn.lib)| ==>
      HoldsIfFile(turn, w, Goals(turn.config, turn.opts, turn.lib)[i])
  }

  lemma FileHoldsAt(turn: Turn, w: World, i: nat)
    requires FilesHold(turn, w) && i < |Goals(turn.config, turn.opts, turn.lib)|
    ensures HoldsIfFile(turn, w, Goals(turn.config, turn.opts, turn.lib)[i])
  {
    hide Goals, HoldsIfFile;
  }

  lemma HoldsIfFileIs(turn: Turn, w: World, g: Goal)
    ensures HoldsIfFile(turn, w, g) <==> (g.Rendered? || g.Installed? ==> Holds(turn, w, g))
  {
    hide Holds;
  }

  lemma AllFilesHold(turn: Turn, w: World)
    requires AllHold(turn, w)
    ensures FilesHold(turn, w)
  {
    hide Goals, Holds;
  }

  // With every file in place, no unit counts as changed.
  lemma NothingChanged(turn: Turn, w: World, i: nat)
    requires WellFormed(turn) && FilesHold(turn, w)
    requires i <= |Goals(turn.config, turn.opts, turn.lib)|
    ensures ChangedTo(turn.config, turn.opts, turn.lib, Observe(turn, w), i) == {}
  {
    hide *;
    var config, opts, lib, actual := turn.config, turn.opts, turn.lib, Observe(turn, w);
    var ctx, steps, goals := ContextOf(config, opts, lib), ApplyPlan(config, opts, lib), Goals(config, opts, lib);
    PlanLength(config, opts, lib, actual);
    PlanServesGoals(config, opts, lib);
    StepsLength(config, opts, lib, goals);
    ChangedToIs(turn, actual, i);
    var changed := ChangedTo(config, opts, lib, actual, i);
    forall u | u in changed
      ensures false
    {
      ChangedAre(ctx, actual, steps, i, u);
      var k :| 0 <= k < i && ChangedUnit(ctx, actual, steps[k]) == Some(u);
      PlanStepAt(config, opts, lib, actual, k);
      FileHoldsAt(turn, w, k);
      HoldsIfFileIs(turn, w, goals[k]);
      UnchangedFile(turn, w, ctx, goals[k], u);
    }
  }

  /** On a host with every file in place, exactly the steps whose goals hold are skipped. */
  lemma NearlySettled(turn: Turn, w: World, i: nat)
    requires WellFormed(turn) && ToolsPresent(turn, w) && FilesHold(turn, w)
    requires i < |Goals(turn.config, turn.opts, turn.lib)|
    ensures i < |PlanFor(turn, w)|
    ensures PlanFor(turn, w)[i] == SkipAlreadyCorrect <==> Holds(turn, w, Goals(turn.config, turn.opts, turn.lib)[i])
  {
    hide *;
    StepSkips(turn, w, i);
    NothingChanged(turn, w, i);
    EmptyUnchanged(Goals(turn.config, turn.opts, turn.lib)[i]);
  }

  lemma UnchangedFile(turn: Turn, w: World, ctx: Context, g: Goal, u: string)
    requires WellFormed(turn) && IsGoal(turn.config, turn.opts, turn.lib, g)
    requires ctx == ContextOf(turn.config, turn.opts, turn.lib) && (g.Rendered? || g.Installed? ==> Holds(turn, w, g))
    ensures ChangedUnit(ctx, Observe(turn, w), StepOf(turn.config, turn.opts, turn.lib, g)) != Some(u)
  {
    hide *;
    var config, opts, lib, actual := turn.config, turn.opts, turn.lib, Observe(turn, w);
    var step := StepOf(config, opts, lib, g);
    StepIs(config, opts, lib, g);
    HoldsIs(turn, w, g);
    ContextOptions(config, opts, lib);
    ChangedStep(ctx, actual, step, u);
    if step.WriteFile? {
      StepPathIs(step.path, step.contents);
      ObservedFile(turn, w, g, step.path);
      CurrentIsHeld(lib, w, step.path, step.contents);
    }
  }

  /** The next plan is all skips exactly when the host has every goal. */
  lemma NothingToDo(turn: Turn, w: World)
    requires WellFormed(turn) && ToolsPresent(turn, w)
    ensures AllSkip(PlanFor(turn, w)) <==> AllHold(turn, w)
  {
    hide WellFormed, ToolsPresent, PlanFor, Goals, Holds, Unchanged, ChangedTo, Plan, Observe;
    hide ApplyPlan, DecideStep;
    PlanIs(turn, w);
    PlanLength(turn.config, turn.opts, turn.lib, Observe(turn, w));
    forall i | 0 <= i < |PlanFor(turn, w)|
      ensures AllSkip(PlanFor(turn, w)) ==> Holds(turn, w, Goals(turn.config, turn.opts, turn.lib)[i])
      ensures AllHold(turn, w) ==> PlanFor(turn, w)[i] == SkipAlreadyCorrect
    {
      StepSkips(turn, w, i);
      if AllHold(turn, w) {
        HoldsAt(turn, w, i);
        AllFilesHold(turn, w);
        NearlySettled(turn, w, i);
      }
    }
  }

  lemma EmptyUnchanged(g: Goal)
    ensures Unchanged(g, {})
  {
  }
}
