/** Root disks over whole runs: an existing disk is only ever grown, and a disk that does not match stops the cycle. */
module HostDisks {
  import opened HostCycle
  import opened HostExecutor
  import opened HostFrame
  import opened HostGoals
  import opened HostGuard
  import opened HostModel
  import opened HostPlanner
  import opened HostWorld
  import opened Paths
  import opened Wrappers

  function InfoAt(w: World, p: Path): Option<DiskInfo> {
    if p in w.fs && w.fs[p].File? then w.fs[p].image else None
  }

  predicate Grown(before: DiskInfo, after: DiskInfo) {
    after.format == before.format && after.backing == before.backing && after.virtualSize >= before.virtualSize
  }

  predicate HoldsGrown(w: World, p: Path, before: DiskInfo) {
    InfoAt(w, p).Some? && Grown(before, InfoAt(w, p).value)
  }

  // What the planner may ask for a disk of this size: no creation, and only larger sizes.
  predicate OnlyGrows(op: Operation, p: Path, size: nat) {
    && (op.CreateRootDisk? ==> op.path != p)
    && (op.ResizeRootDisk? && op.path == p ==>
          |op.command.args| == 3 && op.command.args[2].Gib? && op.command.args[2].size * GIB >= size)
  }

  // ---- The plan ----

  // The image as qemu-img reported it, if the tool was there to ask.
  predicate ObservedAs(actual: ActualState, p: Path, current: Option<DiskInfo>) {
    p in actual.images ==> (
      && current.Some?
      && actual.images[p] == ImageState(
          Some(current.value.format), current.value.backing, Some(current.value.virtualSize)))
  }

  lemma CreateDecision(ctx: Context, actual: ActualState, changed: set<string>, n: NodeConfig, p: Path, info: DiskInfo)
    requires !PathOf(actual, n.rootDisk.image).kind.IsMissing?
    requires n.rootDisk.image == p
    requires ObservedAs(actual, p, Some(info))
    requires forall q :: q in ctx.disks ==> ctx.disks[q].sizeBytes <= ctx.disks[q].sizeGib * GIB
    ensures var step := DecideStep(ctx, actual, RunStep(QemuCreateCommand(ctx.opts.qemuImg, n), Some(p)), changed);
      step.Apply? ==> OnlyGrows(step.operation, p, info.virtualSize)
  {
    hide PathOf, QemuCreateCommand;
  }

  lemma SaturatesBelow(gib: nat)
    ensures GibToBytes(gib) <= gib * GIB
  {
  }

  lemma DesiredSizes(nodes: seq<NodeConfig>)
    ensures forall q :: q in DesiredDisks(nodes) ==>
      DesiredDisks(nodes)[q].sizeBytes <= DesiredDisks(nodes)[q].sizeGib * GIB
  {
    hide DesiredDisks, GibToBytes;
    forall q | q in DesiredDisks(nodes)
      ensures DesiredDisks(nodes)[q].sizeBytes <= DesiredDisks(nodes)[q].sizeGib * GIB
    {
      DisksAre(nodes, q);
      var n :| n in nodes && n.rootDisk.image == q && DesiredDisks(nodes)[q] == DesiredDiskOf(n);
      SaturatesBelow(n.rootDisk.sizeGib);
    }
  }

  lemma OtherDecision(ctx: Context, actual: ActualState, changed: set<string>, step: ApplyStep)
    requires step.RunStep? ==> step.creates.None?
    ensures DecideStep(ctx, actual, step, changed).Apply? ==>
      !DecideStep(ctx, actual, step, changed).operation.CreateRootDisk?
        && !DecideStep(ctx, actual, step, changed).operation.ResizeRootDisk?
  {
    hide PathOf, DomainForXml;
  }

  lemma DiskDecision(ctx: Context, actual: ActualState, changed: set<string>, n: NodeConfig)
    ensures var step :=
      DecideStep(ctx, actual, RunStep(QemuCreateCommand(ctx.opts.qemuImg, n), Some(n.rootDisk.image)), changed);
      step.Apply? ==>
        && (step.operation.CreateRootDisk? || step.operation.ResizeRootDisk?)
        && step.operation.path == n.rootDisk.image
  {
    hide PathOf, BaseImageVerified;
  }

  lemma DiskObserved(turn: Turn, w: World, n: NodeConfig)
    requires n in turn.config.nodes
    ensures n.rootDisk.image in w.fs ==> !PathOf(Observe(turn, w), n.rootDisk.image).kind.IsMissing?
    ensures InfoAt(w, n.rootDisk.image).Some? ==> n.rootDisk.image in w.fs
    ensures turn.opts.qemuImg in w.tools ==> ObservedAs(Observe(turn, w), n.rootDisk.image, InfoAt(w, n.rootDisk.image))
    ensures turn.opts.qemuImg in Observe(turn, w).tools <==> turn.opts.qemuImg in w.tools
    ensures turn.opts.qemuImg in w.tools && InfoAt(w, n.rootDisk.image).Some? ==>
      n.rootDisk.image in Observe(turn, w).images
  {
    hide ApplyPlan, Inspect, QemuCreateCommand, Files, UnitFiles, PathOf, InspectPath;
    var steps, p := ApplyPlan(turn.config, turn.opts, turn.lib), n.rootDisk.image;
    var i := GoalStep(turn, DiskImage(n));
    InspectsPath(w, turn.config, steps, turn.opts, turn.lib, i, p);
    InspectsTool(w, turn.config, steps, turn.opts, turn.lib, i);
    QemuCreates(turn.opts.qemuImg, n);
    if p in w.fs {
      NotMissing(w, turn.lib, p);
    }
    if turn.opts.qemuImg in w.tools {
      InspectsImage(w, turn.config, steps, turn.opts, turn.lib, i);
    }
  }

  lemma DiskGoalGrows(turn: Turn, w: World, changed: set<string>, n: NodeConfig, p: Path, info: DiskInfo)
    requires n in turn.config.nodes
    requires InfoAt(w, p) == Some(info)
    ensures var step := DecideStep(
        ContextOf(turn.config, turn.opts, turn.lib), Observe(turn, w),
        RunStep(QemuCreateCommand(turn.opts.qemuImg, n), Some(n.rootDisk.image)), changed);
      step.Apply? ==> OnlyGrows(step.operation, p, info.virtualSize)
  {
    hide *;
    var ctx, actual := ContextOf(turn.config, turn.opts, turn.lib), Observe(turn, w);
    ContextOptions(turn.config, turn.opts, turn.lib);
    DiskDecision(ctx, actual, changed, n);
    if n.rootDisk.image == p {
      DesiredSizes(turn.config.nodes);
      DiskObserved(turn, w, n);
      if turn.opts.qemuImg in w.tools {
        CreateDecision(ctx, actual, changed, n, p, info);
      } else {
        NoTool(ctx, actual, changed, n);
      }
    } else {
      OtherDisk(
        DecideStep(ctx, actual, RunStep(QemuCreateCommand(turn.opts.qemuImg, n), Some(n.rootDisk.image)), changed),
        n.rootDisk.image, p, info.virtualSize);
    }
  }

  lemma NotMissing(w: World, lib: Library, p: Path)
    requires p in w.fs
    ensures !InspectPath(w, lib, p).kind.IsMissing?
  {
  }

  lemma OtherDisk(step: ReconcileStep, image: Path, p: Path, size: nat)
    requires image != p
    requires step.Apply? ==>
      (step.operation.CreateRootDisk? || step.operation.ResizeRootDisk?) && step.operation.path == image
    ensures step.Apply? ==> OnlyGrows(step.operation, p, size)
  {
  }

  lemma NoTool(ctx: Context, actual: ActualState, changed: set<string>, n: NodeConfig)
    requires ctx.opts.qemuImg !in actual.tools
    ensures DecideStep(ctx, actual, RunStep(QemuCreateCommand(ctx.opts.qemuImg, n), Some(n.rootDisk.image)),
      changed).Refuse?
  {
    hide PathOf;
  }

  /** No planned step recreates a disk that exists when the host is inspected, and any resize is to a larger size. */
  lemma PlannedGrows(turn: Turn, w: World, p: Path, info: DiskInfo, i: nat)
    requires InfoAt(w, p) == Some(info)
    requires i < |PlanFor(turn, w)| && PlanFor(turn, w)[i].Apply?
    ensures OnlyGrows(PlanFor(turn, w)[i].operation, p, info.virtualSize)
  {
    hide ContextOf, ApplyPlan, Goals, Observe, DecideStep, OnlyGrows, Plan, Files, UnitFiles;
    hide UnitPath, Seed, SeedContents, XmlPath, EnableCommand, ReloadCommand, VirshCommand, QemuCreateCommand;
    hide ParentDirectory;
    var config, opts, lib, actual := turn.config, turn.opts, turn.lib, Observe(turn, w);
    PlanLength(config, opts, lib, actual);
    PlanStepAt(config, opts, lib, actual, i);
    var g, ctx, changed :=
      Goals(config, opts, lib)[i], ContextOf(config, opts, lib), ChangedTo(config, opts, lib, actual, i);
    if g.DiskImage? {
      DiskGoalGrows(turn, w, changed, g.node, p, info);
    } else {
      OtherDecision(ctx, actual, changed, StepOf(config, opts, lib, g));
      NoDisk(PlanFor(turn, w)[i].operation, p, info.virtualSize);
    }
  }

  lemma NoDisk(op: Operation, p: Path, size: nat)
    requires !op.CreateRootDisk? && !op.ResizeRootDisk?
    ensures OnlyGrows(op, p, size)
  {
  }

  // ---- The run ----

  ghost function AllBut(p: Path): iset<Path> {
    iset q: Path | |q| >= 0 && q != p
  }

  lemma KeptInfo(a: World, b: World, p: Path, dirs: iset<Path>)
    requires Confined(a.fs, b.fs, AllBut(p), dirs)
    requires p in a.fs
    ensures InfoAt(b, p) == InfoAt(a, p)
  {
  }

  lemma ResizeGrows(
    env: Env, safety: ExecuteSafety, s: ExecState, op: Operation, faults: StepFaults, p: Path, info: DiskInfo)
    requires OnlyGrows(op, p, info.virtualSize) && op.ResizeRootDisk? && op.path == p
    requires HoldsGrown(s.world, p, info)
    ensures HoldsGrown(ExecOperation(env, safety, s, op, faults).world, p, info)
    ensures ExecOperation(env, safety, s, op, faults).actions == s.actions
  {
    hide Validate;
  }

  // Besides the disk operations, the operation writes no file or backup at this path.
  predicate SparesDisk(op: Operation, p: Path) {
    op.CreateRootDisk? || op.ResizeRootDisk? || p !in FileTargets(op)
  }

  // What a plan may do to a disk: of what the guard accepts, grow it at most.
  predicate PlanSpares(safety: ExecuteSafety, plan: seq<ReconcileStep>, p: Path) {
    forall i :: 0 <= i < |plan| && plan[i].Apply? && Validate(safety, plan[i].operation) ==>
      SparesDisk(plan[i].operation, p)
  }

  predicate PlanGrows(plan: seq<ReconcileStep>, p: Path, size: nat) {
    forall i :: 0 <= i < |plan| && plan[i].Apply? ==> OnlyGrows(plan[i].operation, p, size)
  }

  lemma OperationGrows(
    env: Env, safety: ExecuteSafety, s: ExecState, op: Operation, faults: StepFaults, p: Path, info: DiskInfo)
    requires OnlyGrows(op, p, info.virtualSize) && (Validate(safety, op) ==> SparesDisk(op, p))
    requires HoldsGrown(s.world, p, info) && ActionsWithin(s.actions, AllBut(p))
    ensures HoldsGrown(ExecOperation(env, safety, s, op, faults).world, p, info)
    ensures ActionsWithin(ExecOperation(env, safety, s, op, faults).actions, AllBut(p))
  {
    hide ExecOperation, Validate, ActionsWithin, BackupPath;
    if op.ResizeRootDisk? && op.path == p {
      ResizeGrows(env, safety, s, op, faults, p, info);
    } else {
      var dirs := iset q: Path | |q| >= 0;
      assert Validate(safety, op) ==> p !in FileTargets(op);
      OperationConfined(env, safety, s, op, faults, AllBut(p), dirs);
      KeptInfo(s.world, ExecOperation(env, safety, s, op, faults).world, p, dirs);
    }
  }

  lemma {:induction false} RunGrows(
    env: Env, safety: ExecuteSafety, w: World, plan: seq<ReconcileStep>, steps: nat -> StepFaults, n: nat, p: Path,
    info: DiskInfo)
    requires n <= |plan| && PlanSpares(safety, plan, p) && PlanGrows(plan, p, info.virtualSize)
    requires InfoAt(w, p) == Some(info)
    ensures HoldsGrown(RunTo(env, safety, w, plan, steps, n).world, p, info)
    ensures ActionsWithin(RunTo(env, safety, w, plan, steps, n).actions, AllBut(p))
  {
    hide ExecOperation, OnlyGrows, SparesDisk, InfoAt, Validate;
    if n > 0 {
      RunGrows(env, safety, w, plan, steps, n - 1, p, info);
      if plan[n - 1].Apply? {
        OperationGrows(
          env, safety, RunTo(env, safety, w, plan, steps, n - 1), plan[n - 1].operation, steps(n - 1), p, info);
      }
    }
  }

  lemma ExecuteGrows(
    env: Env, safety: ExecuteSafety, w: World, plan: seq<ReconcileStep>, schedule: Schedule, p: Path, info: DiskInfo)
    requires PlanSpares(safety, plan, p) && PlanGrows(plan, p, info.virtualSize)
    requires InfoAt(w, p) == Some(info)
    ensures HoldsGrown(Execute(env, safety, w, plan, schedule).world, p, info)
  {
    hide RunTo, Commit, Restore, PlanSpares, PlanGrows, ActionsWithin, Confined;
    if !HasRefusals(plan) {
      RunGrows(env, safety, w, plan, schedule.steps, |plan|, p, info);
      var ran, dirs := RunTo(env, safety, w, plan, schedule.steps, |plan|), iset q: Path | |q| >= 0;
      RestoreConfined(ran.world, ran.actions, schedule.undo, |ran.actions|, AllBut(p), dirs);
      CommitConfined(ran.world, ran.actions, schedule.discard, |ran.actions|, AllBut(p), dirs);
      KeptInfo(ran.world, Execute(env, safety, w, plan, schedule).world, p, dirs);
    }
  }

  // ---- Whole runs ----

  /** The cycle's plan writes no other file over the disk. */
  predicate CycleSpares(turn: Turn, w: World, p: Path) {
    Ready(turn) ==> PlanSpares(SafetyFor(turn), PlanFor(turn, w), p)
  }

  lemma PlanGrowsAll(turn: Turn, w: World, p: Path, info: DiskInfo)
    requires InfoAt(w, p) == Some(info)
    ensures PlanGrows(PlanFor(turn, w), p, info.virtualSize)
  {
    hide PlanFor, OnlyGrows, InfoAt;
    forall i | 0 <= i < |PlanFor(turn, w)| && PlanFor(turn, w)[i].Apply?
      ensures OnlyGrows(PlanFor(turn, w)[i].operation, p, info.virtualSize)
    {
      PlannedGrows(turn, w, p, info, i);
    }
  }

  lemma CycleGrows(turn: Turn, w: World, p: Path, info: DiskInfo)
    requires CycleSpares(turn, w, p) && InfoAt(w, p) == Some(info)
    ensures HoldsGrown(Cycle(turn, w).world, p, info)
  {
    hide PlanFor, SafetyFor, PlanSpares, PlanGrows, Execute, InfoAt, FromConfig;
    if Ready(turn) {
      PlanGrowsAll(turn, w, p, info);
      ExecuteGrows(EnvFor(turn), SafetyFor(turn), w, PlanFor(turn, w), turn.schedule, p, info);
    }
  }

  /**
   * Over any sequence of cycles, with configurations, options and faults changing arbitrarily between them: as long as
   * no plan writes another file over a disk, it keeps its format and its backing file, and its virtual size never
   * decreases.
   */
  lemma {:induction false} DisksSurviveCycles(turns: seq<Turn>, w: World, p: Path, info: DiskInfo)
    requires forall i :: 0 <= i < |turns| ==> CycleSpares(turns[i], Cycles(turns[..i], w), p)
    requires InfoAt(w, p) == Some(info)
    ensures HoldsGrown(Cycles(turns, w), p, info)
  {
    hide CycleSpares, Cycle, InfoAt;
    if turns != [] {
      var n := |turns| - 1;
      var front := turns[..n];
      assert forall i :: 0 <= i < n ==> front[i] == turns[i] && front[..i] == turns[..i];
      DisksSurviveCycles(front, w, p, info);
      CycleGrows(turns[n], Cycles(front, w), p, InfoAt(Cycles(front, w), p).value);
    }
  }

  /** In particular a configuration whose seeds, artifacts, units and their backups lie elsewhere spares the disk. */
  lemma ApartSpares(turn: Turn, w: World, p: Path)
    requires !BesidesDisks(SafetyFor(turn), p)
    ensures CycleSpares(turn, w, p)
  {
    hide PlanFor, SafetyFor, BesidesDisks, Validate, FileTargets, Ready;
    forall i | 0 <= i < |PlanFor(turn, w)| && PlanFor(turn, w)[i].Apply?
        && Validate(SafetyFor(turn), PlanFor(turn, w)[i].operation)
      ensures SparesDisk(PlanFor(turn, w)[i].operation, p)
    {
      TargetsInFootprint(SafetyFor(turn), PlanFor(turn, w)[i].operation);
    }
  }

  // ---- Disks that do not match ----

  /** What an existing disk must be for the planner to leave or grow it. */
  predicate Matches(info: DiskInfo, disk: DesiredDisk) {
    && info.format == disk.format
    && (disk.sourceImage.Some? ==> info.backing == disk.sourceImage)
    && info.virtualSize <= disk.sizeBytes
  }

  lemma MismatchDecision(
    ctx: Context, actual: ActualState, changed: set<string>, n: NodeConfig, current: Option<DiskInfo>)
    requires !PathOf(actual, n.rootDisk.image).kind.IsMissing?
    requires n.rootDisk.image in ctx.disks
    requires current.Some? ==> !Matches(current.value, ctx.disks[n.rootDisk.image])
    requires ObservedAs(actual, n.rootDisk.image, current)
    ensures DecideStep(ctx, actual, RunStep(QemuCreateCommand(ctx.opts.qemuImg, n), Some(n.rootDisk.image)),
      changed).Refuse?
  {
    hide PathOf, QemuCreateCommand;
    QemuCreates(ctx.opts.qemuImg, n);
  }

  /**
   * A path that exists and is not the wanted disk (no image, another format or base, too large) stops the whole
   * cycle.
   */
  lemma MismatchFreezes(turn: Turn, w: World, n: NodeConfig)
    requires Ready(turn) && n in turn.config.nodes && n.rootDisk.image in w.fs
    requires InfoAt(w, n.rootDisk.image).Some? && n.rootDisk.image in DesiredDisks(turn.config.nodes) ==>
      !Matches(InfoAt(w, n.rootDisk.image).value, DesiredDisks(turn.config.nodes)[n.rootDisk.image])
    ensures Cycle(turn, w) == Executed(w, Refused)
  {
    hide *;
    ReadyIs(turn);
    PlanIs(turn, w);
    var config, opts, lib, actual := turn.config, turn.opts, turn.lib, Observe(turn, w);
    DiskIsGoal(turn, n);
    DiskStep(turn, n);
    var i := GoalStep(turn, DiskImage(n));
    PlanLength(config, opts, lib, actual);
    PlanStepAt(config, opts, lib, actual, i);
    ContextOptions(config, opts, lib);
    DiskObserved(turn, w, n);
    DisksAre(turn.config.nodes, n.rootDisk.image);
    if opts.qemuImg in w.tools {
      MismatchDecision(
        ContextOf(config, opts, lib), actual, ChangedTo(config, opts, lib, actual, i), n, InfoAt(w, n.rootDisk.image));
    } else {
      NoTool(ContextOf(config, opts, lib), actual, ChangedTo(config, opts, lib, actual, i), n);
    }
    RefusedCycle(turn, w, i);
  }

  lemma DiskIsGoal(turn: Turn, n: NodeConfig)
    requires n in turn.config.nodes
    ensures IsGoal(turn.config, turn.opts, turn.lib, DiskImage(n))
  {
    hide UnitFiles, Files;
  }

  lemma DiskStep(turn: Turn, n: NodeConfig)
    ensures StepOf(turn.config, turn.opts, turn.lib, DiskImage(n))
         == RunStep(QemuCreateCommand(turn.opts.qemuImg, n), Some(n.rootDisk.image))
  {
    hide QemuCreateCommand, Files, UnitFiles;
  }
}
