/** Rollback puts back the definition of every domain that existed, for any planned run. */
module HostDomainRollback {
  import opened HostCycle
  import opened HostExecutor
  import opened HostFrame
  import opened HostGoals
  import opened HostGuard
  import opened HostModel
  import opened HostPlanned
  import opened HostPlanner
  import opened HostRollback
  import opened HostServices
  import opened HostSettled
  import opened HostUpkeep
  import opened HostWorld
  import opened Paths
  import opened Wrappers

  // ---- The backup of a node's domain, apart from all other files ----

  function NodeBackup(opts: Options, n: NodeConfig): Path {
    DomainBackupPath(XmlPath(opts, n), n.domain)
  }

  lemma BackupShape(opts: Options, n: NodeConfig)
    requires '/' !in n.domain
    ensures NodeBackup(opts, n) == XmlDir(opts, n) + [Normal(DOMAIN_XML + BACKUP_INFIX + (n.domain + DOMAIN_BACKUP))]
  {
    hide BackupPath, NodeDir;
    var x := XmlPath(opts, n);
    SuffixPlain(n.domain);
    XmlFileName(opts, n);
    BackupBeside(x, n.domain + DOMAIN_BACKUP);
    assert x[..|x| - 1] == XmlDir(opts, n);
  }

  function XmlDir(opts: Options, n: NodeConfig): Path {
    opts.artifactDir + NodeDir(n)
  }

  lemma LastDiffers(a: Path, x: Component, b: Path, y: Component)
    requires a + [x] == b + [y]
    ensures a == b
  {
    assert a == (a + [x])[..|a|];
    assert b == (b + [y])[..|b|];
    assert |a| == |b|;
  }

  lemma BackupsDiffer(turn: Turn, n: NodeConfig, m: NodeConfig)
    requires DomainsApart(turn.opts, turn.config.nodes) && n in turn.config.nodes && m in turn.config.nodes
    requires NodeBackup(turn.opts, n) == NodeBackup(turn.opts, m)
    ensures n == m
  {
    hide NodeBackup, NodeDir, DistinctDomains;
    BackupShape(turn.opts, n);
    BackupShape(turn.opts, m);
    LastDiffers(XmlDir(turn.opts, n), Normal(DOMAIN_XML + BACKUP_INFIX + (n.domain + DOMAIN_BACKUP)),
                XmlDir(turn.opts, m), Normal(DOMAIN_XML + BACKUP_INFIX + (m.domain + DOMAIN_BACKUP)));
    assert XmlPath(turn.opts, n) == XmlDir(turn.opts, n) + [Normal(DOMAIN_XML)];
    assert XmlPath(turn.opts, m) == XmlDir(turn.opts, m) + [Normal(DOMAIN_XML)];
  }

  /** No other goal's operation writes the backup of a node's domain. */
  lemma BackupApartFrom(turn: Turn, n: NodeConfig, h: Goal, op: Operation)
    requires WellFormed(turn) && n in turn.config.nodes
    requires IsGoal(turn.config, turn.opts, turn.lib, h) && OperationFor(turn, h, op) && h != Defined(n)
    ensures NodeBackup(turn.opts, n) !in FileTargets(op)
  {
    hide *;
    WellFormedFacts(turn);
    OperationForIs(turn, h, op);
    TargetsAre(op);
    PlainDomain(turn, n);
    NodeBackupIs(turn.opts, n);
    XmlBackupInside(turn, n);
    if h.Rendered? {
      GoalFile(turn.config, turn.opts, turn.lib, h.file);
      RenderedIsNoBackup(turn, h.file, XmlPath(turn.opts, n), n.domain);
    } else if h.DiskImage? || h.SeedWritten? {
      KeyPathIs(turn, h);
      KeyPlace(turn, h);
    } else if h.Installed? {
      GoalUnit(turn.config, turn.opts, turn.lib, h);
      UnitServed(turn, h.unit);
      ServeFacts(turn, h.unit);
      UnitOutside(SafetyFor(turn), h.unit.name);
      UnitBackupIs(turn, h.unit);
    } else if h.Defined? {
      GoalNode(turn.config, turn.opts, turn.lib, h);
      NodeBackupIs(turn.opts, h.node);
      if NodeBackup(turn.opts, n) == NodeBackup(turn.opts, h.node) {
        BackupsDiffer(turn, n, h.node);
      }
    } else if h.Enabled? {
      TouchesIs(op, h.unit.name);
    }
  }

  lemma NodeBackupIs(opts: Options, n: NodeConfig)
    ensures NodeBackup(opts, n) == DomainBackupPath(XmlPath(opts, n), n.domain)
  {
  }

  // ---- What the staged actions know of a domain ----

  predicate Holding(a: RollbackAction, d: string, b: Path) {
    a.RestoreDomain? && a.domain == d && a.backup == b
  }

  // Actions for other files and domains.
  predicate Foreign(a: RollbackAction, d: string, b: Path) {
    ActionPath(a) != b && (a.RestoreFile? ==> a.backup != b) && (a.RestoreDomain? ==> a.domain != d)
  }

  predicate ActionsKnown(actions: seq<RollbackAction>, d: string, b: Path) {
    forall a :: a in actions ==> Holding(a, d, b) || Foreign(a, d, b)
  }

  predicate HasHolder(actions: seq<RollbackAction>, d: string, b: Path) {
    exists a :: a in actions && Holding(a, d, b)
  }

  /** The definition at the start can still be had: from the backup, or because it is untouched. */
  predicate Definable(before: World, now: World, actions: seq<RollbackAction>, d: string, b: Path) {
    d in before.domains ==>
      && d in now.domains
      && (HasHolder(actions, d, b) ==> FileAt(now.fs, b) == Some(before.domains[d].xml))
      && (!HasHolder(actions, d, b) ==> now.domains[d].xml == before.domains[d].xml)
  }

  lemma AppendsExactly(env: Env, safety: ExecuteSafety, s: ExecState, op: Operation, faults: StepFaults)
    ensures var t := ExecOperation(env, safety, s, op, faults);
      || t.actions == s.actions
      || (&& |t.actions| == |s.actions| + 1
          && t.actions == s.actions + [t.actions[|s.actions|]]
          && AppendedBy(op, t.actions[|s.actions|]))
  {
    hide Validate, OnFiles, OperationEffect, WriteAtomic, Blocked, FileAt, BackupPath, DomainBackupPath, Staged;
  }

  // An operation for another goal.
  lemma OtherKeepsDefinable(
    turn: Turn, before: World, s: ExecState, op: Operation, faults: StepFaults, h: Goal, n: NodeConfig)
    requires WellFormed(turn) && n in turn.config.nodes
    requires IsGoal(turn.config, turn.opts, turn.lib, h) && OperationFor(turn, h, op) && h != Defined(n)
    requires Definable(before, s.world, s.actions, n.domain, NodeBackup(turn.opts, n))
    requires ActionsKnown(s.actions, n.domain, NodeBackup(turn.opts, n))
    ensures var t := ExecOperation(EnvFor(turn), SafetyFor(turn), s, op, faults);
      Definable(before, t.world, t.actions, n.domain, NodeBackup(turn.opts, n))
        && ActionsKnown(t.actions, n.domain, NodeBackup(turn.opts, n))
  {
    hide *;
    var env, safety, d, b := EnvFor(turn), SafetyFor(turn), n.domain, NodeBackup(turn.opts, n);
    var t := ExecOperation(env, safety, s, op, faults);
    BackupApartFrom(turn, n, h, op);
    NodesKept(env, safety, s, op, faults, b);
    DomainsAfter(env, safety, s, op, faults, d);
    NotDefining(turn, h, op, n);
    DefinesIs(op, d);
    AppendsExactly(env, safety, s, op, faults);
    if t.actions != s.actions {
      AppendedForeign(turn, h, op, n, t.actions[|s.actions|]);
      KnownAppend(s.actions, t.actions[|s.actions|], d, b);
    }
    KeepsDefinable(before, s.world, t.world, s.actions, t.actions, d, b);
  }

  lemma NotDefining(turn: Turn, h: Goal, op: Operation, n: NodeConfig)
    requires WellFormed(turn) && n in turn.config.nodes
    requires IsGoal(turn.config, turn.opts, turn.lib, h) && OperationFor(turn, h, op) && h != Defined(n)
    ensures !DefinesDomain(op, n.domain)
  {
    hide *;
    DefinedIsGoal(turn, n);
    DefinesOther(turn, h, op, Defined(n));
    DefinesIs(op, n.domain);
  }

  predicate DefinesDomain(op: Operation, d: string) {
    (op.DefineDomain? || op.RedefineDomain?) && op.domain == d
  }

  lemma DefinesIs(op: Operation, d: string)
    ensures DefinesDomain(op, d) <==> (op.DefineDomain? || op.RedefineDomain?) && op.domain == d
  {
  }

  // What an operation may append to the staged actions.
  predicate AppendedBy(op: Operation, a: RollbackAction) {
    || (op.InstallOrUpdateSystemdUnit? && ActionPath(a) == op.path && !a.RestoreDomain?
        && (a.RestoreFile? ==> a.backup == BackupPath(op.path, FILE_BACKUP)))
    || (op.RedefineDomain? && a.RestoreDomain? && a.domain == op.domain
        && a.backup == DomainBackupPath(op.xmlPath, op.domain))
  }

  lemma AppendedForeign(turn: Turn, h: Goal, op: Operation, n: NodeConfig, a: RollbackAction)
    requires WellFormed(turn) && n in turn.config.nodes
    requires IsGoal(turn.config, turn.opts, turn.lib, h) && OperationFor(turn, h, op) && h != Defined(n)
    requires AppendedBy(op, a)
    ensures Foreign(a, n.domain, NodeBackup(turn.opts, n))
  {
    hide WellFormed, IsGoal, OperationFor, NodeBackup, BackupPath, DomainBackupPath, FileTargets;
    BackupApartFrom(turn, n, h, op);
    TargetsAre(op);
    NotDefining(turn, h, op, n);
  }

  lemma KnownAppend(actions: seq<RollbackAction>, a: RollbackAction, d: string, b: Path)
    requires ActionsKnown(actions, d, b) && Foreign(a, d, b)
    ensures ActionsKnown(actions + [a], d, b)
    ensures HasHolder(actions + [a], d, b) <==> HasHolder(actions, d, b)
  {
    if HasHolder(actions, d, b) {
      var x :| x in actions && Holding(x, d, b);
      assert x in actions + [a];
    }
  }

  lemma KeepsDefinable(
    before: World, a: World, b: World, actions: seq<RollbackAction>, more: seq<RollbackAction>, d: string, p: Path)
    requires Definable(before, a, actions, d, p)
    requires HasHolder(more, d, p) <==> HasHolder(actions, d, p)
    requires FileAt(b.fs, p) == FileAt(a.fs, p)
    requires d in a.domains ==> d in b.domains && b.domains[d].xml == a.domains[d].xml
    ensures Definable(before, b, more, d, p)
  {
    hide HasHolder, FileAt;
  }

  // ---- The domain's own operation ----

  lemma StagedDomain(s: ExecState, d: string, xmlPath: Path, command: Command, xml: string, fault: Fault)
    requires ActionsKnown(s.actions, d, DomainBackupPath(xmlPath, d))
    ensures var t, b := StageDomain(s, d, xmlPath, command, Some(xml), fault), DomainBackupPath(xmlPath, d);
      && ActionsKnown(t.actions, d, b)
      && t.world.domains == s.world.domains
      && (HasHolder(s.actions, d, b) ==> t.actions == s.actions && t.world == s.world)
      && (!HasHolder(s.actions, d, b) && HasHolder(t.actions, d, b) ==> FileAt(t.world.fs, b) == Some(xml))
      && (t.ok ==> HasHolder(t.actions, d, b))
  {
    hide DomainBackupPath, WriteAtomic, FileAt;
    var b := DomainBackupPath(xmlPath, d);
    StagedMeansHeld(s.actions, d, b);
    var t := StageDomain(s, d, xmlPath, command, Some(xml), fault);
    if WriteAtomic(s.world.fs, b, xml).Some? {
      WriteReads(s.world.fs, b, xml);
    }
    if |t.actions| > |s.actions| {
      HoldAppend(s.actions, t.actions[|s.actions|], d, b);
    }
  }

  lemma StagedMeansHeld(actions: seq<RollbackAction>, d: string, b: Path)
    requires ActionsKnown(actions, d, b)
    ensures Staged(actions, b) <==> HasHolder(actions, d, b)
  {
    if Staged(actions, b) {
      var i :| 0 <= i < |actions| && ActionPath(actions[i]) == b;
      assert actions[i] in actions;
    }
    if HasHolder(actions, d, b) {
      var a :| a in actions && Holding(a, d, b);
      var i :| 0 <= i < |actions| && actions[i] == a;
      assert ActionPath(actions[i]) == b;
    }
  }

  lemma HoldAppend(actions: seq<RollbackAction>, a: RollbackAction, d: string, b: Path)
    requires ActionsKnown(actions, d, b) && Holding(a, d, b)
    ensures ActionsKnown(actions + [a], d, b) && HasHolder(actions + [a], d, b)
  {
    assert a in actions + [a];
  }

  lemma OwnKeepsDefinable(
    env: Env, safety: ExecuteSafety, before: World, s: ExecState, op: Operation, faults: StepFaults, b: Path)
    requires op.DefineDomain? ==> op.domain !in before.domains
    requires op.RedefineDomain? ==> op.domain in before.domains && op.previousXml == Some(before.domains[op.domain].xml)
    requires op.DefineDomain? || (op.RedefineDomain? && b == DomainBackupPath(op.xmlPath, op.domain))
    requires Definable(before, s.world, s.actions, op.domain, b) && ActionsKnown(s.actions, op.domain, b)
    ensures var t := ExecOperation(env, safety, s, op, faults);
      Definable(before, t.world, t.actions, op.domain, b) && ActionsKnown(t.actions, op.domain, b)
  {
    hide Validate, StageDomain, DomainBackupPath, FileAt, HasHolder, ActionsKnown;
    if op.RedefineDomain? {
      StagedDomain(s, op.domain, op.xmlPath, op.command, before.domains[op.domain].xml, faults.stage);
    }
  }

  lemma DefineKnows(
    ctx: Context, config: HostConfig, actual: ActualState, changed: set<string>, w: World, xmlPath: Path, d: string)
    requires ctx.opts.virsh != ctx.opts.systemctl
    requires DomainForXml(ctx.domains, xmlPath).Some? && DomainForXml(ctx.domains, xmlPath).value.domain == d
    requires d in actual.domains && actual.domains[d] == InspectDomain(w, d)
    ensures var step :=
      DecideStep(ctx, actual, RunStep(VirshCommand(config, ctx.opts, Define, PathArg(xmlPath)), None), changed);
      && (step.Apply? && step.operation.DefineDomain? ==> d !in w.domains)
      && (step.Apply? && step.operation.RedefineDomain? ==>
          d in w.domains && step.operation.previousXml == Some(w.domains[d].xml))
  {
    hide PathOf, DomainForXml, DecideSystemctl, OperationForCommand;
  }

  /** The planner redefines a domain only over the definition it saw, and defines one only where it saw none. */
  lemma PlannedDefinition(turn: Turn, w: World, i: nat)
    requires WellFormed(turn) && ToolsPresent(turn, w)
    requires i < |Goals(turn.config, turn.opts, turn.lib)| && Goals(turn.config, turn.opts, turn.lib)[i].Defined?
    ensures i < |PlanFor(turn, w)|
    ensures var d, step := Goals(turn.config, turn.opts, turn.lib)[i].node.domain, PlanFor(turn, w)[i];
      && (step.Apply? && step.operation.DefineDomain? ==> d !in w.domains)
      && (step.Apply? && step.operation.RedefineDomain? ==>
          d in w.domains && step.operation.previousXml == Some(w.domains[d].xml))
  {
    hide *;
    var config, opts, lib, actual := turn.config, turn.opts, turn.lib, Observe(turn, w);
    var g, ctx := Goals(config, opts, lib)[i], ContextOf(config, opts, lib);
    WellFormedFacts(turn);
    ContextOptions(config, opts, lib);
    PlanIs(turn, w);
    PlanLength(config, opts, lib, actual);
    PlanStepAt(config, opts, lib, actual, i);
    StepIs(config, opts, lib, g);
    GoalNode(config, opts, lib, g);
    NonEmpty(config.nodes, g.node);
    ToolAt(turn, w, i);
    HasToolIs(opts, w, g);
    ToolOfIs(opts, g);
    DomainObserved(turn, w, g.node);
    XmlServes(turn, ctx.domains, g.node);
    ServedDomain(config, opts, lib, g.node, DomainForXml(ctx.domains, XmlPath(opts, g.node)).value);
    DefineKnows(ctx, config, actual, ChangedTo(config, opts, lib, actual, i), w, XmlPath(opts, g.node), g.node.domain);
  }

  // ---- The run, and its undoing ----

  lemma {:induction false} RunDefinable(
    turn: Turn, w: World, env: Env, safety: ExecuteSafety, plan: seq<ReconcileStep>, steps: nat -> StepFaults, k: nat,
    n: NodeConfig)
    requires WellFormed(turn) && ToolsPresent(turn, w)
    requires env == EnvFor(turn) && safety == SafetyFor(turn) && plan == PlanFor(turn, w)
    requires n in turn.config.nodes && k <= |plan|
    ensures var s := RunTo(env, safety, w, plan, steps, k);
      Definable(w, s.world, s.actions, n.domain, NodeBackup(turn.opts, n))
        && ActionsKnown(s.actions, n.domain, NodeBackup(turn.opts, n))
  {
    hide *;
    var d, b := n.domain, NodeBackup(turn.opts, n);
    RunToIs(env, safety, w, plan, steps, k);
    if k == 0 {
      StartDefinable(w, d, b);
    } else {
      RunDefinable(turn, w, env, safety, plan, steps, k - 1, n);
      var s := RunTo(env, safety, w, plan, steps, k - 1);
      ExecStepIs(env, safety, s, plan[k - 1], steps(k - 1));
      PlanIs(turn, w);
      PlanLength(turn.config, turn.opts, turn.lib, Observe(turn, w));
      if plan[k - 1].Apply? {
        var h, op := Goals(turn.config, turn.opts, turn.lib)[k - 1], plan[k - 1].operation;
        GoalAt(turn, k - 1);
        PlannedOperation(turn, w, k - 1);
        if h == Defined(n) {
          OperationForIs(turn, h, op);
          PlannedDefinition(turn, w, k - 1);
          NodeBackupIs(turn.opts, n);
          OwnKeepsDefinable(env, safety, w, s, op, steps(k - 1), b);
        } else {
          OtherKeepsDefinable(turn, w, s, op, steps(k - 1), h, n);
        }
      }
    }
  }

  lemma StartDefinable(w: World, d: string, b: Path)
    ensures Definable(w, w, [], d, b) && ActionsKnown([], d, b) && !HasHolder([], d, b)
  {
  }

  lemma UndoDefinable(before: World, w: World, actions: seq<RollbackAction>, k: nat, d: string, b: Path)
    requires 0 < k <= |actions| && ActionsKnown(actions, d, b)
    requires Definable(before, w, actions[..k], d, b) && OneHolder(actions, d, b)
    requires UndoEffect(w, actions[k - 1]).Some?
    ensures Definable(before, UndoEffect(w, actions[k - 1]).value, actions[..k - 1], d, b)
  {
    hide DefineEffect, RenameNode, RemoveNode, Definable, ActionsKnown;
    var a := actions[k - 1];
    KnownAt(actions, k - 1, d, b);
    HolderSplit(actions, k, d, b);
    if Holding(a, d, b) {
      RestoresOwn(before, w, actions, k, a, d, b);
    } else {
      UndoForeign(w, a, d, b);
      KeepsDefinable(before, w, UndoEffect(w, a).value, actions[..k], actions[..k - 1], d, b);
    }
  }

  // A path is staged once, so a domain's backup is held once.
  predicate OneHolder(actions: seq<RollbackAction>, d: string, b: Path) {
    forall i, j :: 0 <= i < j < |actions| ==> !(Holding(actions[i], d, b) && Holding(actions[j], d, b))
  }

  lemma KnownAt(actions: seq<RollbackAction>, i: nat, d: string, b: Path)
    requires i < |actions| && ActionsKnown(actions, d, b)
    ensures Holding(actions[i], d, b) || Foreign(actions[i], d, b)
  {
    hide Holding, Foreign;
    assert actions[i] in actions;
  }

  lemma HolderSplit(actions: seq<RollbackAction>, k: nat, d: string, b: Path)
    requires 0 < k <= |actions| && OneHolder(actions, d, b)
    ensures HasHolder(actions[..k], d, b) <==> HasHolder(actions[..k - 1], d, b) || Holding(actions[k - 1], d, b)
    ensures Holding(actions[k - 1], d, b) ==> !HasHolder(actions[..k - 1], d, b)
  {
    hide Holding;
    var front, a := actions[..k - 1], actions[k - 1];
    assert actions[..k] == front + [a];
    if HasHolder(front, d, b) {
      var x :| x in front && Holding(x, d, b);
      assert x in actions[..k];
    }
    if Holding(a, d, b) {
      assert a in actions[..k];
    }
  }

  lemma RestoresOwn(
    before: World, w: World, actions: seq<RollbackAction>, k: nat, a: RollbackAction, d: string, b: Path)
    requires 0 < k <= |actions| && a == actions[k - 1] && Holding(a, d, b)
    requires Definable(before, w, actions[..k], d, b) && HasHolder(actions[..k], d, b)
    requires !HasHolder(actions[..k - 1], d, b)
    requires UndoEffect(w, a).Some?
    ensures Definable(before, UndoEffect(w, a).value, actions[..k - 1], d, b)
  {
    hide HasHolder, FileAt;
  }

  lemma UndoForeign(w: World, a: RollbackAction, d: string, b: Path)
    requires Foreign(a, d, b) && UndoEffect(w, a).Some?
    ensures var after := UndoEffect(w, a).value;
      && FileAt(after.fs, b) == FileAt(w.fs, b)
      && (d in w.domains ==> d in after.domains && after.domains[d].xml == w.domains[d].xml)
  {
  }

  lemma {:induction false} RestoreDefinable(
    before: World, w: World, actions: seq<RollbackAction>, undo: nat -> Fault, k: nat, d: string, b: Path)
    requires k <= |actions| && ActionsKnown(actions, d, b) && OneHolder(actions, d, b)
    requires Definable(before, w, actions[..k], d, b)
    ensures Restore(w, actions, undo, k).ok ==> Definable(before, Restore(w, actions, undo, k).world, [], d, b)
    decreases k
  {
    hide Definable, ActionsKnown, OneHolder, UndoEffect;
    if k == 0 {
      assert actions[..0] == [];
    } else {
      var effect := UndoEffect(w, actions[k - 1]);
      if Attempt(w, effect, undo(k - 1)).ok {
        UndoDefinable(before, w, actions, k, d, b);
        RestoreDefinable(before, effect.value, actions, undo, k - 1, d, b);
      }
    }
  }

  lemma DistinctPathsHoldOnce(safety: ExecuteSafety, actions: seq<RollbackAction>, d: string, b: Path)
    requires WellFormedActions(safety, actions)
    ensures OneHolder(actions, d, b)
  {
    hide WellFormedAction;
    forall i, j | 0 <= i < j < |actions|
      ensures !(Holding(actions[i], d, b) && Holding(actions[j], d, b))
    {
      assert ActionPath(actions[i]) != ActionPath(actions[j]);
    }
  }

  /**
   * A planned run of a well-formed configuration that was rolled back leaves every domain it found defined as it was.
   */
  lemma RollbackRestoresDomains(turn: Turn, w: World, n: NodeConfig)
    requires WellFormed(turn) && n in turn.config.nodes
    requires Cycle(turn, w).outcome.RolledBack?
    requires n.domain in w.domains
    ensures n.domain in Cycle(turn, w).world.domains
    ensures Cycle(turn, w).world.domains[n.domain].xml == w.domains[n.domain].xml
  {
    hide *;
    CycleIs(turn, w);
    WellFormedFacts(turn);
    NoRefusalHasTools(turn, w);
    var env, safety, plan := EnvFor(turn), SafetyFor(turn), PlanFor(turn, w);
    var d, b := n.domain, NodeBackup(turn.opts, n);
    RunDefinable(turn, w, env, safety, plan, turn.schedule.steps, |plan|, n);
    RunWellFormed(env, safety, w, plan, turn.schedule.steps, |plan|);
    var ran := RunTo(env, safety, w, plan, turn.schedule.steps, |plan|);
    DistinctPathsHoldOnce(safety, ran.actions, d, b);
    assert ran.actions[..|ran.actions|] == ran.actions;
    RestoreDefinable(w, ran.world, ran.actions, turn.schedule.undo, |ran.actions|, d, b);
    RolledBackIs(env, safety, w, plan, turn.schedule);
    DefinableEnd(w, Cycle(turn, w).world, d, b);
  }

  lemma RolledBackIs(env: Env, safety: ExecuteSafety, w: World, plan: seq<ReconcileStep>, schedule: Schedule)
    requires Execute(env, safety, w, plan, schedule).outcome.RolledBack?
    ensures var ran := RunTo(env, safety, w, plan, schedule.steps, |plan|);
      var undone := Restore(ran.world, ran.actions, schedule.undo, |ran.actions|);
      undone.ok && Execute(env, safety, w, plan, schedule).world == undone.world
  {
    hide RunTo, Commit, Restore;
  }

  lemma DefinableEnd(before: World, now: World, d: string, b: Path)
    requires Definable(before, now, [], d, b) && d in before.domains
    ensures d in now.domains && now.domains[d].xml == before.domains[d].xml
  {
    StartDefinable(now, d, b);
    hide FileAt;
  }
}
