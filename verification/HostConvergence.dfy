/** Convergence: after a cycle that runs to its end, the next plan has nothing to do. */
module HostConvergence {
  import opened HostCycle
  import opened HostDisks
  import opened HostExecutor
  import opened HostFrame
  import opened HostGoals
  import opened HostModel
  import opened HostPlanned
  import opened HostPlanner
  import opened HostRollback
  import opened HostServices
  import opened HostSettled
  import opened HostUpkeep
  import opened HostWorld
  import opened Paths

  // ---- Committing touches no goal ----

  // Writing a goal's own file stages nothing.
  lemma OwnActions(
    turn: Turn, env: Env, safety: ExecuteSafety, s: ExecState, op: Operation, faults: StepFaults, g: Goal)
    requires KeyPath(turn, g).Some? && OperationFor(turn, g, op)
    ensures ExecOperation(env, safety, s, op, faults).actions == s.actions
  {
    hide *;
    OperationForIs(turn, g, op);
    KeyPathIs(turn, g);
    StagesNothing(env, safety, s, op, faults);
  }

  lemma StagesNothing(env: Env, safety: ExecuteSafety, s: ExecState, op: Operation, faults: StepFaults)
    requires !op.InstallOrUpdateSystemdUnit? && !op.RedefineDomain?
    ensures ExecOperation(env, safety, s, op, faults).actions == s.actions
  {
    hide Validate, OperationEffect, Attempt;
  }

  // No staged action of the run is about a goal's file.
  lemma {:induction false} RunActionsApart(
    turn: Turn, w: World, env: Env, safety: ExecuteSafety, plan: seq<ReconcileStep>, steps: nat -> StepFaults, n: nat,
    g: Goal)
    requires WellFormed(turn)
    requires plan == PlanFor(turn, w) && n <= |plan|
    requires IsGoal(turn.config, turn.opts, turn.lib, g) && KeyPath(turn, g).Some?
    ensures ActionsWithin(RunTo(env, safety, w, plan, steps, n).actions, AllBut(KeyPath(turn, g).value))
  {
    hide *;
    RunToIs(env, safety, w, plan, steps, n);
    var others := AllBut(KeyPath(turn, g).value);
    if n == 0 {
      NoActions(others);
    } else {
      RunActionsApart(turn, w, env, safety, plan, steps, n - 1, g);
      var s := RunTo(env, safety, w, plan, steps, n - 1);
      ExecStepIs(env, safety, s, plan[n - 1], steps(n - 1));
      PlanIs(turn, w);
      PlanLength(turn.config, turn.opts, turn.lib, Observe(turn, w));
      if plan[n - 1].Apply? {
        var h, op := Goals(turn.config, turn.opts, turn.lib)[n - 1], plan[n - 1].operation;
        GoalAt(turn, n - 1);
        PlannedOperation(turn, w, n - 1);
        if g == h {
          OwnActions(turn, env, safety, s, op, steps(n - 1), g);
        } else {
          WritesApart(turn, h, op, g);
          CoversAllBut(op, KeyPath(turn, g).value);
          OperationConfined(env, safety, s, op, steps(n - 1), others, Everywhere());
        }
      }
    }
  }

  lemma NoActions(files: iset<Path>)
    ensures ActionsWithin([], files)
  {
  }

  lemma CoversAllBut(op: Operation, p: Path)
    requires p !in FileTargets(op)
    ensures Covers(AllBut(p), Everywhere(), op)
  {
    hide FileTargets;
  }

  lemma CommitKeepsKey(w: World, actions: seq<RollbackAction>, discard: nat -> Fault, k: nat, p: Path)
    requires k <= |actions| && ActionsWithin(actions, AllBut(p))
    ensures FileAt(Commit(w, actions, discard, k).world.fs, p) == FileAt(w.fs, p)
    ensures InfoAt(Commit(w, actions, discard, k).world, p) == InfoAt(w, p)
  {
    hide Commit, ActionsWithin;
    CommitConfined(w, actions, discard, k, AllBut(p), Everywhere());
    KeptFile(w.fs, Commit(w, actions, discard, k).world.fs, AllBut(p), p);
    KeptDisk(w, Commit(w, actions, discard, k).world, AllBut(p), p);
  }

  lemma CommitKeepsDirectory(w: World, actions: seq<RollbackAction>, discard: nat -> Fault, k: nat, p: Path)
    requires k <= |actions| && IsDirectoryAt(w.fs, p)
    ensures IsDirectoryAt(Commit(w, actions, discard, k).world.fs, p)
  {
    hide Commit, ActionWithin;
    assert forall a :: a in actions ==> ActionWithin(a, Everywhere()) by { hide *; AnyWithin(actions); }
    CommitConfined(w, actions, discard, k, Everywhere(), Everywhere());
  }

  lemma AnyWithin(actions: seq<RollbackAction>)
    ensures forall a :: a in actions ==> ActionWithin(a, Everywhere())
  {
  }

  lemma {:induction false} CommitKeepsDomains(w: World, actions: seq<RollbackAction>, discard: nat -> Fault, k: nat)
    requires k <= |actions|
    ensures Commit(w, actions, discard, k).world.domains == w.domains
    ensures Commit(w, actions, discard, k).world.tools == w.tools
  {
    hide RemoveNode;
    if k > 0 {
      CommitKeepsDomains(w, actions, discard, k - 1);
    }
  }

  lemma SameDomains(a: World, b: World, d: string)
    requires a.domains == b.domains
    ensures DomainGrows(a, b, d)
  {
  }

  lemma CommitKeepsAspect(turn: Turn, w: World, actions: seq<RollbackAction>, discard: nat -> Fault, g: Goal)
    requires KeyPath(turn, g).Some? ==> ActionsWithin(actions, AllBut(KeyPath(turn, g).value))
    ensures SameAspect(turn, w, Commit(w, actions, discard, |actions|).world, g)
  {
    hide *;
    var now := Commit(w, actions, discard, |actions|).world;
    CommitKeepsDomains(w, actions, discard, |actions|);
    if KeyPath(turn, g).Some? {
      CommitKeepsKey(w, actions, discard, |actions|, KeyPath(turn, g).value);
    }
    if g.DiskDirectory? && IsDirectoryAt(w.fs, ParentDirectory(g.node.rootDisk.image)) {
      CommitKeepsDirectory(w, actions, discard, |actions|, ParentDirectory(g.node.rootDisk.image));
    }
    if g.Defined? || g.Autostarted? || g.Started? {
      SameDomains(w, now, g.node.domain);
    }
    SameAspectIs(turn, w, now, g);
  }

  // ---- The end of a committed cycle ----

  /** What lasts: a goal the host had, a disk whose size fits in 64 bits of bytes, a domain name without the marker. */
  predicate Lasts(turn: Turn, w: World, g: Goal) {
    Holds(turn, w, g) || ((g.DiskImage? ==> Fits(g.node)) && (g.Defined? ==> Readable(g.node)))
  }

  predicate Finished(turn: Turn, w: World) {
    Cycle(turn, w).outcome.Committed? || Cycle(turn, w).outcome.CommitFailed?
  }

  lemma FinishedIs(turn: Turn, w: World)
    requires Finished(turn, w)
    ensures Ready(turn) && ExportsResolve(turn.config) && !HasRefusals(PlanFor(turn, w))
    ensures var ran :=
      RunTo(EnvFor(turn), SafetyFor(turn), w, PlanFor(turn, w), turn.schedule.steps, |PlanFor(turn, w)|);
      ran.ok && Cycle(turn, w).world == Commit(ran.world, ran.actions, turn.schedule.discard, |ran.actions|).world
  {
    hide Cycle, Ready, PlanFor, SafetyFor, RunTo, Commit, HasRefusals, Execute;
    CycleIs(turn, w);
    ExecuteIs(EnvFor(turn), SafetyFor(turn), w, PlanFor(turn, w), turn.schedule);
  }

  lemma LastingEnd(turn: Turn, w: World, g: Goal)
    requires WellFormed(turn) && NoCollisions(turn, w) && Finished(turn, w)
    requires IsGoal(turn.config, turn.opts, turn.lib, g) && Lasting(g)
    ensures Kept(turn, w, Cycle(turn, w).world, g)
  {
    hide *;
    FinishedIs(turn, w);
    var env, safety, plan := EnvFor(turn), SafetyFor(turn), PlanFor(turn, w);
    var ran := RunTo(env, safety, w, plan, turn.schedule.steps, |plan|);
    RunKeepsGoal(turn, w, env, safety, plan, turn.schedule.steps, |plan|, g);
    GoalKeptIs(turn, w, ran.world, |plan|, g);
    PlanIs(turn, w);
    PlanLength(turn.config, turn.opts, turn.lib, Observe(turn, w));
    var i := GoalStep(turn, g);
    PassedAt(turn, |plan|, g, i);
    if KeyPath(turn, g).Some? {
      RunActionsApart(turn, w, env, safety, plan, turn.schedule.steps, |plan|, g);
    }
    CommitKeepsAspect(turn, ran.world, ran.actions, turn.schedule.discard, g);
    AspectKeeps(turn, w, ran.world, Cycle(turn, w).world, g);
  }

  lemma ServiceEnd(turn: Turn, w: World, g: Goal)
    requires WellFormed(turn) && Finished(turn, w)
    requires IsGoal(turn.config, turn.opts, turn.lib, g) && !Lasting(g)
    ensures Holds(turn, Cycle(turn, w).world, g)
  {
    hide *;
    LastingIs(g);
    HoldsIs(turn, Cycle(turn, w).world, g);
    if g.Installed? || g.Enabled? {
      GoalUnit(turn.config, turn.opts, turn.lib, g);
      UnitServed(turn, g.unit);
      FinishedOutcome(turn, w);
      CommittedUnit(turn, w, g.unit);
      SettledRuns(turn, w, Cycle(turn, w).world, g.unit);
    }
  }

  lemma FinishedOutcome(turn: Turn, w: World)
    ensures Finished(turn, w) <==> Cycle(turn, w).outcome.Committed? || Cycle(turn, w).outcome.CommitFailed?
  {
    hide Cycle;
  }

  lemma SettledRuns(turn: Turn, w: World, now: World, unit: UnitFile)
    requires FileOf(turn, now, unit) == SettledFile(turn, w, unit) && UnitOf(now, unit.name) == Settled(turn, w, unit)
    ensures HasFile(turn.lib, now, UnitPath(turn.opts, unit.name), unit.contents) && Runs(now, unit.name)
  {
    hide UnitPath, FileAt;
  }

  lemma GoalEnd(turn: Turn, w: World, g: Goal)
    requires WellFormed(turn) && NoCollisions(turn, w) && Finished(turn, w)
    requires PrintsHashes(turn.lib) && RendersDomains(turn.lib) && IsGoal(turn.config, turn.opts, turn.lib, g)
    ensures Holds(turn, Cycle(turn, w).world, g) <==> Lasts(turn, w, g)
  {
    hide *;
    var now := Cycle(turn, w).world;
    LastsIs(turn, w, g);
    LastingIs(g);
    if Lasting(g) {
      LastingEnd(turn, w, g);
      KeptIs(turn, w, now, g);
      MadeIs(turn, now, g);
      HoldsIs(turn, now, g);
      if g.DiskImage? && Made(turn, now, g) {
        MadeDiskHolds(now, g.node);
      } else if g.Defined? && Made(turn, now, g) {
        DefinedIs(turn, now, g);
        MadeDomainHolds(turn.config, turn.opts, turn.lib, now, g.node);
      } else if g.Rendered? || g.SeedWritten? {
        MadeFile(turn, now, g);
      }
    } else {
      ServiceEnd(turn, w, g);
    }
  }

  lemma LastsIs(turn: Turn, w: World, g: Goal)
    ensures Lasts(turn, w, g) <==>
      Holds(turn, w, g) || ((g.DiskImage? ==> Fits(g.node)) && (g.Defined? ==> Readable(g.node)))
  {
    hide Holds, Fits, Readable;
  }

  lemma MadeFile(turn: Turn, w: World, g: Goal)
    requires (g.Rendered? || g.SeedWritten?)
    ensures Made(turn, w, g) ==> Holds(turn, w, g)
  {
    hide Files, Seed, SeedContents, FileAt;
  }

  predicate AllLast(turn: Turn, w: World) {
    forall i :: 0 <= i < |Goals(turn.config, turn.opts, turn.lib)| ==>
      Lasts(turn, w, Goals(turn.config, turn.opts, turn.lib)[i])
  }

  /**
   * After a cycle of a well-formed configuration that ran all its steps, inspecting and planning again gives nothing
   * but skips, exactly when every disk it had to create or grow fits in 64 bits of bytes and no domain it had to
   * define bears the marker text in its name.
   */
  lemma Converges(turn: Turn, w: World)
    requires WellFormed(turn) && NoCollisions(turn, w) && PrintsHashes(turn.lib) && RendersDomains(turn.lib)
    requires Finished(turn, w)
    ensures AllSkip(PlanFor(turn, Cycle(turn, w).world)) <==> AllLast(turn, w)
  {
    hide WellFormed, NoCollisions, PrintsHashes, RendersDomains, Finished, AllSkip, PlanFor, Cycle, Goals, Holds;
    hide Lasts, ToolsPresent, IsGoal;
    var now := Cycle(turn, w).world;
    ToolsStay(turn, w);
    NothingToDo(turn, now);
    forall i | 0 <= i < |Goals(turn.config, turn.opts, turn.lib)|
      ensures Holds(turn, now, Goals(turn.config, turn.opts, turn.lib)[i]) <==>
        Lasts(turn, w, Goals(turn.config, turn.opts, turn.lib)[i])
    {
      GoalAt(turn, i);
      GoalEnd(turn, w, Goals(turn.config, turn.opts, turn.lib)[i]);
    }
  }

  lemma {:induction false} RunKeepsTools(
    env: Env, safety: ExecuteSafety, w: World, plan: seq<ReconcileStep>, steps: nat -> StepFaults, n: nat)
    requires n <= |plan|
    ensures RunTo(env, safety, w, plan, steps, n).world.tools == w.tools
  {
    hide ExecOperation;
    if n > 0 {
      RunKeepsTools(env, safety, w, plan, steps, n - 1);
      if plan[n - 1].Apply? {
        DomainsAfter(env, safety, RunTo(env, safety, w, plan, steps, n - 1), plan[n - 1].operation, steps(n - 1), "");
      }
    }
  }

  lemma ToolsStay(turn: Turn, w: World)
    requires WellFormed(turn) && Finished(turn, w)
    ensures ToolsPresent(turn, Cycle(turn, w).world)
  {
    hide *;
    FinishedIs(turn, w);
    NoRefusalHasTools(turn, w);
    var env, safety, plan := EnvFor(turn), SafetyFor(turn), PlanFor(turn, w);
    var ran := RunTo(env, safety, w, plan, turn.schedule.steps, |plan|);
    RunKeepsTools(env, safety, w, plan, turn.schedule.steps, |plan|);
    CommitKeepsDomains(ran.world, ran.actions, turn.schedule.discard, |ran.actions|);
    SameTools(turn, w, Cycle(turn, w).world);
  }

  lemma SameTools(turn: Turn, a: World, b: World)
    requires ToolsPresent(turn, a) && a.tools == b.tools
    ensures ToolsPresent(turn, b)
  {
    hide Goals;
  }
}
