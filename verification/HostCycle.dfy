/** One cycle of the agent: flatten the configuration, inspect the host, decide each step, execute under the guard. */
module HostCycle {
  import opened HostExecutor
  import opened HostGoals
  import opened HostModel
  import opened HostPlanner
  import opened HostWorld
  import opened Paths
  import opened Wrappers

  /** What one cycle is run with. */
  datatype Turn = Turn(
    config: HostConfig, opts: Options, lib: Library, imageBytes: DiskInfo -> string, schedule: Schedule)

  function Observe(turn: Turn, w: World): ActualState {
    Inspect(w, turn.config, ApplyPlan(turn.config, turn.opts, turn.lib), turn.opts, turn.lib)
  }

  function PlanFor(turn: Turn, w: World): seq<ReconcileStep> {
    Plan(turn.config, turn.opts, turn.lib, Observe(turn, w))
  }

  // A configuration that does not resolve, or that the guard cannot be built from, executes nothing.
  predicate Ready(turn: Turn) {
    ExportsResolve(turn.config) && FromConfig(turn.config, turn.opts).Some?
  }

  // The guard of a ready turn.
  function SafetyFor(turn: Turn): ExecuteSafety {
    SafetyOf(turn.config.nodes, turn.opts)
  }

  function EnvFor(turn: Turn): Env {
    Env(turn.opts, turn.imageBytes)
  }

  function Cycle(turn: Turn, w: World): Executed {
    if Ready(turn) then Execute(EnvFor(turn), SafetyFor(turn), w, PlanFor(turn, w), turn.schedule)
    else Executed(w, Refused)
  }

  function Cycles(turns: seq<Turn>, w: World): World {
    if turns == [] then w else Cycle(turns[|turns| - 1], Cycles(turns[..|turns| - 1], w)).world
  }

  // ---- The inspection records what the planner looks up ----

  lemma GoalStep(turn: Turn, g: Goal) returns (i: nat)
    requires IsGoal(turn.config, turn.opts, turn.lib, g)
    ensures i < |ApplyPlan(turn.config, turn.opts, turn.lib)|
    ensures ApplyPlan(turn.config, turn.opts, turn.lib)[i] == StepOf(turn.config, turn.opts, turn.lib, g)
    ensures |Goals(turn.config, turn.opts, turn.lib)| == |ApplyPlan(turn.config, turn.opts, turn.lib)|
    ensures Goals(turn.config, turn.opts, turn.lib)[i] == g
  {
    hide ApplyPlan, Goals, StepOf, IsGoal;
    PlanServesGoals(turn.config, turn.opts, turn.lib);
    GoalsAre(turn.config, turn.opts, turn.lib, g);
    var goals := Goals(turn.config, turn.opts, turn.lib);
    i :| 0 <= i < |goals| && goals[i] == g;
  }

  lemma InspectsPath(w: World, config: HostConfig, steps: seq<ApplyStep>, opts: Options, lib: Library, i: nat, p: Path)
    requires i < |steps| && p in StepPaths(steps[i])
    ensures PathOf(Inspect(w, config, steps, opts, lib), p) == InspectPath(w, lib, p)
  {
    hide InspectPath, InspectedImages, ImageOf, InspectUnit, InspectDomain, ServiceNames, Programs, StepPaths;
    hide SourceImages;
    assert p in StepsPaths(steps);
  }

  lemma InspectsTool(w: World, config: HostConfig, steps: seq<ApplyStep>, opts: Options, lib: Library, i: nat)
    requires i < |steps| && steps[i].RunStep?
    ensures steps[i].command.program in Inspect(w, config, steps, opts, lib).tools <==>
      steps[i].command.program in w.tools
  {
    hide InspectPath, InspectedImages, ImageOf, InspectUnit, InspectDomain, ServiceNames, InspectedPaths;
    assert steps[i].command.program in Programs(steps);
  }

  lemma InspectsImage(w: World, config: HostConfig, steps: seq<ApplyStep>, opts: Options, lib: Library, i: nat)
    requires i < |steps| && steps[i].RunStep? && steps[i].creates.Some?
    requires FirstArg(steps[i].command) == Some(Fixed(QemuCreate)) && steps[i].command.program in w.tools
    ensures var p, images := steps[i].creates.value, Inspect(w, config, steps, opts, lib).images;
      (p in images <==> ImageOf(w, p).Some?) && (p in images ==> images[p] == ImageOf(w, p).value)
  {
    hide InspectPath, ImageOf, InspectUnit, InspectDomain, ServiceNames, InspectedPaths, Programs, SourceImages;
    hide FirstArg;
    assert steps[i].creates.value in InspectedImages(w, config, steps, opts);
  }

  lemma InspectsUnit(
    w: World, config: HostConfig, steps: seq<ApplyStep>, opts: Options, lib: Library, i: nat, u: string)
    requires i < |steps| && !steps[i].RunStep? && FileName(steps[i].path) == Some(u) && IsServiceName(u)
    ensures var actual := Inspect(w, config, steps, opts, lib);
      u in actual.units && actual.units[u] == InspectUnit(w, opts, opts.systemctl in actual.tools, u)
  {
    hide InspectPath, ImageOf, InspectUnit, InspectDomain, InspectedPaths, InspectedImages, Programs, SourceImages;
    hide IsServiceName;
    assert u in ServiceNames(steps);
  }

  lemma InspectsDomain(
    w: World, config: HostConfig, steps: seq<ApplyStep>, opts: Options, lib: Library, i: nat, n: NodeConfig)
    requires i < |steps| && steps[i].RunStep? && steps[i].command.program == opts.virsh && opts.virsh in w.tools
    requires n in config.nodes
    ensures var domains := Inspect(w, config, steps, opts, lib).domains;
      n.domain in domains && domains[n.domain] == InspectDomain(w, n.domain)
  {
    hide InspectPath, ImageOf, InspectUnit, InspectDomain, InspectedPaths, InspectedImages, ServiceNames;
    hide SourceImages;
    assert steps[i].command.program in Programs(steps);
    assert n.domain in set m | m in config.nodes :: m.domain;
  }

  lemma ReadyIs(turn: Turn)
    requires Ready(turn)
    ensures ExportsResolve(turn.config) && FromConfig(turn.config, turn.opts) == Some(SafetyFor(turn))
  {
    hide CheckedPath, NodeChecked, SafetyOf, ExportsResolve;
  }

  lemma PlanIs(turn: Turn, w: World)
    ensures PlanFor(turn, w) == Plan(turn.config, turn.opts, turn.lib, Observe(turn, w))
  {
    hide Plan, Observe;
  }

  /** A plan with any refusal changes nothing. */
  lemma RefusedCycle(turn: Turn, w: World, i: nat)
    requires Ready(turn) && i < |PlanFor(turn, w)| && PlanFor(turn, w)[i].Refuse?
    ensures Cycle(turn, w) == Executed(w, Refused)
  {
    hide Ready, PlanFor, SafetyFor;
  }
}
