/** The agent's inspection, filling its maps step by step. */
module HostInspection {
  import opened HostModel
  import opened HostPlanner
  import opened HostWorld
  import opened Paths
  import opened Wrappers

  function PathMap(w: World, lib: Library, paths: set<Path>): map<Path, PathState> {
    map p | p in paths :: InspectPath(w, lib, p)
  }

  lemma PathMapGrows(w: World, lib: Library, paths: set<Path>, p: Path)
    ensures PathMap(w, lib, paths + {p}) == PathMap(w, lib, paths)[p := InspectPath(w, lib, p)]
  {
    hide InspectPath;
  }

  lemma StepsPathsGrow(steps: seq<ApplyStep>, i: nat)
    requires i < |steps|
    ensures StepsPaths(steps[..i + 1]) == StepsPaths(steps[..i]) + StepPaths(steps[i])
  {
    hide StepPaths;
    var a, b := steps[..i + 1], steps[..i];
    assert forall k :: 0 <= k < i ==> a[k] == b[k];
    assert a[i] == steps[i];
  }

  lemma NamesGrow(steps: seq<ApplyStep>, i: nat)
    requires i < |steps|
    ensures ServiceNames(steps[..i + 1]) == ServiceNames(steps[..i]) + ServiceNames([steps[i]])
    ensures Programs(steps[..i + 1])
      == Programs(steps[..i]) + (if steps[i].RunStep? then {steps[i].command.program} else {})
  {
    hide FileName, IsServiceName;
    var a, b, c := steps[..i + 1], steps[..i], [steps[i]];
    assert forall k :: 0 <= k < i ==> a[k] == b[k];
    assert a[i] == steps[i] == c[0];
  }

  /** The paths of the steps and the base images, the service names, and the programs the steps run. */
  method InspectPaths(w: World, config: HostConfig, steps: seq<ApplyStep>, lib: Library)
    returns (paths: map<Path, PathState>, services: set<string>, programs: set<string>)
    ensures paths == PathMap(w, lib, InspectedPaths(config, steps))
    ensures services == ServiceNames(steps) && programs == Programs(steps)
  {
    hide InspectPath, PathMap, StepsPaths, ServiceNames, Programs, FileName, IsServiceName;
    paths, services, programs := map[], {}, {};
    NothingYet(w, lib);
    for i := 0 to |steps|
      invariant paths == PathMap(w, lib, StepsPaths(steps[..i]))
      invariant services == ServiceNames(steps[..i]) && programs == Programs(steps[..i])
    {
      StepsPathsGrow(steps, i);
      NamesGrow(steps, i);
      OneName(steps[i]);
      match steps[i] {
        case RunStep(command, creates) =>
          programs := programs + {command.program};
          assert StepsPaths(steps[..i + 1]) == StepsPaths(steps[..i]) + (if creates.Some? then {creates.value} else {});
          if creates.Some? {
            PathMapGrows(w, lib, StepsPaths(steps[..i]), creates.value);
            paths := paths[creates.value := InspectPath(w, lib, creates.value)];
          } else {
            assert StepsPaths(steps[..i + 1]) == StepsPaths(steps[..i]);
          }
        case _ =>
          var path := steps[i].path;
          assert StepsPaths(steps[..i + 1]) == StepsPaths(steps[..i]) + {path};
          PathMapGrows(w, lib, StepsPaths(steps[..i]), path);
          paths := paths[path := InspectPath(w, lib, path)];
          if FileName(path).Some? && IsServiceName(FileName(path).value) {
            services := services + {FileName(path).value};
          }
      }
    }
    assert steps[..|steps|] == steps;
    var nodes := config.nodes;
    assert StepsPaths(steps) + SourceImages(nodes[..0]) == StepsPaths(steps);
    for i := 0 to |nodes|
      invariant paths == PathMap(w, lib, StepsPaths(steps) + SourceImages(nodes[..i]))
    {
      SourcesGrow(nodes, i);
      if nodes[i].rootDisk.sourceImage.Some? {
        var source := nodes[i].rootDisk.sourceImage.value;
        PathMapGrows(w, lib, StepsPaths(steps) + SourceImages(nodes[..i]), source);
        assert StepsPaths(steps) + SourceImages(nodes[..i]) + {source}
          == StepsPaths(steps) + (SourceImages(nodes[..i]) + {source});
        paths := paths[source := InspectPath(w, lib, source)];
      } else {
        assert SourceImages(nodes[..i + 1]) == SourceImages(nodes[..i]);
      }
    }
    assert nodes[..|nodes|] == nodes;
  }

  lemma NothingYet(w: World, lib: Library)
    ensures PathMap(w, lib, StepsPaths([])) == map[] && ServiceNames([]) == {} && Programs([]) == {}
  {
  }

  lemma OneName(step: ApplyStep)
    ensures ServiceNames([step]) ==
      if !step.RunStep? && FileName(step.path).Some?
          && IsServiceName(FileName(step.path).value) then {FileName(step.path).value} else {}
  {
    hide FileName, IsServiceName;
    assert [step][0] == step;
  }

  lemma SourcesGrow(nodes: seq<NodeConfig>, i: nat)
    requires i < |nodes|
    ensures SourceImages(nodes[..i + 1]) == SourceImages(nodes[..i])
      + (if nodes[i].rootDisk.sourceImage.Some? then {nodes[i].rootDisk.sourceImage.value} else {})
  {
    assert nodes[..i + 1] == nodes[..i] + [nodes[i]];
  }

  // ---- Images ----

  function ImageMap(w: World, paths: set<Path>): map<Path, ImageState> {
    map p | p in paths && ImageOf(w, p).Some? :: ImageOf(w, p).value
  }

  lemma ImageMapGrows(w: World, paths: set<Path>, p: Path)
    ensures ImageMap(w, paths + {p}) ==
      if ImageOf(w, p).Some? then ImageMap(w, paths)[p := ImageOf(w, p).value] else ImageMap(w, paths)
  {
    hide ImageOf;
  }

  predicate CreatesImage(w: World, step: ApplyStep) {
    step.RunStep? && step.creates.Some? && FirstArg(step.command) == Some(Fixed(QemuCreate))
      && step.command.program in w.tools
  }

  function CreatedImages(w: World, steps: seq<ApplyStep>): set<Path> {
    set i | 0 <= i < |steps| && CreatesImage(w, steps[i]) :: steps[i].creates.value
  }

  lemma CreatedGrow(w: World, steps: seq<ApplyStep>, i: nat)
    requires i < |steps|
    ensures CreatedImages(w, steps[..i + 1])
         == CreatedImages(w, steps[..i]) + (if CreatesImage(w, steps[i]) then {steps[i].creates.value} else {})
  {
    hide FirstArg;
    var a, b := steps[..i + 1], steps[..i];
    assert forall k :: 0 <= k < i ==> a[k] == b[k];
    assert a[i] == steps[i];
  }

  method InspectImages(w: World, config: HostConfig, steps: seq<ApplyStep>, opts: Options, tools: set<string>)
    returns (images: map<Path, ImageState>)
    requires tools == Programs(steps) * w.tools
    ensures images == ImageMap(w, InspectedImages(w, config, steps, opts))
  {
    hide ImageOf, ImageMap, FirstArg, Programs;
    images := map[];
    NoImages(w);
    for i := 0 to |steps|
      invariant images == ImageMap(w, CreatedImages(w, steps[..i]))
    {
      CreatedGrow(w, steps, i);
      ProgramRuns(steps, i);
      assert !CreatesImage(w, steps[i]) ==> CreatedImages(w, steps[..i + 1]) == CreatedImages(w, steps[..i]);
      if steps[i].RunStep? && steps[i].creates.Some? && FirstArg(steps[i].command) == Some(Fixed(QemuCreate))
         && steps[i].command.program in tools {
        var path := steps[i].creates.value;
        ImageMapGrows(w, CreatedImages(w, steps[..i]), path);
        if ImageOf(w, path).Some? {
          images := images[path := ImageOf(w, path).value];
        }
      }
    }
    assert steps[..|steps|] == steps;
    var nodes := config.nodes;
    assert CreatedImages(w, steps) + {} == CreatedImages(w, steps);
    if opts.qemuImg in tools {
      assert CreatedImages(w, steps) + SourceImages(nodes[..0]) == CreatedImages(w, steps);
      for i := 0 to |nodes|
        invariant images == ImageMap(w, CreatedImages(w, steps) + SourceImages(nodes[..i]))
      {
        SourcesGrow(nodes, i);
        if nodes[i].rootDisk.sourceImage.Some? {
          var source := nodes[i].rootDisk.sourceImage.value;
          ImageMapGrows(w, CreatedImages(w, steps) + SourceImages(nodes[..i]), source);
          assert CreatedImages(w, steps) + SourceImages(nodes[..i]) + {source}
              == CreatedImages(w, steps) + (SourceImages(nodes[..i]) + {source});
          if ImageOf(w, source).Some? {
            images := images[source := ImageOf(w, source).value];
          }
        } else {
          assert SourceImages(nodes[..i + 1]) == SourceImages(nodes[..i]);
        }
      }
      assert nodes[..|nodes|] == nodes;
    }
    assert InspectedImages(w, config, steps, opts)
        == CreatedImages(w, steps) + (if opts.qemuImg in tools then SourceImages(nodes) else {});
  }

  lemma ProgramRuns(steps: seq<ApplyStep>, i: nat)
    requires i < |steps|
    ensures steps[i].RunStep? ==> steps[i].command.program in Programs(steps)
  {
  }

  lemma NoImages(w: World)
    ensures ImageMap(w, CreatedImages(w, [])) == map[]
  {
  }

  // ---- Units and domains ----

  method InspectUnits(w: World, opts: Options, available: bool, services: set<string>)
    returns (units: map<string, UnitState>)
    ensures units == map u | u in services :: InspectUnit(w, opts, available, u)
  {
    hide InspectUnit;
    units := map[];
    var rest := services;
    while rest != {}
      invariant rest <= services
      invariant units == map u | u in services - rest :: InspectUnit(w, opts, available, u)
      decreases |rest|
    {
      var u :| u in rest;
      units := units[u := InspectUnit(w, opts, available, u)];
      rest := rest - {u};
    }
  }

  method InspectDomains(w: World, nodes: seq<NodeConfig>) returns (domains: map<string, DomainState>)
    ensures domains == map d | d in (set n | n in nodes :: n.domain) :: InspectDomain(w, d)
  {
    hide InspectDomain;
    domains := map[];
    for i := 0 to |nodes|
      invariant domains == map d | d in (set n | n in nodes[..i] :: n.domain) :: InspectDomain(w, d)
    {
      assert nodes[..i + 1] == nodes[..i] + [nodes[i]];
      domains := domains[nodes[i].domain := InspectDomain(w, nodes[i].domain)];
    }
    assert nodes[..|nodes|] == nodes;
  }

  method InspectActualState(w: World, config: HostConfig, steps: seq<ApplyStep>, opts: Options, lib: Library)
    returns (actual: ActualState)
    ensures actual == Inspect(w, config, steps, opts, lib)
  {
    hide InspectPath, InspectUnit, InspectDomain, InspectedPaths, InspectedImages, ServiceNames, Programs, ImageOf;
    var paths, services, programs := InspectPaths(w, config, steps, lib);
    var tools := set program | program in programs && program in w.tools;
    assert tools == Programs(steps) * w.tools;
    var images := InspectImages(w, config, steps, opts, tools);
    var units := InspectUnits(w, opts, opts.systemctl in tools, services);
    var domains := map[];
    if opts.virsh in tools {
      domains := InspectDomains(w, config.nodes);
    }
    actual := ActualState(paths, tools, units, domains, images);
  }
}
