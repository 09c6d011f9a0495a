/** When datasets stay apart although CreateVolume requests interleave: exactly until two of them race for one. */
module ControllerRaces {
  import opened Controller
  import opened ControllerInterleaving
  import opened ControllerProofs
  import opened Text
  import opened Wrappers

  // ---- What a pending CreateVolume may still insert ----

  datatype Promise = Promise(name: string, dataset: string)

  // The volume a handler between its sections still inserts if the backend answers well; bad capabilities stop it.
  function PromiseOf(config: Config, pending: Pending): Option<Promise> {
    match pending
    case AwaitLookup(create) => if create.dataset.Some? then Some(Promise(create.name, create.dataset.value)) else None
    case AwaitCreate(create, dataset) =>
      if ValidCapabilities(DynamicVolume(config, create, dataset).policy, create.capabilities)
      then Some(Promise(create.name, dataset)) else None
    case AwaitInsert(volume) => Some(Promise(volume.id, volume.dataset))
  }

  predicate Promised(config: Config, system: System, thread: nat) {
    thread in system.pending && PromiseOf(config, system.pending[thread]).Some?
  }

  function PromiseAt(config: Config, system: System, thread: nat): Promise
    requires Promised(config, system, thread)
  {
    PromiseOf(config, system.pending[thread]).value
  }

  // The backend answers a lookup for the dataset it was asked about.
  predicate AnswersAsked(system: System, step: Step) {
    step.LookupAndInsert? && Enabled(system, step) && step.answer.Ok? && step.answer.value.Some? ==>
      system.pending[step.thread].request.dataset == Some(step.answer.value.value.dataset)
  }

  /** A CreateVolume starts for a dataset that another one, under another name, is on its way to. */
  ghost predicate Clash(config: Config, system: System, step: Step) {
    && step.BeginCreate? && Enabled(system, step)
    && Promised(config, Next(config, system, step), step.thread)
    && exists t :: Promised(config, system, t)
         && PromiseAt(config, system, t).dataset == PromiseAt(config, Next(config, system, step), step.thread).dataset
         && PromiseAt(config, system, t).name != PromiseAt(config, Next(config, system, step), step.thread).name
  }

  // ---- Without a clash ----

  /** Stored volumes and promised ones together are one volume per dataset. */
  ghost predicate Apart(config: Config, system: System) {
    && DatasetsUnique(system.store.state)
    && (forall t, id :: Promised(config, system, t) && id in system.store.state.volumes
          && system.store.state.volumes[id].dataset == PromiseAt(config, system, t).dataset
          ==> id == PromiseAt(config, system, t).name)
    && (forall t, u :: Promised(config, system, t) && Promised(config, system, u)
          && PromiseAt(config, system, t).dataset == PromiseAt(config, system, u).dataset
          ==> PromiseAt(config, system, t).name == PromiseAt(config, system, u).name)
  }

  // A first section that goes on found no volume on its dataset, and leaves one more pending request.
  lemma BeginAdds(config: Config, system: System, step: Step)
    requires step.BeginCreate? && Enabled(system, step) && Promised(config, Next(config, system, step), step.thread)
    ensures Next(config, system, step).store == system.store
    ensures forall t :: t != step.thread ==>
      (Promised(config, Next(config, system, step), t) <==> Promised(config, system, t))
      && (Promised(config, system, t) ==>
          PromiseAt(config, Next(config, system, step), t) == PromiseAt(config, system, t))
    ensures forall id :: id in system.store.state.volumes ==>
      system.store.state.volumes[id].dataset != PromiseAt(config, Next(config, system, step), step.thread).dataset
  {
    hide DynamicVolume, ValidCapabilities, IsBlank;
  }

  lemma BeginKeepsApart(config: Config, system: System, step: Step)
    requires step.BeginCreate? && Enabled(system, step) && Apart(config, system) && !Clash(config, system, step)
    ensures Apart(config, Next(config, system, step))
  {
    var after := Next(config, system, step);
    if Promised(config, after, step.thread) {
      BeginAdds(config, system, step);
      hide Next, Promised, PromiseAt, DatasetsUnique;
      var thread := step.thread;
      forall t | Promised(config, after, t) && t != thread
          && PromiseAt(config, after, t).dataset == PromiseAt(config, after, thread).dataset
        ensures PromiseAt(config, after, t).name == PromiseAt(config, after, thread).name
      {
        assert Promised(config, system, t);
      }
    } else {
      BeginKeepsStore(config, system, step);
      hide Next, PromiseOf;
      FewerKeepsApart(config, system, after);
    }
  }

  lemma BeginKeepsStore(config: Config, system: System, step: Step)
    requires step.BeginCreate? && Enabled(system, step)
    ensures Next(config, system, step).store == system.store
    ensures forall t :: t in Next(config, system, step).pending && t != step.thread ==>
      t in system.pending && Next(config, system, step).pending[t] == system.pending[t]
  {
    hide LookupSection;
  }

  // A promise leaves the pending ones for the stored ones.
  lemma InsertKeepsApart(config: Config, system: System, thread: nat, volume: Volume)
    requires Apart(config, system) && Promised(config, system, thread)
    requires Promise(volume.id, volume.dataset) == PromiseAt(config, system, thread)
    ensures Apart(config, System(InsertSection(system.store, volume), system.pending - {thread}))
  {
    hide PromiseOf;
    var after := System(InsertSection(system.store, volume), system.pending - {thread});
    assert forall t :: Promised(config, after, t) ==>
      Promised(config, system, t) && PromiseAt(config, after, t) == PromiseAt(config, system, t);
    hide Promised, PromiseAt;
  }

  lemma FewerKeepsApart(config: Config, system: System, after: System)
    requires Apart(config, system)
    requires forall id :: id in after.store.state.volumes ==>
      id in system.store.state.volumes && after.store.state.volumes[id] == system.store.state.volumes[id]
    requires forall t :: Promised(config, after, t) ==>
      Promised(config, system, t) && PromiseAt(config, after, t) == PromiseAt(config, system, t)
    ensures Apart(config, after)
  {
    hide PromiseOf;
  }

  lemma NextKeepsApart(config: Config, system: System, step: Step)
    requires Enabled(system, step) && Apart(config, system) && !Clash(config, system, step)
    requires AnswersAsked(system, step)
    ensures Apart(config, Next(config, system, step))
  {
    hide Apart, ValidCapabilities, IsBlank, Clash;
    var after := Next(config, system, step);
    match step
    case BeginCreate(_, _) => BeginKeepsApart(config, system, step);
    case LookupAndInsert(thread, answer) =>
      if answer.Ok? && answer.value.Some? {
        InsertKeepsApart(
          config, system, thread, ExistingVolume(config, system.pending[thread].request, answer.value.value));
      } else {
        FewerKeepsApart(config, system, after);
      }
    case BackendCreate(_, _) => FewerKeepsApart(config, system, after);
    case FinishCreate(thread) => InsertKeepsApart(config, system, thread, system.pending[thread].volume);
    case OneSection(request, env) =>
      ServeKeepsVolumes(config, system.store, request, env);
      FewerKeepsApart(config, system, after);
  }

  lemma ServeKeepsVolumes(config: Config, store: Store, request: Request, env: Environment)
    requires !request.Create?
    ensures var after := Serve(config, store, request, env);
            forall id :: id in after.state.volumes ==>
              id in store.state.volumes && after.state.volumes[id] == store.state.volumes[id]
  {
    hide AssignmentKey, ValidCapabilities, IsBlank;
  }

  // No step of the run is a clash, and lookups answer for what was asked.
  ghost predicate Orderly(config: Config, system: System, steps: seq<Step>) {
    forall i :: 0 <= i < |steps| ==>
      !Clash(config, Run(config, system, steps[..i]), steps[i])
        && AnswersAsked(Run(config, system, steps[..i]), steps[i])
  }

  /** In every interleaving in which no CreateVolume starts for a dataset on its way to another name, no two volumes
      ever share a dataset. */
  lemma {:induction false} OrderlyKeepsUnique(config: Config, system: System, steps: seq<Step>)
    requires Apart(config, system) && Orderly(config, system, steps)
    ensures Apart(config, Run(config, system, steps)) && DatasetsUnique(Run(config, system, steps).store.state)
  {
    hide Apart, Clash, AnswersAsked, Next, DatasetsUnique;
    if steps != [] {
      var n := |steps| - 1;
      var front := steps[..n];
      assert Orderly(config, system, front) by {
        forall i | 0 <= i < n
          ensures front[..i] == steps[..i] && front[i] == steps[i]
        {
        }
      }
      OrderlyKeepsUnique(config, system, front);
      if Enabled(Run(config, system, front), steps[n]) {
        NextKeepsApart(config, Run(config, system, front), steps[n]);
      }
    }
    ApartIsUnique(config, Run(config, system, steps));
  }

  lemma ApartIsUnique(config: Config, system: System)
    requires Apart(config, system)
    ensures DatasetsUnique(system.store.state)
  {
    hide DatasetsUnique;
  }

  lemma IdleIsApart(config: Config)
    ensures Apart(config, IDLE)
  {
  }

  /** In particular in every orderly run of a controller that starts without volumes. */
  lemma OrderlyFromIdle(config: Config, steps: seq<Step>)
    requires Orderly(config, IDLE, steps)
    ensures DatasetsUnique(Run(config, IDLE, steps).store.state)
  {
    hide Orderly, Apart, DatasetsUnique;
    IdleIsApart(config);
    OrderlyKeepsUnique(config, IDLE, steps);
  }

  // ---- With one ----

  // A step that is not enabled is not taken.
  function Taken(config: Config, system: System, step: Step): System {
    if Enabled(system, step) then Next(config, system, step) else system
  }

  // The steps by which a pending CreateVolume inserts what it promised.
  function Landing(pending: Pending, thread: nat): seq<Step> {
    match pending
    case AwaitLookup(create) =>
      if create.dataset.Some? then [LookupAndInsert(thread, Ok(Some(Metadata(create.dataset.value, ""))))] else []
    case AwaitCreate(_, _) => [BackendCreate(thread, true), FinishCreate(thread)]
    case AwaitInsert(_) => [FinishCreate(thread)]
  }

  lemma {:induction false} RunAppend(config: Config, system: System, a: seq<Step>, b: seq<Step>)
    ensures Run(config, system, a + b) == Run(config, Run(config, system, a), b)
  {
    hide Next, Enabled;
    if b == [] {
      assert a + b == a;
    } else {
      RunAppend(config, system, a, b[..|b| - 1]);
      assert (a + b)[..|a + b| - 1] == a + b[..|b| - 1];
    }
  }

  lemma OrderlyAppend(config: Config, system: System, a: seq<Step>, b: seq<Step>)
    requires Orderly(config, system, a) && Orderly(config, Run(config, system, a), b)
    ensures Orderly(config, system, a + b)
  {
    hide Clash, AnswersAsked, Run;
    forall i | 0 <= i < |a + b|
      ensures !Clash(config, Run(config, system, (a + b)[..i]), (a + b)[i])
      ensures AnswersAsked(Run(config, system, (a + b)[..i]), (a + b)[i])
    {
      if i < |a| {
        assert (a + b)[..i] == a[..i];
      } else {
        assert (a + b)[..i] == a + b[..i - |a|];
        RunAppend(config, system, a, b[..i - |a|]);
      }
    }
  }

  // Landing is orderly, stores the promised volume, and leaves the other volumes and pending requests alone.
  lemma Lands(config: Config, system: System, thread: nat)
    requires Promised(config, system, thread)
    ensures var promise := PromiseAt(config, system, thread);
            var after := Run(config, system, Landing(system.pending[thread], thread));
            && after.pending == system.pending - {thread}
            && promise.name in after.store.state.volumes
            && after.store.state.volumes[promise.name].dataset == promise.dataset
            && (forall id :: id in system.store.state.volumes && id != promise.name ==>
                  id in after.store.state.volumes && after.store.state.volumes[id] == system.store.state.volumes[id])
    ensures Orderly(config, system, Landing(system.pending[thread], thread))
  {
    hide ValidCapabilities, Clash, Orderly;
    LandingIsOrderly(config, system, thread);
    var steps := Landing(system.pending[thread], thread);
    assert steps[..0] == [] && steps[..|steps|] == steps;
    OneStep(config, system, steps, 0);
    if |steps| == 2 {
      OneStep(config, system, steps, 1);
    }
    hide Run;
  }

  lemma OneStep(config: Config, system: System, steps: seq<Step>, i: nat)
    requires i < |steps|
    ensures Run(config, system, steps[..i + 1]) == Taken(config, Run(config, system, steps[..i]), steps[i])
    ensures Run(config, system, []) == system
  {
    hide Next, Enabled;
    assert steps[..i + 1][..i] == steps[..i];
  }

  lemma LandingIsOrderly(config: Config, system: System, thread: nat)
    requires Promised(config, system, thread)
    ensures Orderly(config, system, Landing(system.pending[thread], thread))
  {
    var steps := Landing(system.pending[thread], thread);
    assert Run(config, system, steps[..0]) == system by { assert steps[..0] == []; }
    hide Run, ValidCapabilities;
  }

  // What is behind a clash: the other request's promise stands, and the new one is made.
  lemma ClashLeads(config: Config, system: System, step: Step) returns (t: nat)
    requires Clash(config, system, step)
    ensures t != step.thread && Promised(config, Next(config, system, step), t)
    ensures Promised(config, Next(config, system, step), step.thread)
    ensures var p, q :=
      PromiseAt(config, Next(config, system, step), t), PromiseAt(config, Next(config, system, step), step.thread);
            p.dataset == q.dataset && p.name != q.name
  {
    hide PromiseOf, LookupSection;
    t :| Promised(config, system, t)
         && PromiseAt(config, system, t).dataset == PromiseAt(config, Next(config, system, step), step.thread).dataset
         && PromiseAt(config, system, t).name != PromiseAt(config, Next(config, system, step), step.thread).name;
    BeginKeepsPending(config, system, step, t);
  }

  lemma BeginKeepsPending(config: Config, system: System, step: Step, t: nat)
    requires step.BeginCreate? && Enabled(system, step) && t in system.pending
    ensures t in Next(config, system, step).pending && Next(config, system, step).pending[t] == system.pending[t]
    ensures t != step.thread
  {
    hide LookupSection;
  }

  // After a clash both requests may go through, orderly from then on, and their volumes share the dataset.
  lemma ClashShares(config: Config, system: System, step: Step) returns (rest: seq<Step>)
    requires Clash(config, system, step)
    ensures Orderly(config, Next(config, system, step), rest)
    ensures !DatasetsUnique(Run(config, Next(config, system, step), rest).store.state)
  {
    var t := ClashLeads(config, system, step);
    var start, u := Next(config, system, step), step.thread;
    hide *;
    rest := TwoLandings(config, start, t, u);
  }

  lemma TwoLandings(config: Config, start: System, t: nat, u: nat) returns (rest: seq<Step>)
    requires t != u && Promised(config, start, t) && Promised(config, start, u)
    requires PromiseAt(config, start, t).dataset == PromiseAt(config, start, u).dataset
    requires PromiseAt(config, start, t).name != PromiseAt(config, start, u).name
    ensures Orderly(config, start, rest) && !DatasetsUnique(Run(config, start, rest).store.state)
  {
    hide Run, Orderly, PromiseOf, Landing;
    Lands(config, start, t);
    var first := Landing(start.pending[t], t);
    var middle := Run(config, start, first);
    assert u in middle.pending && middle.pending[u] == start.pending[u];
    Lands(config, middle, u);
    var second := Landing(start.pending[u], u);
    rest := first + second;
    RunAppend(config, start, first, second);
    OrderlyAppend(config, start, first, second);
    assert DatasetsUnique(Run(config, start, rest).store.state) ==> false;
  }

  /** A step opens the way to two volumes sharing a dataset, with every later step orderly, exactly if it is a clash. */
  lemma RaceExactly(config: Config, system: System, step: Step)
    requires Apart(config, system) && Enabled(system, step) && AnswersAsked(system, step)
    ensures (exists rest :: Orderly(config, Next(config, system, step), rest)
                            && !DatasetsUnique(Run(config, Next(config, system, step), rest).store.state))
       <==> Clash(config, system, step)
  {
    hide *;
    if Clash(config, system, step) {
      var rest := ClashShares(config, system, step);
    } else {
      NextKeepsApart(config, system, step);
      forall rest | Orderly(config, Next(config, system, step), rest)
        ensures DatasetsUnique(Run(config, Next(config, system, step), rest).store.state)
      {
        OrderlyKeepsUnique(config, Next(config, system, step), rest);
      }
    }
  }

  // ---- The race that deletes another volume's dataset ----

  // A dynamic creation and a registration of the same dataset; the created volume is deleted once both are stored.
  function StrandingRun(
    t: nat, u: nat, dynamic: CreateRequest, existing: CreateRequest, metadata: Metadata, env: Environment)
    : seq<Step>
  {
    [BeginCreate(t, dynamic), BeginCreate(u, existing), BackendCreate(t, true), FinishCreate(t),
     LookupAndInsert(u, Ok(Some(metadata))), OneSection(Delete(dynamic.name), env)]
  }

  /** Wherever both requests pass their first section, the creation's volume can be deleted with its dataset while the
      registered volume stays on that dataset. */
  lemma RaceStrandsVolume(
    config: Config, system: System, t: nat, u: nat, dynamic: CreateRequest, existing: CreateRequest, metadata: Metadata,
    env: Environment)
    requires t != u && t !in system.pending && u !in system.pending && dynamic.name != existing.name
    requires LookupSection(config, system.store.state, dynamic) == CreateDynamic(metadata.dataset)
    requires LookupSection(config, system.store.state, existing) == RegisterExisting(metadata.dataset)
    requires config.allowAuthoritativeDatasetDelete && dynamic.deleteDatasetOnDelete
    requires ValidCapabilities(DynamicVolume(config, dynamic, metadata.dataset).policy, dynamic.capabilities)
    ensures var after := Run(config, system, StrandingRun(t, u, dynamic, existing, metadata, env)).store;
            && after.deleted == system.store.deleted + multiset{metadata.dataset}
            && existing.name in after.state.volumes && after.state.volumes[existing.name].dataset == metadata.dataset
            && dynamic.name !in after.state.volumes
  {
    hide ValidCapabilities, LookupSection, IsBlank, Run, InsertSection, DeleteSection, ExistingVolume, DynamicVolume;
    hide StrandingRun;
    var d, steps := metadata.dataset, StrandingRun(t, u, dynamic, existing, metadata, env);
    var v, w := DynamicVolume(config, dynamic, d), ExistingVolume(config, existing, metadata);
    StrandingSteps(config, system, steps, t, u, dynamic, existing, metadata, env);
    NotBlank(config, system.store.state, dynamic);
    CreatedShape(config, dynamic, env);
    CreatedShape(config, existing, env);
    FlaggedDynamic(config, dynamic, d);
    Stranded(config, system.store.(created := system.store.created + multiset{d}), v, w);
    var s1 := system.(pending := system.pending[t := AwaitCreate(dynamic, d)]);
    var s2 := s1.(pending := s1.pending[u := AwaitLookup(existing)]);
    var s3 := System(system.store.(created := system.store.created + multiset{d}), s2.pending[t := AwaitInsert(v)]);
    var s4 := System(InsertSection(s3.store, v), s3.pending - {t});
    var s5 := System(InsertSection(s4.store, w), s4.pending - {u});
    assert Next(config, system, BeginCreate(t, dynamic)) == s1;
    assert Next(config, s1, BeginCreate(u, existing)) == s2;
    assert Next(config, s2, BackendCreate(t, true)) == s3;
    assert Next(config, s3, FinishCreate(t)) == s4;
    assert Next(config, s4, LookupAndInsert(u, Ok(Some(metadata)))) == s5;
    assert Next(config, s5, OneSection(Delete(dynamic.name), env)).store
      == DeleteSection(config, s5.store, dynamic.name);
  }

  lemma StrandingSteps(
    config: Config, system: System, steps: seq<Step>, t: nat, u: nat, dynamic: CreateRequest, existing: CreateRequest,
    metadata: Metadata, env: Environment)
    requires steps == StrandingRun(t, u, dynamic, existing, metadata, env)
    ensures |steps| == 6 && steps[0] == BeginCreate(t, dynamic) && steps[1] == BeginCreate(u, existing)
    ensures steps[2] == BackendCreate(t, true) && steps[3] == FinishCreate(t)
    ensures steps[4] == LookupAndInsert(u, Ok(Some(metadata))) && steps[5] == OneSection(Delete(dynamic.name), env)
    ensures Run(config, system, steps[..0]) == system && steps[..6] == steps
    ensures forall i :: 0 <= i < 6 ==>
      Run(config, system, steps[..i + 1]) == Taken(config, Run(config, system, steps[..i]), steps[i])
  {
    hide Run, Next, Enabled;
    OneStep(config, system, steps, 0);
    assert steps[..0] == [];
    forall i | 0 <= i < 6
      ensures Run(config, system, steps[..i + 1]) == Taken(config, Run(config, system, steps[..i]), steps[i])
    {
      OneStep(config, system, steps, i);
    }
  }

  lemma FlaggedDynamic(config: Config, request: CreateRequest, dataset: string)
    ensures DynamicVolume(config, request, dataset).deleteDatasetOnDelete
         == (config.allowAuthoritativeDatasetDelete && request.deleteDatasetOnDelete)
  {
  }

  lemma Stranded(config: Config, store: Store, v: Volume, w: Volume)
    requires v.id != w.id && !IsBlank(v.id) && v.deleteDatasetOnDelete && config.allowAuthoritativeDatasetDelete
    ensures var after := DeleteSection(config, InsertSection(InsertSection(store, v), w), v.id);
            && after.deleted == store.deleted + multiset{v.dataset}
            && w.id in after.state.volumes && after.state.volumes[w.id] == w && v.id !in after.state.volumes
  {
    hide IsBlank;
  }

  lemma NotBlank(config: Config, state: State, request: CreateRequest)
    requires LookupSection(config, state, request).CreateDynamic?
    ensures !IsBlank(request.name)
  {
  }
}
