/** The controller under concurrent requests: handlers interleave between their locked sections. */
module ControllerInterleaving {
  import opened Controller
  import opened Wrappers

  // A CreateVolume between its sections.
  datatype Pending =
    | AwaitLookup(request: CreateRequest)
    | AwaitCreate(request: CreateRequest, dataset: string)
    | AwaitInsert(volume: Volume)

  datatype System = System(store: Store, pending: map<nat, Pending>)

  datatype Step =
    | BeginCreate(thread: nat, create: CreateRequest)
    | LookupAndInsert(thread: nat, answer: Result<Option<Metadata>, ()>)
    | BackendCreate(thread: nat, ok: bool)
    | FinishCreate(thread: nat)
    | OneSection(request: Request, env: Environment)

  predicate Enabled(system: System, step: Step) {
    match step
    case BeginCreate(thread, _) => thread !in system.pending
    case LookupAndInsert(thread, _) => thread in system.pending && system.pending[thread].AwaitLookup?
    case BackendCreate(thread, _) => thread in system.pending && system.pending[thread].AwaitCreate?
    case FinishCreate(thread) => thread in system.pending && system.pending[thread].AwaitInsert?
    case OneSection(request, _) => !request.Create?
  }

  // One step: one locked section, or one backend call made without the lock.
  function Next(config: Config, system: System, step: Step): System
    requires Enabled(system, step)
  {
    match step
    case BeginCreate(thread, create) => (
      match LookupSection(config, system.store.state, create)
      case Answered(_) => system
      case RegisterExisting(_) => system.(pending := system.pending[thread := AwaitLookup(create)])
      case CreateDynamic(dataset) => system.(pending := system.pending[thread := AwaitCreate(create, dataset)]))
    case LookupAndInsert(thread, answer) =>
      var rest := system.pending - {thread};
      if answer.Ok? && answer.value.Some?
      then System(InsertSection(
        system.store, ExistingVolume(config, system.pending[thread].request, answer.value.value)), rest)
      else system.(pending := rest)
    case BackendCreate(thread, ok) =>
      var create, dataset := system.pending[thread].request, system.pending[thread].dataset;
      var volume := DynamicVolume(config, create, dataset);
      var rest := system.pending - {thread};
      if !ok then system.(pending := rest)
      else
        var store := system.store.(created := system.store.created + multiset{dataset});
        if !ValidCapabilities(volume.policy, create.capabilities) then System(store, rest)
        else System(store, system.pending[thread := AwaitInsert(volume)])
    case FinishCreate(thread) =>
      System(InsertSection(system.store, system.pending[thread].volume), system.pending - {thread})
    case OneSection(request, env) => system.(store := Serve(config, system.store, request, env))
  }

  function Run(config: Config, system: System, steps: seq<Step>): System {
    if steps == [] then system
    else
      var before := Run(config, system, steps[..|steps| - 1]);
      var last := steps[|steps| - 1];
      if Enabled(before, last) then Next(config, before, last) else before
  }

  const IDLE := System(Store(State(map[], map[], map[]), multiset{}, multiset{}), map[])

  // ---- The controller invariant ----

  predicate VolumesKeyed(state: State) {
    forall id :: id in state.volumes ==> state.volumes[id].id == id
  }

  predicate SnapshotsKeyed(state: State) {
    forall id :: id in state.snapshots ==> state.snapshots[id].id == id
  }

  predicate SnapshotsUnique(state: State) {
    forall a, b :: a in state.snapshots && b in state.snapshots && a != b ==>
      !IsSnapshotOf(state.snapshots[a], state.snapshots[b].sourceVolumeId, state.snapshots[b].name)
  }

  predicate AssignmentsKeyed(state: State) {
    forall key :: key in state.assignments ==>
      && key == AssignmentKey(state.assignments[key].volumeId, state.assignments[key].nodeId)
      && state.assignments[key].volumeId in state.volumes
  }

  predicate Invariant(state: State) {
    VolumesKeyed(state) && SnapshotsKeyed(state) && SnapshotsUnique(state) && AssignmentsKeyed(state)
  }

  lemma InsertKeepsInvariant(store: Store, volume: Volume)
    requires Invariant(store.state)
    ensures Invariant(InsertSection(store, volume).state)
  {
  }

  lemma DeleteKeepsInvariant(config: Config, store: Store, volumeId: string)
    requires Invariant(store.state)
    ensures Invariant(DeleteSection(config, store, volumeId).state)
  {
  }

  lemma PublishKeepsInvariant(
    store: Store, volumeId: string, nodeId: string, readOnly: bool, caps: seq<VolumeCapability>)
    requires Invariant(store.state)
    ensures Invariant(PublishSection(store, volumeId, nodeId, readOnly, caps).state)
  {
    hide AssignmentKey;
  }

  lemma SnapshotKeepsInvariant(store: Store, sourceVolumeId: string, name: string, backendId: Option<string>)
    requires Invariant(store.state)
    ensures Invariant(SnapshotSection(store, sourceVolumeId, name, backendId).0.state)
  {
    hide AssignmentKey;
  }

  lemma ServeKeepsInvariant(config: Config, store: Store, request: Request, env: Environment)
    requires Invariant(store.state)
    ensures Invariant(Serve(config, store, request, env).state)
  {
    match request
    case Create(create) =>
      hide Invariant, InsertSection;
      forall volume, before: Store | before.state == store.state
        ensures Invariant(InsertSection(before, volume).state)
      {
        InsertKeepsInvariant(before, volume);
      }
    case Delete(volumeId) => DeleteKeepsInvariant(config, store, volumeId);
    case Publish(volumeId, nodeId, readOnly, caps) => PublishKeepsInvariant(store, volumeId, nodeId, readOnly, caps);
    case Unpublish(_, _) =>
    case CreateSnapshot(source, name) => SnapshotKeepsInvariant(store, source, name, env.snapshotId);
    case DeleteSnapshot(_) =>
  }

  /** In every interleaving, whatever the backend answers and whichever handlers fail: keys are ids, every
      assignment sits under its own key and names an existing volume, and no snapshot is recorded twice. */
  lemma {:induction false} RunKeepsInvariant(config: Config, system: System, steps: seq<Step>)
    requires Invariant(system.store.state)
    ensures Invariant(Run(config, system, steps).store.state)
  {
    if steps != [] {
      var before, last := Run(config, system, steps[..|steps| - 1]), steps[|steps| - 1];
      RunKeepsInvariant(config, system, steps[..|steps| - 1]);
      if Enabled(before, last) {
        hide Invariant, InsertSection, Serve;
        match last
        case LookupAndInsert(thread, answer) =>
          if answer.Ok? && answer.value.Some? {
            InsertKeepsInvariant(
              before.store, ExistingVolume(config, before.pending[thread].request, answer.value.value));
          }
        case FinishCreate(thread) => InsertKeepsInvariant(before.store, before.pending[thread].volume);
        case OneSection(request, env) => ServeKeepsInvariant(config, before.store, request, env);
        case BeginCreate(_, _) =>
        case BackendCreate(_, _) => InvariantReadsState(before.store);
      }
    }
  }

  lemma InvariantReadsState(store: Store)
    ensures forall created :: Invariant(store.(created := created).state) <==> Invariant(store.state)
  {
  }

  // ---- Datasets are deleted at most as often as they were created ----

  function Flagged(state: State, dataset: string): set<string> {
    set id | id in state.volumes && state.volumes[id].deleteDatasetOnDelete && state.volumes[id].dataset == dataset
  }

  function InFlight(pending: map<nat, Pending>, dataset: string): set<nat> {
    set t | t in pending && pending[t].AwaitInsert? && pending[t].volume.dataset == dataset
  }

  // Deletions requested, volumes still entitled to one, and creations on their way to become such volumes.
  function Claims(system: System, dataset: string): nat {
    system.store.deleted[dataset] + |Flagged(system.store.state, dataset)| + |InFlight(system.pending, dataset)|
  }

  ghost predicate Conserved(system: System) {
    forall dataset: string :: Claims(system, dataset) <= system.store.created[dataset]
  }

  lemma SubsetSize<T>(a: set<T>, b: set<T>)
    requires a <= b
    ensures |a| <= |b|
  {
    assert b == a + (b - a);
  }

  lemma InsertFlags(store: Store, volume: Volume, dataset: string)
    ensures var after := InsertSection(store, volume);
            && after.created == store.created && after.deleted == store.deleted
            && |Flagged(after.state, dataset)| <= |Flagged(store.state, dataset)|
                 + (if volume.deleteDatasetOnDelete && volume.dataset == dataset then 1 else 0)
  {
    var before, after := Flagged(store.state, dataset), Flagged(InsertSection(store, volume).state, dataset);
    if volume.deleteDatasetOnDelete && volume.dataset == dataset {
      SubsetSize(after, before + {volume.id});
    } else {
      SubsetSize(after, before);
    }
  }

  lemma DeleteFlags(config: Config, store: Store, volumeId: string, dataset: string)
    ensures var after := DeleteSection(config, store, volumeId);
            && after.created == store.created
            && after.deleted[dataset] + |Flagged(after.state, dataset)|
               <= store.deleted[dataset] + |Flagged(store.state, dataset)|
  {
    var after := DeleteSection(config, store, volumeId);
    var a, b := Flagged(after.state, dataset), Flagged(store.state, dataset);
    if volumeId in b && after != store {
      assert a == b - {volumeId};
    } else {
      SubsetSize(a, b);
    }
  }

  lemma ThreadLeaves(pending: map<nat, Pending>, thread: nat, dataset: string)
    requires thread in pending
    ensures |InFlight(pending - {thread}, dataset)| == |InFlight(pending, dataset)|
              - (if pending[thread].AwaitInsert? && pending[thread].volume.dataset == dataset then 1 else 0)
  {
    assert InFlight(pending - {thread}, dataset) == InFlight(pending, dataset) - {thread};
  }

  lemma ThreadWaits(pending: map<nat, Pending>, thread: nat, next: Pending, dataset: string)
    requires thread in pending ==> !pending[thread].AwaitInsert?
    ensures |InFlight(pending[thread := next], dataset)| == |InFlight(pending, dataset)|
              + (if next.AwaitInsert? && next.volume.dataset == dataset then 1 else 0)
  {
    var before := InFlight(pending, dataset);
    assert thread !in before;
    if next.AwaitInsert? && next.volume.dataset == dataset {
      assert InFlight(pending[thread := next], dataset) == before + {thread};
    } else {
      assert InFlight(pending[thread := next], dataset) == before;
    }
  }

  lemma ServeConserves(config: Config, store: Store, request: Request, env: Environment, dataset: string)
    requires !request.Create?
    ensures var after := Serve(config, store, request, env);
            && after.created == store.created
            && after.deleted[dataset] + |Flagged(after.state, dataset)|
               <= store.deleted[dataset] + |Flagged(store.state, dataset)|
  {
    if request.Delete? {
      DeleteFlags(config, store, request.volumeId, dataset);
    } else {
      assert Serve(config, store, request, env).state.volumes == store.state.volumes;
      assert Flagged(Serve(config, store, request, env).state, dataset) == Flagged(store.state, dataset);
    }
  }

  lemma NextConserves(config: Config, system: System, step: Step, dataset: string)
    requires Enabled(system, step)
    requires Claims(system, dataset) <= system.store.created[dataset]
    ensures var after := Next(config, system, step); Claims(after, dataset) <= after.store.created[dataset]
  {
    var store, pending := system.store, system.pending;
    match step
    case BeginCreate(thread, create) =>
      match LookupSection(config, store.state, create) {
        case Answered(_) =>
        case RegisterExisting(_) => ThreadWaits(pending, thread, AwaitLookup(create), dataset);
        case CreateDynamic(d) => ThreadWaits(pending, thread, AwaitCreate(create, d), dataset);
      }
    case LookupAndInsert(thread, answer) =>
      ThreadLeaves(pending, thread, dataset);
      if answer.Ok? && answer.value.Some? {
        InsertFlags(store, ExistingVolume(config, pending[thread].request, answer.value.value), dataset);
      }
    case BackendCreate(thread, ok) =>
      ThreadLeaves(pending, thread, dataset);
      ThreadWaits(
        pending, thread, AwaitInsert(DynamicVolume(config, pending[thread].request, pending[thread].dataset)), dataset);
    case FinishCreate(thread) =>
      ThreadLeaves(pending, thread, dataset);
      InsertFlags(store, pending[thread].volume, dataset);
    case OneSection(request, env) => ServeConserves(config, store, request, env, dataset);
  }

  /** Conservation: from an idle start, in every interleaving, the deletions requested for a dataset, the volumes
      that may still request one and the creations in flight never outnumber its successful creations. */
  lemma {:induction false} RunConserves(config: Config, system: System, steps: seq<Step>)
    requires Conserved(system)
    ensures Conserved(Run(config, system, steps))
  {
    if steps != [] {
      var before, last := Run(config, system, steps[..|steps| - 1]), steps[|steps| - 1];
      RunConserves(config, system, steps[..|steps| - 1]);
      if Enabled(before, last) {
        forall dataset: string
          ensures Claims(Next(config, before, last), dataset) <= Next(config, before, last).store.created[dataset]
        {
          NextConserves(config, before, last, dataset);
        }
      }
    }
  }

  /** Hence a dataset the controller did not create is never deleted. */
  lemma ForeignDatasetsSurvive(config: Config, steps: seq<Step>, dataset: string)
    requires dataset !in Run(config, IDLE, steps).store.created
    ensures dataset !in Run(config, IDLE, steps).store.deleted
  {
    forall d: string ensures Claims(IDLE, d) <= IDLE.store.created[d] {
      assert Flagged(IDLE.store.state, d) == {} && InFlight(IDLE.pending, d) == {};
    }
    RunConserves(config, IDLE, steps);
    assert Claims(Run(config, IDLE, steps), dataset) <= Run(config, IDLE, steps).store.created[dataset];
  }
}
