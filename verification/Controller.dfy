/** The CSI controller: volumes, snapshots and publish assignments over a dataset backend. */
module Controller {
  import opened StringOrder
  import opened Text
  import opened Types
  import opened Wrappers

  // ---- Capabilities ----

  datatype VolumeMode = Filesystem | Block

  datatype CsiAccessMode =
    | SingleNodeWriter
    | SingleNodeReaderOnly
    | MultiNodeReaderOnly
    | MultiNodeSingleWriter
    | MultiNodeMultiWriter

  datatype VolumePolicy = VolumePolicy(name: string, access: AccessMode, allowMultiNodeWriter: bool)

  // None stands for a missing access type, and for an access mode the driver does not know.
  datatype VolumeCapability = VolumeCapability(accessType: Option<VolumeMode>, accessMode: Option<CsiAccessMode>)

  predicate ValidCapability(policy: VolumePolicy, mode: VolumeMode, access: CsiAccessMode) {
    if mode.Block? then false
    else if access.SingleNodeReaderOnly? || access.MultiNodeReaderOnly? then true
    else policy.access.ReadWrite? && (access.MultiNodeMultiWriter? ==> policy.allowMultiNodeWriter)
  }

  predicate ValidCapabilities(policy: VolumePolicy, capabilities: seq<VolumeCapability>) {
    && capabilities != []
    && forall i :: 0 <= i < |capabilities| ==>
         && capabilities[i].accessType.Some?
         && capabilities[i].accessMode.Some?
         && ValidCapability(policy, capabilities[i].accessType.value, capabilities[i].accessMode.value)
  }

  // ---- State ----

  datatype Volume = Volume(
    id: string,
    name: string,
    dataset: string,
    sourcePath: string,
    policy: VolumePolicy,
    capacityBytes: int,
    dynamicallyCreated: bool,
    deleteDatasetOnDelete: bool)

  datatype Snapshot = Snapshot(id: string, sourceVolumeId: string, name: string, sizeBytes: int)

  datatype Assignment = Assignment(volumeId: string, nodeId: string, readOnly: bool)

  datatype State = State(
    volumes: map<string, Volume>,
    snapshots: map<string, Snapshot>,
    assignments: map<string, Assignment>)

  /** The controller state, with what the backend has been told: datasets created and datasets
      whose deletion was requested (whether or not the request went through). */
  datatype Store = Store(state: State, created: multiset<string>, deleted: multiset<string>)

  datatype Config = Config(
    defaultCapacityBytes: int,
    allowDynamicDatasetCreation: bool,
    allowAuthoritativeDatasetDelete: bool,
    allowSnapshotDelete: bool)

  datatype Status = InvalidArgument | NotFound | Internal

  // ---- Requests ----

  // A CreateVolume request, with its string parameters read.
  datatype CreateRequest = CreateRequest(
    name: string,
    dataset: Option<string>,
    existingDataset: bool,
    dynamicDataset: bool,
    policyName: Option<string>,
    access: Option<AccessMode>,
    allowMultiNodeWriter: bool,
    sourcePath: Option<string>,
    deleteDatasetOnDelete: bool,
    capacityRange: Option<(int, int)>,
    capabilities: seq<VolumeCapability>)

  function RequestedCapacity(range: Option<(int, int)>, default: int): int {
    match range
    case None => default
    case Some((required, limit)) => if required > 0 then required else if limit > 0 then limit else default
  }

  // ---- The critical sections: what each handler does while it holds the state's lock ----

  predicate Matches(volume: Volume, name: string, dataset: Option<string>) {
    volume.name == name || volume.id == name || dataset == Some(volume.dataset)
  }

  // `find_volume_for_create`: the first match in key order.
  function FindVolumeForCreate(state: State, name: string, dataset: Option<string>): (r: Option<Volume>)
    ensures r.None? <==> forall id :: id in state.volumes ==> !Matches(state.volumes[id], name, dataset)
    ensures r.Some? ==>
      exists id :: id in state.volumes && state.volumes[id] == r.value && Matches(r.value, name, dataset)
  {
    var matches := set id | id in state.volumes && Matches(state.volumes[id], name, dataset);
    if matches == {} then
      assert forall id :: id in state.volumes && Matches(state.volumes[id], name, dataset) ==> id in matches;
      None
    else
      var id := Least(matches);
      assert id in matches;
      Some(state.volumes[id])
  }

  // How a CreateVolume goes on behind its first section.
  datatype CreatePath =
    | Answered(result: Result<Volume, Status>)
    | RegisterExisting(existing: string)
    | CreateDynamic(dynamic: string)

  // First section: answer from a known volume, or decide what to do without the lock.
  function LookupSection(config: Config, state: State, request: CreateRequest): CreatePath {
    if IsBlank(request.name) then Answered(Err(InvalidArgument))
    else match FindVolumeForCreate(state, request.name, request.dataset)
      case Some(volume) =>
        Answered(if ValidCapabilities(volume.policy, request.capabilities) then Ok(volume) else Err(InvalidArgument))
      case None =>
        if request.existingDataset then
          match request.dataset
          case None => Answered(Err(InvalidArgument))
          case Some(dataset) => RegisterExisting(dataset)
        else if !config.allowDynamicDatasetCreation || !request.dynamicDataset then Answered(Err(NotFound))
        else match request.dataset
          case None => Answered(Err(InvalidArgument))
          case Some(dataset) => CreateDynamic(dataset)
  }

  // What the backend reports about a dataset.
  datatype Metadata = Metadata(dataset: string, sourcePath: string)

  function ExistingVolume(config: Config, request: CreateRequest, metadata: Metadata): Volume {
    Volume(
      request.name, request.name, metadata.dataset, metadata.sourcePath,
      VolumePolicy(
        if request.policyName.Some? then request.policyName.value else "existing-dataset",
        if request.access.Some? then request.access.value else ReadWrite,
        request.allowMultiNodeWriter),
      RequestedCapacity(request.capacityRange, config.defaultCapacityBytes), false, false)
  }

  function DynamicVolume(config: Config, request: CreateRequest, dataset: string): Volume {
    Volume(
      request.name, request.name, dataset,
      if request.sourcePath.Some? then request.sourcePath.value else "/mnt/" + dataset,
      VolumePolicy(
        if request.policyName.Some? then request.policyName.value else "dynamic", ReadWrite,
        request.allowMultiNodeWriter),
      RequestedCapacity(request.capacityRange, config.defaultCapacityBytes), true,
      config.allowAuthoritativeDatasetDelete && request.deleteDatasetOnDelete)
  }

  // Last section of a CreateVolume. Memory changes first; a failed write of the metadata file is only reported.
  function InsertSection(store: Store, volume: Volume): Store {
    store.(state := store.state.(volumes := store.state.volumes[volume.id := volume]))
  }

  function DeleteSection(config: Config, store: Store, volumeId: string): Store {
    if IsBlank(volumeId) || volumeId !in store.state.volumes then store
    else
      var volume := store.state.volumes[volumeId];
      var assignments := store.state.assignments;
      var state := store.state.(
        volumes := store.state.volumes - {volumeId},
        assignments := map key | key in assignments && assignments[key].volumeId != volumeId :: assignments[key]);
      if volume.deleteDatasetOnDelete && config.allowAuthoritativeDatasetDelete
      then store.(state := state, deleted := store.deleted + multiset{volume.dataset})
      else store.(state := state)
  }

  function AssignmentKey(volumeId: string, nodeId: string): string {
    volumeId + ['\0'] + nodeId
  }

  function PublishStatus(
    store: Store, volumeId: string, nodeId: string, capabilities: seq<VolumeCapability>): Result<(), Status>
  {
    if IsBlank(nodeId) then Err(InvalidArgument)
    else if volumeId !in store.state.volumes then Err(NotFound)
    else if !ValidCapabilities(store.state.volumes[volumeId].policy, capabilities) then Err(InvalidArgument)
    else Ok(())
  }

  function PublishSection(
    store: Store, volumeId: string, nodeId: string, readOnly: bool, capabilities: seq<VolumeCapability>): Store
  {
    if PublishStatus(store, volumeId, nodeId, capabilities).Err? then store
    else
      var assignment := Assignment(volumeId, nodeId, readOnly || store.state.volumes[volumeId].policy.access.ReadOnly?);
      store.(state := store.state.(
        assignments := store.state.assignments[AssignmentKey(volumeId, nodeId) := assignment]))
  }

  function UnpublishSection(store: Store, volumeId: string, nodeId: string): Store {
    store.(state := store.state.(assignments := store.state.assignments - {AssignmentKey(volumeId, nodeId)}))
  }

  predicate IsSnapshotOf(snapshot: Snapshot, sourceVolumeId: string, name: string) {
    snapshot.sourceVolumeId == sourceVolumeId && snapshot.name == name
  }

  function FindSnapshot(state: State, sourceVolumeId: string, name: string): (r: Option<Snapshot>)
    ensures r.None? <==> forall id :: id in state.snapshots ==> !IsSnapshotOf(state.snapshots[id], sourceVolumeId, name)
    ensures r.Some? ==> exists id :: id in state.snapshots && state.snapshots[id] == r.value
                          && IsSnapshotOf(r.value, sourceVolumeId, name)
  {
    var matches := set id | id in state.snapshots && IsSnapshotOf(state.snapshots[id], sourceVolumeId, name);
    if matches == {} then
      assert forall id :: id in state.snapshots && IsSnapshotOf(state.snapshots[id], sourceVolumeId, name) ==>
        id in matches;
      None
    else
      var id := Least(matches);
      assert id in matches;
      Some(state.snapshots[id])
  }

  // The backend's answer to `create_snapshot` is the id it chose, or nothing if it failed.
  function SnapshotSection(store: Store, sourceVolumeId: string, name: string, backendId: Option<string>)
    : (Store, Result<Snapshot, Status>)
  {
    match FindSnapshot(store.state, sourceVolumeId, name)
    case Some(snapshot) => (store, Ok(snapshot))
    case None =>
      if sourceVolumeId !in store.state.volumes then (store, Err(NotFound))
      else match backendId
        case None => (store, Err(Internal))
        case Some(id) =>
          var volume := store.state.volumes[sourceVolumeId];
          var snapshot := Snapshot(id, volume.id, name, volume.capacityBytes);
          (store.(state := store.state.(snapshots := store.state.snapshots[id := snapshot])), Ok(snapshot))
  }

  function RemoveSnapshotSection(store: Store, snapshotId: string): Store {
    store.(state := store.state.(snapshots := store.state.snapshots - {snapshotId}))
  }

  // ---- Whole requests, run one at a time ----

  /** What the environment decides during one request: the backend's answers and whether the metadata
      file could be written. */
  datatype Environment = Environment(
    lookup: Result<Option<Metadata>, ()>,
    backendOk: bool,
    snapshotId: Option<string>,
    persistOk: bool)

  function CreateVolume(
    config: Config, store: Store, request: CreateRequest, env: Environment): (Store, Result<Volume, Status>)
  {
    match LookupSection(config, store.state, request)
    case Answered(result) => (store, result)
    case RegisterExisting(dataset) => (
      match env.lookup
      case Err(_) => (store, Err(Internal))
      case Ok(None) => (store, Err(NotFound))
      case Ok(Some(metadata)) =>
        var volume := ExistingVolume(config, request, metadata);
        (InsertSection(store, volume),
         if !env.persistOk then Err(Internal)
         else if !ValidCapabilities(volume.policy, request.capabilities) then Err(InvalidArgument)
         else Ok(volume)))
    case CreateDynamic(dataset) =>
      if !env.backendOk then (store, Err(Internal))
      else
        var created := store.(created := store.created + multiset{dataset});
        var volume := DynamicVolume(config, request, dataset);
        if !ValidCapabilities(volume.policy, request.capabilities) then (created, Err(InvalidArgument))
        else (InsertSection(created, volume), if env.persistOk then Ok(volume) else Err(Internal))
  }

  datatype Request =
    | Create(request: CreateRequest)
    | Delete(volumeId: string)
    | Publish(volumeId: string, nodeId: string, readOnly: bool, capabilities: seq<VolumeCapability>)
    | Unpublish(volumeId: string, nodeId: string)
    | CreateSnapshot(sourceVolumeId: string, name: string)
    | DeleteSnapshot(snapshotId: string)

  function Serve(config: Config, store: Store, request: Request, env: Environment): Store {
    match request
    case Create(create) => CreateVolume(config, store, create, env).0
    case Delete(volumeId) => DeleteSection(config, store, volumeId)
    case Publish(volumeId, nodeId, readOnly, capabilities) =>
      PublishSection(store, volumeId, nodeId, readOnly, capabilities)
    case Unpublish(volumeId, nodeId) => UnpublishSection(store, volumeId, nodeId)
    case CreateSnapshot(sourceVolumeId, name) => SnapshotSection(store, sourceVolumeId, name, env.snapshotId).0
    case DeleteSnapshot(snapshotId) =>
      if IsBlank(snapshotId) || (config.allowSnapshotDelete && !env.backendOk) then store
      else RemoveSnapshotSection(store, snapshotId)
  }

  /** The service: the maps behind the mutex and the backend calls so far. */
  class ControllerService {
    const config: Config
    var volumes: map<string, Volume>
    var snapshots: map<string, Snapshot>
    var assignments: map<string, Assignment>
    var created: multiset<string>
    var deleted: multiset<string>

    constructor (config: Config, state: State)
      ensures this.config == config && View() == Store(state, multiset{}, multiset{})
    {
      this.config := config;
      volumes, snapshots, assignments := state.volumes, state.snapshots, state.assignments;
      created, deleted := multiset{}, multiset{};
    }

    function View(): Store
      reads this
    {
      Store(State(volumes, snapshots, assignments), created, deleted)
    }

    method InsertVolume(volume: Volume)
      modifies this
      ensures View() == InsertSection(old(View()), volume)
    {
      volumes := volumes[volume.id := volume];
    }

    method HandleCreateVolume(request: CreateRequest, env: Environment) returns (result: Result<Volume, Status>)
      modifies this
      ensures (View(), result) == CreateVolume(config, old(View()), request, env)
    {
      var path := LookupSection(config, State(volumes, snapshots, assignments), request);
      match path {
        case Answered(answer) =>
          result := answer;
        case RegisterExisting(dataset) =>
          if env.lookup.Err? {
            return Err(Internal);
          }
          if env.lookup.value.None? {
            return Err(NotFound);
          }
          var volume := ExistingVolume(config, request, env.lookup.value.value);
          InsertVolume(volume);
          if !env.persistOk {
            return Err(Internal);
          }
          result := if ValidCapabilities(volume.policy, request.capabilities) then Ok(volume) else Err(InvalidArgument);
        case CreateDynamic(dataset) =>
          if !env.backendOk {
            return Err(Internal);
          }
          created := created + multiset{dataset};
          var volume := DynamicVolume(config, request, dataset);
          if !ValidCapabilities(volume.policy, request.capabilities) {
            return Err(InvalidArgument);
          }
          InsertVolume(volume);
          result := if env.persistOk then Ok(volume) else Err(Internal);
      }
    }

    method HandleDeleteVolume(volumeId: string, env: Environment) returns (result: Result<(), Status>)
      modifies this
      ensures View() == Serve(config, old(View()), Delete(volumeId), env)
      ensures result.Ok? ==> IsBlank(volumeId) || volumeId !in volumes
    {
      if IsBlank(volumeId) || volumeId !in volumes {
        return Ok(());
      }
      var volume := volumes[volumeId];
      volumes := volumes - {volumeId};
      assignments := map key | key in assignments && assignments[key].volumeId != volumeId :: assignments[key];
      if volume.deleteDatasetOnDelete && config.allowAuthoritativeDatasetDelete {
        deleted := deleted + multiset{volume.dataset};
        if !env.backendOk {
          return Err(Internal);
        }
      }
      result := if env.persistOk then Ok(()) else Err(Internal);
    }

    method HandlePublish(
      volumeId: string, nodeId: string, readOnly: bool, capabilities: seq<VolumeCapability>, env: Environment)
      returns (result: Result<Assignment, Status>)
      modifies this
      ensures View() == Serve(config, old(View()), Publish(volumeId, nodeId, readOnly, capabilities), env)
      ensures result.Ok? <==> PublishStatus(old(View()), volumeId, nodeId, capabilities).Ok? && env.persistOk
      ensures result.Ok? ==> AssignmentKey(volumeId, nodeId) in assignments
                             && assignments[AssignmentKey(volumeId, nodeId)] == result.value
    {
      if IsBlank(nodeId) {
        return Err(InvalidArgument);
      }
      if volumeId !in volumes {
        return Err(NotFound);
      }
      var volume := volumes[volumeId];
      if !ValidCapabilities(volume.policy, capabilities) {
        return Err(InvalidArgument);
      }
      var assignment := Assignment(volumeId, nodeId, readOnly || volume.policy.access.ReadOnly?);
      assignments := assignments[AssignmentKey(volumeId, nodeId) := assignment];
      result := if env.persistOk then Ok(assignment) else Err(Internal);
    }

    method HandleUnpublish(volumeId: string, nodeId: string, env: Environment) returns (result: Result<(), Status>)
      modifies this
      ensures View() == Serve(config, old(View()), Unpublish(volumeId, nodeId), env)
    {
      assignments := assignments - {AssignmentKey(volumeId, nodeId)};
      result := if env.persistOk then Ok(()) else Err(Internal);
    }

    method HandleCreateSnapshot(sourceVolumeId: string, name: string, env: Environment)
      returns (result: Result<Snapshot, Status>)
      modifies this
      ensures View() == Serve(config, old(View()), CreateSnapshot(sourceVolumeId, name), env)
      ensures result == SnapshotSection(old(View()), sourceVolumeId, name, env.snapshotId).1
              || (!env.persistOk && result == Err(Internal))
    {
      var found := FindSnapshot(State(volumes, snapshots, assignments), sourceVolumeId, name);
      if found.Some? {
        return Ok(found.value);
      }
      if sourceVolumeId !in volumes {
        return Err(NotFound);
      }
      var volume := volumes[sourceVolumeId];
      if env.snapshotId.None? {
        return Err(Internal);
      }
      var snapshot := Snapshot(env.snapshotId.value, volume.id, name, volume.capacityBytes);
      snapshots := snapshots[snapshot.id := snapshot];
      result := if env.persistOk then Ok(snapshot) else Err(Internal);
    }

    method HandleDeleteSnapshot(snapshotId: string, env: Environment) returns (result: Result<(), Status>)
      modifies this
      ensures View() == Serve(config, old(View()), DeleteSnapshot(snapshotId), env)
      ensures result.Ok? && !IsBlank(snapshotId) ==> snapshotId !in snapshots
    {
      if IsBlank(snapshotId) {
        return Ok(());
      }
      if config.allowSnapshotDelete && !env.backendOk {
        return Err(Internal);
      }
      snapshots := snapshots - {snapshotId};
      result := if env.persistOk then Ok(()) else Err(Internal);
    }
  }
}
