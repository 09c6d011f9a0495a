/** The CSI node plugin: staging and publishing virtiofs mounts inside a node VM. */
module NodePlugin {
  import opened MountInfo
  import opened Types
  import opened Wrappers

  datatype RuntimeExport = RuntimeExport(id: string, tag: string, access: AccessMode, guestMountPath: string)

  datatype RuntimeConfig = RuntimeConfig(nodeName: string, exports: seq<RuntimeExport>)

  // What the node runtime config's own validation guarantees about its exports.
  predicate DistinctExports(runtime: RuntimeConfig) {
    forall i, j :: 0 <= i < j < |runtime.exports| ==>
      && runtime.exports[i].id != runtime.exports[j].id
      && runtime.exports[i].tag != runtime.exports[j].tag
      && runtime.exports[i].guestMountPath != runtime.exports[j].guestMountPath
  }

  // ---- Planning ----

  const VIRTIOFS := "virtiofs"

  function FindMount(entries: seq<MountInfoEntry>, mountPoint: string): Option<MountInfoEntry>
  {
    if entries == [] then None
    else if entries[0].mountPoint == mountPoint then Some(entries[0])
    else FindMount(entries[1..], mountPoint)
  }

  function FindExport(exports: seq<RuntimeExport>, id: string): Option<RuntimeExport>
  {
    if exports == [] then None
    else if exports[0].id == id then Some(exports[0])
    else FindExport(exports[1..], id)
  }

  datatype Reason =
    | NotConfigured
    | ExportNotMounted
    | ExportNotVirtiofs
    | ExportFromOtherTag
    | StagingPathTaken
    | StagingNotMounted
    | StagingNotVirtiofs
    | TargetPathTaken

  datatype MountAction =
    | AlreadyMounted
    | BindMount(source: string, target: string, readOnly: bool)
    | Refused(reason: Reason)

  datatype UnmountAction = AlreadyUnmounted | Unmount(target: string)

  function PlanNodeStage(
    volumeId: string, stagingPath: string, readOnly: bool, runtime: RuntimeConfig,
    mounts: seq<MountInfoEntry>): MountAction
  {
    match FindExport(runtime.exports, volumeId)
    case None => Refused(NotConfigured)
    case Some(entry) =>
      match FindMount(mounts, entry.guestMountPath)
      case None => Refused(ExportNotMounted)
      case Some(source) =>
        if source.filesystemType != VIRTIOFS then Refused(ExportNotVirtiofs)
        else if source.source != entry.tag then Refused(ExportFromOtherTag)
        else match FindMount(mounts, stagingPath)
          case Some(staging) =>
            if staging.source == source.source || staging.root == source.root then AlreadyMounted
            else Refused(StagingPathTaken)
          case None => BindMount(entry.guestMountPath, stagingPath, readOnly || entry.access.ReadOnly?)
  }

  function PlanNodePublish(
    stagingPath: string, targetPath: string, readOnly: bool, mounts: seq<MountInfoEntry>): MountAction
  {
    match FindMount(mounts, stagingPath)
    case None => Refused(StagingNotMounted)
    case Some(staging) =>
      if staging.filesystemType != VIRTIOFS then Refused(StagingNotVirtiofs)
      else match FindMount(mounts, targetPath)
        case Some(target) =>
          if target.root == staging.root || target.source == staging.source then AlreadyMounted
          else Refused(TargetPathTaken)
        case None => BindMount(stagingPath, targetPath, readOnly)
  }

  // Unpublish and unstage plan alike, each on its own path.
  function PlanNodeUnmount(path: string, mounts: seq<MountInfoEntry>): UnmountAction {
    if FindMount(mounts, path).Some? then Unmount(path) else AlreadyUnmounted
  }

  // ---- The node's mount table ----

  datatype Mount = Mount(
    entry: MountInfoEntry, device: string, readOnly: bool, optionalFields: seq<string>, superOptions: string)

  function ToKernel(m: Mount): KernelMount {
    KernelMount(m.entry, m.device, if m.readOnly then "ro" else "rw", m.optionalFields, m.superOptions)
  }

  function Kernel(table: seq<Mount>): (r: seq<KernelMount>)
    ensures |r| == |table| && forall i :: 0 <= i < |r| ==> r[i] == ToKernel(table[i])
  {
    seq(|table|, i requires 0 <= i < |table| => ToKernel(table[i]))
  }

  function TableEntries(table: seq<Mount>): seq<MountInfoEntry> {
    seq(|table|, i requires 0 <= i < |table| => table[i].entry)
  }

  // The topmost mount at a path: the kernel appends, and resolves a path to the newest.
  function TopMount(table: seq<Mount>, path: string): Option<Mount>
  {
    if table == [] then None
    else if table[|table| - 1].entry.mountPoint == path then Some(table[|table| - 1])
    else TopMount(table[..|table| - 1], path)
  }

  function RemoveTop(table: seq<Mount>, path: string): seq<Mount> {
    if table == [] then []
    else if table[|table| - 1].entry.mountPoint == path then table[..|table| - 1]
    else RemoveTop(table[..|table| - 1], path) + [table[|table| - 1]]
  }

  // What the environment decides about one request.
  datatype Fault = NoFault | ReadFails | EnsureDirFails | BindFails | RemountFails | UnmountFails

  datatype Environment = Environment(mountId: nat, parentId: nat, fault: Fault)

  // `mount --bind`: the new mount shows the same tree, with the flags of the mount it copies.
  function BoundMount(source: Mount, target: string, env: Environment): Mount {
    source.(entry := source.entry.(mountId := env.mountId, parentId := env.parentId, mountPoint := target))
  }

  datatype Status = Internal | FailedPrecondition(reason: Reason)

  datatype Done = AlreadyDone | Mounted | Unmounted

  datatype Outcome = Outcome(table: seq<Mount>, result: Result<Done, Status>)

  // `mount --bind`, then for a read-only mount `mount -o remount,bind,ro`.
  function BindEffect(table: seq<Mount>, source: string, target: string, readOnly: bool, env: Environment): Outcome {
    match TopMount(table, source)
    case None => Outcome(table, Err(Internal))
    case Some(m) =>
      var bound := BoundMount(m, target, env);
      if env.fault.BindFails? then Outcome(table, Err(Internal))
      else if readOnly && env.fault.RemountFails? then Outcome(table + [bound], Err(Internal))
      else Outcome(table + [if readOnly then bound.(readOnly := true) else bound], Ok(Mounted))
  }

  function CurrentMounts(table: seq<Mount>, env: Environment): Result<seq<MountInfoEntry>, Status> {
    if env.fault.ReadFails? then Err(Internal)
    else match ParseMountinfo(PrintMountinfo(Kernel(table)))
      case Err(_) => Err(Internal)
      case Ok(mounts) => Ok(mounts)
  }

  function CarryOutMount(table: seq<Mount>, action: MountAction, env: Environment): Outcome {
    match action
    case AlreadyMounted => Outcome(table, Ok(AlreadyDone))
    case Refused(reason) => Outcome(table, Err(FailedPrecondition(reason)))
    case BindMount(source, target, readOnly) =>
      if env.fault.EnsureDirFails? then Outcome(table, Err(Internal))
      else BindEffect(table, source, target, readOnly, env)
  }

  function CarryOutUnmount(table: seq<Mount>, action: UnmountAction, env: Environment): Outcome {
    match action
    case AlreadyUnmounted => Outcome(table, Ok(AlreadyDone))
    case Unmount(target) =>
      if env.fault.UnmountFails? then Outcome(table, Err(Internal))
      else Outcome(RemoveTop(table, target), Ok(Unmounted))
  }

  datatype Request =
    | Stage(volumeId: string, stagingPath: string, readOnly: bool)
    | Publish(stagingPath: string, targetPath: string, readOnly: bool)
    | Unpublish(targetPath: string)
    | Unstage(stagingPath: string)

  // One service call.
  function Step(table: seq<Mount>, runtime: RuntimeConfig, request: Request, env: Environment): Outcome {
    match CurrentMounts(table, env)
    case Err(status) => Outcome(table, Err(status))
    case Ok(mounts) =>
      match request
      case Stage(volumeId, stagingPath, readOnly) =>
        CarryOutMount(table, PlanNodeStage(volumeId, stagingPath, readOnly, runtime, mounts), env)
      case Publish(stagingPath, targetPath, readOnly) =>
        CarryOutMount(table, PlanNodePublish(stagingPath, targetPath, readOnly, mounts), env)
      case Unpublish(targetPath) =>
        CarryOutUnmount(table, PlanNodeUnmount(targetPath, mounts), env)
      case Unstage(stagingPath) =>
        CarryOutUnmount(table, PlanNodeUnmount(stagingPath, mounts), env)
  }

  /** The service with the mount table its mounter changes. */
  class NodeService {
    const runtime: RuntimeConfig
    var table: seq<Mount>

    constructor (runtime: RuntimeConfig, table: seq<Mount>)
      ensures this.runtime == runtime && this.table == table
    {
      this.runtime := runtime;
      this.table := table;
    }

    method RunMount(source: string, target: string, readOnly: bool, env: Environment)
      returns (result: Result<Done, Status>)
      modifies this`table
      ensures Outcome(table, result) == BindEffect(old(table), source, target, readOnly, env)
    {
      var top := TopMount(table, source);
      if top.None? || env.fault.BindFails? {
        return Err(Internal);
      }
      var bound := BoundMount(top.value, target, env);
      table := table + [bound];
      if readOnly {
        if env.fault.RemountFails? {
          return Err(Internal);
        }
        table := table[|table| - 1 := bound.(readOnly := true)];
      }
      result := Ok(Mounted);
    }

    method MountAs(action: MountAction, env: Environment) returns (result: Result<Done, Status>)
      modifies this`table
      ensures Outcome(table, result) == CarryOutMount(old(table), action, env)
    {
      match action {
        case AlreadyMounted => result := Ok(AlreadyDone);
        case Refused(reason) => result := Err(FailedPrecondition(reason));
        case BindMount(source, target, readOnly) =>
          if env.fault.EnsureDirFails? {
            result := Err(Internal);
          } else {
            result := RunMount(source, target, readOnly, env);
          }
      }
    }

    method UnmountAs(action: UnmountAction, env: Environment) returns (result: Result<Done, Status>)
      modifies this`table
      ensures Outcome(table, result) == CarryOutUnmount(old(table), action, env)
    {
      match action {
        case AlreadyUnmounted => result := Ok(AlreadyDone);
        case Unmount(target) =>
          if env.fault.UnmountFails? {
            result := Err(Internal);
          } else {
            table := RemoveTop(table, target);
            result := Ok(Unmounted);
          }
      }
    }

    method NodeStageVolume(volumeId: string, stagingPath: string, readOnly: bool, env: Environment)
      returns (result: Result<Done, Status>)
      modifies this`table
      ensures Outcome(table, result) == Step(old(table), runtime, Stage(volumeId, stagingPath, readOnly), env)
    {
      var mounts := CurrentMounts(table, env);
      if mounts.Err? {
        return Err(mounts.error);
      }
      result := MountAs(PlanNodeStage(volumeId, stagingPath, readOnly, runtime, mounts.value), env);
    }

    method NodePublishVolume(stagingPath: string, targetPath: string, readOnly: bool, env: Environment)
      returns (result: Result<Done, Status>)
      modifies this`table
      ensures Outcome(table, result) == Step(old(table), runtime, Publish(stagingPath, targetPath, readOnly), env)
    {
      var mounts := CurrentMounts(table, env);
      if mounts.Err? {
        return Err(mounts.error);
      }
      result := MountAs(PlanNodePublish(stagingPath, targetPath, readOnly, mounts.value), env);
    }

    method NodeUnpublishVolume(targetPath: string, env: Environment) returns (result: Result<Done, Status>)
      modifies this`table
      ensures Outcome(table, result) == Step(old(table), runtime, Unpublish(targetPath), env)
    {
      var mounts := CurrentMounts(table, env);
      if mounts.Err? {
        return Err(mounts.error);
      }
      result := UnmountAs(PlanNodeUnmount(targetPath, mounts.value), env);
    }

    method NodeUnstageVolume(stagingPath: string, env: Environment) returns (result: Result<Done, Status>)
      modifies this`table
      ensures Outcome(table, result) == Step(old(table), runtime, Unstage(stagingPath), env)
    {
      var mounts := CurrentMounts(table, env);
      if mounts.Err? {
        return Err(mounts.error);
      }
      result := UnmountAs(PlanNodeUnmount(stagingPath, mounts.value), env);
    }
  }
}
