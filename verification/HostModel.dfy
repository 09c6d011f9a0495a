/** The host agent's configuration, plans and observed state. */
module HostModel {
  import opened Paths
  import opened Types
  import opened Wrappers

  // ---- Configuration ----

  datatype DiskFormat = Qcow2 | Raw

  function FormatName(f: DiskFormat): string {
    match f
    case Qcow2 => "qcow2"
    case Raw => "raw"
  }

  datatype RootDisk = RootDisk(
    image: Path,
    sourceImage: Option<Path>,
    sourceFormat: Option<DiskFormat>,
    sourceChecksum: Option<string>,
    sizeGib: nat,
    format: DiskFormat)

  datatype NodeConfig = NodeConfig(
    name: string,
    domain: string,
    autostart: bool,
    vcpus: nat,
    memoryMib: nat,
    machine: string,
    cpu: string,
    bridge: string,
    mac: string,
    rootDisk: RootDisk,
    exports: seq<string>)

  datatype ExportConfig = ExportConfig(
    dataset: string, sourcePath: Path, tag: string, policy: string, access: AccessMode)

  datatype HostConfig = HostConfig(libvirtUri: string, nodes: seq<NodeConfig>, exports: map<string, ExportConfig>)

  datatype Options = Options(
    runtimeDir: Path,
    artifactDir: Path,
    unitDir: Path,
    qemuImg: string,
    virsh: string,
    systemctl: string,
    queueSize: nat,
    startDomains: bool,
    allowRunningRedefine: bool,
    allowAdoption: bool)

  // ---- Plans ----

  // The fixed words of the commands the agent builds.
  datatype Verb =
    | QemuCreate
    | QemuFormat
    | QemuBackingFormat
    | QemuBacking
    | QemuResize
    | DaemonReload
    | Enable
    | Now
    | Restart
    | Connect
    | Define
    | Autostart
    | Start

  datatype Arg = Fixed(verb: Verb) | Word(text: string) | PathArg(path: Path) | Gib(size: nat)

  datatype Command = Command(program: string, args: seq<Arg>)

  datatype ApplyStep =
    | EnsureDirectory(path: Path)
    | WriteFile(path: Path, contents: string)
    | WriteBinaryFile(path: Path, contents: string)
    | RemoveFile(path: Path)
    | RunStep(command: Command, creates: Option<Path>)

  datatype Operation =
    | CreateDirectory(path: Path)
    | WriteRenderedArtifact(path: Path, contents: string)
    | CreateRootDisk(path: Path, command: Command)
    | ResizeRootDisk(path: Path, desiredSizeBytes: nat, command: Command)
    | RewriteSeedImage(path: Path, contents: string)
    | InstallOrUpdateSystemdUnit(unitName: string, path: Path, contents: string)
    | ReloadSystemdUnits(command: Command)
    | EnableAndStartVirtiofsdService(unitName: string, socketPath: Path, command: Command)
    | RestartVirtiofsdService(unitName: string, socketPath: Path, command: Command)
    | DefineDomain(domain: string, xmlPath: Path, command: Command)
    | RedefineDomain(domain: string, xmlPath: Path, previousXml: Option<string>, command: Command)
    | RedefineDomainRequiresShutdown(domain: string, xmlPath: Path)
    | EnableDomainAutostart(domain: string, command: Command)
    | StartDomain(domain: string, command: Command)
    | RunCommand(command: Command, creates: Option<Path>)

  datatype ReconcileStep = Apply(operation: Operation) | SkipAlreadyCorrect | Refuse(refused: Option<Operation>)

  predicate HasRefusals(plan: seq<ReconcileStep>) {
    exists i :: 0 <= i < |plan| && plan[i].Refuse?
  }

  // ---- Observed state ----

  datatype PathKind = IsFile | IsDirectory | IsOther | IsMissing

  datatype PathState = PathState(kind: PathKind, contentHash: Option<string>, sha256: Option<string>)

  const MISSING := PathState(IsMissing, None, None)

  datatype UnitState = UnitState(enabled: Option<bool>, active: Option<bool>)

  datatype DomainState = DomainState(
    exists_: bool, managed: bool, active: bool, autostart: Option<bool>, desiredHash: Option<string>,
    xml: Option<string>)

  datatype ImageState = ImageState(format: Option<string>, backingFile: Option<Path>, virtualSize: Option<nat>)

  datatype ActualState = ActualState(
    paths: map<Path, PathState>,
    tools: set<string>,
    units: map<string, UnitState>,
    domains: map<string, DomainState>,
    images: map<Path, ImageState>)
}
