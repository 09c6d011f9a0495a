/** The host itself: its file system, systemd, libvirt and disk images, and the agent's inspection of it. */
module HostWorld {
  import opened DomainXml
  import opened HostModel
  import opened HostPlanner
  import opened Paths
  import opened Wrappers

  datatype DiskInfo = DiskInfo(format: string, backing: Option<Path>, virtualSize: nat)

  // A regular file may be a disk image that qemu-img can describe.
  datatype FsNode = Directory | File(contents: string, image: Option<DiskInfo>) | Other

  type FileSystem = map<Path, FsNode>

  datatype Unit = Unit(enabled: bool, active: bool, running: string)

  datatype Domain = Domain(xml: string, active: bool, autostart: bool)

  /** `loaded` is the file system as systemd last read it: units run what was loaded, not what is on disk. */
  datatype World = World(
    fs: FileSystem,
    loaded: FileSystem,
    units: map<string, Unit>,
    domains: map<string, Domain>,
    tools: set<string>)

  const STOPPED := Unit(false, false, "")

  function UnitOf(w: World, u: string): Unit {
    if u in w.units then w.units[u] else STOPPED
  }

  // The contents of a regular file.
  function FileAt(fs: FileSystem, p: Path): Option<string> {
    if p in fs && fs[p].File? then Some(fs[p].contents) else None
  }

  predicate IsDirectoryAt(fs: FileSystem, p: Path) {
    p in fs && fs[p].Directory?
  }

  // ---- File system primitives ----

  predicate Blocked(fs: FileSystem, p: Path) {
    exists k :: 1 <= k <= |p| && p[..k] in fs && !fs[p[..k]].Directory?
  }

  function Prefixes(p: Path): set<Path> {
    set k | 1 <= k <= |p| :: p[..k]
  }

  // `fs::create_dir_all`
  function CreateDirAll(fs: FileSystem, p: Path): Option<FileSystem> {
    if Blocked(fs, p) then None
    else Some(map q | q in fs.Keys + Prefixes(p) :: if q in fs then fs[q] else Directory)
  }

  function CreateParent(fs: FileSystem, p: Path): Option<FileSystem> {
    match Parent(p)
    case Some(parent) => if parent == [] then Some(fs) else CreateDirAll(fs, parent)
    case None => Some(fs)
  }

  // `write_atomic_if_changed`: parents, then a temporary file renamed into place unless the contents are there.
  function WriteAtomic(fs: FileSystem, p: Path, contents: string): Option<FileSystem> {
    match CreateParent(fs, p)
    case None => None
    case Some(dirs) =>
      if FileAt(dirs, p) == Some(contents) then Some(dirs)
      else if IsDirectoryAt(dirs, p) then None
      else Some(dirs[p := File(contents, None)])
  }

  // ---- Effects of the commands the operations name ----

  predicate ParentExists(fs: FileSystem, p: Path) {
    match Parent(p)
    case Some(parent) => parent == [] || IsDirectoryAt(fs, parent)
    case None => true
  }

  // Format, backing file and size a `qemu-img create` command asks for.
  function CreatedDisk(command: Command): Option<DiskInfo> {
    var n := |command.args|;
    if n >= 5 && command.args[2].Word? && command.args[n - 1].Gib? then
      var backing := if n >= 9 && command.args[6].PathArg? then Some(command.args[6].path) else None;
      Some(DiskInfo(command.args[2].text, backing, command.args[n - 1].size * GIB))
    else None
  }

  function CreateDiskEffect(w: World, path: Path, command: Command, imageBytes: DiskInfo -> string): Option<World> {
    match CreatedDisk(command)
    case None => None
    case Some(info) =>
      if !ParentExists(w.fs, path) || IsDirectoryAt(w.fs, path) then None
      else Some(w.(fs := w.fs[path := File(imageBytes(info), Some(info))]))
  }

  // A permissive `qemu-img resize`: it sets the size it is given, smaller or larger.
  function ResizeDiskEffect(w: World, path: Path, command: Command, imageBytes: DiskInfo -> string): Option<World> {
    if path !in w.fs || !w.fs[path].File? || w.fs[path].image.None? then None
    else if |command.args| != 3 || !command.args[2].Gib? then None
    else
      var info := w.fs[path].image.value.(virtualSize := command.args[2].size * GIB);
      Some(w.(fs := w.fs[path := File(imageBytes(info), Some(info))]))
  }

  function UpdateUnit(w: World, u: string, unit: Unit): World {
    w.(units := w.units[u := unit])
  }

  // `systemctl enable --now` rereads the unit files, and starts the unit unless it runs already.
  function EnableEffect(w: World, opts: Options, u: string): Option<World> {
    match FileAt(w.fs, UnitPath(opts, u))
    case None => None
    case Some(text) =>
      var unit := UnitOf(w, u);
      Some(UpdateUnit(w.(loaded := w.fs), u, if unit.active then unit.(enabled := true) else Unit(true, true, text)))
  }

  // `systemctl restart` runs what systemd has loaded; a unit never loaded is read now.
  function RestartEffect(w: World, opts: Options, u: string): Option<World> {
    var path := UnitPath(opts, u);
    var text := if FileAt(w.loaded, path).Some? then FileAt(w.loaded, path) else FileAt(w.fs, path);
    match text
    case None => None
    case Some(contents) => Some(UpdateUnit(w, u, UnitOf(w, u).(active := true, running := contents)))
  }

  // `virsh define` keeps whether the domain runs and whether it starts on boot.
  function DefineEffect(w: World, d: string, xmlPath: Path): Option<World> {
    match FileAt(w.fs, xmlPath)
    case None => None
    case Some(xml) =>
      Some(w.(domains := w.domains[d :=
        if d in w.domains then w.domains[d].(xml := xml) else Domain(xml, false, false)]))
  }

  function AutostartEffect(w: World, d: string): Option<World> {
    if d !in w.domains then None else Some(w.(domains := w.domains[d := w.domains[d].(autostart := true)]))
  }

  function StartEffect(w: World, d: string): Option<World> {
    if d !in w.domains || w.domains[d].active then None
    else Some(w.(domains := w.domains[d := w.domains[d].(active := true)]))
  }

  // ---- Inspection ----

  function InspectPath(w: World, lib: Library, p: Path): PathState {
    if p !in w.fs then MISSING
    else match w.fs[p]
      case Directory => PathState(IsDirectory, None, None)
      case File(contents, _) => PathState(IsFile, Some(lib.contentHash(contents)), Some(lib.sha256(contents)))
      case Other => PathState(IsOther, None, None)
  }

  function StepPaths(step: ApplyStep): set<Path> {
    match step
    case RunStep(_, creates) => if creates.Some? then {creates.value} else {}
    case _ => {step.path}
  }

  function StepsPaths(steps: seq<ApplyStep>): set<Path> {
    set i, p | 0 <= i < |steps| && p in StepPaths(steps[i]) :: p
  }

  function SourceImages(nodes: seq<NodeConfig>): set<Path> {
    set n | n in nodes && n.rootDisk.sourceImage.Some? :: n.rootDisk.sourceImage.value
  }

  function InspectedPaths(config: HostConfig, steps: seq<ApplyStep>): set<Path> {
    StepsPaths(steps) + SourceImages(config.nodes)
  }

  function Programs(steps: seq<ApplyStep>): set<string> {
    set i | 0 <= i < |steps| && steps[i].RunStep? :: steps[i].command.program
  }

  function ImageOf(w: World, p: Path): Option<ImageState> {
    if p in w.fs && w.fs[p].File? && w.fs[p].image.Some? then
      var info := w.fs[p].image.value;
      Some(ImageState(Some(info.format), info.backing, Some(info.virtualSize)))
    else None
  }

  // Images the planner may have to judge: existing creation targets, and existing base images.
  function InspectedImages(w: World, config: HostConfig, steps: seq<ApplyStep>, opts: Options): set<Path> {
    (set i | 0 <= i < |steps| && steps[i].RunStep? && steps[i].creates.Some?
       && FirstArg(steps[i].command) == Some(Fixed(QemuCreate)) && steps[i].command.program in w.tools
     :: steps[i].creates.value)
    + (if opts.qemuImg in w.tools && opts.qemuImg in Programs(steps) then SourceImages(config.nodes) else {})
  }

  predicate IsServiceName(name: string) {
    |name| >= |UNIT_SUFFIX| && name[|name| - |UNIT_SUFFIX|..] == UNIT_SUFFIX
  }

  function ServiceNames(steps: seq<ApplyStep>): set<string> {
    set i | 0 <= i < |steps| && !steps[i].RunStep? && FileName(steps[i].path).Some?
      && IsServiceName(FileName(steps[i].path).value)
    :: FileName(steps[i].path).value
  }

  function InspectUnit(w: World, opts: Options, available: bool, u: string): UnitState {
    if available then UnitState(Some(UnitOf(w, u).enabled), Some(UnitOf(w, u).active)) else UnitState(None, None)
  }

  function InspectDomain(w: World, d: string): DomainState {
    if d !in w.domains then DomainState(false, false, false, None, None, None)
    else
      var domain := w.domains[d];
      DomainState(true, ExtractManaged(domain.xml), domain.active, Some(domain.autostart),
                  ExtractDesiredHash(domain.xml), Some(domain.xml))
  }

  function Inspect(w: World, config: HostConfig, steps: seq<ApplyStep>, opts: Options, lib: Library): ActualState {
    var tools := Programs(steps) * w.tools;
    ActualState(
      map p | p in InspectedPaths(config, steps) :: InspectPath(w, lib, p),
      tools,
      map u | u in ServiceNames(steps) :: InspectUnit(w, opts, opts.systemctl in tools, u),
      if opts.virsh in tools then map d | d in (set n | n in config.nodes :: n.domain) :: InspectDomain(w, d)
      else map[],
      map p | p in InspectedImages(w, config, steps, opts) && ImageOf(w, p).Some? :: ImageOf(w, p).value)
  }
}
