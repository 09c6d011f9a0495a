/** The host planner: rendering into apply steps, and deciding each step against the observed state. */
module HostPlanner {
  import opened DomainXml
  import opened HostModel
  import opened Paths
  import opened StringOrder
  import opened Text
  import opened Wrappers

  /**
   * Hashes, renderers and the seed image writer. Most are left open; `RendersDomains` says the domain renderer is the
   * program's own.
   */
  datatype Library = Library(
    contentHash: string -> string,
    sha256: string -> string,
    domainXml: DomainSpec -> string,
    domainHash: DomainSpec -> string,
    userData: (HostConfig, NodeConfig) -> string,
    metaData: NodeConfig -> string,
    k3sConfig: (HostConfig, NodeConfig) -> string,
    unitText: (HostConfig, NodeConfig, string) -> string,
    seedImage: (string, string) -> string)

  ghost predicate RendersDomains(lib: Library) {
    forall spec: DomainSpec {:trigger Render(spec, lib.contentHash)} {:trigger DesiredHash(spec, lib.contentHash)} ::
      lib.domainXml(spec) == Render(spec, lib.contentHash) && lib.domainHash(spec) == DesiredHash(spec, lib.contentHash)
  }

  // The library of the program itself, around the parts left open.
  function WithDomainRenderer(lib: Library): Library {
    lib.(domainXml := (spec: DomainSpec) => Render(spec, lib.contentHash),
         domainHash := (spec: DomainSpec) => DesiredHash(spec, lib.contentHash))
  }

  lemma ProgramRendersDomains(lib: Library)
    ensures RendersDomains(WithDomainRenderer(lib))
  {
    hide Render, DesiredHash;
  }

  // ---- Names ----

  function SafeChar(c: char): char {
    if 'a' <= c <= 'z' || 'A' <= c <= 'Z' || '0' <= c <= '9' || c == '-' || c == '_' || c == '.' then c else '_'
  }

  function SafePathSegment(value: string): (r: string)
    ensures |r| == |value|
  {
    seq(|value|, i requires 0 <= i < |value| => SafeChar(value[i]))
  }

  const UNIT_PREFIX := "nascsi-virtiofsd-"
  const UNIT_SUFFIX := ".service"

  function UnitName(domain: string, exportId: string): string {
    UNIT_PREFIX + SafePathSegment(domain) + "-" + SafePathSegment(exportId) + UNIT_SUFFIX
  }

  function SocketPath(opts: Options, domain: string, exportId: string): Path {
    opts.runtimeDir + [Normal("virtiofs")] + Segment(SafePathSegment(domain))
      + [Normal(SafePathSegment(exportId) + ".sock")]
  }

  function SeedImagePath(image: Path, domain: string): Path {
    match Parent(image)
    case Some(parent) => Join(parent, Parse(domain + "-seed.img"))
    case None => Parse(domain + "-seed.img")
  }

  // The planner's parent directory: of a bare file name it is the empty path.
  function ParentDirectory(path: Path): Path {
    match Parent(path)
    case Some(parent) => parent
    case None => [CurDir]
  }

  // ---- Rendering ----

  datatype RenderedFile = RenderedFile(relative: Path, contents: string)

  const NODES := "nodes"
  const SYSTEMD := "systemd"
  const DOMAIN_XML := "domain.xml"
  const CLOUD_INIT := "cloud-init"
  const USER_DATA := "user-data"
  const META_DATA := "meta-data"
  const K3S := "k3s"
  const K3S_CONFIG := "config.yaml"

  function NodeDir(node: NodeConfig): Path {
    [Normal(NODES)] + Segment(SafePathSegment(node.name))
  }

  // Rendering stops at an export the configuration lacks; `PlanHostApply` reports it before any tag is read.
  function ExportTag(config: HostConfig, id: string): string {
    if id in config.exports then config.exports[id].tag else ""
  }

  function ExportsOf(config: HostConfig, node: NodeConfig, opts: Options, ids: seq<string>): seq<VirtiofsExport> {
    seq(|ids|, i requires 0 <= i < |ids| =>
      VirtiofsExport(Display(SocketPath(opts, node.domain, ids[i])), ExportTag(config, ids[i]), opts.queueSize))
  }

  predicate ExportsResolve(config: HostConfig) {
    forall n :: n in config.nodes ==> forall e :: e in n.exports ==> e in config.exports
  }

  function SpecOf(config: HostConfig, node: NodeConfig, opts: Options): DomainSpec {
    DomainSpec(
      node.domain, node.memoryMib, node.vcpus, node.machine, node.cpu, Display(node.rootDisk.image),
      FormatName(node.rootDisk.format), Some(Display(SeedImagePath(node.rootDisk.image, node.domain))),
      node.bridge, node.mac, ExportsOf(config, node, opts, node.exports))
  }

  function UnitArtifacts(config: HostConfig, node: NodeConfig, lib: Library, ids: seq<string>): seq<RenderedFile> {
    seq(|ids|, i requires 0 <= i < |ids| =>
      RenderedFile(
        NodeDir(node) + [Normal(SYSTEMD), Normal(UnitName(node.domain, ids[i]))], lib.unitText(config, node, ids[i])))
  }

  function NodeArtifacts(config: HostConfig, node: NodeConfig, opts: Options, lib: Library): seq<RenderedFile> {
    var dir := NodeDir(node);
    [RenderedFile(dir + [Normal(DOMAIN_XML)], lib.domainXml(SpecOf(config, node, opts))),
     RenderedFile(dir + [Normal(CLOUD_INIT), Normal(USER_DATA)], lib.userData(config, node)),
     RenderedFile(dir + [Normal(CLOUD_INIT), Normal(META_DATA)], lib.metaData(node)),
     RenderedFile(dir + [Normal(K3S), Normal(K3S_CONFIG)], lib.k3sConfig(config, node))]
    + UnitArtifacts(config, node, lib, node.exports)
  }

  function Artifacts(config: HostConfig, nodes: seq<NodeConfig>, opts: Options, lib: Library): seq<RenderedFile> {
    if nodes == [] then []
    else NodeArtifacts(config, nodes[0], opts, lib) + Artifacts(config, nodes[1..], opts, lib)
  }

  // `rendered_artifact_contents`: the first file of that name.
  function ArtifactContents(files: seq<RenderedFile>, relative: Path): string {
    if files == [] then ""
    else if files[0].relative == relative then files[0].contents
    else ArtifactContents(files[1..], relative)
  }

  // `relative_path.contains("/systemd/")`
  predicate InSystemdDirectory(relative: Path) {
    exists i :: 0 < i < |relative| - 1 && relative[i] == Normal(SYSTEMD)
  }

  datatype UnitFile = UnitFile(name: string, contents: string)

  function UnitFiles(files: seq<RenderedFile>): seq<UnitFile> {
    if files == [] then []
    else
      (if InSystemdDirectory(files[0].relative) && FileName(files[0].relative).Some?
       then [UnitFile(FileName(files[0].relative).value, files[0].contents)] else [])
      + UnitFiles(files[1..])
  }

  // ---- Apply steps ----

  function QemuCreateCommand(program: string, node: NodeConfig): Command {
    var disk := node.rootDisk;
    Command(
      program,
      [Fixed(QemuCreate), Fixed(QemuFormat), Word(FormatName(disk.format))]
      + (match disk.sourceImage
         case None => []
         case Some(source) =>
           [Fixed(QemuBackingFormat),
             Word(FormatName(if disk.sourceFormat.Some? then disk.sourceFormat.value else Qcow2)),
            Fixed(QemuBacking), PathArg(source)])
      + [PathArg(disk.image), Gib(disk.sizeGib)])
  }

  function QemuResizeCommand(program: string, path: Path, sizeGib: nat): Command {
    Command(program, [Fixed(QemuResize), PathArg(path), Gib(sizeGib)])
  }

  function VirshCommand(config: HostConfig, opts: Options, verb: Verb, arg: Arg): Command {
    Command(opts.virsh, [Fixed(Connect), Word(config.libvirtUri), Fixed(verb), arg])
  }

  function WriteSteps(opts: Options, files: seq<RenderedFile>): seq<ApplyStep> {
    seq(|files|, i requires 0 <= i < |files| => WriteFile(opts.artifactDir + files[i].relative, files[i].contents))
  }

  function DiskSteps(opts: Options, lib: Library, files: seq<RenderedFile>, node: NodeConfig): seq<ApplyStep> {
    var image, seed := node.rootDisk.image, SeedImagePath(node.rootDisk.image, node.domain);
    [EnsureDirectory(ParentDirectory(image)),
     RunStep(QemuCreateCommand(opts.qemuImg, node), Some(image)),
     RemoveFile(seed),
     WriteBinaryFile(seed, lib.seedImage(
       ArtifactContents(files, NodeDir(node) + [Normal(CLOUD_INIT), Normal(USER_DATA)]),
       ArtifactContents(files, NodeDir(node) + [Normal(CLOUD_INIT), Normal(META_DATA)])))]
  }

  function AllDiskSteps(opts: Options, lib: Library, files: seq<RenderedFile>, nodes: seq<NodeConfig>): seq<ApplyStep> {
    if nodes == [] then [] else DiskSteps(opts, lib, files, nodes[0]) + AllDiskSteps(opts, lib, files, nodes[1..])
  }

  function UnitPath(opts: Options, unitName: string): Path {
    opts.unitDir + [Normal(unitName)]
  }

  function InstallSteps(opts: Options, units: seq<UnitFile>): seq<ApplyStep> {
    seq(|units|, i requires 0 <= i < |units| => WriteFile(UnitPath(opts, units[i].name), units[i].contents))
  }

  function ReloadCommand(opts: Options): Command {
    Command(opts.systemctl, [Fixed(DaemonReload)])
  }

  function EnableCommand(opts: Options, unitName: string): Command {
    Command(opts.systemctl, [Fixed(Enable), Fixed(Now), Word(unitName)])
  }

  function EnableSteps(opts: Options, units: seq<UnitFile>): seq<ApplyStep> {
    seq(|units|, i requires 0 <= i < |units| => RunStep(EnableCommand(opts, units[i].name), None))
  }

  function XmlPath(opts: Options, node: NodeConfig): Path {
    opts.artifactDir + (NodeDir(node) + [Normal(DOMAIN_XML)])
  }

  function DomainSteps(config: HostConfig, opts: Options, node: NodeConfig): seq<ApplyStep> {
    [RunStep(VirshCommand(config, opts, Define, PathArg(XmlPath(opts, node))), None)]
    + (if node.autostart then [RunStep(VirshCommand(config, opts, Autostart, Word(node.domain)), None)] else [])
    + (if opts.startDomains then [RunStep(VirshCommand(config, opts, Start, Word(node.domain)), None)] else [])
  }

  function AllDomainSteps(config: HostConfig, opts: Options, nodes: seq<NodeConfig>): seq<ApplyStep> {
    if nodes == [] then [] else DomainSteps(config, opts, nodes[0]) + AllDomainSteps(config, opts, nodes[1..])
  }

  function ServiceSteps(opts: Options, units: seq<UnitFile>): seq<ApplyStep> {
    InstallSteps(opts, units) + (if units != [] then [RunStep(ReloadCommand(opts), None)] else [])
      + EnableSteps(opts, units)
  }

  function ApplyPlan(config: HostConfig, opts: Options, lib: Library): seq<ApplyStep> {
    var files := Artifacts(config, config.nodes, opts, lib);
    WriteSteps(opts, files) + AllDiskSteps(opts, lib, files, config.nodes)
    + ServiceSteps(opts, UnitFiles(files)) + AllDomainSteps(config, opts, config.nodes)
  }

  // ---- Desired states ----

  datatype DesiredDomain = DesiredDomain(domain: string, xmlPath: Path, desiredHash: string)

  datatype DesiredDisk = DesiredDisk(
    format: string,
    sourceImage: Option<Path>,
    sourceFormat: Option<string>,
    sourceChecksum: Option<string>,
    sizeGib: nat,
    sizeBytes: nat)

  const U64_LIMIT: nat := 0xFFFF_FFFF_FFFF_FFFF
  const GIB: nat := 1024 * 1024 * 1024

  // `saturating_mul`: from 2^34 GiB on, the product does not fit in 64 bits.
  function GibToBytes(gib: nat): nat {
    if gib >= 0x4_0000_0000 then U64_LIMIT else gib * GIB
  }

  lemma GibToBytesSaturates(gib: nat)
    ensures GibToBytes(gib) == if gib * GIB > U64_LIMIT then U64_LIMIT else gib * GIB
  {
  }

  function DesiredDiskOf(node: NodeConfig): DesiredDisk {
    var disk := node.rootDisk;
    DesiredDisk(
      FormatName(disk.format), disk.sourceImage,
      (match disk.sourceFormat case None => None case Some(f) => Some(FormatName(f))),
      disk.sourceChecksum, disk.sizeGib, GibToBytes(disk.sizeGib))
  }

  // Collected maps: of two entries with one key the later wins.
  function DesiredDisks(nodes: seq<NodeConfig>): map<Path, DesiredDisk> {
    if nodes == [] then map[]
    else DesiredDisks(nodes[..|nodes| - 1])[nodes[|nodes| - 1].rootDisk.image := DesiredDiskOf(nodes[|nodes| - 1])]
  }

  function DesiredDomainOf(config: HostConfig, opts: Options, lib: Library, node: NodeConfig): DesiredDomain {
    DesiredDomain(node.domain, XmlPath(opts, node), lib.domainHash(SpecOf(config, node, opts)))
  }

  function DesiredDomains(
    config: HostConfig, opts: Options, lib: Library, nodes: seq<NodeConfig>): map<string, DesiredDomain>
  {
    if nodes == [] then map[]
    else
      var last := nodes[|nodes| - 1];
      DesiredDomains(config, opts, lib, nodes[..|nodes| - 1])[last.domain := DesiredDomainOf(config, opts, lib, last)]
  }

  function NodeSockets(opts: Options, domain: string, ids: seq<string>): map<string, Path> {
    if ids == [] then map[]
    else
      var last := ids[|ids| - 1];
      NodeSockets(opts, domain, ids[..|ids| - 1])[UnitName(domain, last) := SocketPath(opts, domain, last)]
  }

  function DesiredSockets(opts: Options, nodes: seq<NodeConfig>): map<string, Path> {
    if nodes == [] then map[]
    else
      var last := nodes[|nodes| - 1];
      DesiredSockets(opts, nodes[..|nodes| - 1]) + NodeSockets(opts, last.domain, last.exports)
  }

  // The hashes kept beside these paths choose only between two reasons for the same skip.
  function BinaryWrites(steps: seq<ApplyStep>): set<Path> {
    set s | s in steps && s.WriteBinaryFile? :: s.path
  }

  datatype Context = Context(
    opts: Options,
    contentHash: string -> string,
    binaries: set<Path>,
    domains: map<string, DesiredDomain>,
    disks: map<Path, DesiredDisk>,
    sockets: map<string, Path>)

  function ContextOf(config: HostConfig, opts: Options, lib: Library): Context {
    Context(
      opts, lib.contentHash, BinaryWrites(ApplyPlan(config, opts, lib)),
      DesiredDomains(config, opts, lib, config.nodes), DesiredDisks(config.nodes), DesiredSockets(opts, config.nodes))
  }

  // ---- Deciding one step ----

  function PathOf(actual: ActualState, path: Path): PathState {
    if path in actual.paths then actual.paths[path] else MISSING
  }

  predicate IsCurrentFile(state: PathState, desiredHash: string) {
    state.kind.IsFile? && state.contentHash == Some(desiredHash)
  }

  // `systemd_unit_name_for_path`
  function UnitNameFor(opts: Options, path: Path): Option<string> {
    if Parent(path) == Some(opts.unitDir) then FileName(path) else None
  }

  // The desired domain with that XML path, first in key order.
  function DomainForXml(domains: map<string, DesiredDomain>, xmlPath: Path): (r: Option<DesiredDomain>)
    ensures r.Some? ==> exists d :: d in domains && domains[d] == r.value && r.value.xmlPath == xmlPath
    ensures r.None? ==> forall d :: d in domains ==> domains[d].xmlPath != xmlPath
  {
    var matches := set d | d in domains && domains[d].xmlPath == xmlPath;
    if matches == {} then
      assert forall d :: d in domains && domains[d].xmlPath == xmlPath ==> d in matches;
      None
    else
      var d := Least(matches);
      assert d in matches;
      Some(domains[d])
  }

  function FirstArg(command: Command): Option<Arg> {
    if command.args == [] then None else Some(command.args[0])
  }

  function ArgAt(command: Command, i: nat): Option<Arg> {
    if i < |command.args| then Some(command.args[i]) else None
  }

  function OperationForCommand(ctx: Context, command: Command, creates: Option<Path>): Operation {
    if command.program == ctx.opts.qemuImg && FirstArg(command) == Some(Fixed(QemuCreate)) && creates.Some? then
      CreateRootDisk(creates.value, command)
    else if command.program == ctx.opts.systemctl && command.args == [Fixed(DaemonReload)] then
      ReloadSystemdUnits(command)
    else if command.program == ctx.opts.systemctl && |command.args| == 3 && command.args[0] == Fixed(Enable)
            && command.args[1] == Fixed(Now) && command.args[2].Word? then
      EnableAndStartVirtiofsdService(command.args[2].text, [], command)
    else if command.program == ctx.opts.systemctl && |command.args| == 2 && command.args[0] == Fixed(Restart)
            && command.args[1].Word? then
      RestartVirtiofsdService(command.args[1].text, [], command)
    else if command.program == ctx.opts.virsh && |command.args| > 3 then
      OperationForVirsh(ctx, command, creates)
    else RunCommand(command, creates)
  }

  function OperationForVirsh(ctx: Context, command: Command, creates: Option<Path>): Operation
    requires |command.args| > 3
  {
    var verb, arg := command.args[2], command.args[3];
    if verb == Fixed(Define) && arg.PathArg? && DomainForXml(ctx.domains, arg.path).Some? then
      DefineDomain(DomainForXml(ctx.domains, arg.path).value.domain, arg.path, command)
    else if verb == Fixed(Autostart) && arg.Word? then EnableDomainAutostart(arg.text, command)
    else if verb == Fixed(Start) && arg.Word? then StartDomain(arg.text, command)
    else RunCommand(command, creates)
  }

  // A removal has no typed operation; it becomes an unclassified `rm -f`.
  function RemoveCommand(path: Path): Command {
    Command("rm", [Word("-f"), PathArg(path)])
  }

  function OperationForStep(ctx: Context, step: ApplyStep): Operation {
    match step
    case EnsureDirectory(path) => CreateDirectory(path)
    case WriteFile(path, contents) => (
      match UnitNameFor(ctx.opts, path)
      case Some(unitName) => InstallOrUpdateSystemdUnit(unitName, path, contents)
      case None => WriteRenderedArtifact(path, contents))
    case WriteBinaryFile(path, contents) => RewriteSeedImage(path, contents)
    case RemoveFile(path) => RunCommand(RemoveCommand(path), None)
    case RunStep(command, creates) => OperationForCommand(ctx, command, creates)
  }

  function NormalizeSha256(value: string): Option<string> {
    var digest := Lower(Digest(value));
    if |digest| == 64 && (forall i :: 0 <= i < 64 ==> IsHexDigit(digest[i])) then Some(digest) else None
  }

  // Whether the base image is the configured one, as far as the planner checks.
  predicate BaseImageVerified(actual: ActualState, disk: DesiredDisk) {
    disk.sourceImage.Some? ==>
      var source := disk.sourceImage.value;
      && PathOf(actual, source).kind.IsFile?
      && disk.sourceFormat.Some?
      && source in actual.images && actual.images[source].format == disk.sourceFormat
      && disk.sourceChecksum.Some? && NormalizeSha256(disk.sourceChecksum.value).Some?
      && PathOf(actual, source).sha256.Some?
      && NormalizeSha256(PathOf(actual, source).sha256.value) == NormalizeSha256(disk.sourceChecksum.value)
  }

  function DecideMissingDisk(ctx: Context, actual: ActualState, command: Command, path: Path): ReconcileStep {
    var operation := CreateRootDisk(path, command);
    if path in ctx.disks && BaseImageVerified(actual, ctx.disks[path]) then Apply(operation)
    else Refuse(Some(operation))
  }

  function DecideExistingDisk(ctx: Context, actual: ActualState, command: Command, path: Path): ReconcileStep {
    var create := CreateRootDisk(path, command);
    if command.program !in actual.tools || path !in actual.images || path !in ctx.disks then Refuse(Some(create))
    else
      var image, disk := actual.images[path], ctx.disks[path];
      var resize := ResizeRootDisk(path, disk.sizeBytes, QemuResizeCommand(command.program, path, disk.sizeGib));
      if image.format != Some(disk.format) then Refuse(Some(create))
      else if disk.sourceImage.Some? && image.backingFile != disk.sourceImage then Refuse(Some(create))
      else if image.virtualSize.None? then Refuse(Some(create))
      else if image.virtualSize.value < disk.sizeBytes then Apply(resize)
      else if image.virtualSize.value > disk.sizeBytes then Refuse(Some(resize))
      else SkipAlreadyCorrect
  }

  function RestartCommand(program: string, unitName: string): Command {
    Command(program, [Fixed(Restart), Word(unitName)])
  }

  function DecideSystemctl(ctx: Context, actual: ActualState, command: Command, changed: set<string>): ReconcileStep {
    if command.args == [Fixed(DaemonReload)] then
      if changed == {} then SkipAlreadyCorrect else Apply(ReloadSystemdUnits(command))
    else if |command.args| == 3 && command.args[0] == Fixed(Enable) && command.args[1] == Fixed(Now)
      && command.args[2].Word? then
      var u := command.args[2].text;
      var enabled := u in actual.units && actual.units[u].enabled == Some(true);
      var active := u in actual.units && actual.units[u].active == Some(true);
      var socket := if u in ctx.sockets then ctx.sockets[u] else [];
      if enabled && active then
        if u !in changed then SkipAlreadyCorrect
        else Apply(RestartVirtiofsdService(u, socket, RestartCommand(command.program, u)))
      else Apply(EnableAndStartVirtiofsdService(u, socket, command))
    else Apply(RunCommand(command, None))
  }

  function DecideDefine(
    ctx: Context, actual: ActualState, command: Command, xmlPath: Path, desired: DesiredDomain): ReconcileStep
  {
    var d := desired.domain;
    if d in actual.domains && actual.domains[d].exists_ then
      var domain := actual.domains[d];
      if !domain.managed && !ctx.opts.allowAdoption then Refuse(Some(DefineDomain(d, xmlPath, command)))
      else if domain.desiredHash == Some(desired.desiredHash) then SkipAlreadyCorrect
      else if domain.active && !ctx.opts.allowRunningRedefine then
        Refuse(Some(RedefineDomainRequiresShutdown(d, xmlPath)))
      else Apply(RedefineDomain(d, xmlPath, domain.xml, command))
    else Apply(DefineDomain(d, xmlPath, command))
  }

  function DecideVirsh(ctx: Context, actual: ActualState, command: Command): ReconcileStep {
    var verb, arg := ArgAt(command, 2), ArgAt(command, 3);
    if verb == Some(Fixed(Define)) && arg.Some? && arg.value.PathArg?
        && DomainForXml(ctx.domains, arg.value.path).Some? then
      DecideDefine(ctx, actual, command, arg.value.path, DomainForXml(ctx.domains, arg.value.path).value)
    else if verb == Some(Fixed(Autostart)) && arg.Some? && arg.value.Word? then
      var d := arg.value.text;
      if d in actual.domains && actual.domains[d].autostart == Some(true) then SkipAlreadyCorrect
      else Apply(EnableDomainAutostart(d, command))
    else if verb == Some(Fixed(Start)) && arg.Some? && arg.value.Word? then
      var d := arg.value.text;
      if d in actual.domains && actual.domains[d].active then SkipAlreadyCorrect else Apply(StartDomain(d, command))
    else Apply(RunCommand(command, None))
  }

  function DecideCommand(
    ctx: Context, actual: ActualState, command: Command, creates: Option<Path>, changed: set<string>): ReconcileStep
  {
    if creates.Some? && !PathOf(actual, creates.value).kind.IsMissing? then
      if command.program == ctx.opts.qemuImg then DecideExistingDisk(ctx, actual, command, creates.value)
      else SkipAlreadyCorrect
    else if command.program !in actual.tools then Refuse(Some(OperationForCommand(ctx, command, creates)))
    else if command.program == ctx.opts.qemuImg && FirstArg(command) == Some(Fixed(QemuCreate)) && creates.Some? then
      DecideMissingDisk(ctx, actual, command, creates.value)
    else if command.program == ctx.opts.systemctl then DecideSystemctl(ctx, actual, command, changed)
    else if command.program == ctx.opts.virsh then DecideVirsh(ctx, actual, command)
    else Apply(OperationForCommand(ctx, command, creates))
  }

  function DecideStep(ctx: Context, actual: ActualState, step: ApplyStep, changed: set<string>): ReconcileStep {
    match step
    case EnsureDirectory(path) =>
      if PathOf(actual, path).kind.IsDirectory? then SkipAlreadyCorrect else Apply(OperationForStep(ctx, step))
    case WriteFile(path, contents) =>
      if IsCurrentFile(PathOf(actual, path), ctx.contentHash(contents)) then SkipAlreadyCorrect
      else Apply(OperationForStep(ctx, step))
    case WriteBinaryFile(path, contents) =>
      if IsCurrentFile(PathOf(actual, path), ctx.contentHash(contents)) then SkipAlreadyCorrect
      else Apply(OperationForStep(ctx, step))
    case RemoveFile(path) =>
      if path in ctx.binaries || PathOf(actual, path).kind.IsMissing? then SkipAlreadyCorrect
      else Apply(OperationForStep(ctx, step))
    case RunStep(command, creates) => DecideCommand(ctx, actual, command, creates, changed)
  }

  // The unit whose file a step is about to change.
  function ChangedUnit(ctx: Context, actual: ActualState, step: ApplyStep): Option<string> {
    if step.WriteFile? && !IsCurrentFile(PathOf(actual, step.path), ctx.contentHash(step.contents))
    then UnitNameFor(ctx.opts, step.path) else None
  }

  // The `changed_units` set behind the first `n` steps.
  function Changed(ctx: Context, actual: ActualState, steps: seq<ApplyStep>, n: nat): set<string>
    requires n <= |steps|
  {
    if n == 0 then {}
    else
      var before, unit := Changed(ctx, actual, steps, n - 1), ChangedUnit(ctx, actual, steps[n - 1]);
      if unit.Some? then before + {unit.value} else before
  }

  // The decisions on the first `n` steps.
  function Reconcile(ctx: Context, actual: ActualState, steps: seq<ApplyStep>, n: nat): (plan: seq<ReconcileStep>)
    requires n <= |steps|
    ensures |plan| == n
  {
    if n == 0 then []
    else
      Reconcile(ctx, actual, steps, n - 1)
      + [DecideStep(ctx, actual, steps[n - 1], Changed(ctx, actual, steps, n - 1))]
  }

  lemma {:induction false} ReconcileAt(ctx: Context, actual: ActualState, steps: seq<ApplyStep>, n: nat, i: nat)
    requires i < n <= |steps|
    ensures Reconcile(ctx, actual, steps, n)[i] == DecideStep(ctx, actual, steps[i], Changed(ctx, actual, steps, i))
  {
    hide DecideStep, Changed;
    if i < n - 1 {
      ReconcileAt(ctx, actual, steps, n - 1, i);
    }
  }

  /** The planning loop. The set of changed units grows as it goes, and later steps read it. */
  method PlanHostReconcile(ctx: Context, actual: ActualState, steps: seq<ApplyStep>) returns (plan: seq<ReconcileStep>)
    ensures plan == Reconcile(ctx, actual, steps, |steps|)
  {
    hide DecideStep, ChangedUnit;
    plan := [];
    var changedUnits := {};
    for i := 0 to |steps|
      invariant plan == Reconcile(ctx, actual, steps, i)
      invariant changedUnits == Changed(ctx, actual, steps, i)
    {
      plan := plan + [DecideStep(ctx, actual, steps[i], changedUnits)];
      var unit := ChangedUnit(ctx, actual, steps[i]);
      if unit.Some? {
        changedUnits := changedUnits + {unit.value};
      }
    }
  }

  // ---- Flattening the configuration: the planner pushes the steps section by section ----

  method PlanArtifacts(opts: Options, files: seq<RenderedFile>) returns (steps: seq<ApplyStep>)
    ensures steps == WriteSteps(opts, files)
  {
    steps := [];
    for i := 0 to |files|
      invariant |steps| == i && forall k :: 0 <= k < i ==> steps[k] == WriteSteps(opts, files)[k]
    {
      steps := steps + [WriteFile(opts.artifactDir + files[i].relative, files[i].contents)];
    }
  }

  method PlanDisks(opts: Options, lib: Library, files: seq<RenderedFile>, nodes: seq<NodeConfig>)
    returns (steps: seq<ApplyStep>)
    ensures steps == AllDiskSteps(opts, lib, files, nodes)
  {
    hide DiskSteps;
    steps := [];
    for i := 0 to |nodes|
      invariant steps + AllDiskSteps(opts, lib, files, nodes[i..]) == AllDiskSteps(opts, lib, files, nodes)
    {
      assert nodes[i..][1..] == nodes[i + 1..];
      steps := steps + DiskSteps(opts, lib, files, nodes[i]);
    }
    assert nodes[|nodes|..] == [];
  }

  method PlanDomains(config: HostConfig, opts: Options) returns (steps: seq<ApplyStep>)
    ensures steps == AllDomainSteps(config, opts, config.nodes)
  {
    hide DomainSteps;
    var nodes := config.nodes;
    steps := [];
    for i := 0 to |nodes|
      invariant steps + AllDomainSteps(config, opts, nodes[i..]) == AllDomainSteps(config, opts, nodes)
    {
      assert nodes[i..][1..] == nodes[i + 1..];
      steps := steps + DomainSteps(config, opts, nodes[i]);
    }
    assert nodes[|nodes|..] == [];
  }

  method PlanServices(opts: Options, units: seq<UnitFile>) returns (steps: seq<ApplyStep>)
    ensures steps == ServiceSteps(opts, units)
  {
    hide UnitPath, EnableCommand, ReloadCommand;
    steps := [];
    for i := 0 to |units|
      invariant |steps| == i && forall k :: 0 <= k < i ==> steps[k] == InstallSteps(opts, units)[k]
    {
      steps := steps + [WriteFile(UnitPath(opts, units[i].name), units[i].contents)];
    }
    assert steps == InstallSteps(opts, units);
    if units != [] {
      steps := steps + [RunStep(ReloadCommand(opts), None)];
    }
    ghost var reloaded := steps;
    for i := 0 to |units|
      invariant |steps| == |reloaded| + i && reloaded <= steps
      invariant forall k :: 0 <= k < i ==> steps[|reloaded| + k] == EnableSteps(opts, units)[k]
    {
      steps := steps + [RunStep(EnableCommand(opts, units[i].name), None)];
    }
    assert steps == reloaded + EnableSteps(opts, units);
  }

  method PlanHostApply(config: HostConfig, opts: Options, lib: Library) returns (r: Option<seq<ApplyStep>>)
    ensures r == if ExportsResolve(config) then Some(ApplyPlan(config, opts, lib)) else None
  {
    if !ExportsResolve(config) {
      return None;
    }
    var files := Artifacts(config, config.nodes, opts, lib);
    var writes := PlanArtifacts(opts, files);
    var disks := PlanDisks(opts, lib, files, config.nodes);
    var services := PlanServices(opts, UnitFiles(files));
    var domains := PlanDomains(config, opts);
    r := Some(writes + disks + services + domains);
  }
}
