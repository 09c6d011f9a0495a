/** Materialization: the host configuration made of an intent, a discovery and the operator's selections. */
module Materialize {
  import opened Decimals
  import opened Text
  import opened Types
  import opened Wrappers

  // ---- Inputs ----

  datatype Document = IntentDocument | DiscoveryDocument | SelectionsDocument | ConfigDocument

  // The version and kind texts of a document: the supported one of each, or any other text.
  datatype ApiVersion = V1Alpha1 | OtherVersion(text: string)

  datatype Kind = KindOf(document: Document) | OtherKind(text: string)

  datatype Profile = MaintenanceBasic | MaintenanceControlPlane

  datatype Policy = Policy(name: string, access: AccessMode)

  datatype Intent = Intent(
    apiVersion: ApiVersion, kind: Kind, profile: Profile, servers: nat, agents: nat, policies: seq<Policy>,
    applications: nat)

  datatype Dataset = Dataset(name: string, mountpoint: Option<string>)

  datatype Discovery = Discovery(
    apiVersion: ApiVersion,
    kind: Kind,
    bridges: seq<string>,
    datasets: seq<Dataset>,
    virsh: Option<string>,
    qemuImg: Option<string>,
    virtiofsd: Option<string>,
    systemctl: Option<string>)

  datatype NodeSize = NodeSize(vcpus: nat, memoryMib: nat, rootDiskSizeGib: nat)

  datatype ExportSelection = ExportSelection(dataset: string, sourcePath: Option<string>, tag: Option<string>)

  datatype Selections = Selections(
    apiVersion: ApiVersion,
    kind: Kind,
    apiKeyFile: string,
    bridge: string,
    imageSource: string,
    imageChecksum: Option<string>,
    imageCache: string,
    vmState: string,
    clusterName: string,
    clusterVersion: string,
    apiEndpoint: string,
    tokenFile: string,
    kubeconfigOut: string,
    server: NodeSize,
    agent: NodeSize,
    exports: map<string, ExportSelection>)

  // ---- The configuration ----

  datatype Role = Server | Agent

  datatype Node = Node(
    name: string,
    domain: string,
    role: Role,
    vcpus: nat,
    memoryMib: nat,
    bridge: string,
    mac: string,
    image: string,
    sourceImage: string,
    sourceChecksum: Option<string>,
    sizeGib: nat,
    clusterInit: bool,
    server: Option<string>,
    exports: seq<string>)

  datatype Export = Export(dataset: string, sourcePath: string, tag: string, policy: string, access: AccessMode)

  datatype Tools = Tools(virsh: string, qemuImg: string, virtiofsd: string, systemctl: string)

  datatype Config = Config(
    apiVersion: ApiVersion, kind: Kind, profile: Profile, tools: Tools, nodes: seq<Node>, exports: map<string, Export>)

  // ---- Problems ----

  datatype Field =
    | ApiKeyFile | Bridge | ImageSource | ImageCache | VmState | ClusterName | ClusterVersion | ApiEndpoint | TokenFile
    | KubeconfigOut | ExportDataset(name: string) | VirshTool | QemuImgTool | VirtiofsdTool | SystemctlTool

  datatype Problem =
    | WrongVersion(document: Document)
    | WrongKind(document: Document)
    | NoServers
    | TooFewServers
    | NoAgents
    | HasApplications
    | UnnamedPolicy
    | DuplicatePolicy(name: string)
    | Blank(field: Field)
    | BadImageChecksum
    | NoVcpus(role: Role)
    | NoMemory(role: Role)
    | NoDisk(role: Role)
    | UnknownBridge(bridge: string)
    | UnselectedPolicy(name: string)
    | NoNodes
    | DuplicateNode(name: string)
    | DuplicateDomain(name: string)
    | DuplicateMac(mac: string)
    | NodeWithoutVcpus(name: string)
    | NodeWithoutMemory(name: string)
    | BadNodeChecksum(name: string)
    | MissingExport(node: string, id: string)
    | BlankDataset(id: string)
    | BlankSourcePath(id: string)
    | BlankTag(id: string)
    | ReadOnlyDev(id: string)

  function HeaderProblems(document: Document, apiVersion: ApiVersion, kind: Kind): set<Problem> {
    (if apiVersion != V1Alpha1 then {WrongVersion(document)} else {})
    + (if kind != KindOf(document) then {WrongKind(document)} else {})
  }

  // `push_non_empty`
  function BlankProblems(field: Field, value: string): set<Problem> {
    if IsBlank(value) then {Blank(field)} else {}
  }

  // `validate_optional_sha256`
  predicate ChecksumAllowed(checksum: Option<string>) {
    match checksum
    case None => true
    case Some(value) =>
      var digest := Digest(value);
      |digest| == 64 && forall i :: 0 <= i < |digest| ==> IsHexDigit(digest[i])
  }

  function ProfileProblems(profile: Profile, servers: nat, agents: nat): set<Problem> {
    (if servers == 0 then {NoServers} else {})
    + (if profile == MaintenanceControlPlane && servers < 3 then {TooFewServers} else {})
    + (if profile == MaintenanceBasic && agents == 0 then {NoAgents} else {})
  }

  function PolicyProblems(policies: seq<Policy>): set<Problem> {
    (set i | 0 <= i < |policies| && IsBlank(policies[i].name) :: UnnamedPolicy)
    + (set i, j | 0 <= i < j < |policies| && policies[i].name == policies[j].name :: DuplicatePolicy(policies[j].name))
  }

  // `ClusterIntent::validate`
  function IntentProblems(intent: Intent): set<Problem> {
    HeaderProblems(IntentDocument, intent.apiVersion, intent.kind)
    + ProfileProblems(intent.profile, intent.servers, intent.agents)
    + (if intent.applications != 0 then {HasApplications} else {})
    + PolicyProblems(intent.policies)
  }

  function SizeProblems(role: Role, size: NodeSize): set<Problem> {
    (if size.vcpus == 0 then {NoVcpus(role)} else {})
    + (if size.memoryMib == 0 then {NoMemory(role)} else {})
    + (if size.rootDiskSizeGib == 0 then {NoDisk(role)} else {})
  }

  // `HostSelections::validate`
  function SelectionProblems(s: Selections): set<Problem> {
    HeaderProblems(SelectionsDocument, s.apiVersion, s.kind)
    + BlankProblems(ApiKeyFile, s.apiKeyFile) + BlankProblems(Bridge, s.bridge)
      + BlankProblems(ImageSource, s.imageSource)
    + (if ChecksumAllowed(s.imageChecksum) then {} else {BadImageChecksum})
    + BlankProblems(ImageCache, s.imageCache) + BlankProblems(VmState, s.vmState)
      + BlankProblems(ClusterName, s.clusterName)
    + BlankProblems(ClusterVersion, s.clusterVersion) + BlankProblems(ApiEndpoint, s.apiEndpoint)
    + BlankProblems(TokenFile, s.tokenFile) + BlankProblems(KubeconfigOut, s.kubeconfigOut)
    + SizeProblems(Server, s.server) + SizeProblems(Agent, s.agent)
    + (set name | name in s.exports && IsBlank(s.exports[name].dataset) :: Blank(ExportDataset(name)))
  }

  function InputProblems(intent: Intent, discovery: Discovery, selections: Selections): set<Problem> {
    IntentProblems(intent)
    + HeaderProblems(DiscoveryDocument, discovery.apiVersion, discovery.kind)
    + SelectionProblems(selections)
    + (if discovery.bridges != [] && selections.bridge !in discovery.bridges then {UnknownBridge(selections.bridge)}
       else {})
    + (set i | 0 <= i < |intent.policies| && intent.policies[i].name !in selections.exports ::
      UnselectedPolicy(intent.policies[i].name))
  }

  function ToolProblems(tools: Tools): set<Problem> {
    BlankProblems(VirshTool, tools.virsh) + BlankProblems(QemuImgTool, tools.qemuImg)
    + BlankProblems(VirtiofsdTool, tools.virtiofsd) + BlankProblems(SystemctlTool, tools.systemctl)
  }

  function CountRole(nodes: seq<Node>, role: Role): nat {
    if nodes == [] then 0
    else CountRole(nodes[..|nodes| - 1], role) + (if nodes[|nodes| - 1].role == role then 1 else 0)
  }

  function DuplicateNames(nodes: seq<Node>): set<Problem> {
    set i, j | 0 <= i < j < |nodes| && nodes[i].name == nodes[j].name :: DuplicateNode(nodes[j].name)
  }

  function DuplicateDomains(nodes: seq<Node>): set<Problem> {
    set i, j | 0 <= i < j < |nodes| && nodes[i].domain == nodes[j].domain :: DuplicateDomain(nodes[j].domain)
  }

  function DuplicateMacs(nodes: seq<Node>): set<Problem> {
    set i, j | 0 <= i < j < |nodes| && nodes[i].mac == nodes[j].mac :: DuplicateMac(nodes[j].mac)
  }

  function NodeProblems(node: Node, ids: set<string>): set<Problem> {
    (if node.vcpus == 0 then {NodeWithoutVcpus(node.name)} else {})
    + (if node.memoryMib == 0 then {NodeWithoutMemory(node.name)} else {})
    + (if ChecksumAllowed(node.sourceChecksum) then {} else {BadNodeChecksum(node.name)})
    + (set e | e in node.exports && e !in ids :: MissingExport(node.name, e))
  }

  function AllNodeProblems(nodes: seq<Node>, ids: set<string>): set<Problem> {
    set i, p | 0 <= i < |nodes| && p in NodeProblems(nodes[i], ids) :: p
  }

  function AllNodesProblems(nodes: seq<Node>, ids: set<string>): set<Problem> {
    DuplicateNames(nodes) + DuplicateDomains(nodes) + DuplicateMacs(nodes) + AllNodeProblems(nodes, ids)
  }

  const DEV := "dev"

  function ExportProblems(id: string, export_: Export): set<Problem> {
    (if IsBlank(export_.dataset) then {BlankDataset(id)} else {})
    + (if IsBlank(export_.sourcePath) then {BlankSourcePath(id)} else {})
    + (if IsBlank(export_.tag) then {BlankTag(id)} else {})
    + (if export_.access == ReadOnly && Contains(export_.policy, DEV) then {ReadOnlyDev(id)} else {})
  }

  // `HostConfig::validate`
  function ConfigProblems(config: Config): set<Problem> {
    HeaderProblems(ConfigDocument, config.apiVersion, config.kind)
    + (if config.nodes == [] then {NoNodes} else {})
    + ToolProblems(config.tools)
    + AllNodesProblems(config.nodes, config.exports.Keys)
    + ProfileProblems(config.profile, CountRole(config.nodes, Server), CountRole(config.nodes, Agent))
    + (set id, p | id in config.exports && p in ExportProblems(id, config.exports[id]) :: p)
  }

  // ---- Making the configuration ----

  const DATASET_ROOT := "/mnt/"
  const NO_MOUNT := "none"
  const LEGACY_MOUNT := "legacy"

  function Mountpoint(datasets: seq<Dataset>, name: string): Option<string> {
    if datasets == [] then None
    else if datasets[0].name == name then datasets[0].mountpoint
    else Mountpoint(datasets[1..], name)
  }

  // `dataset_path`
  function DatasetPath(discovery: Discovery, name: string): string {
    match Mountpoint(discovery.datasets, name)
    case Some(mountpoint) =>
      if IsBlank(mountpoint) || Trim(mountpoint) == NO_MOUNT
          || Trim(mountpoint) == LEGACY_MOUNT then DATASET_ROOT + name
      else mountpoint
    case None => DATASET_ROOT + name
  }

  function SafeIdentifier(value: string): string {
    seq(|value|, i requires 0 <= i < |value| =>
      if 'a' <= value[i] <= 'z' || 'A' <= value[i] <= 'Z' || '0' <= value[i] <= '9' then value[i] else '_')
  }

  const TAG_PREFIX := "nascsi_"

  function OrElse(value: Option<string>, fallback: string): string {
    match value
    case Some(v) => v
    case None => fallback
  }

  function ExportOf(discovery: Discovery, selection: ExportSelection, policy: Policy): Export {
    Export(
      selection.dataset,
      OrElse(selection.sourcePath, DatasetPath(discovery, selection.dataset)),
      OrElse(selection.tag, TAG_PREFIX + SafeIdentifier(policy.name)),
      policy.name,
      policy.access)
  }

  function ExportsFor(discovery: Discovery, selections: Selections, policies: seq<Policy>): map<string, Export>
    requires forall p :: p in policies ==> p.name in selections.exports
  {
    if policies == [] then map[]
    else
      var last := policies[|policies| - 1];
      ExportsFor(discovery, selections, policies[..|policies| - 1])[
        last.name := ExportOf(discovery, selections.exports[last.name], last)]
  }

  const SERVER_PREFIX := "server-"
  const AGENT_PREFIX := "agent-"
  const DOMAIN_PREFIX := "nascsi-"

  function RolePrefix(role: Role): string {
    match role
    case Server => SERVER_PREFIX
    case Agent => AGENT_PREFIX
  }

  function HexDigit(d: nat): char
    requires d < 16
  {
    if d < 10 then ('0' as int + d) as char else ('a' as int + d - 10) as char
  }

  // `{:02x}`
  function Hex2(b: nat): string
    requires b < 256
  {
    [HexDigit(b / 16), HexDigit(b % 16)]
  }

  const MAC_PREFIX := "52:54:4e:"

  // `generated_mac`
  function GeneratedMac(sequence: nat): string {
    MAC_PREFIX + (Hex2(sequence / 65536 % 256) + [':'] + Hex2(sequence / 256 % 256) + [':'] + Hex2(sequence % 256))
  }

  const NODES_SEGMENT := "/nodes/"
  const IMAGE_SEGMENT := "/root.qcow2"

  function TrimEndSlashes(s: string): string {
    if s != [] && s[|s| - 1] == '/' then TrimEndSlashes(s[..|s| - 1]) else s
  }

  // `node_config_from_selection`
  function NodeOf(role: Role, index: nat, intent: Intent, selections: Selections, vmStatePath: string): Node {
    var name := RolePrefix(role) + Decimal(index);
    var domain := DOMAIN_PREFIX + name;
    var size := if role == Server then selections.server else selections.agent;
    var clusterInit := role == Server && index == 1;
    Node(
      name, domain, role, size.vcpus, size.memoryMib, selections.bridge,
      GeneratedMac(if role == Server then index else intent.servers + index),
      TrimEndSlashes(vmStatePath) + NODES_SEGMENT + domain + IMAGE_SEGMENT,
      selections.imageSource, selections.imageChecksum, size.rootDiskSizeGib,
      clusterInit, if clusterInit then None else Some(selections.apiEndpoint),
      seq(|intent.policies|, i requires 0 <= i < |intent.policies| => intent.policies[i].name))
  }

  function NodesOf(role: Role, count: nat, intent: Intent, selections: Selections, vmStatePath: string): seq<Node> {
    seq(count, i requires 0 <= i < count => NodeOf(role, i + 1, intent, selections, vmStatePath))
  }

  const VIRSH := "virsh"
  const QEMU_IMG := "qemu-img"
  const VIRTIOFSD := "virtiofsd"
  const SYSTEMCTL := "systemctl"

  function ToolsOf(discovery: Discovery): Tools {
    Tools(OrElse(discovery.virsh, VIRSH), OrElse(discovery.qemuImg, QEMU_IMG), OrElse(discovery.virtiofsd, VIRTIOFSD),
          OrElse(discovery.systemctl, SYSTEMCTL))
  }

  function ConfigOf(intent: Intent, discovery: Discovery, selections: Selections): Config
    requires forall p :: p in intent.policies ==> p.name in selections.exports
  {
    var vmStatePath := DatasetPath(discovery, selections.vmState);
    Config(
      V1Alpha1, KindOf(ConfigDocument), intent.profile, ToolsOf(discovery),
      NodesOf(Server, intent.servers, intent, selections, vmStatePath)
      + NodesOf(Agent, intent.agents, intent, selections, vmStatePath),
      ExportsFor(discovery, selections, intent.policies))
  }

  // ---- What makes it acceptable ----

  predicate NotBlankIfGiven(value: Option<string>) {
    value.Some? ==> !IsBlank(value.value)
  }

  predicate OverridesGiven(intent: Intent, discovery: Discovery, selections: Selections)
    requires forall p :: p in intent.policies ==> p.name in selections.exports
  {
    && NotBlankIfGiven(discovery.virsh) && NotBlankIfGiven(discovery.qemuImg)
    && NotBlankIfGiven(discovery.virtiofsd) && NotBlankIfGiven(discovery.systemctl)
    && (forall p :: p in intent.policies ==>
          NotBlankIfGiven(selections.exports[p.name].sourcePath) && NotBlankIfGiven(selections.exports[p.name].tag))
  }

  predicate NoReadOnlyDev(policies: seq<Policy>) {
    forall p :: p in policies ==> p.access == ReadOnly ==> !Contains(p.name, DEV)
  }

  predicate Selected(intent: Intent, selections: Selections) {
    forall p :: p in intent.policies ==> p.name in selections.exports
  }

  /** The inputs have no problem, nothing given is blank, and no read-only policy looks like a development one. */
  predicate Accepted(intent: Intent, discovery: Discovery, selections: Selections) {
    && InputProblems(intent, discovery, selections) == {}
    && Selected(intent, selections)
    && OverridesGiven(intent, discovery, selections)
    && NoReadOnlyDev(intent.policies)
  }

  // ---- The loops of the validators ----

  lemma PolicyProblemsStep(policies: seq<Policy>, i: nat)
    requires i < |policies|
    ensures PolicyProblems(policies[..i + 1]) == PolicyProblems(policies[..i])
      + (if IsBlank(policies[i].name) then {UnnamedPolicy} else {})
      + (if policies[i].name in (set k | 0 <= k < i :: policies[k].name) then {DuplicatePolicy(policies[i].name)}
        else {})
  {
    hide IsBlank;
    var a, b := policies[..i + 1], policies[..i];
    assert forall k :: 0 <= k < i ==> a[k] == b[k];
    assert a[i] == policies[i];
  }

  method ValidateIntent(intent: Intent) returns (problems: set<Problem>)
    ensures problems == IntentProblems(intent)
  {
    hide IsBlank, HeaderProblems, PolicyProblems;
    problems := HeaderProblems(IntentDocument, intent.apiVersion, intent.kind);
    if intent.servers == 0 {
      problems := problems + {NoServers};
    }
    if intent.profile == MaintenanceControlPlane && intent.servers < 3 {
      problems := problems + {TooFewServers};
    }
    if intent.profile == MaintenanceBasic && intent.agents == 0 {
      problems := problems + {NoAgents};
    }
    if intent.applications != 0 {
      problems := problems + {HasApplications};
    }
    ghost var before := problems;
    var policies, names := intent.policies, {};
    NoPolicyProblems();
    for i := 0 to |policies|
      invariant names == set k | 0 <= k < i :: policies[k].name
      invariant problems == before + PolicyProblems(policies[..i])
    {
      PolicyProblemsStep(policies, i);
      if IsBlank(policies[i].name) {
        problems := problems + {UnnamedPolicy};
      }
      if policies[i].name in names {
        problems := problems + {DuplicatePolicy(policies[i].name)};
      }
      names := names + {policies[i].name};
    }
    assert policies[..|policies|] == policies;
  }

  lemma NoPolicyProblems()
    ensures PolicyProblems([]) == {}
  {
  }

  lemma DuplicateNamesStep(nodes: seq<Node>, i: nat)
    requires i < |nodes|
    ensures DuplicateNames(nodes[..i + 1]) == DuplicateNames(nodes[..i])
      + (if nodes[i].name in (set k | 0 <= k < i :: nodes[k].name) then {DuplicateNode(nodes[i].name)} else {})
  {
    var a, b := nodes[..i + 1], nodes[..i];
    assert forall k :: 0 <= k < i ==> a[k] == b[k];
    assert a[i] == nodes[i];
  }

  lemma DuplicateDomainsStep(nodes: seq<Node>, i: nat)
    requires i < |nodes|
    ensures DuplicateDomains(nodes[..i + 1]) == DuplicateDomains(nodes[..i])
      + (if nodes[i].domain in (set k | 0 <= k < i :: nodes[k].domain) then {DuplicateDomain(nodes[i].domain)} else {})
  {
    var a, b := nodes[..i + 1], nodes[..i];
    assert forall k :: 0 <= k < i ==> a[k] == b[k];
    assert a[i] == nodes[i];
  }

  lemma DuplicateMacsStep(nodes: seq<Node>, i: nat)
    requires i < |nodes|
    ensures DuplicateMacs(nodes[..i + 1]) == DuplicateMacs(nodes[..i])
      + (if nodes[i].mac in (set k | 0 <= k < i :: nodes[k].mac) then {DuplicateMac(nodes[i].mac)} else {})
  {
    var a, b := nodes[..i + 1], nodes[..i];
    assert forall k :: 0 <= k < i ==> a[k] == b[k];
    assert a[i] == nodes[i];
  }

  lemma NodeProblemsStep(nodes: seq<Node>, ids: set<string>, i: nat)
    requires i < |nodes|
    ensures AllNodeProblems(nodes[..i + 1], ids) == AllNodeProblems(nodes[..i], ids) + NodeProblems(nodes[i], ids)
  {
    hide NodeProblems;
    var a, b := nodes[..i + 1], nodes[..i];
    assert forall k :: 0 <= k < i ==> a[k] == b[k];
    assert a[i] == nodes[i];
  }

  lemma CountStep(nodes: seq<Node>, i: nat, role: Role)
    requires i < |nodes|
    ensures CountRole(nodes[..i + 1], role) == CountRole(nodes[..i], role) + (if nodes[i].role == role then 1 else 0)
  {
    assert nodes[..i + 1][..i] == nodes[..i];
  }

  // What node `i` adds, given what the sets saw before it.
  function FoundAt(nodes: seq<Node>, ids: set<string>, i: nat): set<Problem>
    requires i < |nodes|
  {
    (if nodes[i].name in (set k | 0 <= k < i :: nodes[k].name) then {DuplicateNode(nodes[i].name)} else {})
    + (if nodes[i].domain in (set k | 0 <= k < i :: nodes[k].domain) then {DuplicateDomain(nodes[i].domain)} else {})
    + (if nodes[i].mac in (set k | 0 <= k < i :: nodes[k].mac) then {DuplicateMac(nodes[i].mac)} else {})
    + NodeProblems(nodes[i], ids)
  }

  lemma FoundStep(nodes: seq<Node>, ids: set<string>, i: nat)
    requires i < |nodes|
    ensures AllNodesProblems(nodes[..i + 1], ids) == AllNodesProblems(nodes[..i], ids) + FoundAt(nodes, ids, i)
  {
    hide DuplicateNames, DuplicateDomains, DuplicateMacs, AllNodeProblems, NodeProblems;
    DuplicateNamesStep(nodes, i);
    DuplicateDomainsStep(nodes, i);
    DuplicateMacsStep(nodes, i);
    NodeProblemsStep(nodes, ids, i);
  }

  method CheckNode(
    nodes: seq<Node>, i: nat, ids: set<string>, names: set<string>, domains: set<string>, macs: set<string>)
    returns (found: set<Problem>)
    requires i < |nodes|
    requires names == set k | 0 <= k < i :: nodes[k].name
    requires domains == set k | 0 <= k < i :: nodes[k].domain
    requires macs == set k | 0 <= k < i :: nodes[k].mac
    ensures found == FoundAt(nodes, ids, i)
  {
    hide NodeProblems;
    found := {};
    if nodes[i].name in names {
      found := found + {DuplicateNode(nodes[i].name)};
    }
    if nodes[i].domain in domains {
      found := found + {DuplicateDomain(nodes[i].domain)};
    }
    if nodes[i].mac in macs {
      found := found + {DuplicateMac(nodes[i].mac)};
    }
    found := found + NodeProblems(nodes[i], ids);
  }

  // Two `u16` counters bound the number of nodes.
  method Validate(config: Config) returns (problems: set<Problem>)
    requires |config.nodes| <= 0xFFFF
    ensures problems == ConfigProblems(config)
  {
    hide HeaderProblems, ToolProblems, AllNodesProblems, FoundAt, ExportProblems, CountRole, ProfileProblems;
    var nodes, ids := config.nodes, config.exports.Keys;
    problems := HeaderProblems(ConfigDocument, config.apiVersion, config.kind);
    if nodes == [] {
      problems := problems + {NoNodes};
    }
    problems := problems + ToolProblems(config.tools);
    ghost var before := problems;
    var names, domains, macs := {}, {}, {};
    var servers, agents := 0, 0;
    NoNodeProblems(ids);
    for i := 0 to |nodes|
      invariant names == set k | 0 <= k < i :: nodes[k].name
      invariant domains == set k | 0 <= k < i :: nodes[k].domain
      invariant macs == set k | 0 <= k < i :: nodes[k].mac
      invariant servers == CountRole(nodes[..i], Server) && agents == CountRole(nodes[..i], Agent)
      invariant problems == before + AllNodesProblems(nodes[..i], ids)
    {
      FoundStep(nodes, ids, i);
      CountStep(nodes, i, Server);
      CountStep(nodes, i, Agent);
      var found := CheckNode(nodes, i, ids, names, domains, macs);
      problems := problems + found;
      names, domains, macs := names + {nodes[i].name}, domains + {nodes[i].domain}, macs + {nodes[i].mac};
      match nodes[i].role {
        case Server => servers := servers + 1;
        case Agent => agents := agents + 1;
      }
    }
    assert nodes[..|nodes|] == nodes;
    problems := problems + ProfileProblems(config.profile, servers, agents)
                + (set id, p | id in config.exports && p in ExportProblems(id, config.exports[id]) :: p);
  }

  lemma NoNodeProblems(ids: set<string>)
    ensures AllNodesProblems([], ids) == {} && CountRole([], Server) == 0 && CountRole([], Agent) == 0
  {
  }

  // ---- Making the configuration, step by step ----

  lemma ExportsStep(discovery: Discovery, selections: Selections, policies: seq<Policy>, i: nat)
    requires i < |policies| && forall p :: p in policies ==> p.name in selections.exports
    ensures ExportsFor(discovery, selections, policies[..i + 1])
         == ExportsFor(discovery, selections, policies[..i])[
              policies[i].name := ExportOf(discovery, selections.exports[policies[i].name], policies[i])]
  {
    hide ExportOf;
    assert policies[..i + 1][..i] == policies[..i];
  }

  method MakeConfig(intent: Intent, discovery: Discovery, selections: Selections) returns (config: Config)
    requires Selected(intent, selections)
    ensures config == ConfigOf(intent, discovery, selections)
  {
    hide ExportOf, NodeOf, ExportsFor, DatasetPath, ToolsOf;
    var vmStatePath := DatasetPath(discovery, selections.vmState);
    var exports := map[];
    var policies := intent.policies;
    NoExports(discovery, selections);
    for i := 0 to |policies|
      invariant exports == ExportsFor(discovery, selections, policies[..i])
    {
      ExportsStep(discovery, selections, policies, i);
      exports := exports[policies[i].name := ExportOf(discovery, selections.exports[policies[i].name], policies[i])];
    }
    assert policies[..|policies|] == policies;
    var nodes := [];
    for i := 0 to intent.servers
      invariant nodes == NodesOf(Server, i, intent, selections, vmStatePath)
    {
      nodes := nodes + [NodeOf(Server, i + 1, intent, selections, vmStatePath)];
    }
    ghost var servers := nodes;
    for i := 0 to intent.agents
      invariant nodes == servers + NodesOf(Agent, i, intent, selections, vmStatePath)
    {
      nodes := nodes + [NodeOf(Agent, i + 1, intent, selections, vmStatePath)];
    }
    config := Config(V1Alpha1, KindOf(ConfigDocument), intent.profile, ToolsOf(discovery), nodes, exports);
  }

  lemma NoExports(discovery: Discovery, selections: Selections)
    ensures ExportsFor(discovery, selections, []) == map[]
  {
  }
}
