/** Materialization is exact, and what it makes is what the planners ask of a configuration. */
module MaterializeProofs {
  import opened Decimals
  import opened Materialize
  import opened Text
  import opened Types
  import opened Wrappers

  // ---- Distinct nodes ----

  lemma AppendCancels(p: string, a: string, b: string)
    requires p + a == p + b
    ensures a == b
  {
    assert a == (p + a)[|p|..];
    assert b == (p + b)[|p|..];
  }

  lemma NamesApart(r: Role, i: nat, q: Role, j: nat)
    requires RolePrefix(r) + Decimal(i) == RolePrefix(q) + Decimal(j)
    ensures r == q && i == j
  {
    assert (RolePrefix(r) + Decimal(i))[0] == RolePrefix(r)[0];
    assert (RolePrefix(q) + Decimal(j))[0] == RolePrefix(q)[0];
    assert r == q;
    AppendCancels(RolePrefix(r), Decimal(i), Decimal(j));
    DecimalInjective(i, j);
  }

  lemma HexApart(a: nat, b: nat)
    requires a < 16 && b < 16 && HexDigit(a) == HexDigit(b)
    ensures a == b
  {
  }

  lemma Hex2Apart(a: nat, b: nat)
    requires a < 256 && b < 256 && Hex2(a) == Hex2(b)
    ensures a == b
  {
    hide HexDigit;
    assert Hex2(a)[0] == HexDigit(a / 16) && Hex2(b)[0] == HexDigit(b / 16);
    assert Hex2(a)[1] == HexDigit(a % 16) && Hex2(b)[1] == HexDigit(b % 16);
    HexApart(a / 16, b / 16);
    HexApart(a % 16, b % 16);
  }

  lemma MacsApart(a: nat, b: nat)
    requires a <= 0xFFFF && b <= 0xFFFF && GeneratedMac(a) == GeneratedMac(b)
    ensures a == b
  {
    hide Hex2;
    var tailA := Hex2(a / 65536 % 256) + [':'] + Hex2(a / 256 % 256) + [':'] + Hex2(a % 256);
    var tailB := Hex2(b / 65536 % 256) + [':'] + Hex2(b / 256 % 256) + [':'] + Hex2(b % 256);
    AppendCancels(MAC_PREFIX, tailA, tailB);
    MacTail(a);
    MacTail(b);
    assert tailA[3..5] == tailB[3..5] && tailA[6..8] == tailB[6..8];
    Hex2Apart(a / 256 % 256, b / 256 % 256);
    Hex2Apart(a % 256, b % 256);
    Bytes(a);
    Bytes(b);
  }

  lemma MacTail(a: nat)
    ensures var tail := Hex2(a / 65536 % 256) + [':'] + Hex2(a / 256 % 256) + [':'] + Hex2(a % 256);
      |tail| == 8 && tail[3..5] == Hex2(a / 256 % 256) && tail[6..8] == Hex2(a % 256)
  {
    HexLength(a / 65536 % 256);
    HexLength(a / 256 % 256);
    HexLength(a % 256);
  }

  lemma HexLength(b: nat)
    requires b < 256
    ensures |Hex2(b)| == 2
  {
  }

  lemma Bytes(a: nat)
    requires a <= 0xFFFF
    ensures a == 256 * (a / 256 % 256) + a % 256
  {
  }

  // ---- The nodes of a configuration ----

  function VmState(discovery: Discovery, selections: Selections): string {
    DatasetPath(discovery, selections.vmState)
  }

  // Node `i` of the configuration, servers first.
  function NodeAt(intent: Intent, discovery: Discovery, selections: Selections, i: nat): Node {
    if i < intent.servers then NodeOf(Server, i + 1, intent, selections, VmState(discovery, selections))
    else NodeOf(Agent, i - intent.servers + 1, intent, selections, VmState(discovery, selections))
  }

  lemma NodesAre(intent: Intent, discovery: Discovery, selections: Selections)
    requires Selected(intent, selections)
    ensures var nodes := ConfigOf(intent, discovery, selections).nodes;
      |nodes| == intent.servers + intent.agents
      && forall i :: 0 <= i < |nodes| ==> nodes[i] == NodeAt(intent, discovery, selections, i)
  {
    hide NodeOf, ExportsFor, ToolsOf, DatasetPath;
  }

  lemma NodeNames(role: Role, index: nat, intent: Intent, selections: Selections, vmStatePath: string)
    ensures var node := NodeOf(role, index, intent, selections, vmStatePath);
      && node.name == RolePrefix(role) + Decimal(index)
      && node.domain == DOMAIN_PREFIX + node.name
      && node.mac == GeneratedMac(if role == Server then index else intent.servers + index)
      && node.clusterInit == (role == Server && index == 1)
      && node.server == (if node.clusterInit then None else Some(selections.apiEndpoint))
      && node.role == role
  {
    hide RolePrefix, GeneratedMac, TrimEndSlashes;
  }

  /** Names, domains and MAC addresses of the made nodes are pairwise distinct. */
  lemma NodesDistinct(intent: Intent, discovery: Discovery, selections: Selections, i: nat, j: nat)
    requires intent.servers + intent.agents <= 0xFFFF
    requires i < j < intent.servers + intent.agents
    ensures var a, b := NodeAt(intent, discovery, selections, i), NodeAt(intent, discovery, selections, j);
      a.name != b.name && a.domain != b.domain && a.mac != b.mac
  {
    hide NodeOf, DatasetPath, RolePrefix, GeneratedMac;
    var vm := VmState(discovery, selections);
    var a, b := NodeAt(intent, discovery, selections, i), NodeAt(intent, discovery, selections, j);
    var r, p :=
      if i < intent.servers then Server else Agent, if i < intent.servers then i + 1 else i - intent.servers + 1;
    var q, t :=
      if j < intent.servers then Server else Agent, if j < intent.servers then j + 1 else j - intent.servers + 1;
    NodeNames(r, p, intent, selections, vm);
    NodeNames(q, t, intent, selections, vm);
    if a.domain == b.domain {
      AppendCancels(DOMAIN_PREFIX, a.name, b.name);
    }
    if a.name == b.name {
      NamesApart(r, p, q, t);
    }
    if a.mac == b.mac {
      MacsApart(i + 1, j + 1);
    }
  }

  /** Exactly the first server initialises the cluster; every other node is given the API endpoint to join. */
  lemma OneClusterInit(intent: Intent, discovery: Discovery, selections: Selections, i: nat)
    requires i < intent.servers + intent.agents && intent.servers > 0
    ensures var node := NodeAt(intent, discovery, selections, i);
      && (node.clusterInit <==> i == 0)
      && (node.role == Server <==> i < intent.servers)
      && node.server == (if i == 0 then None else Some(selections.apiEndpoint))
  {
    hide NodeOf, DatasetPath;
    var vm := VmState(discovery, selections);
    if i < intent.servers {
      NodeNames(Server, i + 1, intent, selections, vm);
    } else {
      NodeNames(Agent, i - intent.servers + 1, intent, selections, vm);
    }
  }

  // ---- Exactness ----

  lemma FirstNotBlank(s: string)
    requires s != [] && !IsWhitespace(s[0])
    ensures !IsBlank(s)
  {
  }

  lemma PathNotBlank(discovery: Discovery, name: string)
    ensures !IsBlank(DatasetPath(discovery, name))
  {
    hide IsBlank, Trim, Mountpoint;
    assert (DATASET_ROOT + name)[0] == '/';
    FirstNotBlank(DATASET_ROOT + name);
  }

  lemma InputFacts(intent: Intent, discovery: Discovery, selections: Selections)
    requires InputProblems(intent, discovery, selections) == {}
    ensures Selected(intent, selections)
    ensures ProfileProblems(intent.profile, intent.servers, intent.agents) == {}
    ensures PolicyProblems(intent.policies) == {}
    ensures SelectionProblems(selections) == {}
  {
    hide HeaderProblems, ProfileProblems, PolicyProblems, SelectionProblems;
    forall p | p in intent.policies
      ensures p.name in selections.exports
    {
      var i :| 0 <= i < |intent.policies| && intent.policies[i] == p;
      UnselectedReported(intent, discovery, selections, i);
    }
  }

  lemma UnselectedReported(intent: Intent, discovery: Discovery, selections: Selections, i: nat)
    requires i < |intent.policies|
    ensures intent.policies[i].name !in selections.exports ==>
      UnselectedPolicy(intent.policies[i].name) in InputProblems(intent, discovery, selections)
  {
    hide IntentProblems, HeaderProblems, SelectionProblems;
  }

  lemma SelectionFacts(selections: Selections)
    requires SelectionProblems(selections) == {}
    ensures ChecksumAllowed(selections.imageChecksum)
    ensures SizeProblems(Server, selections.server) == {} && SizeProblems(Agent, selections.agent) == {}
    ensures forall name :: name in selections.exports ==> !IsBlank(selections.exports[name].dataset)
  {
    hide HeaderProblems, BlankProblems, SizeProblems, ChecksumAllowed, IsBlank;
    forall name | name in selections.exports
      ensures !IsBlank(selections.exports[name].dataset)
    {
      BlankDatasetReported(selections, name);
    }
  }

  lemma BlankDatasetReported(selections: Selections, name: string)
    requires name in selections.exports
    ensures IsBlank(selections.exports[name].dataset) ==> Blank(ExportDataset(name)) in SelectionProblems(selections)
  {
    hide HeaderProblems, BlankProblems, SizeProblems, ChecksumAllowed, IsBlank;
  }

  lemma ToolsExact(discovery: Discovery)
    ensures ToolProblems(ToolsOf(discovery)) == {} <==>
      NotBlankIfGiven(discovery.virsh) && NotBlankIfGiven(discovery.qemuImg)
      && NotBlankIfGiven(discovery.virtiofsd) && NotBlankIfGiven(discovery.systemctl)
  {
    hide IsBlank;
    FirstNotBlank(VIRSH);
    FirstNotBlank(QEMU_IMG);
    FirstNotBlank(VIRTIOFSD);
    FirstNotBlank(SYSTEMCTL);
    var tools := ToolsOf(discovery);
    BlankIs(VirshTool, tools.virsh);
    BlankIs(QemuImgTool, tools.qemuImg);
    BlankIs(VirtiofsdTool, tools.virtiofsd);
    BlankIs(SystemctlTool, tools.systemctl);
  }

  lemma BlankIs(field: Field, value: string)
    ensures BlankProblems(field, value) == {} <==> !IsBlank(value)
  {
    hide IsBlank;
  }

  lemma {:induction false} ExportsAre(discovery: Discovery, selections: Selections, policies: seq<Policy>)
    requires forall p :: p in policies ==> p.name in selections.exports
    requires forall i, j :: 0 <= i < j < |policies| ==> policies[i].name != policies[j].name
    ensures var exports := ExportsFor(discovery, selections, policies);
      && (forall p :: p in policies ==>
          p.name in exports && exports[p.name] == ExportOf(discovery, selections.exports[p.name], p))
      && (forall id :: id in exports ==> exists p :: p in policies && p.name == id)
  {
    hide ExportOf;
    if policies != [] {
      var front, last := policies[..|policies| - 1], policies[|policies| - 1];
      ExportsAre(discovery, selections, front);
      assert policies == front + [last];
    }
  }

  lemma PoliciesDistinct(policies: seq<Policy>)
    requires PolicyProblems(policies) == {}
    ensures forall i, j :: 0 <= i < j < |policies| ==> policies[i].name != policies[j].name
  {
    forall i, j | 0 <= i < j < |policies|
      ensures policies[i].name != policies[j].name
    {
      DuplicateReported(policies, i, j);
    }
  }

  lemma DuplicateReported(policies: seq<Policy>, i: nat, j: nat)
    requires i < j < |policies|
    ensures policies[i].name == policies[j].name ==> DuplicatePolicy(policies[j].name) in PolicyProblems(policies)
  {
    hide IsBlank;
  }

  // What a policy must satisfy for its export to have no problem.
  predicate PolicyFine(selection: ExportSelection, policy: Policy) {
    && NotBlankIfGiven(selection.sourcePath)
    && NotBlankIfGiven(selection.tag)
    && (policy.access == ReadOnly ==> !Contains(policy.name, DEV))
  }

  lemma ExportExact(discovery: Discovery, selection: ExportSelection, policy: Policy)
    requires !IsBlank(selection.dataset)
    ensures ExportProblems(policy.name, ExportOf(discovery, selection, policy)) == {} <==> PolicyFine(selection, policy)
  {
    hide IsBlank, Contains, DatasetPath;
    PathNotBlank(discovery, selection.dataset);
    assert (TAG_PREFIX + SafeIdentifier(policy.name))[0] == 'n';
    FirstNotBlank(TAG_PREFIX + SafeIdentifier(policy.name));
    var e, id := ExportOf(discovery, selection, policy), policy.name;
    if IsBlank(e.sourcePath) {
      assert BlankSourcePath(id) in ExportProblems(id, e);
    }
    if IsBlank(e.tag) {
      assert BlankTag(id) in ExportProblems(id, e);
    }
    if e.access == ReadOnly && Contains(e.policy, DEV) {
      assert ReadOnlyDev(id) in ExportProblems(id, e);
    }
  }

  lemma NodeFine(intent: Intent, discovery: Discovery, selections: Selections, i: nat, ids: set<string>)
    requires SelectionProblems(selections) == {}
    requires forall p :: p in intent.policies ==> p.name in ids
    ensures NodeProblems(NodeAt(intent, discovery, selections, i), ids) == {}
  {
    hide ChecksumAllowed, SelectionProblems, TrimEndSlashes, GeneratedMac, RolePrefix, DatasetPath;
    SelectionFacts(selections);
    SizeFacts(Server, selections.server);
    SizeFacts(Agent, selections.agent);
  }

  lemma SizeFacts(role: Role, size: NodeSize)
    requires SizeProblems(role, size) == {}
    ensures size.vcpus != 0 && size.memoryMib != 0
  {
    SizeReported(role, size);
  }

  lemma SizeReported(role: Role, size: NodeSize)
    ensures size.vcpus == 0 ==> NoVcpus(role) in SizeProblems(role, size)
    ensures size.memoryMib == 0 ==> NoMemory(role) in SizeProblems(role, size)
  {
  }

  lemma {:induction false} CountsAre(intent: Intent, discovery: Discovery, selections: Selections, nodes: seq<Node>)
    requires forall i :: 0 <= i < |nodes| ==> nodes[i] == NodeAt(intent, discovery, selections, i)
    ensures CountRole(nodes, Server) == (if |nodes| < intent.servers then |nodes| else intent.servers)
    ensures CountRole(nodes, Agent) == (if |nodes| < intent.servers then 0 else |nodes| - intent.servers)
  {
    hide DatasetPath;
    if nodes != [] {
      var i := |nodes| - 1;
      CountsAre(intent, discovery, selections, nodes[..i]);
      assert nodes[i].role == (if i < intent.servers then Server else Agent) by {
        RoleAt(intent, discovery, selections, i);
      }
    }
  }

  lemma RoleAt(intent: Intent, discovery: Discovery, selections: Selections, i: nat)
    ensures NodeAt(intent, discovery, selections, i).role == if i < intent.servers then Server else Agent
  {
    hide TrimEndSlashes, GeneratedMac, RolePrefix, DatasetPath;
  }

  lemma NodesFine(intent: Intent, discovery: Discovery, selections: Selections, nodes: seq<Node>, ids: set<string>)
    requires SelectionProblems(selections) == {} && intent.servers + intent.agents <= 0xFFFF
    requires forall p :: p in intent.policies ==> p.name in ids
    requires |nodes| == intent.servers + intent.agents
    requires forall i :: 0 <= i < |nodes| ==> nodes[i] == NodeAt(intent, discovery, selections, i)
    ensures AllNodesProblems(nodes, ids) == {}
  {
    hide NodeAt, SelectionProblems, NodeProblems;
    forall i, j | 0 <= i < j < |nodes|
      ensures nodes[i].name != nodes[j].name && nodes[i].domain != nodes[j].domain && nodes[i].mac != nodes[j].mac
    {
      NodesDistinct(intent, discovery, selections, i, j);
    }
    forall i | 0 <= i < |nodes|
      ensures NodeProblems(nodes[i], ids) == {}
    {
      NodeFine(intent, discovery, selections, i, ids);
    }
  }

  function AllExportProblems(exports: map<string, Export>): set<Problem> {
    set id, p | id in exports && p in ExportProblems(id, exports[id]) :: p
  }

  lemma ExportsExact(intent: Intent, discovery: Discovery, selections: Selections)
    requires Selected(intent, selections) && SelectionProblems(selections) == {}
    requires PolicyProblems(intent.policies) == {}
    ensures AllExportProblems(ExportsFor(discovery, selections, intent.policies)) == {} <==>
      forall p :: p in intent.policies ==> PolicyFine(selections.exports[p.name], p)
    ensures forall p :: p in intent.policies ==> p.name in ExportsFor(discovery, selections, intent.policies)
  {
    hide SelectionProblems, PolicyProblems, ExportProblems, ExportOf, PolicyFine, IsBlank, ExportsFor;
    SelectionFacts(selections);
    PoliciesDistinct(intent.policies);
    ExportsAre(discovery, selections, intent.policies);
    var exports := ExportsFor(discovery, selections, intent.policies);
    forall p | p in intent.policies
      ensures ExportProblems(p.name, exports[p.name]) == {} <==> PolicyFine(selections.exports[p.name], p)
    {
      ExportExact(discovery, selections.exports[p.name], p);
    }
    if AllExportProblems(exports) == {} {
      forall p | p in intent.policies
        ensures PolicyFine(selections.exports[p.name], p)
      {
        EmptyParts(exports, p.name);
      }
    }
  }

  lemma EmptyParts(exports: map<string, Export>, id: string)
    requires id in exports
    ensures ExportProblems(id, exports[id]) <= AllExportProblems(exports)
  {
    hide ExportProblems;
  }

  lemma ConfigParts(intent: Intent, discovery: Discovery, selections: Selections)
    requires Selected(intent, selections)
    ensures var config := ConfigOf(intent, discovery, selections);
      && config.exports == ExportsFor(discovery, selections, intent.policies)
      && config.tools == ToolsOf(discovery) && config.profile == intent.profile
      && HeaderProblems(ConfigDocument, config.apiVersion, config.kind) == {}
  {
    hide ExportsFor, ToolsOf, NodeOf, DatasetPath;
  }

  lemma PoliciesFine(intent: Intent, discovery: Discovery, selections: Selections)
    requires Selected(intent, selections)
    ensures OverridesGiven(intent, discovery, selections) && NoReadOnlyDev(intent.policies) <==>
      (NotBlankIfGiven(discovery.virsh) && NotBlankIfGiven(discovery.qemuImg)
       && NotBlankIfGiven(discovery.virtiofsd) && NotBlankIfGiven(discovery.systemctl)
       && forall p :: p in intent.policies ==> PolicyFine(selections.exports[p.name], p))
  {
    hide NotBlankIfGiven, Contains;
  }

  lemma MadeExact(intent: Intent, discovery: Discovery, selections: Selections)
    requires intent.servers + intent.agents <= 0xFFFF
    requires InputProblems(intent, discovery, selections) == {} && Selected(intent, selections)
    ensures ConfigProblems(ConfigOf(intent, discovery, selections)) == {} <==> Accepted(intent, discovery, selections)
  {
    hide InputProblems, OverridesGiven, NoReadOnlyDev, HeaderProblems, ToolProblems, AllNodesProblems;
    hide ProfileProblems, ExportProblems, CountRole, PolicyFine, NotBlankIfGiven, ConfigOf, NodeAt, ExportsFor;
    hide SelectionProblems, PolicyProblems;
    var config := ConfigOf(intent, discovery, selections);
    InputFacts(intent, discovery, selections);
    ConfigParts(intent, discovery, selections);
    NodesAre(intent, discovery, selections);
    CountsAre(intent, discovery, selections, config.nodes);
    ExportsExact(intent, discovery, selections);
    NodesFine(intent, discovery, selections, config.nodes, config.exports.Keys);
    ToolsExact(discovery);
    PoliciesFine(intent, discovery, selections);
    ServersNeeded(intent);
    assert ConfigProblems(config) == ToolProblems(config.tools) + AllExportProblems(config.exports);
  }

  lemma ServersNeeded(intent: Intent)
    requires ProfileProblems(intent.profile, intent.servers, intent.agents) == {}
    ensures intent.servers > 0
  {
    NoServersReported(intent.profile, intent.servers, intent.agents);
  }

  lemma NoServersReported(profile: Profile, servers: nat, agents: nat)
    ensures servers == 0 ==> NoServers in ProfileProblems(profile, servers, agents)
  {
  }

  /** The configuration is made exactly when the inputs are acceptable; otherwise what is wrong is reported. */
  method FromIntentDiscoverySelections(intent: Intent, discovery: Discovery, selections: Selections)
    returns (r: Result<Config, set<Problem>>)
    requires intent.servers + intent.agents <= 0xFFFF
    ensures r.Ok? <==> Accepted(intent, discovery, selections)
    ensures r.Ok? ==> Selected(intent, selections) && r.value == ConfigOf(intent, discovery, selections)
    ensures r.Err? && InputProblems(intent, discovery, selections) != {} ==>
      r.error == InputProblems(intent, discovery, selections)
    ensures r.Err? && InputProblems(intent, discovery, selections) == {} ==>
      Selected(intent, selections) && r.error == ConfigProblems(ConfigOf(intent, discovery, selections))
        && r.error != {}
  {
    hide IntentProblems, HeaderProblems, SelectionProblems, ConfigProblems, ConfigOf, OverridesGiven, NoReadOnlyDev;
    var errors := ValidateIntent(intent);
    errors := errors + HeaderProblems(DiscoveryDocument, discovery.apiVersion, discovery.kind)
      + SelectionProblems(selections);
    if discovery.bridges != [] && selections.bridge !in discovery.bridges {
      errors := errors + {UnknownBridge(selections.bridge)};
    }
    errors := errors + (set i | 0 <= i < |intent.policies| && intent.policies[i].name !in selections.exports
                        :: UnselectedPolicy(intent.policies[i].name));
    assert errors == InputProblems(intent, discovery, selections);
    if errors != {} {
      return Err(errors);
    }
    InputFacts(intent, discovery, selections);
    var config := MakeConfig(intent, discovery, selections);
    NodesAre(intent, discovery, selections);
    var problems := Validate(config);
    MadeExact(intent, discovery, selections);
    return if problems == {} then Ok(config) else Err(problems);
  }
}
