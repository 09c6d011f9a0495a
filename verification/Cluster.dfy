/** The k3s cluster reconciler: the plan, its effects, and the independent verifier of the result. */
module Cluster {
  import opened Text
  import opened Wrappers

  datatype Role = Server | Agent

  datatype Taint = Taint(key: string, value: string, effect: string)

  datatype Label = Label(key: string, value: string)

  // Labels are a map in the program; here they are its entries, in key order.
  datatype Node = Node(
    name: string,
    role: Role,
    clusterInit: bool,
    serverUrl: Option<string>,
    labels: seq<Label>,
    taints: seq<Taint>)

  datatype NodeState = NodeState(
    domainRunning: bool,
    k3sReady: bool,
    kubernetesReady: bool,
    labels: map<string, string>,
    taints: seq<Taint>)

  const UNKNOWN_NODE := NodeState(false, false, false, map[], [])

  datatype ClusterState = ClusterState(
    tokenPresent: bool,
    kubeconfigPresent: bool,
    apiReady: bool,
    nodes: map<string, NodeState>,
    appliedManifests: map<string, string>)

  datatype Manifest = Manifest(name: string, path: string, desiredHash: string)

  datatype Operation =
    | EnsureToken
    | StartFirstServer(node: string)
    | WaitForFirstServer(node: string)
    | RetrieveKubeconfig(node: string)
    | WaitForClusterApi
    | StartJoinNode(node: string, role: Role)
    | WaitForNodeReady(node: string)
    | ReconcileNodeLabels(node: string, assignments: seq<string>)
    | ReconcileNodeTaints(node: string, assignments: seq<string>)
    | ApplyManifest(name: string, desiredHash: string)

  datatype Subject =
    | Token
    | StartFirst(node: string)
    | WaitFirst(node: string)
    | Kubeconfig
    | ClusterApi
    | StartJoin(node: string)
    | WaitJoin(node: string)
    | ServerUrl(node: string)
    | NodeReady(node: string)
    | NodeLabels(node: string)
    | NodeTaints(node: string)
    | SubstrateManifest(name: string)

  datatype Decision = Apply(operation: Operation) | SkipAlreadyCorrect

  datatype Step = Step(subject: Subject, decision: Decision)

  // ---- Planning ----

  function NodeStateOf(state: ClusterState, name: string): NodeState {
    if name in state.nodes then state.nodes[name] else UNKNOWN_NODE
  }

  function FindNode(nodes: seq<Node>, init: bool): Option<Node> {
    if nodes == [] then None
    else if nodes[0].role.Server? && (init ==> nodes[0].clusterInit) then Some(nodes[0])
    else FindNode(nodes[1..], init)
  }

  // The cluster-init server, or any server.
  function FirstServer(nodes: seq<Node>): Option<Node> {
    if FindNode(nodes, true).Some? then FindNode(nodes, true) else FindNode(nodes, false)
  }

  function Decide(subject: Subject, correct: bool, operation: Operation): Step {
    Step(subject, if correct then SkipAlreadyCorrect else Apply(operation))
  }

  function LabelText(l: Label): string {
    l.key + "=" + l.value
  }

  function TaintText(t: Taint): string {
    t.key + "=" + (t.value + ":" + t.effect)
  }

  predicate HasLabel(labels: map<string, string>, l: Label) {
    l.key in labels && labels[l.key] == l.value
  }

  function LabelAssignments(desired: seq<Label>, actual: map<string, string>): seq<string> {
    if desired == [] then []
    else (if HasLabel(actual, desired[0]) then [] else [LabelText(desired[0])]) + LabelAssignments(desired[1..], actual)
  }

  predicate HasTaint(taints: seq<Taint>, t: Taint) {
    exists x :: x in taints && TaintText(x) == TaintText(t)
  }

  function TaintAssignments(desired: seq<Taint>, actual: seq<Taint>): seq<string> {
    if desired == [] then []
    else (if HasTaint(actual, desired[0]) then [] else [TaintText(desired[0])]) + TaintAssignments(desired[1..], actual)
  }

  function TokenStep(actual: ClusterState): Step {
    Decide(Token, actual.tokenPresent, EnsureToken)
  }

  function FirstServerSteps(node: Node, actual: ClusterState): seq<Step> {
    var state := NodeStateOf(actual, node.name);
    [Decide(StartFirst(node.name), state.domainRunning, StartFirstServer(node.name)),
     Decide(WaitFirst(node.name), state.k3sReady, WaitForFirstServer(node.name)),
     Decide(Kubeconfig, actual.kubeconfigPresent, RetrieveKubeconfig(node.name))]
  }

  function ApiStep(actual: ClusterState): Step {
    Decide(ClusterApi, actual.apiReady, WaitForClusterApi)
  }

  // An agent without a server URL gets a step that is never skipped.
  function JoinNodeSteps(node: Node, actual: ClusterState): seq<Step> {
    var state := NodeStateOf(actual, node.name);
    [Decide(StartJoin(node.name), state.domainRunning, StartJoinNode(node.name, node.role)),
     Decide(WaitJoin(node.name), state.k3sReady, WaitForFirstServer(node.name))]
    + (if node.serverUrl.None? && !node.role.Server? then [Step(ServerUrl(node.name), Apply(WaitForClusterApi))]
       else [])
  }

  predicate IsFirst(first: Option<Node>, node: Node) {
    first.Some? && first.value.name == node.name
  }

  function JoinSteps(nodes: seq<Node>, first: Option<Node>, actual: ClusterState): seq<Step> {
    if nodes == [] then []
    else
      (if IsFirst(first, nodes[0]) then [] else JoinNodeSteps(nodes[0], actual))
      + JoinSteps(nodes[1..], first, actual)
  }

  function NodeSteps(node: Node, actual: ClusterState): seq<Step> {
    var state := NodeStateOf(actual, node.name);
    var labels := LabelAssignments(node.labels, state.labels);
    var taints := TaintAssignments(node.taints, state.taints);
    [Decide(NodeReady(node.name), state.kubernetesReady, WaitForNodeReady(node.name)),
     Decide(NodeLabels(node.name), labels == [], ReconcileNodeLabels(node.name, labels)),
     Decide(NodeTaints(node.name), taints == [], ReconcileNodeTaints(node.name, taints))]
  }

  function AllNodeSteps(nodes: seq<Node>, actual: ClusterState): seq<Step> {
    if nodes == [] then [] else NodeSteps(nodes[0], actual) + AllNodeSteps(nodes[1..], actual)
  }

  predicate ManifestApplied(actual: ClusterState, m: Manifest) {
    m.name in actual.appliedManifests && actual.appliedManifests[m.name] == m.desiredHash
  }

  function ManifestStep(m: Manifest, actual: ClusterState): Step {
    Decide(SubstrateManifest(m.name), ManifestApplied(actual, m), ApplyManifest(m.name, m.desiredHash))
  }

  function ManifestSteps(manifests: seq<Manifest>, actual: ClusterState): seq<Step> {
    if manifests == [] then [] else [ManifestStep(manifests[0], actual)] + ManifestSteps(manifests[1..], actual)
  }

  function Bootstrap(first: Option<Node>, actual: ClusterState): seq<Step> {
    [TokenStep(actual)] + (if first.Some? then FirstServerSteps(first.value, actual) else []) + [ApiStep(actual)]
  }

  function Plan(nodes: seq<Node>, actual: ClusterState, manifests: seq<Manifest>): seq<Step> {
    var first := FirstServer(nodes);
    Bootstrap(first, actual) + JoinSteps(nodes, first, actual) + AllNodeSteps(nodes, actual)
      + ManifestSteps(manifests, actual)
  }

  /** The planner: it pushes the steps section by section. */
  method PlanClusterReconcile(nodes: seq<Node>, actual: ClusterState, manifests: seq<Manifest>)
    returns (steps: seq<Step>)
    ensures steps == Plan(nodes, actual, manifests)
  {
    hide FirstServerSteps, JoinNodeSteps, NodeSteps, ManifestStep, TokenStep, ApiStep, FirstServer, IsFirst;
    var first := FirstServer(nodes);
    steps := [TokenStep(actual)];
    if first.Some? {
      steps := steps + FirstServerSteps(first.value, actual);
    }
    steps := steps + [ApiStep(actual)];

    ghost var bootstrap := steps;
    for i := 0 to |nodes|
      invariant steps + JoinSteps(nodes[i..], first, actual) == bootstrap + JoinSteps(nodes, first, actual)
    {
      assert nodes[i..][1..] == nodes[i + 1..];
      if !IsFirst(first, nodes[i]) {
        steps := steps + JoinNodeSteps(nodes[i], actual);
      }
    }

    assert steps == bootstrap + JoinSteps(nodes, first, actual);

    ghost var joined := steps;
    for i := 0 to |nodes|
      invariant steps + AllNodeSteps(nodes[i..], actual) == joined + AllNodeSteps(nodes, actual)
    {
      assert nodes[i..][1..] == nodes[i + 1..];
      steps := steps + NodeSteps(nodes[i], actual);
    }

    assert steps == joined + AllNodeSteps(nodes, actual);

    ghost var reconciled := steps;
    for i := 0 to |manifests|
      invariant steps + ManifestSteps(manifests[i..], actual) == reconciled + ManifestSteps(manifests, actual)
    {
      assert manifests[i..][1..] == manifests[i + 1..];
      steps := steps + [ManifestStep(manifests[i], actual)];
    }
    assert steps == reconciled + ManifestSteps(manifests, actual);
  }

  predicate IsCurrent(steps: seq<Step>) {
    forall i :: 0 <= i < |steps| ==> steps[i].decision.SkipAlreadyCorrect?
  }

  // ---- The verifier, without its look at file permissions and kubeconfig text ----

  predicate NodeInstalled(node: Node, actual: ClusterState) {
    && node.name in actual.nodes
    && var state := actual.nodes[node.name];
       && state.domainRunning && state.k3sReady && state.kubernetesReady
       && (forall l :: l in node.labels ==> HasLabel(state.labels, l))
       && (forall t :: t in node.taints ==> HasTaint(state.taints, t))
  }

  predicate Installed(nodes: seq<Node>, actual: ClusterState, manifests: seq<Manifest>) {
    && actual.tokenPresent && actual.kubeconfigPresent && actual.apiReady
    && (forall n :: n in nodes ==> NodeInstalled(n, actual))
    && (forall m :: m in manifests ==> ManifestApplied(actual, m))
  }

  // ---- Effects ----

  // `kubectl label` reads `key=value`.
  function ParseLabel(text: string): Option<Label> {
    match Find(text, "=")
    case None => None
    case Some(i) => Some(Label(text[..i], text[i + 1..]))
  }

  // `kubectl taint` reads `key=value:effect`.
  function ParseTaint(text: string): Option<Taint> {
    match Find(text, "=")
    case None => None
    case Some(i) =>
      var rest := text[i + 1..];
      match Find(rest, ":")
      case None => None
      case Some(j) => Some(Taint(text[..i], rest[..j], rest[j + 1..]))
  }

  function SetLabels(labels: map<string, string>, assignments: seq<string>): map<string, string>
    decreases |assignments|
  {
    if assignments == [] then labels
    else
      match ParseLabel(assignments[0])
      case None => SetLabels(labels, assignments[1..])
      case Some(l) => SetLabels(labels[l.key := l.value], assignments[1..])
  }

  function WithoutTaint(taints: seq<Taint>, key: string, effect: string): seq<Taint> {
    if taints == [] then []
    else
      (if taints[0].key == key && taints[0].effect == effect then [] else [taints[0]])
      + WithoutTaint(taints[1..], key, effect)
  }

  // `--overwrite` replaces the taint with the same key and effect.
  function SetTaints(taints: seq<Taint>, assignments: seq<string>): seq<Taint>
    decreases |assignments|
  {
    if assignments == [] then taints
    else
      match ParseTaint(assignments[0])
      case None => SetTaints(taints, assignments[1..])
      case Some(t) => SetTaints(WithoutTaint(taints, t.key, t.effect) + [t], assignments[1..])
  }

  function UpdateNode(state: ClusterState, name: string, node: NodeState): ClusterState {
    state.(nodes := state.nodes[name := node])
  }

  // What an operation that succeeds leaves behind.
  function Effect(operation: Operation, state: ClusterState): ClusterState {
    match operation
    case EnsureToken => state.(tokenPresent := true)
    case StartFirstServer(n) => UpdateNode(state, n, NodeStateOf(state, n).(domainRunning := true))
    case WaitForFirstServer(n) => UpdateNode(state, n, NodeStateOf(state, n).(k3sReady := true))
    case RetrieveKubeconfig(_) => state.(kubeconfigPresent := true)
    case WaitForClusterApi => state.(apiReady := true)
    case StartJoinNode(n, _) => UpdateNode(state, n, NodeStateOf(state, n).(domainRunning := true))
    case WaitForNodeReady(n) => UpdateNode(state, n, NodeStateOf(state, n).(kubernetesReady := true))
    case ReconcileNodeLabels(n, assignments) =>
      var node := NodeStateOf(state, n);
      UpdateNode(state, n, node.(labels := SetLabels(node.labels, assignments)))
    case ReconcileNodeTaints(n, assignments) =>
      var node := NodeStateOf(state, n);
      UpdateNode(state, n, node.(taints := SetTaints(node.taints, assignments)))
    case ApplyManifest(name, desiredHash) =>
      state.(appliedManifests := state.appliedManifests[name := desiredHash])
  }

  function StepEffect(step: Step, state: ClusterState): ClusterState {
    match step.decision
    case SkipAlreadyCorrect => state
    case Apply(operation) => Effect(operation, state)
  }

  // Running the steps in order, each succeeding.
  function RunSteps(steps: seq<Step>, state: ClusterState): ClusterState {
    if steps == [] then state else RunSteps(steps[1..], StepEffect(steps[0], state))
  }
}
