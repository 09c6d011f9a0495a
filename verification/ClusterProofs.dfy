/** The cluster planner against the independent verifier, and what running a plan achieves in which order. */
module ClusterProofs {
  import opened Cluster
  import opened Wrappers

  // ---- The plan is current exactly when the verifier accepts ----

  lemma CurrentAppend(a: seq<Step>, b: seq<Step>)
    ensures IsCurrent(a + b) <==> IsCurrent(a) && IsCurrent(b)
  {
    assert forall i :: 0 <= i < |a| ==> (a + b)[i] == a[i];
    assert forall i :: 0 <= i < |b| ==> (a + b)[|a| + i] == b[i];
    if IsCurrent(a) && IsCurrent(b) {
      assert forall i :: 0 <= i < |a + b| ==> (a + b)[i] == if i < |a| then a[i] else b[i - |a|];
    }
  }

  lemma {:induction false} NoLabelAssignments(desired: seq<Label>, actual: map<string, string>)
    ensures LabelAssignments(desired, actual) == [] <==> forall l :: l in desired ==> HasLabel(actual, l)
  {
    if desired != [] {
      NoLabelAssignments(desired[1..], actual);
      assert forall l :: l in desired <==> l == desired[0] || l in desired[1..];
    }
  }

  lemma {:induction false} NoTaintAssignments(desired: seq<Taint>, actual: seq<Taint>)
    ensures TaintAssignments(desired, actual) == [] <==> forall t :: t in desired ==> HasTaint(actual, t)
  {
    if desired != [] {
      NoTaintAssignments(desired[1..], actual);
      assert forall t :: t in desired <==> t == desired[0] || t in desired[1..];
    }
  }

  // Every node the join loop visits is an agent with a server URL, or a server.
  predicate HasUrl(node: Node) {
    node.serverUrl.Some? || node.role.Server?
  }

  predicate Joined(node: Node, actual: ClusterState) {
    NodeStateOf(actual, node.name).domainRunning && NodeStateOf(actual, node.name).k3sReady
  }

  lemma {:induction false} JoinsCurrent(nodes: seq<Node>, first: Option<Node>, actual: ClusterState)
    ensures IsCurrent(JoinSteps(nodes, first, actual))
            <==> forall n :: n in nodes && !IsFirst(first, n) ==> Joined(n, actual) && HasUrl(n)
  {
    if nodes != [] {
      JoinsCurrent(nodes[1..], first, actual);
      var head := if IsFirst(first, nodes[0]) then [] else JoinNodeSteps(nodes[0], actual);
      CurrentAppend(head, JoinSteps(nodes[1..], first, actual));
      assert forall n :: n in nodes <==> n == nodes[0] || n in nodes[1..];
      if !IsFirst(first, nodes[0]) {
        JoinCurrent(nodes[0], actual);
      }
    }
  }

  lemma JoinCurrent(node: Node, actual: ClusterState)
    ensures IsCurrent(JoinNodeSteps(node, actual)) <==> Joined(node, actual) && HasUrl(node)
  {
    var steps := JoinNodeSteps(node, actual);
    assert |steps| >= 2 && (HasUrl(node) <==> |steps| == 2);
    assert steps[0].decision.SkipAlreadyCorrect? <==> NodeStateOf(actual, node.name).domainRunning;
    assert steps[1].decision.SkipAlreadyCorrect? <==> NodeStateOf(actual, node.name).k3sReady;
    if |steps| > 2 {
      assert steps[2].decision.Apply?;
    }
  }

  predicate Reconciled(node: Node, actual: ClusterState) {
    && NodeStateOf(actual, node.name).kubernetesReady
    && (forall l :: l in node.labels ==> HasLabel(NodeStateOf(actual, node.name).labels, l))
    && (forall t :: t in node.taints ==> HasTaint(NodeStateOf(actual, node.name).taints, t))
  }

  lemma NodeCurrent(node: Node, actual: ClusterState)
    ensures IsCurrent(NodeSteps(node, actual)) <==> Reconciled(node, actual)
  {
    NoLabelAssignments(node.labels, NodeStateOf(actual, node.name).labels);
    NoTaintAssignments(node.taints, NodeStateOf(actual, node.name).taints);
    var steps := NodeSteps(node, actual);
    assert IsCurrent(steps) <==> steps[0].decision.SkipAlreadyCorrect? && steps[1].decision.SkipAlreadyCorrect?
                                 && steps[2].decision.SkipAlreadyCorrect?;
  }

  lemma {:induction false} AllNodesCurrent(nodes: seq<Node>, actual: ClusterState)
    ensures IsCurrent(AllNodeSteps(nodes, actual)) <==> forall n :: n in nodes ==> Reconciled(n, actual)
  {
    if nodes != [] {
      AllNodesCurrent(nodes[1..], actual);
      CurrentAppend(NodeSteps(nodes[0], actual), AllNodeSteps(nodes[1..], actual));
      NodeCurrent(nodes[0], actual);
      assert forall n :: n in nodes <==> n == nodes[0] || n in nodes[1..];
    }
  }

  lemma {:induction false} ManifestsCurrent(manifests: seq<Manifest>, actual: ClusterState)
    ensures IsCurrent(ManifestSteps(manifests, actual)) <==> forall m :: m in manifests ==> ManifestApplied(actual, m)
  {
    if manifests != [] {
      ManifestsCurrent(manifests[1..], actual);
      CurrentAppend([ManifestStep(manifests[0], actual)], ManifestSteps(manifests[1..], actual));
      assert [ManifestStep(manifests[0], actual)][0] == ManifestStep(manifests[0], actual);
      assert forall m :: m in manifests <==> m == manifests[0] || m in manifests[1..];
    }
  }

  lemma BootstrapCurrent(first: Node, actual: ClusterState)
    ensures IsCurrent(Bootstrap(Some(first), actual))
            <==> actual.tokenPresent && actual.kubeconfigPresent && actual.apiReady && Joined(first, actual)
  {
    var steps := Bootstrap(Some(first), actual);
    assert |steps| == 5;
    assert IsCurrent(steps) <==>
      steps[0].decision.SkipAlreadyCorrect? && steps[1].decision.SkipAlreadyCorrect?
        && steps[2].decision.SkipAlreadyCorrect?
      && steps[3].decision.SkipAlreadyCorrect? && steps[4].decision.SkipAlreadyCorrect?;
  }

  lemma {:induction false} FoundIsNode(nodes: seq<Node>, init: bool)
    requires FindNode(nodes, init).Some?
    ensures FindNode(nodes, init).value in nodes && FindNode(nodes, init).value.role.Server?
  {
    if !(nodes[0].role.Server? && (init ==> nodes[0].clusterInit)) {
      FoundIsNode(nodes[1..], init);
    }
  }

  lemma FirstIsServer(nodes: seq<Node>)
    requires FirstServer(nodes).Some?
    ensures FirstServer(nodes).value in nodes && FirstServer(nodes).value.role.Server?
  {
    FoundIsNode(nodes, FindNode(nodes, true).Some?);
  }

  // Every agent the join loop visits knows its server.
  predicate AgentsHaveUrls(nodes: seq<Node>) {
    forall n :: n in nodes && !IsFirst(FirstServer(nodes), n) ==> HasUrl(n)
  }

  lemma InstalledByParts(nodes: seq<Node>, actual: ClusterState, manifests: seq<Manifest>)
    ensures Installed(nodes, actual, manifests) <==>
            && actual.tokenPresent && actual.kubeconfigPresent && actual.apiReady
            && (forall n :: n in nodes ==> Joined(n, actual))
            && (forall n :: n in nodes ==> Reconciled(n, actual))
            && (forall m :: m in manifests ==> ManifestApplied(actual, m))
  {
    forall n | n in nodes ensures NodeInstalled(n, actual) <==> Joined(n, actual) && Reconciled(n, actual) {
    }
  }

  /** The idempotence check and the state verifier, written independently, agree: the plan for a state is all
      skips exactly when the verifier accepts the state and every joining agent has a server URL. */
  lemma CurrentIffInstalled(nodes: seq<Node>, actual: ClusterState, manifests: seq<Manifest>)
    requires FirstServer(nodes).Some?
    ensures IsCurrent(Plan(nodes, actual, manifests)) <==> Installed(nodes, actual, manifests) && AgentsHaveUrls(nodes)
  {
    var first := FirstServer(nodes);
    FirstIsServer(nodes);
    var a, b := Bootstrap(first, actual), JoinSteps(nodes, first, actual);
    var c, d := AllNodeSteps(nodes, actual), ManifestSteps(manifests, actual);
    CurrentAppend(a, b);
    CurrentAppend(a + b, c);
    CurrentAppend(a + b + c, d);
    BootstrapCurrent(first.value, actual);
    JoinsCurrent(nodes, first, actual);
    AllNodesCurrent(nodes, actual);
    ManifestsCurrent(manifests, actual);
    InstalledByParts(nodes, actual, manifests);
    assert forall n :: n in nodes && IsFirst(first, n) ==> (Joined(n, actual) <==> Joined(first.value, actual));
    hide *;
  }
}
