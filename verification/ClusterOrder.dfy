/** The installer's check of a cluster plan's order, which reads step descriptions, on the planner's plans. */
module ClusterOrder {
  import opened Cluster
  import opened Text
  import opened Wrappers

  const START_FIRST := "start first k3s server "
  const FIRST_MARK := "first k3s server "
  const JOIN_MARK := "k3s join node "

  function Describe(step: Step): string {
    match step.subject
    case Token => if step.decision.Apply? then "generate k3s cluster token" else "ensure k3s cluster token"
    case StartFirst(n) => START_FIRST + n
    case WaitFirst(n) => "wait for first k3s server " + n
    case Kubeconfig => "retrieve cluster kubeconfig"
    case ClusterApi => "wait for Kubernetes API readiness"
    case StartJoin(n) => "start k3s join node " + n
    case WaitJoin(n) => "wait for k3s join node " + n
    case ServerUrl(n) => "verify k3s server URL for " + n
    case NodeReady(n) => "wait for Kubernetes node " + n + " Ready"
    case NodeLabels(n) => "reconcile labels for node " + n
    case NodeTaints(n) => "reconcile taints for node " + n
    case SubstrateManifest(name) => "apply substrate manifest " + name
  }

  predicate StartsFirst(step: Step, name: string) {
    match step.decision
    case Apply(operation) => operation == StartFirstServer(name)
    case SkipAlreadyCorrect => Contains(Describe(step), FIRST_MARK + name)
  }

  predicate StartsJoin(step: Step, name: string) {
    match step.decision
    case Apply(operation) => operation.StartJoinNode? && operation.node == name
    case SkipAlreadyCorrect => Contains(Describe(step), JOIN_MARK + name)
  }

  // `position`
  function FirstStart(steps: seq<Step>, name: string): Option<nat> {
    if steps == [] then None
    else if StartsFirst(steps[0], name) then Some(0)
    else match FirstStart(steps[1..], name)
      case None => None
      case Some(i) => Some(i + 1)
  }

  function JoinStart(steps: seq<Step>, name: string): Option<nat> {
    if steps == [] then None
    else if StartsJoin(steps[0], name) then Some(0)
    else match JoinStart(steps[1..], name)
      case None => None
      case Some(i) => Some(i + 1)
  }

  predicate JoinsBehindFirst(steps: seq<Step>, first: string, name: string) {
    name != first && JoinStart(steps, name).Some? && FirstStart(steps, first).Some? ==>
      JoinStart(steps, name).value > FirstStart(steps, first).value
  }

  predicate AcceptsOrder(nodes: seq<Node>, steps: seq<Step>) {
    && FirstServer(nodes).Some?
    && forall n :: n in nodes ==> JoinsBehindFirst(steps, FirstServer(nodes).value.name, n.name)
  }

  /** The loop of the check. */
  method VerifyClusterPlanOrder(nodes: seq<Node>, steps: seq<Step>) returns (ok: bool)
    ensures ok == AcceptsOrder(nodes, steps)
  {
    hide FirstServer, FirstStart, JoinStart;
    var first := FirstServer(nodes);
    if first.None? {
      return false;
    }
    var start := FirstStart(steps, first.value.name);
    for i := 0 to |nodes|
      invariant forall k :: 0 <= k < i ==> JoinsBehindFirst(steps, first.value.name, nodes[k].name)
    {
      if nodes[i].name != first.value.name {
        var joined := JoinStart(steps, nodes[i].name);
        if joined.Some? && start.Some? && joined.value <= start.value {
          return false;
        }
      }
    }
    ok := true;
  }

  // ---- Descriptions ----

  lemma TokenDescription(correct: bool, name: string)
    ensures var step := Decide(Token, correct, EnsureToken); !StartsFirst(step, name) && !StartsJoin(step, name)
  {
    if correct {
      var text := "ensure k3s cluster token";
      assert 'f' !in text && 'j' !in text;
      assert (FIRST_MARK + name)[0] == 'f' && (JOIN_MARK + name)[4] == 'j';
      NoOccurrenceWithoutChar(text, FIRST_MARK + name, 'f');
      NoOccurrenceWithoutChar(text, JOIN_MARK + name, 'j');
    }
  }

  lemma StartDescription(correct: bool, name: string)
    ensures StartsFirst(Decide(StartFirst(name), correct, StartFirstServer(name)), name)
  {
    if correct {
      var text := START_FIRST + name;
      assert text[6..] == FIRST_MARK + name;
      FindIsFirst(text, FIRST_MARK + name, 6);
    }
  }

  // A pattern with 'k' first and 'j' fourth behind it cannot start inside a text that has no 'j' and no late 'k'.
  lemma OnlyInName(prefix: string, name: string, pattern: string)
    requires |prefix| >= 4 && 'j' !in prefix
    requires forall i :: |prefix| - 4 <= i < |prefix| ==> prefix[i] != 'k'
    requires |pattern| > 4 && pattern[0] == 'k' && pattern[4] == 'j'
    ensures Contains(prefix + name, pattern) <==> Contains(name, pattern)
  {
    var text := prefix + name;
    if Contains(name, pattern) {
      var i := Find(name, pattern).value;
      assert text[|prefix| + i..] == name[i..];
      FindIsFirst(text, pattern, |prefix| + i);
    }
    if Contains(text, pattern) {
      var i := Find(text, pattern).value;
      assert text[i..][0] == 'k' && text[i..][4] == 'j';
      assert text[i] == 'k' && text[i + 4] == 'j';
      assert i >= |prefix|;
      assert text[i..] == name[i - |prefix|..];
      FindIsFirst(name, pattern, i - |prefix|);
    }
  }

  lemma JoinInStart(first: string, name: string)
    ensures Contains(START_FIRST + first, JOIN_MARK + name) <==> Contains(first, JOIN_MARK + name)
  {
    assert 'j' !in START_FIRST;
    assert START_FIRST[|START_FIRST| - 4..] == "ver ";
    OnlyInName(START_FIRST, first, JOIN_MARK + name);
  }

  lemma SecondPosition(steps: seq<Step>, first: string, name: string)
    requires |steps| >= 2
    requires !StartsFirst(steps[0], first) && StartsFirst(steps[1], first) && !StartsJoin(steps[0], name)
    ensures FirstStart(steps, first).Some? && FirstStart(steps, first).value == 1
    ensures JoinStart(steps, name).Some? ==> (JoinStart(steps, name).value <= 1 <==> StartsJoin(steps[1], name))
    ensures StartsJoin(steps[1], name) ==> JoinStart(steps, name).Some?
  {
    hide StartsFirst, StartsJoin;
    assert steps[1..][0] == steps[1];
  }

  lemma PlanStart(nodes: seq<Node>, actual: ClusterState, manifests: seq<Manifest>)
    requires FirstServer(nodes).Some?
    ensures var first, steps := FirstServer(nodes).value, Plan(nodes, actual, manifests);
            && |steps| >= 2
            && steps[0] == Decide(Token, actual.tokenPresent, EnsureToken)
            && steps[1] == Decide(StartFirst(first.name), NodeStateOf(actual, first.name).domainRunning,
                StartFirstServer(first.name))
  {
  }

  lemma JoinOrder(nodes: seq<Node>, actual: ClusterState, manifests: seq<Manifest>, name: string)
    requires FirstServer(nodes).Some?
    ensures var first := FirstServer(nodes).value.name;
            JoinsBehindFirst(Plan(nodes, actual, manifests), first, name) <==>
            !(name != first && NodeStateOf(actual, first).domainRunning && Contains(first, JOIN_MARK + name))
  {
    var first := FirstServer(nodes).value.name;
    var steps := Plan(nodes, actual, manifests);
    PlanStart(nodes, actual, manifests);
    hide Plan, FirstServer;
    var running := NodeStateOf(actual, first).domainRunning;
    TokenDescription(actual.tokenPresent, first);
    TokenDescription(actual.tokenPresent, name);
    StartDescription(running, first);
    SecondPosition(steps, first, name);
    JoinInStart(first, name);
    assert StartsJoin(steps[1], name) <==> running && Contains(first, JOIN_MARK + name);
  }

  /** The check accepts every plan the planner makes, except where the first server is already running and its own
      name contains the text "k3s join node" and the name of another node. Names without spaces are always accepted. */
  lemma PlansPassOrderCheck(nodes: seq<Node>, actual: ClusterState, manifests: seq<Manifest>)
    requires FirstServer(nodes).Some?
    ensures var first := FirstServer(nodes).value.name;
            AcceptsOrder(nodes, Plan(nodes, actual, manifests)) <==>
            !(NodeStateOf(actual, first).domainRunning
              && exists n :: n in nodes && n.name != first && Contains(first, JOIN_MARK + n.name))
  {
    hide Plan, FirstServer, JoinsBehindFirst;
    forall n | n in nodes {
      JoinOrder(nodes, actual, manifests, n.name);
    }
  }

  /** One such cluster: a running server "k3s join node b" beside an agent "b". */
  lemma RunningServerRejected(manifests: seq<Manifest>)
    ensures var server, agent :=
      Node(JOIN_MARK + "b", Server, true, None, [], []), Node("b", Agent, false, None, [], []);
            var running := map[server.name := NodeState(true, true, true, map[], [])];
            var actual := ClusterState(true, true, true, running, map[]);
            !AcceptsOrder([server, agent], Plan([server, agent], actual, manifests))
  {
    hide Plan, AcceptsOrder;
    var server, agent := Node(JOIN_MARK + "b", Server, true, None, [], []), Node("b", Agent, false, None, [], []);
    var nodes := [server, agent];
    var actual := ClusterState(true, true, true, map[server.name := NodeState(true, true, true, map[], [])], map[]);
    assert FirstServer(nodes) == Some(server);
    assert server.name[0..] == server.name && |server.name| > |agent.name|;
    FindIsFirst(server.name, JOIN_MARK + agent.name, 0);
    assert agent in nodes;
    PlansPassOrderCheck(nodes, actual, manifests);
  }

  lemma SpacelessNamesPass(nodes: seq<Node>, actual: ClusterState, manifests: seq<Manifest>)
    requires FirstServer(nodes).Some? && ' ' !in FirstServer(nodes).value.name
    ensures AcceptsOrder(nodes, Plan(nodes, actual, manifests))
  {
    hide Plan, FirstServer, AcceptsOrder;
    PlansPassOrderCheck(nodes, actual, manifests);
    var first := FirstServer(nodes).value.name;
    forall n | n in nodes ensures !Contains(first, JOIN_MARK + n.name) {
      assert (JOIN_MARK + n.name)[3] == ' ';
      NoOccurrenceWithoutChar(first, JOIN_MARK + n.name, ' ');
    }
  }
}
