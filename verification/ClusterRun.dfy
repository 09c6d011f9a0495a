/** Running a cluster plan: what each section achieves, in which order, and that the result is current. */
module ClusterRun {
  import opened Cluster
  import opened ClusterProofs
  import opened Text
  import opened Wrappers

  // ---- Order: what must already hold when an operation runs ----

  predicate KubectlWorks(s: ClusterState) {
    s.tokenPresent && s.kubeconfigPresent && s.apiReady
  }

  predicate Ready(n: string, s: ClusterState) {
    NodeStateOf(s, n).kubernetesReady
  }

  predicate Allowed(step: Step, s: ClusterState, first: Node, nodes: seq<Node>) {
    step.decision.Apply? ==>
      match step.decision.operation
      case EnsureToken => true
      case StartFirstServer(_) => s.tokenPresent
      case WaitForFirstServer(n) => s.tokenPresent && NodeStateOf(s, n).domainRunning
      case RetrieveKubeconfig(n) => NodeStateOf(s, n).domainRunning && NodeStateOf(s, n).k3sReady
      case WaitForClusterApi => s.tokenPresent && s.kubeconfigPresent
      case StartJoinNode(_, _) => KubectlWorks(s) && Joined(first, s)
      case WaitForNodeReady(_) => KubectlWorks(s)
      case ReconcileNodeLabels(n, _) => KubectlWorks(s) && Ready(n, s)
      case ReconcileNodeTaints(n, _) => KubectlWorks(s) && Ready(n, s)
      case ApplyManifest(_, _) =>
        KubectlWorks(s) && forall n :: n in nodes ==> Joined(n, s) && Ready(n.name, s)
  }

  // Each step of the run finds what it needs, whatever later steps would have done.
  predicate Ordered(steps: seq<Step>, s: ClusterState, first: Node, nodes: seq<Node>) {
    steps == [] || (Allowed(steps[0], s, first, nodes) && Ordered(steps[1..], StepEffect(steps[0], s), first, nodes))
  }

  lemma {:induction false} RunAppend(a: seq<Step>, b: seq<Step>, s: ClusterState, first: Node, nodes: seq<Node>)
    ensures RunSteps(a + b, s) == RunSteps(b, RunSteps(a, s))
    ensures Ordered(a + b, s, first, nodes) <==> Ordered(a, s, first, nodes) && Ordered(b, RunSteps(a, s), first, nodes)
  {
    if a == [] {
      assert a + b == b;
    } else {
      assert (a + b)[1..] == a[1..] + b;
      RunAppend(a[1..], b, StepEffect(a[0], s), first, nodes);
    }
  }

  lemma RunOne(step: Step, s: ClusterState, first: Node, nodes: seq<Node>)
    ensures RunSteps([step], s) == StepEffect(step, s)
    ensures Ordered([step], s, first, nodes) <==> Allowed(step, s, first, nodes)
  {
    assert [step][1..] == [];
  }

  lemma RunThree(a: Step, b: Step, c: Step, s: ClusterState, first: Node, nodes: seq<Node>)
    ensures var s1 := StepEffect(a, s); var s2 := StepEffect(b, s1);
            && RunSteps([a, b, c], s) == StepEffect(c, s2)
            && (Ordered([a, b, c], s, first, nodes)
                <==> Allowed(a, s, first, nodes) && Allowed(b, s1, first, nodes) && Allowed(c, s2, first, nodes))
  {
    RunAppend([a], [b, c], s, first, nodes);
    RunAppend([b], [c], StepEffect(a, s), first, nodes);
    RunOne(a, s, first, nodes);
    RunOne(b, StepEffect(a, s), first, nodes);
    RunOne(c, StepEffect(b, StepEffect(a, s)), first, nodes);
    assert [a] + [b, c] == [a, b, c] && [b] + [c] == [b, c];
  }

  // ---- What stays ----

  // `s` has come from `actual` by starting and waiting only: flags may have risen, the rest is as it was.
  ghost predicate Risen(actual: ClusterState, s: ClusterState) {
    && (actual.tokenPresent ==> s.tokenPresent)
    && (actual.kubeconfigPresent ==> s.kubeconfigPresent)
    && (actual.apiReady ==> s.apiReady)
    && s.appliedManifests == actual.appliedManifests
    && forall n: string :: NodeRisen(NodeStateOf(actual, n), NodeStateOf(s, n))
  }

  predicate NodeRisen(a: NodeState, b: NodeState) {
    && (a.domainRunning ==> b.domainRunning) && (a.k3sReady ==> b.k3sReady)
    && a.kubernetesReady == b.kubernetesReady && a.labels == b.labels && a.taints == b.taints
  }

  lemma RisenTransitive(a: ClusterState, b: ClusterState, c: ClusterState)
    requires Risen(a, b) && Risen(b, c)
    ensures Risen(a, c)
  {
    forall n: string ensures NodeRisen(NodeStateOf(a, n), NodeStateOf(c, n)) {
      assert NodeRisen(NodeStateOf(a, n), NodeStateOf(b, n)) && NodeRisen(NodeStateOf(b, n), NodeStateOf(c, n));
    }
  }

  // ---- Bootstrap ----

  lemma TokenRuns(actual: ClusterState)
    ensures var s := StepEffect(TokenStep(actual), actual); s.tokenPresent && Risen(actual, s)
  {
  }

  lemma Decided(subject: Subject, correct: bool, operation: Operation, s: ClusterState)
    ensures StepEffect(Decide(subject, correct, operation), s) == if correct then s else Effect(operation, s)
  {
  }

  // Starting or waiting for a node raises its flag and changes nothing else.
  lemma FlagRises(s: ClusterState, name: string, node: NodeState)
    requires NodeRisen(NodeStateOf(s, name), node)
    ensures var s' := UpdateNode(s, name, node); Risen(s, s') && NodeStateOf(s', name) == node
  {
  }

  lemma StartRuns(step: Step, node: string, s: ClusterState, operation: Operation, running: bool)
    requires step == Decide(step.subject, running, operation)
    requires operation == StartFirstServer(node) || (operation.StartJoinNode? && operation.node == node)
    requires running ==> NodeStateOf(s, node).domainRunning
    ensures var s' := StepEffect(step, s); Risen(s, s') && NodeStateOf(s', node).domainRunning
  {
    Decided(step.subject, running, operation, s);
    FlagRises(s, node, NodeStateOf(s, node).(domainRunning := true));
    FlagRises(s, node, NodeStateOf(s, node));
    hide Decide, StepEffect;
  }

  lemma WaitRuns(step: Step, node: string, s: ClusterState, ready: bool)
    requires step == Decide(step.subject, ready, WaitForFirstServer(node))
    requires ready ==> NodeStateOf(s, node).k3sReady
    ensures var s' := StepEffect(step, s); Risen(s, s') && NodeStateOf(s', node).k3sReady
  {
    Decided(step.subject, ready, WaitForFirstServer(node), s);
    FlagRises(s, node, NodeStateOf(s, node).(k3sReady := true));
    hide Decide, StepEffect;
  }

  lemma KubeconfigRuns(step: Step, node: string, s: ClusterState, present: bool)
    requires step == Decide(step.subject, present, RetrieveKubeconfig(node))
    requires present ==> s.kubeconfigPresent
    ensures var s' := StepEffect(step, s); Risen(s, s') && s'.kubeconfigPresent
  {
    Decided(step.subject, present, RetrieveKubeconfig(node), s);
  }

  lemma FirstServerRuns(first: Node, actual: ClusterState, s: ClusterState, nodes: seq<Node>)
    requires Risen(actual, s) && s.tokenPresent
    ensures var s' := RunSteps(FirstServerSteps(first, actual), s);
            s'.tokenPresent && s'.kubeconfigPresent && Joined(first, s') && Risen(s, s')
    ensures Ordered(FirstServerSteps(first, actual), s, first, nodes)
  {
    var state := NodeStateOf(actual, first.name);
    assert NodeRisen(state, NodeStateOf(s, first.name));
    var a := Decide(StartFirst(first.name), state.domainRunning, StartFirstServer(first.name));
    var b := Decide(WaitFirst(first.name), state.k3sReady, WaitForFirstServer(first.name));
    var c := Decide(Kubeconfig, actual.kubeconfigPresent, RetrieveKubeconfig(first.name));
    RunThree(a, b, c, s, first, nodes);
    StartRuns(a, first.name, s, StartFirstServer(first.name), state.domainRunning);
    var s1 := StepEffect(a, s);
    assert NodeRisen(NodeStateOf(s, first.name), NodeStateOf(s1, first.name));
    WaitRuns(b, first.name, s1, state.k3sReady);
    var s2 := StepEffect(b, s1);
    assert NodeRisen(NodeStateOf(s1, first.name), NodeStateOf(s2, first.name));
    KubeconfigRuns(c, first.name, s2, actual.kubeconfigPresent);
    var s3 := StepEffect(c, s2);
    assert NodeRisen(NodeStateOf(s2, first.name), NodeStateOf(s3, first.name));
    RisenTransitive(s, s1, s2);
    RisenTransitive(s, s2, s3);
    hide StepEffect, RunSteps, Ordered;
  }

  lemma BootstrapRuns(first: Node, actual: ClusterState, nodes: seq<Node>)
    ensures var s := RunSteps(Bootstrap(Some(first), actual), actual);
            KubectlWorks(s) && Joined(first, s) && Risen(actual, s)
    ensures Ordered(Bootstrap(Some(first), actual), actual, first, nodes)
  {
    var t, f, p := TokenStep(actual), FirstServerSteps(first, actual), ApiStep(actual);
    assert Bootstrap(Some(first), actual) == [t] + (f + [p]);
    RunAppend([t], f + [p], actual, first, nodes);
    RunOne(t, actual, first, nodes);
    TokenRuns(actual);
    var s1 := StepEffect(t, actual);
    FirstServerRuns(first, actual, s1, nodes);
    hide FirstServerSteps, RunSteps, Ordered, Bootstrap, TokenStep;
    RunAppend(f, [p], s1, first, nodes);
    var s2 := RunSteps(f, s1);
    RisenTransitive(actual, s1, s2);
    RunOne(p, s2, first, nodes);
  }

  // ---- Joining ----

  lemma JoinRuns(node: Node, first: Node, actual: ClusterState, s: ClusterState, nodes: seq<Node>)
    requires Risen(actual, s) && KubectlWorks(s) && Joined(first, s)
    ensures var s' := RunSteps(JoinNodeSteps(node, actual), s);
            KubectlWorks(s') && Joined(first, s') && Risen(s, s') && Joined(node, s')
    ensures Ordered(JoinNodeSteps(node, actual), s, first, nodes)
  {
    var state := NodeStateOf(actual, node.name);
    assert NodeRisen(state, NodeStateOf(s, node.name));
    var a := Decide(StartJoin(node.name), state.domainRunning, StartJoinNode(node.name, node.role));
    var b := Decide(WaitJoin(node.name), state.k3sReady, WaitForFirstServer(node.name));
    var c := Step(ServerUrl(node.name), Apply(WaitForClusterApi));
    assert JoinNodeSteps(node, actual) == [a, b] + (if HasUrl(node) then [] else [c]);
    StartRuns(a, node.name, s, StartJoinNode(node.name, node.role), state.domainRunning);
    var s1 := StepEffect(a, s);
    assert NodeRisen(NodeStateOf(s, node.name), NodeStateOf(s1, node.name));
    WaitRuns(b, node.name, s1, state.k3sReady);
    var s2 := StepEffect(b, s1);
    assert NodeRisen(NodeStateOf(s1, node.name), NodeStateOf(s2, node.name));
    RisenTransitive(s, s1, s2);
    assert NodeRisen(NodeStateOf(s, first.name), NodeStateOf(s2, first.name));
    assert StepEffect(c, s2) == s2;
    hide StepEffect, RunSteps, Ordered, JoinNodeSteps;
    RunThree(a, b, c, s, first, nodes);
    RunAppend([a], [b], s, first, nodes);
    RunOne(a, s, first, nodes);
    RunOne(b, s1, first, nodes);
    assert [a] + [b] == [a, b] && [a, b] + [c] == [a, b, c] && [a, b] + [] == [a, b];
  }

  lemma {:induction false} JoinsRun(
    todo: seq<Node>, first: Node, actual: ClusterState, s: ClusterState, nodes: seq<Node>)
    requires Risen(actual, s) && KubectlWorks(s) && Joined(first, s)
    ensures var s' := RunSteps(JoinSteps(todo, Some(first), actual), s);
            && KubectlWorks(s') && Joined(first, s') && Risen(s, s')
            && forall n :: n in todo ==> Joined(n, s')
    ensures Ordered(JoinSteps(todo, Some(first), actual), s, first, nodes)
  {
    if todo != [] {
      var head := if IsFirst(Some(first), todo[0]) then [] else JoinNodeSteps(todo[0], actual);
      var rest := JoinSteps(todo[1..], Some(first), actual);
      RunAppend(head, rest, s, first, nodes);
      if !IsFirst(Some(first), todo[0]) {
        JoinRuns(todo[0], first, actual, s, nodes);
      }
      var s1 := RunSteps(head, s);
      RisenTransitive(actual, s, s1);
      JoinsRun(todo[1..], first, actual, s1, nodes);
      var s2 := RunSteps(rest, s1);
      RisenTransitive(s, s1, s2);
      assert NodeRisen(NodeStateOf(s1, todo[0].name), NodeStateOf(s2, todo[0].name));
      assert forall n :: n in todo <==> n == todo[0] || n in todo[1..];
    }
  }

  // ---- Labels and taints ----

  // Labels are a map in the program: one entry per key.
  predicate LabelsKeyed(node: Node) {
    forall i, j :: 0 <= i < j < |node.labels| ==> node.labels[i].key != node.labels[j].key
  }

  // The taint kubectl sets when it is given the text of this one.
  function Read(t: Taint): Taint {
    match ParseTaint(TaintText(t))
    case Some(read) => read
    case None => t
  }

  // kubectl keeps one value for a key and effect.
  predicate SameSlot(a: Taint, b: Taint) {
    a.key == b.key && a.effect == b.effect
  }

  /** Label keys hold no '=', and taints that kubectl reads as one key and effect are read as one value. */
  predicate NodeAgrees(node: Node) {
    && (forall l :: l in node.labels ==> '=' !in l.key)
    && TaintsAgree(node.taints)
  }

  predicate TaintsAgree(taints: seq<Taint>) {
    forall a, b :: a in taints && b in taints && SameSlot(Read(a), Read(b)) ==> Read(a) == Read(b)
  }

  predicate NodesAgree(nodes: seq<Node>) {
    forall n :: n in nodes ==> NodeAgrees(n)
  }

  // Taints as kubectl can have set them.
  predicate TaintsReadBack(taints: seq<Taint>) {
    forall t :: t in taints ==> Read(t) == t
  }

  lemma LabelTextParses(l: Label)
    requires '=' !in l.key
    ensures ParseLabel(LabelText(l)) == Some(l)
  {
    FindChar(l.key, '=', l.value);
    var text := LabelText(l);
    assert text[..|l.key|] == l.key && text[|l.key| + 1..] == l.value;
  }

  // Cutting at a one-character pattern: the text is put together again by it.
  lemma CutAround(text: string, c: char)
    ensures Find(text, [c]).Some? ==> text == text[..Find(text, [c]).value] + [c] + text[Find(text, [c]).value + 1..]
    ensures Find(text, [c]).Some? ==> c !in text[..Find(text, [c]).value]
    ensures c in text ==> Find(text, [c]).Some?
  {
    if Find(text, [c]).Some? {
      var i := Find(text, [c]).value;
      assert text[i..][0] == c;
      forall j | 0 <= j < i && text[j] == c
        ensures false
      {
        FindIsFirst(text, [c], j);
      }
    }
    if c in text {
      var i :| 0 <= i < |text| && text[i] == c;
      assert text[i..][0] == c;
      FindIsFirst(text, [c], i);
    }
  }

  // What kubectl reads prints as the text it read, and every printed taint can be read.
  lemma ParsedPrints(text: string)
    ensures ParseTaint(text).Some? ==> TaintText(ParseTaint(text).value) == text
  {
    CutAround(text, '=');
    if ParseTaint(text).Some? {
      var rest := text[Find(text, "=").value + 1..];
      CutAround(rest, ':');
    }
  }

  lemma PrintedParses(t: Taint)
    ensures ParseTaint(TaintText(t)).Some?
  {
    var text := TaintText(t);
    CutAround(text, '=');
    assert text[|t.key|] == '=';
    var i := Find(text, "=").value;
    FindIsFirst(text, "=", |t.key|) by {
      assert text[|t.key|..][0] == '=';
    }
    var rest := text[i + 1..];
    assert rest[|t.key| + |t.value| - i] == ':';
    CutAround(rest, ':');
  }

  lemma ReadIs(t: Taint)
    ensures ParseTaint(TaintText(t)) == Some(Read(t)) && TaintText(Read(t)) == TaintText(t) && Read(Read(t)) == Read(t)
  {
    hide ParseTaint, TaintText;
    PrintedParses(t);
    ParsedPrints(TaintText(t));
  }

  predicate AllLabels(desired: seq<Label>, labels: map<string, string>) {
    forall l :: l in desired ==> HasLabel(labels, l)
  }

  predicate OtherLabelsKept(cur: map<string, string>, after: map<string, string>, desired: seq<Label>) {
    forall k :: k in cur && (forall l :: l in desired ==> l.key != k) ==> k in after && after[k] == cur[k]
  }

  // Setting the missing labels makes every desired label hold and leaves the other keys alone.
  lemma {:induction false} LabelsSet(desired: seq<Label>, actual: map<string, string>, cur: map<string, string>)
    requires forall l :: l in desired ==> '=' !in l.key
    requires forall i, j :: 0 <= i < j < |desired| ==> desired[i].key != desired[j].key
    requires forall l :: l in desired && HasLabel(actual, l) ==> HasLabel(cur, l)
    ensures var after := SetLabels(cur, LabelAssignments(desired, actual));
            AllLabels(desired, after) && OtherLabelsKept(cur, after, desired)
  {
    if desired == [] {
      assert LabelAssignments(desired, actual) == [];
    } else {
      var h, rest := desired[0], desired[1..];
      assert forall l :: l in rest ==> l in desired && l.key != h.key;
      hide LabelText, SetLabels, AllLabels, OtherLabelsKept;
      var missing := LabelAssignments(rest, actual);
      var next := if HasLabel(actual, h) then cur else cur[h.key := h.value];
      if HasLabel(actual, h) {
        assert LabelAssignments(desired, actual) == missing;
      } else {
        assert LabelAssignments(desired, actual) == [LabelText(h)] + missing;
        SetOneLabel(cur, h, missing);
      }
      LabelsSet(rest, actual, next);
      OneMoreLabel(desired, cur, next, SetLabels(next, missing));
    }
  }

  lemma OneMoreLabel(
    desired: seq<Label>, cur: map<string, string>, next: map<string, string>, after: map<string, string>)
    requires desired != [] && forall l :: l in desired[1..] ==> l.key != desired[0].key
    requires HasLabel(next, desired[0]) && (next == cur || next == cur[desired[0].key := desired[0].value])
    requires AllLabels(desired[1..], after) && OtherLabelsKept(next, after, desired[1..])
    ensures AllLabels(desired, after) && OtherLabelsKept(cur, after, desired)
  {
    assert desired == [desired[0]] + desired[1..];
  }

  lemma SetOneLabel(cur: map<string, string>, l: Label, rest: seq<string>)
    requires '=' !in l.key
    ensures SetLabels(cur, [LabelText(l)] + rest) == SetLabels(cur[l.key := l.value], rest)
  {
    LabelTextParses(l);
    hide ParseLabel, LabelText;
    assert ([LabelText(l)] + rest)[1..] == rest;
  }

  lemma {:induction false} WithoutTaintKeeps(taints: seq<Taint>, key: string, effect: string)
    ensures forall t :: t in WithoutTaint(taints, key, effect) <==> t in taints && !(t.key == key && t.effect == effect)
  {
    if taints != [] {
      WithoutTaintKeeps(taints[1..], key, effect);
    }
  }

  lemma SlotTaken(cur: seq<Taint>, h: Taint)
    ensures var next := WithoutTaint(cur, h.key, h.effect) + [h];
            h in next && forall t :: t in cur && !SameSlot(t, h) ==> t in next
  {
    WithoutTaintKeeps(cur, h.key, h.effect);
  }

  lemma {:induction false} TaintsSet(desired: seq<Taint>, actual: seq<Taint>, cur: seq<Taint>)
    requires TaintsAgree(desired)
    requires forall t :: t in desired && HasTaint(actual, t) ==> Read(t) in cur
    ensures var after := SetTaints(cur, TaintAssignments(desired, actual));
            && (forall t :: t in desired ==> Read(t) in after)
            && (forall t :: t in cur && (forall d :: d in desired ==> !SameSlot(t, Read(d))) ==> t in after)
  {
    if desired != [] {
      var h, rest := desired[0], desired[1..];
      assert forall d :: d in desired <==> d == h || d in rest;
      ReadIs(h);
      hide ParseTaint, TaintText, Read, HasTaint;
      var missing := TaintAssignments(rest, actual);
      if HasTaint(actual, h) {
        assert TaintAssignments(desired, actual) == missing;
        TaintsSet(rest, actual, cur);
      } else {
        assert TaintAssignments(desired, actual) == [TaintText(h)] + missing;
        assert ([TaintText(h)] + missing)[1..] == missing;
        SlotTaken(cur, Read(h));
        TaintsSet(rest, actual, WithoutTaint(cur, Read(h).key, Read(h).effect) + [Read(h)]);
      }
    }
  }

  // Among taints that read back, the printed comparison is about what kubectl reads.
  lemma TaintKnown(t: Taint, taints: seq<Taint>)
    requires TaintsReadBack(taints)
    ensures HasTaint(taints, t) <==> Read(t) in taints
  {
    ReadIs(t);
    hide ParseTaint, TaintText;
  }

  // ---- Reconciling nodes ----

  // Outside the node called `name`, nothing about nodes and manifests changed; nothing was stopped.
  ghost predicate OnlyNode(s: ClusterState, s': ClusterState, name: string) {
    && (KubectlWorks(s) ==> KubectlWorks(s'))
    && s'.appliedManifests == s.appliedManifests
    && (forall n: string :: n != name ==> NodeStateOf(s', n) == NodeStateOf(s, n))
    && (NodeStateOf(s, name).domainRunning ==> NodeStateOf(s', name).domainRunning)
    && (NodeStateOf(s, name).k3sReady ==> NodeStateOf(s', name).k3sReady)
  }

  lemma NodeChanges(s: ClusterState, name: string, node: NodeState)
    requires (NodeStateOf(s, name).domainRunning ==> node.domainRunning)
    requires (NodeStateOf(s, name).k3sReady ==> node.k3sReady)
    ensures var s' := UpdateNode(s, name, node); OnlyNode(s, s', name) && NodeStateOf(s', name) == node
  {
  }

  lemma LabelsStep(node: Node, actual: ClusterState, s: ClusterState)
    requires LabelsKeyed(node) && NodeAgrees(node)
    requires NodeStateOf(s, node.name).labels == NodeStateOf(actual, node.name).labels
    ensures var s' := StepEffect(NodeSteps(node, actual)[1], s);
            && OnlyNode(s, s', node.name)
            && NodeStateOf(s', node.name).taints == NodeStateOf(s, node.name).taints
            && NodeStateOf(s', node.name).kubernetesReady == NodeStateOf(s, node.name).kubernetesReady
            && forall l :: l in node.labels ==> HasLabel(NodeStateOf(s', node.name).labels, l)
  {
    var labels := NodeStateOf(actual, node.name).labels;
    var changes := LabelAssignments(node.labels, labels);
    LabelsSet(node.labels, labels, labels);
    assert SetLabels(labels, []) == labels;
    assert NodeSteps(node, actual)[1]
      == Decide(NodeLabels(node.name), changes == [], ReconcileNodeLabels(node.name, changes));
    hide SetLabels, LabelAssignments, HasLabel, NodeSteps, LabelsKeyed, NodeAgrees;
    Decided(NodeLabels(node.name), changes == [], ReconcileNodeLabels(node.name, changes), s);
    hide StepEffect, Decide;
    NodeChanges(s, node.name, NodeStateOf(s, node.name).(labels := SetLabels(labels, changes)));
    hide OnlyNode, UpdateNode;
    OnlyItself(s, node.name);
  }

  lemma OnlyItself(s: ClusterState, name: string)
    ensures OnlyNode(s, s, name)
  {
  }

  lemma TaintsStep(node: Node, actual: ClusterState, s: ClusterState)
    requires LabelsKeyed(node) && NodeAgrees(node) && TaintsReadBack(NodeStateOf(actual, node.name).taints)
    requires NodeStateOf(s, node.name).taints == NodeStateOf(actual, node.name).taints
    ensures var s' := StepEffect(NodeSteps(node, actual)[2], s);
            && OnlyNode(s, s', node.name)
            && NodeStateOf(s', node.name).labels == NodeStateOf(s, node.name).labels
            && NodeStateOf(s', node.name).kubernetesReady == NodeStateOf(s, node.name).kubernetesReady
            && forall t :: t in node.taints ==> HasTaint(NodeStateOf(s', node.name).taints, t)
  {
    var taints := NodeStateOf(actual, node.name).taints;
    var changes := TaintAssignments(node.taints, taints);
    TaintsAllSet(node, taints);
    assert SetTaints(taints, []) == taints;
    assert NodeSteps(node, actual)[2]
      == Decide(NodeTaints(node.name), changes == [], ReconcileNodeTaints(node.name, changes));
    hide SetTaints, TaintAssignments, HasTaint, NodeSteps, LabelsKeyed, NodeAgrees, TaintsReadBack;
    Decided(NodeTaints(node.name), changes == [], ReconcileNodeTaints(node.name, changes), s);
    hide StepEffect, Decide;
    NodeChanges(s, node.name, NodeStateOf(s, node.name).(taints := SetTaints(taints, changes)));
    hide OnlyNode, UpdateNode;
    OnlyItself(s, node.name);
  }

  lemma TaintsAllSet(node: Node, taints: seq<Taint>)
    requires NodeAgrees(node) && TaintsReadBack(taints)
    ensures forall t :: t in node.taints ==> HasTaint(SetTaints(taints, TaintAssignments(node.taints, taints)), t)
  {
    hide SetTaints, TaintAssignments, TaintText, Read, HasTaint, ParseTaint;
    forall t | t in node.taints
      ensures HasTaint(taints, t) <==> Read(t) in taints
    {
      TaintKnown(t, taints);
    }
    TaintsSet(node.taints, taints, taints);
    forall t | t in node.taints
      ensures HasTaint(SetTaints(taints, TaintAssignments(node.taints, taints)), t)
    {
      ReadHolds(SetTaints(taints, TaintAssignments(node.taints, taints)), t);
    }
  }

  lemma ReadHolds(taints: seq<Taint>, t: Taint)
    ensures Read(t) in taints ==> HasTaint(taints, t)
  {
    ReadIs(t);
    hide ParseTaint, TaintText;
  }

  lemma NodeRuns(node: Node, first: Node, actual: ClusterState, s: ClusterState, nodes: seq<Node>)
    requires KubectlWorks(s)
    requires NodeRisen(NodeStateOf(actual, node.name), NodeStateOf(s, node.name))
    requires LabelsKeyed(node) && NodeAgrees(node) && TaintsReadBack(NodeStateOf(actual, node.name).taints)
    ensures var s' := RunSteps(NodeSteps(node, actual), s); OnlyNode(s, s', node.name) && Reconciled(node, s')
  {
    var steps := NodeSteps(node, actual);
    var a, b, c := steps[0], steps[1], steps[2];
    assert steps == [a, b, c];
    RunThree(a, b, c, s, first, nodes);
    var s1 := StepEffect(a, s);
    assert OnlyNode(s, s1, node.name) && NodeStateOf(s1, node.name).kubernetesReady;
    LabelsStep(node, actual, s1);
    var s2 := StepEffect(b, s1);
    TaintsStep(node, actual, s2);
    hide *;
  }

  ghost predicate OnlyNodes(s: ClusterState, s': ClusterState, todo: seq<Node>) {
    && (KubectlWorks(s) ==> KubectlWorks(s'))
    && s'.appliedManifests == s.appliedManifests
    && (forall n: string :: (forall x :: x in todo ==> x.name != n) ==> NodeStateOf(s', n) == NodeStateOf(s, n))
    && (forall n: Node :: Joined(n, s) ==> Joined(n, s'))
  }

  // What the configuration and kubectl provide: labels are maps, and the taints observed read back.
  predicate Keyed(nodes: seq<Node>, actual: ClusterState) {
    forall n :: n in nodes ==> LabelsKeyed(n) && TaintsReadBack(NodeStateOf(actual, n.name).taints)
  }

  predicate DistinctNames(nodes: seq<Node>) {
    forall i, j :: 0 <= i < j < |nodes| ==> nodes[i].name != nodes[j].name
  }

  lemma {:induction false} NodesRun(
    todo: seq<Node>, first: Node, actual: ClusterState, s: ClusterState, nodes: seq<Node>)
    requires KubectlWorks(s) && DistinctNames(todo)
    requires forall n :: n in todo ==> NodeRisen(NodeStateOf(actual, n.name), NodeStateOf(s, n.name))
    requires NodesAgree(todo) && Keyed(todo, actual)
    ensures var s' := RunSteps(AllNodeSteps(todo, actual), s);
            OnlyNodes(s, s', todo) && forall n :: n in todo ==> Reconciled(n, s')
  {
    if todo != [] {
      AgreeingRest(todo, actual);
      hide *;
      var head, rest := NodeSteps(todo[0], actual), AllNodeSteps(todo[1..], actual);
      assert AllNodeSteps(todo, actual) == head + rest;
      RunAppend(head, rest, s, first, nodes);
      NodeRuns(todo[0], first, actual, s, nodes);
      var s1 := RunSteps(head, s);
      assert forall n :: n in todo[1..] ==> n.name != todo[0].name;
      NodesRun(todo[1..], first, actual, s1, nodes);
      NodesCombine(todo, s, s1, RunSteps(rest, s1));
    }
  }

  lemma AgreeingRest(todo: seq<Node>, actual: ClusterState)
    requires todo != [] && NodesAgree(todo) && Keyed(todo, actual) && DistinctNames(todo)
    ensures NodesAgree(todo[1..]) && Keyed(todo[1..], actual) && DistinctNames(todo[1..])
    ensures NodeAgrees(todo[0]) && LabelsKeyed(todo[0]) && TaintsReadBack(NodeStateOf(actual, todo[0].name).taints)
    ensures todo[0] in todo && forall n :: n in todo[1..] ==> n in todo && n.name != todo[0].name
  {
    hide NodeAgrees, LabelsKeyed, TaintsReadBack, NodeStateOf;
  }

  // One node's steps, then those of the nodes behind it.
  lemma NodesCombine(todo: seq<Node>, s: ClusterState, s1: ClusterState, s2: ClusterState)
    requires todo != [] && DistinctNames(todo) && KubectlWorks(s)
    requires OnlyNode(s, s1, todo[0].name) && OnlyNodes(s1, s2, todo[1..])
    requires Reconciled(todo[0], s1) && forall n :: n in todo[1..] ==> Reconciled(n, s2)
    ensures OnlyNodes(s, s2, todo) && forall n :: n in todo ==> Reconciled(n, s2)
  {
    hide Reconciled, KubectlWorks;
    assert forall n :: n in todo[1..] ==> n.name != todo[0].name;
    assert NodeStateOf(s2, todo[0].name) == NodeStateOf(s1, todo[0].name);
    ReconciledReadsNode(todo[0], s1, s2);
    assert forall n :: n in todo <==> n == todo[0] || n in todo[1..];
    JoinedKept(s, s1, todo[0].name);
  }

  lemma ReconciledReadsNode(node: Node, s: ClusterState, s': ClusterState)
    requires NodeStateOf(s', node.name) == NodeStateOf(s, node.name) && Reconciled(node, s)
    ensures Reconciled(node, s')
  {
  }

  lemma JoinedKept(s: ClusterState, s': ClusterState, name: string)
    requires OnlyNode(s, s', name)
    ensures forall n: Node :: Joined(n, s) ==> Joined(n, s')
  {
  }

  // ---- Manifests ----

  predicate AllUp(nodes: seq<Node>, s: ClusterState) {
    forall n :: n in nodes ==> Joined(n, s) && Reconciled(n, s)
  }

  // Manifests of one name are one manifest.
  predicate ManifestsAgree(manifests: seq<Manifest>) {
    forall m, x :: m in manifests && x in manifests && m.name == x.name ==> m.desiredHash == x.desiredHash
  }

  lemma {:induction false} ManifestsRun(
    todo: seq<Manifest>, first: Node, actual: ClusterState, s: ClusterState, nodes: seq<Node>)
    requires KubectlWorks(s) && AllUp(nodes, s)
    requires ManifestsAgree(todo)
    requires forall m :: m in todo && ManifestApplied(actual, m) ==> ManifestApplied(s, m)
    ensures var s' := RunSteps(ManifestSteps(todo, actual), s);
            && KubectlWorks(s') && s'.nodes == s.nodes
            && (forall m :: m in todo ==> ManifestApplied(s', m))
            && (forall m :: ManifestApplied(s, m) && (forall x :: x in todo ==> x.name != m.name) ==>
                ManifestApplied(s', m))
  {
    if todo != [] {
      var head, rest := [ManifestStep(todo[0], actual)], ManifestSteps(todo[1..], actual);
      RunAppend(head, rest, s, first, nodes);
      RunOne(head[0], s, first, nodes);
      var s1 := RunSteps(head, s);
      assert s1.nodes == s.nodes;
      UpReadsNodes(nodes, s, s1);
      ManifestsRun(todo[1..], first, actual, s1, nodes);
      assert forall m :: m in todo <==> m == todo[0] || m in todo[1..];
    }
  }

  lemma UpReadsNodes(nodes: seq<Node>, s: ClusterState, s': ClusterState)
    requires s'.nodes == s.nodes && AllUp(nodes, s)
    ensures AllUp(nodes, s')
  {
    forall n | n in nodes ensures Joined(n, s') && Reconciled(n, s') {
      assert Joined(n, s) && Reconciled(n, s);
    }
  }

  // ---- The whole plan ----

  // The plan's steps ahead of the manifests.
  function FrontSteps(nodes: seq<Node>, first: Node, actual: ClusterState): seq<Step> {
    Bootstrap(Some(first), actual) + JoinSteps(nodes, Some(first), actual) + AllNodeSteps(nodes, actual)
  }

  lemma NodesUp(nodes: seq<Node>, actual: ClusterState)
    requires FirstServer(nodes).Some? && DistinctNames(nodes)
    requires NodesAgree(nodes) && Keyed(nodes, actual)
    ensures var s := RunSteps(FrontSteps(nodes, FirstServer(nodes).value, actual), actual);
            KubectlWorks(s) && AllUp(nodes, s) && s.appliedManifests == actual.appliedManifests
  {
    var first := FirstServer(nodes).value;
    FirstIsServer(nodes);
    var a, b := Bootstrap(Some(first), actual), JoinSteps(nodes, Some(first), actual);
    var c := AllNodeSteps(nodes, actual);
    assert FrontSteps(nodes, first, actual) == a + b + c;
    hide *;
    RunAppend(a + b, c, actual, first, nodes);
    RunAppend(a, b, actual, first, nodes);
    BootstrapRuns(first, actual, nodes);
    var s1 := RunSteps(a, actual);
    JoinsRun(nodes, first, actual, s1, nodes);
    var s2 := RunSteps(b, s1);
    RisenTransitive(actual, s1, s2);
    RisenKeepsManifests(actual, s2);
    RisenNodes(actual, s2, nodes);
    NodesRun(nodes, first, actual, s2, nodes);
    UpFromNodes(nodes, s2, RunSteps(c, s2));
  }

  lemma RisenKeepsManifests(actual: ClusterState, s: ClusterState)
    requires Risen(actual, s)
    ensures s.appliedManifests == actual.appliedManifests
  {
  }

  lemma RisenNodes(actual: ClusterState, s: ClusterState, nodes: seq<Node>)
    requires Risen(actual, s)
    ensures forall n :: n in nodes ==> NodeRisen(NodeStateOf(actual, n.name), NodeStateOf(s, n.name))
  {
    hide NodeRisen, NodeStateOf;
  }

  lemma UpFromNodes(nodes: seq<Node>, s: ClusterState, s': ClusterState)
    requires OnlyNodes(s, s', nodes) && KubectlWorks(s)
    requires forall n :: n in nodes ==> Joined(n, s) && Reconciled(n, s')
    ensures KubectlWorks(s') && AllUp(nodes, s') && s'.appliedManifests == s.appliedManifests
  {
    hide KubectlWorks, Joined, Reconciled;
  }

  lemma PlanRuns(nodes: seq<Node>, actual: ClusterState, manifests: seq<Manifest>)
    requires FirstServer(nodes).Some? && DistinctNames(nodes) && NodesAgree(nodes) && Keyed(nodes, actual)
    requires ManifestsAgree(manifests)
    ensures var s := RunSteps(Plan(nodes, actual, manifests), actual);
            KubectlWorks(s) && AllUp(nodes, s) && forall m :: m in manifests ==> ManifestApplied(s, m)
  {
    var first := FirstServer(nodes).value;
    var front, d := FrontSteps(nodes, first, actual), ManifestSteps(manifests, actual);
    assert Plan(nodes, actual, manifests) == front + d;
    NodesUp(nodes, actual);
    hide *;
    RunAppend(front, d, actual, first, nodes);
    var s := RunSteps(front, actual);
    ManifestsReadMap(manifests, actual, s);
    ManifestsRun(manifests, first, actual, s, nodes);
    UpReadsNodes(nodes, s, RunSteps(d, s));
  }

  lemma ManifestsReadMap(manifests: seq<Manifest>, actual: ClusterState, s: ClusterState)
    requires s.appliedManifests == actual.appliedManifests
    ensures forall m :: m in manifests && ManifestApplied(actual, m) ==> ManifestApplied(s, m)
  {
  }

  // ---- The order, for every node list ----

  // Nothing that was up goes down.
  ghost predicate StaysUp(a: ClusterState, b: ClusterState) {
    && (KubectlWorks(a) ==> KubectlWorks(b))
    && forall n: string :: FlagsStay(NodeStateOf(a, n), NodeStateOf(b, n))
  }

  predicate FlagsStay(a: NodeState, b: NodeState) {
    (a.domainRunning ==> b.domainRunning) && (a.k3sReady ==> b.k3sReady) && (a.kubernetesReady ==> b.kubernetesReady)
  }

  lemma StaysUpTransitive(a: ClusterState, b: ClusterState, c: ClusterState)
    requires StaysUp(a, b) && StaysUp(b, c)
    ensures StaysUp(a, c)
  {
    forall n: string
      ensures FlagsStay(NodeStateOf(a, n), NodeStateOf(c, n))
    {
      assert FlagsStay(NodeStateOf(a, n), NodeStateOf(b, n)) && FlagsStay(NodeStateOf(b, n), NodeStateOf(c, n));
    }
  }

  lemma UpdateStaysUp(s: ClusterState, name: string, node: NodeState)
    requires FlagsStay(NodeStateOf(s, name), node)
    ensures StaysUp(s, UpdateNode(s, name, node))
  {
  }

  lemma StepStaysUp(step: Step, s: ClusterState)
    ensures StaysUp(s, StepEffect(step, s))
  {
    StaysUpReflexive(s);
    if step.decision.Apply? {
      match step.decision.operation {
        case ReconcileNodeLabels(n, assignments) =>
          var node := NodeStateOf(s, n);
          UpdateStaysUp(s, n, node.(labels := SetLabels(node.labels, assignments)));
        case ReconcileNodeTaints(n, assignments) =>
          var node := NodeStateOf(s, n);
          UpdateStaysUp(s, n, node.(taints := SetTaints(node.taints, assignments)));
        case StartFirstServer(n) => UpdateStaysUp(s, n, NodeStateOf(s, n).(domainRunning := true));
        case StartJoinNode(n, _) => UpdateStaysUp(s, n, NodeStateOf(s, n).(domainRunning := true));
        case WaitForFirstServer(n) => UpdateStaysUp(s, n, NodeStateOf(s, n).(k3sReady := true));
        case WaitForNodeReady(n) => UpdateStaysUp(s, n, NodeStateOf(s, n).(kubernetesReady := true));
        case _ => hide SetLabels, SetTaints, UpdateNode;
      }
      hide SetLabels, SetTaints, UpdateNode, StaysUp;
    }
  }

  lemma {:induction false} RunStaysUp(steps: seq<Step>, s: ClusterState)
    ensures StaysUp(s, RunSteps(steps, s))
  {
    hide StepEffect, StaysUp;
    if steps == [] {
      StaysUpReflexive(s);
    } else {
      StepStaysUp(steps[0], s);
      RunStaysUp(steps[1..], StepEffect(steps[0], s));
      StaysUpTransitive(s, StepEffect(steps[0], s), RunSteps(steps, s));
    }
  }

  lemma StaysUpReflexive(s: ClusterState)
    ensures StaysUp(s, s)
  {
  }

  // Each node waits for its own readiness, even if its name comes twice.
  lemma NodeOrdered(node: Node, first: Node, actual: ClusterState, s: ClusterState, nodes: seq<Node>)
    requires KubectlWorks(s) && (Ready(node.name, actual) ==> Ready(node.name, s))
    ensures Ordered(NodeSteps(node, actual), s, first, nodes) && Ready(node.name, RunSteps(NodeSteps(node, actual), s))
  {
    var steps := NodeSteps(node, actual);
    var a, b, c := steps[0], steps[1], steps[2];
    assert steps == [a, b, c];
    RunThree(a, b, c, s, first, nodes);
    var s1 := StepEffect(a, s);
    assert Ready(node.name, s1) && KubectlWorks(s1);
    hide NodeSteps, StepEffect, RunSteps, Ordered;
    StepStaysUp(b, s1);
    assert FlagsStay(NodeStateOf(s1, node.name), NodeStateOf(StepEffect(b, s1), node.name));
    StepStaysUp(c, StepEffect(b, s1));
    assert FlagsStay(NodeStateOf(StepEffect(b, s1), node.name), NodeStateOf(RunSteps(steps, s), node.name));
    NodeOperations(node, actual);
  }

  lemma NodeOperations(node: Node, actual: ClusterState)
    ensures NodeSteps(node, actual)[0].decision.Apply? ==>
      NodeSteps(node, actual)[0].decision.operation == WaitForNodeReady(node.name)
    ensures NodeSteps(node, actual)[1].decision.Apply? ==>
      NodeSteps(node, actual)[1].decision.operation.ReconcileNodeLabels?
        && NodeSteps(node, actual)[1].decision.operation.node == node.name
    ensures NodeSteps(node, actual)[2].decision.Apply? ==>
      NodeSteps(node, actual)[2].decision.operation.ReconcileNodeTaints?
        && NodeSteps(node, actual)[2].decision.operation.node == node.name
  {
    hide LabelAssignments, TaintAssignments;
  }

  lemma {:induction false} NodesOrdered(
    todo: seq<Node>, first: Node, actual: ClusterState, s: ClusterState, nodes: seq<Node>)
    requires KubectlWorks(s) && StaysUp(actual, s)
    ensures Ordered(AllNodeSteps(todo, actual), s, first, nodes)
    ensures forall n :: n in todo ==> Ready(n.name, RunSteps(AllNodeSteps(todo, actual), s))
  {
    if todo != [] {
      var head, rest := NodeSteps(todo[0], actual), AllNodeSteps(todo[1..], actual);
      assert FlagsStay(NodeStateOf(actual, todo[0].name), NodeStateOf(s, todo[0].name));
      hide NodeSteps, RunSteps, Ordered, StaysUp, KubectlWorks;
      RunAppend(head, rest, s, first, nodes);
      NodeOrdered(todo[0], first, actual, s, nodes);
      var s1 := RunSteps(head, s);
      StillWorks(head, s);
      StaysUpTransitive(actual, s, s1);
      NodesOrdered(todo[1..], first, actual, s1, nodes);
      StillReady(rest, s1, todo[0].name);
    }
  }

  lemma StillWorks(steps: seq<Step>, s: ClusterState)
    ensures StaysUp(s, RunSteps(steps, s)) && (KubectlWorks(s) ==> KubectlWorks(RunSteps(steps, s)))
  {
    hide RunSteps;
    RunStaysUp(steps, s);
  }

  lemma StillReady(steps: seq<Step>, s: ClusterState, n: string)
    ensures Ready(n, s) ==> Ready(n, RunSteps(steps, s))
    ensures forall node: Node :: node.name == n && Joined(node, s) ==> Joined(node, RunSteps(steps, s))
  {
    hide RunSteps;
    RunStaysUp(steps, s);
    assert FlagsStay(NodeStateOf(s, n), NodeStateOf(RunSteps(steps, s), n));
  }

  lemma {:induction false} ManifestsOrdered(
    todo: seq<Manifest>, first: Node, actual: ClusterState, s: ClusterState, nodes: seq<Node>)
    requires KubectlWorks(s) && forall n :: n in nodes ==> Joined(n, s) && Ready(n.name, s)
    ensures Ordered(ManifestSteps(todo, actual), s, first, nodes)
  {
    if todo != [] {
      var s1 := StepEffect(ManifestStep(todo[0], actual), s);
      assert s1.nodes == s.nodes;
      ManifestsOrdered(todo[1..], first, actual, s1, nodes);
    }
  }

  lemma RisenStaysUp(a: ClusterState, b: ClusterState)
    requires Risen(a, b)
    ensures StaysUp(a, b)
  {
    forall n: string
      ensures FlagsStay(NodeStateOf(a, n), NodeStateOf(b, n))
    {
      assert NodeRisen(NodeStateOf(a, n), NodeStateOf(b, n));
    }
  }

  /** Ordering: when a plan runs in the state it was made for, a join node starts only behind a first server that is
      up, kubectl runs only with token, kubeconfig and a ready API, a node is Ready before its labels and taints are
      touched, and manifests are applied only when every node is up and Ready. */
  lemma PlanIsOrdered(nodes: seq<Node>, actual: ClusterState, manifests: seq<Manifest>)
    requires FirstServer(nodes).Some?
    ensures Ordered(Plan(nodes, actual, manifests), actual, FirstServer(nodes).value, nodes)
  {
    var first := FirstServer(nodes).value;
    var a, b := Bootstrap(Some(first), actual), JoinSteps(nodes, Some(first), actual);
    var c, d := AllNodeSteps(nodes, actual), ManifestSteps(manifests, actual);
    assert Plan(nodes, actual, manifests) == a + b + c + d;
    hide *;
    RunAppend(a + b + c, d, actual, first, nodes);
    RunAppend(a + b, c, actual, first, nodes);
    RunAppend(a, b, actual, first, nodes);
    BootstrapRuns(first, actual, nodes);
    var s1 := RunSteps(a, actual);
    JoinsRun(nodes, first, actual, s1, nodes);
    var s2 := RunSteps(b, s1);
    RisenTransitive(actual, s1, s2);
    RisenStaysUp(actual, s2);
    NodesOrdered(nodes, first, actual, s2, nodes);
    StillWorks(c, s2);
    forall n | n in nodes
      ensures Joined(n, RunSteps(c, s2))
    {
      StillReady(c, s2, n.name);
    }
    ManifestsOrdered(manifests, first, actual, RunSteps(c, s2), nodes);
  }

  // Whenever a manifest is applied, every node has its labels and taints.
  predicate ManifestsLast(steps: seq<Step>, s: ClusterState, nodes: seq<Node>) {
    steps == []
    || ((steps[0].decision.Apply? && steps[0].decision.operation.ApplyManifest? ==>
         forall n :: n in nodes ==> Reconciled(n, s))
        && ManifestsLast(steps[1..], StepEffect(steps[0], s), nodes))
  }

  predicate AppliesNone(steps: seq<Step>) {
    forall i :: 0 <= i < |steps| && steps[i].decision.Apply? ==> !steps[i].decision.operation.ApplyManifest?
  }

  lemma {:induction false} LastAppend(a: seq<Step>, b: seq<Step>, s: ClusterState, nodes: seq<Node>)
    requires AppliesNone(a) && ManifestsLast(b, RunSteps(a, s), nodes)
    ensures ManifestsLast(a + b, s, nodes)
  {
    hide StepEffect, Reconciled;
    if a == [] {
      assert a + b == b;
    } else {
      assert (a + b)[1..] == a[1..] + b;
      LastAppend(a[1..], b, StepEffect(a[0], s), nodes);
    }
  }

  lemma {:induction false} JoinsApplyNone(nodes: seq<Node>, first: Option<Node>, actual: ClusterState)
    ensures AppliesNone(JoinSteps(nodes, first, actual))
  {
    if nodes != [] {
      JoinsApplyNone(nodes[1..], first, actual);
    }
  }

  lemma {:induction false} NodesApplyNone(nodes: seq<Node>, actual: ClusterState)
    ensures AppliesNone(AllNodeSteps(nodes, actual))
  {
    hide LabelAssignments, TaintAssignments;
    if nodes != [] {
      NodesApplyNone(nodes[1..], actual);
    }
  }

  lemma {:induction false} ManifestsAfterNodes(
    todo: seq<Manifest>, actual: ClusterState, s: ClusterState, nodes: seq<Node>)
    requires AllUp(nodes, s)
    ensures ManifestsLast(ManifestSteps(todo, actual), s, nodes)
  {
    if todo != [] {
      var s1 := StepEffect(ManifestStep(todo[0], actual), s);
      assert s1.nodes == s.nodes;
      UpReadsNodes(nodes, s, s1);
      assert forall n :: n in nodes ==> Reconciled(n, s);
      hide Reconciled, AllUp;
      ManifestsAfterNodes(todo[1..], actual, s1, nodes);
    }
  }

  // ---- What kubectl can have set ----

  predicate CanonicalNode(state: NodeState) {
    && (forall k :: k in state.labels ==> '=' !in k)
    && TaintsReadBack(state.taints)
    && OneEach(state.taints)
  }

  predicate OneEach(taints: seq<Taint>) {
    forall a, b :: a in taints && b in taints && SameSlot(a, b) ==> a == b
  }

  /** Label keys without '=', and taints that read back, one for a key and effect: all that kubectl can leave. */
  predicate Canonical(s: ClusterState) {
    forall n :: n in s.nodes ==> CanonicalNode(s.nodes[n])
  }

  lemma {:induction false} LabelsCanonical(labels: map<string, string>, assignments: seq<string>)
    requires forall k :: k in labels ==> '=' !in k
    ensures forall k :: k in SetLabels(labels, assignments) ==> '=' !in k
    decreases |assignments|
  {
    if assignments != [] {
      CutAround(assignments[0], '=');
      hide Find;
      match ParseLabel(assignments[0])
      case None => LabelsCanonical(labels, assignments[1..]);
      case Some(l) => LabelsCanonical(labels[l.key := l.value], assignments[1..]);
    }
  }

  lemma {:induction false} TaintsCanonical(taints: seq<Taint>, assignments: seq<string>)
    requires TaintsReadBack(taints) && OneEach(taints)
    ensures TaintsReadBack(SetTaints(taints, assignments)) && OneEach(SetTaints(taints, assignments))
    decreases |assignments|
  {
    if assignments != [] {
      ParsedPrints(assignments[0]);
      match ParseTaint(assignments[0])
      case None => TaintsCanonical(taints, assignments[1..]);
      case Some(t) =>
        assert Read(t) == t;
        hide ParseTaint, TaintText, Read;
        WithoutTaintKeeps(taints, t.key, t.effect);
        TaintsCanonical(WithoutTaint(taints, t.key, t.effect) + [t], assignments[1..]);
    }
  }

  lemma UpdateCanonical(s: ClusterState, name: string, node: NodeState)
    requires Canonical(s) && CanonicalNode(node)
    ensures Canonical(UpdateNode(s, name, node))
  {
    hide CanonicalNode;
  }

  lemma StateCanonical(s: ClusterState, name: string)
    requires Canonical(s)
    ensures CanonicalNode(NodeStateOf(s, name))
  {
    hide Read;
  }

  lemma FlagsCanonical(a: NodeState, b: NodeState)
    requires CanonicalNode(a) && b.labels == a.labels && b.taints == a.taints
    ensures CanonicalNode(b)
  {
    hide Read;
  }

  lemma StepCanonical(step: Step, s: ClusterState)
    requires Canonical(s)
    ensures Canonical(StepEffect(step, s))
  {
    hide CanonicalNode, UpdateNode, NodeStateOf, SetLabels, SetTaints;
    if step.decision.Apply? {
      match step.decision.operation
      case StartFirstServer(n) =>
        StateCanonical(s, n);
        FlagsCanonical(NodeStateOf(s, n), NodeStateOf(s, n).(domainRunning := true));
        UpdateCanonical(s, n, NodeStateOf(s, n).(domainRunning := true));
      case WaitForFirstServer(n) =>
        StateCanonical(s, n);
        FlagsCanonical(NodeStateOf(s, n), NodeStateOf(s, n).(k3sReady := true));
        UpdateCanonical(s, n, NodeStateOf(s, n).(k3sReady := true));
      case StartJoinNode(n, _) =>
        StateCanonical(s, n);
        FlagsCanonical(NodeStateOf(s, n), NodeStateOf(s, n).(domainRunning := true));
        UpdateCanonical(s, n, NodeStateOf(s, n).(domainRunning := true));
      case WaitForNodeReady(n) =>
        StateCanonical(s, n);
        FlagsCanonical(NodeStateOf(s, n), NodeStateOf(s, n).(kubernetesReady := true));
        UpdateCanonical(s, n, NodeStateOf(s, n).(kubernetesReady := true));
      case ReconcileNodeLabels(n, assignments) =>
        StateCanonical(s, n);
        LabelledCanonical(NodeStateOf(s, n), assignments);
        UpdateCanonical(s, n, NodeStateOf(s, n).(labels := SetLabels(NodeStateOf(s, n).labels, assignments)));
      case ReconcileNodeTaints(n, assignments) =>
        StateCanonical(s, n);
        TaintedCanonical(NodeStateOf(s, n), assignments);
        UpdateCanonical(s, n, NodeStateOf(s, n).(taints := SetTaints(NodeStateOf(s, n).taints, assignments)));
      case _ =>
    }
  }

  lemma LabelledCanonical(state: NodeState, assignments: seq<string>)
    requires CanonicalNode(state)
    ensures CanonicalNode(state.(labels := SetLabels(state.labels, assignments)))
  {
    hide SetLabels, TaintsReadBack, OneEach;
    LabelsCanonical(state.labels, assignments);
  }

  lemma TaintedCanonical(state: NodeState, assignments: seq<string>)
    requires CanonicalNode(state)
    ensures CanonicalNode(state.(taints := SetTaints(state.taints, assignments)))
  {
    hide SetTaints, TaintsReadBack, OneEach;
    TaintsCanonical(state.taints, assignments);
  }

  lemma {:induction false} RunCanonical(steps: seq<Step>, s: ClusterState)
    requires Canonical(s)
    ensures Canonical(RunSteps(steps, s))
    decreases |steps|
  {
    hide Canonical, StepEffect;
    if steps != [] {
      StepCanonical(steps[0], s);
      RunCanonical(steps[1..], StepEffect(steps[0], s));
    }
  }

  // A node whose labels and taints are all there agrees with itself.
  lemma HeldAgrees(node: Node, state: NodeState)
    requires CanonicalNode(state)
    requires forall l :: l in node.labels ==> HasLabel(state.labels, l)
    requires forall t :: t in node.taints ==> HasTaint(state.taints, t)
    ensures NodeAgrees(node)
  {
    hide Read, HasTaint;
    forall t | t in node.taints
      ensures Read(t) in state.taints
    {
      TaintKnown(t, state.taints);
    }
  }

  lemma AllHeldAgree(nodes: seq<Node>, s: ClusterState)
    requires Canonical(s) && forall n :: n in nodes ==> Reconciled(n, s)
    ensures NodesAgree(nodes)
  {
    hide CanonicalNode, NodeAgrees, HasLabel, HasTaint, NodeStateOf;
    forall n | n in nodes
      ensures NodeAgrees(n)
    {
      StateCanonical(s, n.name);
      HeldAgrees(n, NodeStateOf(s, n.name));
    }
  }

  // ---- Manifests behind labels and taints ----

  lemma {:induction false} LastOfTail(a: seq<Step>, b: seq<Step>, s: ClusterState, nodes: seq<Node>)
    requires ManifestsLast(a + b, s, nodes)
    ensures ManifestsLast(b, RunSteps(a, s), nodes)
    decreases |a|
  {
    hide StepEffect, Reconciled;
    if a == [] {
      assert a + b == b;
    } else {
      assert (a + b)[1..] == a[1..] + b;
      LastOfTail(a[1..], b, StepEffect(a[0], s), nodes);
    }
  }

  lemma {:induction false} ReconciledAtManifest(
    todo: seq<Manifest>, actual: ClusterState, s: ClusterState, nodes: seq<Node>, m: Manifest)
    requires m in todo && !ManifestApplied(actual, m)
    requires ManifestsLast(ManifestSteps(todo, actual), s, nodes)
    ensures forall n :: n in nodes ==> Reconciled(n, s)
  {
    var step := ManifestStep(todo[0], actual);
    if todo[0] != m {
      var s1 := StepEffect(step, s);
      assert s1.nodes == s.nodes;
      assert ManifestSteps(todo, actual)[1..] == ManifestSteps(todo[1..], actual);
      hide Reconciled;
      ReconciledAtManifest(todo[1..], actual, s1, nodes, m);
      forall n | n in nodes
        ensures Reconciled(n, s)
      {
        ReconciledReadsNodes(n, s1, s);
      }
    }
  }

  lemma ReconciledReadsNodes(node: Node, s: ClusterState, s': ClusterState)
    requires s'.nodes == s.nodes && Reconciled(node, s)
    ensures Reconciled(node, s')
  {
  }

  /** With distinct names, manifests come behind all labels and taints exactly if every node's labels and taints agree
      with each other; where they do not, kubectl cannot hold them all, and manifests are applied without some. */
  lemma ReconciledBeforeManifests(nodes: seq<Node>, actual: ClusterState, manifests: seq<Manifest>)
    requires FirstServer(nodes).Some? && DistinctNames(nodes) && Keyed(nodes, actual)
    ensures NodesAgree(nodes) ==> ManifestsLast(Plan(nodes, actual, manifests), actual, nodes)
    ensures Canonical(actual) && (exists m :: m in manifests && !ManifestApplied(actual, m)) ==>
      (ManifestsLast(Plan(nodes, actual, manifests), actual, nodes) <==> NodesAgree(nodes))
  {
    var first := FirstServer(nodes).value;
    var front, d := FrontSteps(nodes, first, actual), ManifestSteps(manifests, actual);
    assert Plan(nodes, actual, manifests) == front + d;
    hide *;
    if NodesAgree(nodes) {
      FrontAppliesNone(nodes, first, actual);
      NodesUp(nodes, actual);
      ManifestsAfterNodes(manifests, actual, RunSteps(front, actual), nodes);
      LastAppend(front, d, actual, nodes);
    }
    if ManifestsLast(front + d, actual, nodes) && Canonical(actual) {
      if m :| m in manifests && !ManifestApplied(actual, m) {
        LastOfTail(front, d, actual, nodes);
        ReconciledAtManifest(manifests, actual, RunSteps(front, actual), nodes, m);
        RunCanonical(front, actual);
        AllHeldAgree(nodes, RunSteps(front, actual));
      }
    }
  }

  lemma FrontAppliesNone(nodes: seq<Node>, first: Node, actual: ClusterState)
    ensures AppliesNone(FrontSteps(nodes, first, actual))
  {
    var a, b, c := Bootstrap(Some(first), actual), JoinSteps(nodes, Some(first), actual), AllNodeSteps(nodes, actual);
    assert FrontSteps(nodes, first, actual) == a + b + c;
    assert AppliesNone(a);
    JoinsApplyNone(nodes, Some(first), actual);
    NodesApplyNone(nodes, actual);
    hide *;
    NoneApplied(a, b, c);
  }

  lemma NoneApplied(a: seq<Step>, b: seq<Step>, c: seq<Step>)
    requires AppliesNone(a) && AppliesNone(b) && AppliesNone(c)
    ensures AppliesNone(a + b + c)
  {
  }

  /** What a caller can check of the inputs: no node contradicts itself, and no two manifests contradict each other. */
  predicate Agree(nodes: seq<Node>, manifests: seq<Manifest>) {
    NodesAgree(nodes) && ManifestsAgree(manifests)
  }

  lemma InstalledAgrees(nodes: seq<Node>, s: ClusterState, manifests: seq<Manifest>)
    requires Canonical(s) && Installed(nodes, s, manifests)
    ensures Agree(nodes, manifests)
  {
    hide CanonicalNode, NodeAgrees, HasLabel, HasTaint;
    forall n | n in nodes
      ensures NodeAgrees(n)
    {
      HeldAgrees(n, s.nodes[n.name]);
    }
  }

  /** Convergence: once every operation of the plan has taken effect, the verifier accepts the state exactly if the
      inputs agree, and the new plan is current exactly when it does and every joining agent has a server URL. */
  lemma PlanConverges(nodes: seq<Node>, actual: ClusterState, manifests: seq<Manifest>)
    requires FirstServer(nodes).Some? && DistinctNames(nodes) && Keyed(nodes, actual)
    ensures var s := RunSteps(Plan(nodes, actual, manifests), actual);
            && (Agree(nodes, manifests) ==> Installed(nodes, s, manifests))
            && (Canonical(actual) ==> (Installed(nodes, s, manifests) <==> Agree(nodes, manifests)))
            && (IsCurrent(Plan(nodes, s, manifests)) <==> Installed(nodes, s, manifests) && AgentsHaveUrls(nodes))
  {
    hide Plan, FirstServer, RunSteps, Canonical, NodesAgree, ManifestsAgree, Installed, Keyed, DistinctNames;
    var s := RunSteps(Plan(nodes, actual, manifests), actual);
    if Agree(nodes, manifests) {
      PlanRuns(nodes, actual, manifests);
      InstalledByParts(nodes, s, manifests);
    }
    if Canonical(actual) && Installed(nodes, s, manifests) {
      RunCanonical(Plan(nodes, actual, manifests), actual);
      InstalledAgrees(nodes, s, manifests);
    }
    CurrentIffInstalled(nodes, s, manifests);
  }

  lemma PlainReadsBack(t: Taint)
    requires '=' !in t.key && ':' !in t.value
    ensures Read(t) == t
  {
    var rest := t.value + ":" + t.effect;
    var text := TaintText(t);
    assert rest == t.value + (":" + t.effect);
    FindChar(t.key, '=', rest);
    assert text == t.key + "=" + rest;
    assert text[..|t.key|] == t.key && text[|t.key| + 1..] == rest;
    FindChar(t.value, ':', t.effect);
    assert rest[..|t.value|] == t.value && rest[|t.value| + 1..] == t.effect;
  }

  /** A server with two taints of one key and effect: its cluster is never accepted, whatever is run. */
  lemma ClashingTaintsNeverInstalled(actual: ClusterState, manifests: seq<Manifest>)
    requires Canonical(actual)
    ensures var node := Node("n", Server, true, None, [], [Taint("k", "a", "e"), Taint("k", "b", "e")]);
            !Installed([node], RunSteps(Plan([node], actual, manifests), actual), manifests)
  {
    hide Plan, RunSteps, Installed, ParseTaint, TaintText, Read, Canonical, NodeStateOf, ManifestsAgree;
    var a, b := Taint("k", "a", "e"), Taint("k", "b", "e");
    var node := Node("n", Server, true, None, [], [a, b]);
    PlainReadsBack(a);
    PlainReadsBack(b);
    assert a in node.taints && b in node.taints && a.value[0] != b.value[0];
    assert !NodeAgrees(node);
    assert node in [node];
    assert FirstServer([node]) == Some(node);
    StateCanonical(actual, node.name);
    PlanConverges([node], actual, manifests);
  }
}
