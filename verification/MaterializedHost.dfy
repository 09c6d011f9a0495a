/** A materialized configuration is one the host planner's guarantees hold for. */
module MaterializedHost {
  import opened Decimals
  import opened DomainXml
  import opened HostCycle
  import opened HostExecutor
  import opened HostGoals
  import opened HostGuard
  import opened HostPlanned
  import opened HostPlanner
  import opened HostRollback
  import opened HostServices
  import opened HostUpkeep
  import opened MaterializeProofs
  import opened Paths
  import opened Text
  import opened Wrappers

  import M = Materialize
  import H = HostModel

  // ---- Names ----

  predicate IsSafe(s: string) {
    forall i :: 0 <= i < |s| ==> SafeChar(s[i]) == s[i] && s[i] != 'd' && s[i] != '/'
  }

  lemma SafeIsKept(s: string)
    requires IsSafe(s)
    ensures SafePathSegment(s) == s && '/' !in s && 'd' !in s
  {
  }

  lemma DigitsAreSafe(s: string)
    requires AllDigits(s)
    ensures IsSafe(s) && '-' !in s
  {
  }

  lemma NameIsSafe(role: M.Role, index: nat)
    ensures IsSafe(M.RolePrefix(role) + Decimal(index)) && '-' in M.RolePrefix(role) + Decimal(index)
    ensures IsSafe(M.DOMAIN_PREFIX + (M.RolePrefix(role) + Decimal(index)))
  {
    DigitsAreSafe(Decimal(index));
    var prefix := M.RolePrefix(role);
    assert prefix[|prefix| - 1] == '-';
    assert (prefix + Decimal(index))[|prefix| - 1] == '-';
  }

  // A role prefix, digits, a hyphen and more: the digits end at that hyphen.
  lemma DigitsEnd(a: string, x: string, b: string, y: string)
    requires '-' !in a && '-' !in b && a + (['-'] + x) == b + (['-'] + y)
    ensures a == b && x == y
  {
    var s := a + (['-'] + x);
    assert s[|a|] == '-' && (b + (['-'] + y))[|b|] == '-';
    assert forall k :: 0 <= k < |b| ==> s[k] == b[k];
    assert forall k :: 0 <= k < |a| ==> s[k] == a[k];
    assert a == s[..|a|] && b == s[..|b|];
    assert x == s[|a| + 1..] && y == s[|b| + 1..];
  }

  // Unit names are joined by hyphens, and can still be taken apart.
  lemma UnitNamesSplit(r: M.Role, i: nat, e: string, q: M.Role, j: nat, f: string)
    requires UnitName(M.DOMAIN_PREFIX + (M.RolePrefix(r) + Decimal(i)), e)
      == UnitName(M.DOMAIN_PREFIX + (M.RolePrefix(q) + Decimal(j)), f)
    ensures r == q && i == j && SafePathSegment(e) == SafePathSegment(f)
  {
    hide SafePathSegment;
    var d, g := M.DOMAIN_PREFIX + (M.RolePrefix(r) + Decimal(i)), M.DOMAIN_PREFIX + (M.RolePrefix(q) + Decimal(j));
    NameIsSafe(r, i);
    NameIsSafe(q, j);
    SafeIsKept(d);
    SafeIsKept(g);
    var x, y := SafePathSegment(e), SafePathSegment(f);
    UnitNameShape(d, r, i, e);
    UnitNameShape(g, q, j, f);
    AppendCancels(
      UNIT_PREFIX + M.DOMAIN_PREFIX, M.RolePrefix(r) + (Decimal(i) + (['-'] + (x + UNIT_SUFFIX))),
      M.RolePrefix(q) + (Decimal(j) + (['-'] + (y + UNIT_SUFFIX))));
    SameRole(r, Decimal(i) + (['-'] + (x + UNIT_SUFFIX)), q, Decimal(j) + (['-'] + (y + UNIT_SUFFIX)));
    AppendCancels(M.RolePrefix(r), Decimal(i) + (['-'] + (x + UNIT_SUFFIX)), Decimal(j) + (['-'] + (y + UNIT_SUFFIX)));
    DigitsAreSafe(Decimal(i));
    DigitsAreSafe(Decimal(j));
    DigitsEnd(Decimal(i), x + UNIT_SUFFIX, Decimal(j), y + UNIT_SUFFIX);
    DecimalInjective(i, j);
    Uncons(x, y, UNIT_SUFFIX);
  }

  lemma SameRole(r: M.Role, a: string, q: M.Role, b: string)
    requires M.RolePrefix(r) + a == M.RolePrefix(q) + b
    ensures r == q
  {
    assert (M.RolePrefix(r) + a)[0] == M.RolePrefix(r)[0];
    assert (M.RolePrefix(q) + b)[0] == M.RolePrefix(q)[0];
  }

  lemma UnitNameShape(d: string, r: M.Role, i: nat, e: string)
    requires d == M.DOMAIN_PREFIX + (M.RolePrefix(r) + Decimal(i)) && SafePathSegment(d) == d
    ensures UnitName(d, e)
         == (UNIT_PREFIX + M.DOMAIN_PREFIX)
           + (M.RolePrefix(r) + (Decimal(i) + (['-'] + (SafePathSegment(e) + UNIT_SUFFIX))))
  {
    hide SafePathSegment, Decimal;
    var x := SafePathSegment(e);
    assert "-" == ['-'];
    assert UnitName(d, e) == UNIT_PREFIX + d + ['-'] + x + UNIT_SUFFIX;
  }

  // ---- Paths of disks ----

  lemma {:induction false} SegmentsSplit(a: string, b: string, piece: string)
    ensures Segments(a + ['/'] + b, piece) == Segments(a, piece) + Segments(b, "")
  {
    if a == [] {
      assert a + ['/'] + b == ['/'] + b;
      assert (['/'] + b)[1..] == b;
    } else {
      assert (a + ['/'] + b)[1..] == a[1..] + ['/'] + b;
      if a[0] == '/' {
        SegmentsSplit(a[1..], b, "");
      } else {
        SegmentsSplit(a[1..], b, piece + [a[0]]);
      }
    }
  }

  // What the text before a slash becomes.
  function Front(base: string): Path {
    if base == "" then [RootDir] else Parse(base)
  }

  lemma ParseJoined(base: string, rest: string)
    ensures Parse(base + ['/'] + rest) == Front(base) + Segments(rest, "")
  {
    var text := base + ['/'] + rest;
    if base == "" {
      assert text[1..] == rest;
    } else {
      assert text[1..] == base[1..] + ['/'] + rest;
      SegmentsSplit(base[1..], rest, "");
      SegmentsSplit(base, rest, "");
      assert |base| >= 2 ==> text[..2] == base[..2];
    }
  }

  const IMAGE_NAME := "root.qcow2"
  const SEED_END := "-seed.img"

  lemma ThreeSegments(a: string, b: string, c: string)
    requires IsPlainName(a) && IsPlainName(b) && IsPlainName(c)
    ensures Segments(a + ['/'] + (b + ['/'] + c), "") == [Normal(a), Normal(b), Normal(c)]
  {
    hide Segments;
    SegmentsSplit(a, b + ['/'] + c, "");
    SegmentsSplit(b, c, "");
    SegmentsOfPlain(a, "");
    SegmentsOfPlain(b, "");
    SegmentsOfPlain(c, "");
    assert "" + a == a && "" + b == b && "" + c == c;
  }

  lemma ImageText(base: string, domain: string)
    ensures base + M.NODES_SEGMENT + domain + M.IMAGE_SEGMENT
      == base + ['/'] + (NODES + ['/'] + (domain + ['/'] + IMAGE_NAME))
  {
    assert M.NODES_SEGMENT == ['/'] + NODES + ['/'];
    assert M.IMAGE_SEGMENT == ['/'] + IMAGE_NAME;
    Regroup(base, NODES, domain, IMAGE_NAME);
  }

  lemma Regroup(a: string, b: string, c: string, d: string)
    ensures a + (['/'] + b + ['/']) + c + (['/'] + d) == a + ['/'] + (b + ['/'] + (c + ['/'] + d))
  {
  }

  lemma ImagePath(base: string, domain: string)
    requires IsPlainName(domain)
    ensures Parse(base + M.NODES_SEGMENT + domain + M.IMAGE_SEGMENT)
         == Front(base) + [Normal(NODES), Normal(domain), Normal(IMAGE_NAME)]
  {
    hide Parse, Segments;
    ImageText(base, domain);
    ParseJoined(base, NODES + ['/'] + (domain + ['/'] + IMAGE_NAME));
    ThreeSegments(NODES, domain, IMAGE_NAME);
  }

  lemma SeedPath(front: Path, domain: string)
    requires '/' !in domain
    ensures SeedImagePath(front + [Normal(NODES), Normal(domain), Normal(IMAGE_NAME)], domain)
         == front + [Normal(NODES), Normal(domain), Normal(domain + SEED_END)]
  {
    var image := front + [Normal(NODES), Normal(domain), Normal(IMAGE_NAME)];
    var directory := front + [Normal(NODES), Normal(domain)];
    assert image[..|image| - 1] == directory;
    assert Parent(image) == Some(directory);
    PlainSeed(domain);
    JoinPlain(directory, domain + SEED_END);
  }

  lemma PlainSeed(domain: string)
    requires '/' !in domain
    ensures IsPlainName(domain + SEED_END)
  {
    var name := domain + SEED_END;
    assert |name| >= 3;
    assert '/' !in SEED_END;
  }

  lemma SeedIsNoImage(domain: string)
    ensures domain + SEED_END != IMAGE_NAME
  {
    var name := domain + SEED_END;
    assert name[|name| - 1] == 'g';
    assert IMAGE_NAME[|IMAGE_NAME| - 1] == '2';
  }

  // ---- The host configuration ----

  const MACHINE := "q35"
  const CPU := "host-passthrough"

  function HostNode(n: M.Node): H.NodeConfig {
    H.NodeConfig(
      n.name, n.domain, true, n.vcpus, n.memoryMib, MACHINE, CPU, n.bridge, n.mac,
      H.RootDisk(Parse(n.image), Some(Parse(n.sourceImage)), Some(H.Qcow2), n.sourceChecksum, n.sizeGib, H.Qcow2),
      n.exports)
  }

  // The host planner's view of a made configuration; `uri` is the libvirt connection.
  function HostConfigOf(config: M.Config, uri: string): H.HostConfig {
    H.HostConfig(
      uri,
      seq(|config.nodes|, i requires 0 <= i < |config.nodes| => HostNode(config.nodes[i])),
      map id | id in config.exports :: H.ExportConfig(
        config.exports[id].dataset, Parse(config.exports[id].sourcePath), config.exports[id].tag,
        config.exports[id].policy,
        config.exports[id].access))
  }

  datatype Inputs = Inputs(intent: M.Intent, discovery: M.Discovery, selections: M.Selections)

  predicate Makes(inputs: Inputs) {
    && M.Accepted(inputs.intent, inputs.discovery, inputs.selections)
    && inputs.intent.servers + inputs.intent.agents <= 0xFFFF
  }

  function Made(inputs: Inputs, uri: string): H.HostConfig
    requires Makes(inputs)
  {
    HostConfigOf(M.ConfigOf(inputs.intent, inputs.discovery, inputs.selections), uri)
  }

  function RoleOf(inputs: Inputs, i: nat): M.Role {
    if i < inputs.intent.servers then M.Server else M.Agent
  }

  function IndexOf(inputs: Inputs, i: nat): nat {
    if i < inputs.intent.servers then i + 1 else i - inputs.intent.servers + 1
  }

  function DomainOf(inputs: Inputs, i: nat): string {
    M.DOMAIN_PREFIX + (M.RolePrefix(RoleOf(inputs, i)) + Decimal(IndexOf(inputs, i)))
  }

  function DiskFront(inputs: Inputs): Path {
    Front(M.TrimEndSlashes(VmState(inputs.discovery, inputs.selections)))
  }

  function PolicyNames(inputs: Inputs): seq<string> {
    seq(|inputs.intent.policies|, i requires 0 <= i < |inputs.intent.policies| => inputs.intent.policies[i].name)
  }

  /** What is known of a made node. */
  predicate NodeShape(inputs: Inputs, i: nat, n: H.NodeConfig) {
    && n.name == M.RolePrefix(RoleOf(inputs, i)) + Decimal(IndexOf(inputs, i))
    && n.domain == DomainOf(inputs, i)
    && n.exports == PolicyNames(inputs)
    && n.rootDisk.image == DiskFront(inputs) + [Normal(NODES), Normal(n.domain), Normal(IMAGE_NAME)]
    && Seed(n) == DiskFront(inputs) + [Normal(NODES), Normal(n.domain), Normal(n.domain + SEED_END)]
    && IsSafe(n.name) && '-' in n.name && IsSafe(n.domain)
  }

  lemma PlainDomainName(role: M.Role, index: nat)
    ensures IsPlainName(M.DOMAIN_PREFIX + (M.RolePrefix(role) + Decimal(index)))
  {
    NameIsSafe(role, index);
    var d := M.DOMAIN_PREFIX + (M.RolePrefix(role) + Decimal(index));
    assert |d| > 2 && d[0] == 'n';
  }

  lemma NodeParts(inputs: Inputs, i: nat)
    ensures var n := NodeAt(inputs.intent, inputs.discovery, inputs.selections, i);
      && n.name == M.RolePrefix(RoleOf(inputs, i)) + Decimal(IndexOf(inputs, i))
      && n.domain == DomainOf(inputs, i)
      && n.exports == PolicyNames(inputs)
      && n.image == M.TrimEndSlashes(VmState(inputs.discovery, inputs.selections)) + M.NODES_SEGMENT + n.domain
          + M.IMAGE_SEGMENT
  {
    hide M.TrimEndSlashes, M.DatasetPath, M.GeneratedMac, M.RolePrefix, Decimal;
  }

  lemma NodeHasShape(inputs: Inputs, i: nat)
    ensures NodeShape(inputs, i, HostNode(NodeAt(inputs.intent, inputs.discovery, inputs.selections, i)))
  {
    hide M.TrimEndSlashes, NodeAt, M.RolePrefix, Decimal, Parse, Front, IsSafe, SeedImagePath, VmState, IsPlainName;
    var node := NodeAt(inputs.intent, inputs.discovery, inputs.selections, i);
    var base := M.TrimEndSlashes(VmState(inputs.discovery, inputs.selections));
    NodeParts(inputs, i);
    NameIsSafe(RoleOf(inputs, i), IndexOf(inputs, i));
    PlainDomainName(RoleOf(inputs, i), IndexOf(inputs, i));
    ImagePath(base, node.domain);
    NoSlash(node.domain);
    SeedPath(Front(base), node.domain);
  }

  lemma NoSlash(s: string)
    requires IsPlainName(s)
    ensures '/' !in s
  {
  }

  /** Every node of a configuration has the shape of the made one at its place. */
  predicate Shaped(inputs: Inputs, config: H.HostConfig) {
    forall i :: 0 <= i < |config.nodes| ==> NodeShape(inputs, i, config.nodes[i])
  }

  lemma MadeNodes(inputs: Inputs, uri: string)
    requires Makes(inputs)
    ensures |Made(inputs, uri).nodes| == inputs.intent.servers + inputs.intent.agents
    ensures Shaped(inputs, Made(inputs, uri))
  {
    hide M.Accepted, M.ConfigOf, NodeShape, HostNode, NodeAt;
    AcceptedIs(inputs);
    NodesAre(inputs.intent, inputs.discovery, inputs.selections);
    forall i | 0 <= i < |Made(inputs, uri).nodes|
      ensures NodeShape(inputs, i, Made(inputs, uri).nodes[i])
    {
      NodeHasShape(inputs, i);
    }
  }

  lemma AcceptedIs(inputs: Inputs)
    requires Makes(inputs)
    ensures M.Selected(inputs.intent, inputs.selections)
    ensures M.InputProblems(inputs.intent, inputs.discovery, inputs.selections) == {}
  {
    hide M.InputProblems, M.OverridesGiven, M.NoReadOnlyDev, M.Selected;
  }

  // ---- Apart in every way the planner needs ----

  // A node of the configuration, with its place.
  lemma NodePlace(inputs: Inputs, config: H.HostConfig, n: H.NodeConfig) returns (i: nat)
    requires Shaped(inputs, config) && n in config.nodes
    ensures i < |config.nodes| && config.nodes[i] == n && NodeShape(inputs, i, n)
  {
    hide NodeShape;
    i :| 0 <= i < |config.nodes| && config.nodes[i] == n;
  }

  lemma SamePlace(inputs: Inputs, i: nat, j: nat)
    requires M.RolePrefix(RoleOf(inputs, i)) + Decimal(IndexOf(inputs, i))
      == M.RolePrefix(RoleOf(inputs, j)) + Decimal(IndexOf(inputs, j))
    ensures i == j
  {
    hide M.RolePrefix, Decimal;
    NamesApart(RoleOf(inputs, i), IndexOf(inputs, i), RoleOf(inputs, j), IndexOf(inputs, j));
  }

  // Two nodes with the same domain, or the same name, are the same node.
  lemma SameHostNode(inputs: Inputs, config: H.HostConfig, n: H.NodeConfig, m: H.NodeConfig)
    requires Shaped(inputs, config) && n in config.nodes && m in config.nodes
    requires n.domain == m.domain || n.name == m.name
    ensures n == m
  {
    hide Shaped, M.RolePrefix, Decimal, IsSafe, Seed, RoleOf, IndexOf, DiskFront, PolicyNames;
    var i := NodePlace(inputs, config, n);
    var j := NodePlace(inputs, config, m);
    if n.domain == m.domain {
      AppendCancels(M.DOMAIN_PREFIX, n.name, m.name);
    }
    SamePlace(inputs, i, j);
  }

  lemma ShapedDistinctDomains(inputs: Inputs, config: H.HostConfig)
    requires Shaped(inputs, config)
    ensures DistinctDomains(config.nodes)
  {
    hide NodeShape;
    var nodes := config.nodes;
    forall i, j | 0 <= i < j < |nodes|
      ensures nodes[i].domain != nodes[j].domain
    {
      DomainsDiffer(inputs, i, nodes[i], j, nodes[j]);
    }
  }

  lemma DomainsDiffer(inputs: Inputs, i: nat, n: H.NodeConfig, j: nat, m: H.NodeConfig)
    requires i != j && NodeShape(inputs, i, n) && NodeShape(inputs, j, m)
    ensures n.domain != m.domain
  {
    hide M.RolePrefix, Decimal, IsSafe, Seed, RoleOf, IndexOf, DiskFront, PolicyNames;
    if n.domain == m.domain {
      AppendCancels(M.DOMAIN_PREFIX, n.name, m.name);
      SamePlace(inputs, i, j);
    }
  }

  lemma DiskPathsDiffer(front: Path, d: string, x: string, e: string, y: string)
    ensures front + [Normal(NODES), Normal(d), Normal(x)] == front + [Normal(NODES), Normal(e), Normal(y)] ==>
      d == e && x == y
  {
    var p, q := front + [Normal(NODES), Normal(d), Normal(x)], front + [Normal(NODES), Normal(e), Normal(y)];
    assert p[|front| + 1] == Normal(d) && q[|front| + 1] == Normal(e);
    assert p[|front| + 2] == Normal(x) && q[|front| + 2] == Normal(y);
  }

  lemma DisksDistinct(inputs: Inputs, config: H.HostConfig, n: H.NodeConfig, m: H.NodeConfig)
    requires Shaped(inputs, config) && n in config.nodes && m in config.nodes
    ensures n.rootDisk.image == m.rootDisk.image ==> n == m
    ensures Seed(n) == Seed(m) ==> n == m
    ensures n.rootDisk.image != Seed(m)
  {
    hide Shaped, M.RolePrefix, Decimal, IsSafe, Seed, RoleOf, IndexOf, DiskFront, PolicyNames;
    var i := NodePlace(inputs, config, n);
    var j := NodePlace(inputs, config, m);
    DiskPathsDiffer(DiskFront(inputs), n.domain, IMAGE_NAME, m.domain, IMAGE_NAME);
    DiskPathsDiffer(DiskFront(inputs), n.domain, n.domain + SEED_END, m.domain, m.domain + SEED_END);
    DiskPathsDiffer(DiskFront(inputs), n.domain, IMAGE_NAME, m.domain, m.domain + SEED_END);
    SeedIsNoImage(m.domain);
    if n.domain == m.domain {
      SameHostNode(inputs, config, n, m);
    }
  }

  lemma NodeDirIs(n: H.NodeConfig)
    requires IsSafe(n.name) && '-' in n.name
    ensures NodeDir(n) == [Normal(NODES), Normal(n.name)] && n.name != ".." && n.name != SYSTEMD
  {
    SafeIsKept(n.name);
    NotSpecial(n.name);
  }

  lemma NotSpecial(s: string)
    requires '-' in s
    ensures s != "" && s != "." && s != ".." && s != SYSTEMD
  {
  }

  lemma ShapedNode(inputs: Inputs, config: H.HostConfig, n: H.NodeConfig)
    requires Shaped(inputs, config) && n in config.nodes
    ensures IsSafe(n.name) && '-' in n.name && IsSafe(n.domain) && n.exports == PolicyNames(inputs)
    ensures n.rootDisk.image == DiskFront(inputs) + [Normal(NODES), Normal(n.domain), Normal(IMAGE_NAME)]
  {
    hide Shaped, M.RolePrefix, Decimal, IsSafe, Seed, RoleOf, IndexOf, DiskFront, PolicyNames;
    var i := NodePlace(inputs, config, n);
  }

  lemma XmlPathsDiffer(opts: H.Options, inputs: Inputs, config: H.HostConfig, n: H.NodeConfig, m: H.NodeConfig)
    requires Shaped(inputs, config) && n in config.nodes && m in config.nodes
    requires XmlPath(opts, n) == XmlPath(opts, m)
    ensures n == m
  {
    hide Shaped, IsSafe, NodeDir, DiskFront, PolicyNames;
    ShapedNode(inputs, config, n);
    ShapedNode(inputs, config, m);
    NodeDirIs(n);
    NodeDirIs(m);
    assert XmlPath(opts, n)[|opts.artifactDir| + 1] == Normal(n.name);
    assert XmlPath(opts, m)[|opts.artifactDir| + 1] == Normal(m.name);
    SameHostNode(inputs, config, n, m);
  }

  lemma ShapedReadable(inputs: Inputs, config: H.HostConfig, n: H.NodeConfig)
    requires Shaped(inputs, config) && n in config.nodes
    ensures Readable(n) && '/' !in n.domain
  {
    hide Shaped, IsSafe, DiskFront, PolicyNames, SafePathSegment, Contains;
    ShapedNode(inputs, config, n);
    SafeIsKept(n.domain);
    WithoutD(n.domain);
  }

  lemma WithoutD(s: string)
    requires 'd' !in s
    ensures !Contains(s, MARKER)
  {
    assert MARKER[0] == 'd';
    hide Contains;
    NoOccurrenceWithoutChar(s, MARKER, 'd');
  }

  // ---- Units and artifacts ----

  /** The sanitised names of two policies differ. */
  predicate PoliciesSeparate(policies: seq<M.Policy>) {
    forall p, q :: p in policies && q in policies && SafePathSegment(p.name) == SafePathSegment(q.name) ==>
      p.name == q.name
  }

  lemma SeparateNames(inputs: Inputs, e: string, f: string)
    requires PoliciesSeparate(inputs.intent.policies) && e in PolicyNames(inputs) && f in PolicyNames(inputs)
    requires SafePathSegment(e) == SafePathSegment(f)
    ensures e == f
  {
    hide SafePathSegment;
    var i :| 0 <= i < |PolicyNames(inputs)| && PolicyNames(inputs)[i] == e;
    var j :| 0 <= j < |PolicyNames(inputs)| && PolicyNames(inputs)[j] == f;
    assert inputs.intent.policies[i].name == e && inputs.intent.policies[j].name == f;
  }

  // Unit names are apart, despite the hyphens that join their parts.
  lemma UnitNamesApart(inputs: Inputs, config: H.HostConfig, n: H.NodeConfig, e: string, m: H.NodeConfig, f: string)
    requires Shaped(inputs, config) && PoliciesSeparate(inputs.intent.policies)
    requires n in config.nodes && e in n.exports && m in config.nodes && f in m.exports
    requires UnitName(n.domain, e) == UnitName(m.domain, f)
    ensures n == m && e == f
  {
    hide Shaped, M.RolePrefix, Decimal, IsSafe, Seed, RoleOf, IndexOf, DiskFront, PolicyNames, UnitName;
    hide PoliciesSeparate;
    var i := NodePlace(inputs, config, n);
    var j := NodePlace(inputs, config, m);
    UnitNamesSplit(RoleOf(inputs, i), IndexOf(inputs, i), e, RoleOf(inputs, j), IndexOf(inputs, j), f);
    SameHostNode(inputs, config, n, m);
    SeparateNames(inputs, e, f);
  }

  // Files of one node at one place are one file.
  lemma NodeFilesAgree(
    inputs: Inputs, config: H.HostConfig, opts: H.Options, lib: Library, n: H.NodeConfig, f: RenderedFile,
    g: RenderedFile)
    requires Shaped(inputs, config) && PoliciesSeparate(inputs.intent.policies) && n in config.nodes
    requires IsFileOf(config, n, opts, lib, f) && IsFileOf(config, n, opts, lib, g)
    requires f.relative == g.relative
    ensures f == g
  {
    hide Shaped, PoliciesSeparate, IsDocument, UnitArtifact, NodeDir, IsDocumentPlace, ContentsAt;
    if IsDocument(config, n, opts, lib, f) && IsDocument(config, n, opts, lib, g) {
      var place := DocumentPlace(config, n, opts, lib, f);
      DocumentHolds(config, n, opts, lib, f, place);
      DocumentHolds(config, n, opts, lib, g, place);
    } else if IsDocument(config, n, opts, lib, f) {
      var e :| e in n.exports && g == UnitArtifact(config, n, lib, e);
      DocumentIsNoUnit(config, n, opts, lib, f, e);
    } else if IsDocument(config, n, opts, lib, g) {
      var e :| e in n.exports && f == UnitArtifact(config, n, lib, e);
      DocumentIsNoUnit(config, n, opts, lib, g, e);
    } else {
      var d :| d in n.exports && f == UnitArtifact(config, n, lib, d);
      var e :| e in n.exports && g == UnitArtifact(config, n, lib, e);
      UnitRelative(config, n, lib, d);
      UnitRelative(config, n, lib, e);
      UnitNamesApart(inputs, config, n, d, n, e);
    }
  }

  // The second component of a rendered file is its node's name.
  lemma FileNode(config: H.HostConfig, n: H.NodeConfig, opts: H.Options, lib: Library, f: RenderedFile)
    requires IsFileOf(config, n, opts, lib, f) && IsSafe(n.name) && '-' in n.name
    ensures |f.relative| > 1 && f.relative[1] == Normal(n.name)
  {
    hide IsDocument, UnitArtifact, NodeDir, UnitName;
    NodeDirIs(n);
    if IsDocument(config, n, opts, lib, f) {
      var place := DocumentPlace(config, n, opts, lib, f);
      assert f.relative[..2] == NodeDir(n);
    } else {
      var e :| e in n.exports && f == UnitArtifact(config, n, lib, e);
      UnitRelative(config, n, lib, e);
      assert f.relative[..2] == NodeDir(n);
    }
  }

  lemma FilesAgree(inputs: Inputs, config: H.HostConfig, opts: H.Options, lib: Library, files: seq<RenderedFile>)
    requires Shaped(inputs, config) && PoliciesSeparate(inputs.intent.policies)
    requires files == Files(config, opts, lib)
    ensures ArtifactsAgree(files)
  {
    hide Shaped, PoliciesSeparate, Files, IsFileOf, IsSafe, DiskFront, PolicyNames;
    forall f, g | f in files && g in files && f.relative == g.relative
      ensures f == g
    {
      FilesContain(config, opts, lib, f);
      FilesContain(config, opts, lib, g);
      var n :| n in config.nodes && IsFileOf(config, n, opts, lib, f);
      var m :| m in config.nodes && IsFileOf(config, m, opts, lib, g);
      ShapedNode(inputs, config, n);
      ShapedNode(inputs, config, m);
      FileNode(config, n, opts, lib, f);
      FileNode(config, m, opts, lib, g);
      SameHostNode(inputs, config, n, m);
      NodeFilesAgree(inputs, config, opts, lib, n, f, g);
    }
  }

  lemma ShapedUnitsAgree(inputs: Inputs, config: H.HostConfig, opts: H.Options, lib: Library, units: seq<UnitFile>)
    requires Shaped(inputs, config) && PoliciesSeparate(inputs.intent.policies)
    requires units == UnitFiles(Files(config, opts, lib))
    ensures UnitsAgree(units)
  {
    hide Shaped, PoliciesSeparate, Files, UnitFiles, UnitName, IsSafe, DiskFront, PolicyNames;
    forall n | n in config.nodes
      ensures n.name != SYSTEMD
    {
      ShapedNode(inputs, config, n);
      NodeDirIs(n);
    }
    forall a, b | a in units && b in units && a.name == b.name
      ensures a == b
    {
      var n, e := PlannedUnit(config, opts, lib, a);
      var m, f := PlannedUnit(config, opts, lib, b);
      UnitNamesApart(inputs, config, n, e, m, f);
    }
  }

  // ---- Well-formed ----

  // Neither of two directories holds the other.
  predicate Disjoint(a: Path, b: Path) {
    !Under(a, b) && !Under(b, a)
  }

  function DiskDirectories(inputs: Inputs): Path {
    DiskFront(inputs) + [Normal(NODES)]
  }

  /**
   * What materialization cannot know: that the agent's directories are used without "..", do not nest, with each other
   * or with the directory of the node disks, and that its tools differ.
   */
  predicate HostApart(inputs: Inputs, opts: H.Options) {
    && !Traverses(opts.artifactDir) && !Traverses(opts.unitDir) && !Traverses(opts.runtimeDir)
        && !Traverses(DiskFront(inputs))
    && Disjoint(opts.artifactDir, opts.unitDir)
    && Disjoint(DiskDirectories(inputs), opts.artifactDir) && Disjoint(DiskDirectories(inputs), opts.unitDir)
    && opts.virsh != opts.systemctl
  }

  // A file of a directory is in no directory disjoint from it.
  lemma FileOutside(directory: Path, rest: Path, other: Path)
    requires Disjoint(directory, other)
    ensures !Under(directory + rest, other)
  {
    var p := directory + rest;
    assert |other| <= |directory| ==> p[..|other|] == directory[..|other|];
    assert p[..|directory|] == directory;
  }

  lemma DisksOutsideDirectories(inputs: Inputs, config: H.HostConfig, n: H.NodeConfig, other: Path)
    requires Shaped(inputs, config) && n in config.nodes && Disjoint(DiskDirectories(inputs), other)
    ensures !Under(n.rootDisk.image, other) && !Under(Seed(n), other)
  {
    hide Shaped, M.RolePrefix, Decimal, IsSafe, Seed, RoleOf, IndexOf, DiskFront, PolicyNames, Under, Disjoint;
    var i := NodePlace(inputs, config, n);
    var front := DiskFront(inputs);
    FileOutside(DiskDirectories(inputs), [Normal(n.domain), Normal(IMAGE_NAME)], other);
    FileOutside(DiskDirectories(inputs), [Normal(n.domain), Normal(n.domain + SEED_END)], other);
    assert DiskDirectories(inputs) + [Normal(n.domain), Normal(IMAGE_NAME)]
      == front + [Normal(NODES), Normal(n.domain), Normal(IMAGE_NAME)];
    assert DiskDirectories(inputs) + [Normal(n.domain), Normal(n.domain + SEED_END)]
        == front + [Normal(NODES), Normal(n.domain), Normal(n.domain + SEED_END)];
  }

  lemma ShapedDocumentsApart(opts: H.Options, n: H.NodeConfig)
    requires !Under(opts.unitDir, opts.artifactDir)
    ensures DocumentsApart(opts, n)
  {
    hide NodeDir;
    var dir := opts.artifactDir + NodeDir(n);
    assert Under(dir, opts.artifactDir) && Under(dir + [Normal(CLOUD_INIT)], opts.artifactDir)
      && Under(dir + [Normal(K3S)], opts.artifactDir);
  }

  lemma ShapedChecked(inputs: Inputs, config: H.HostConfig, opts: H.Options, n: H.NodeConfig)
    requires Shaped(inputs, config) && n in config.nodes && !Traverses(opts.runtimeDir) && !Traverses(DiskFront(inputs))
    ensures NodeChecked(n, opts)
  {
    hide Shaped, M.RolePrefix, Decimal, IsSafe, SeedImagePath, RoleOf, IndexOf, DiskFront, PolicyNames, SafePathSegment;
    var i := NodePlace(inputs, config, n);
    var image, front := n.rootDisk.image, DiskFront(inputs);
    assert image[..|image| - 1] == front + [Normal(NODES), Normal(n.domain)];
    assert Seed(n) == SeedImagePath(image, n.domain);
    SafeIsKept(n.domain);
    PlainDomainName(RoleOf(inputs, i), IndexOf(inputs, i));
  }

  // Nodes export by policy name, and every policy has its export.
  lemma MadeExportsResolve(inputs: Inputs, uri: string)
    requires Makes(inputs)
    ensures ExportsResolve(Made(inputs, uri))
  {
    hide Makes, Made, Shaped, PolicyNames;
    MadeNodes(inputs, uri);
    MadeExports(inputs, uri);
    var config := Made(inputs, uri);
    forall n, e | n in config.nodes && e in n.exports
      ensures e in config.exports
    {
      ShapedNode(inputs, config, n);
    }
  }

  lemma MadeExports(inputs: Inputs, uri: string)
    requires Makes(inputs)
    ensures forall e :: e in PolicyNames(inputs) ==> e in Made(inputs, uri).exports
  {
    hide M.Accepted, M.NodesOf, HostNode, M.ExportsFor, M.InputProblems;
    AcceptedIs(inputs);
    InputFacts(inputs.intent, inputs.discovery, inputs.selections);
    PoliciesDistinct(inputs.intent.policies);
    ExportsAre(inputs.discovery, inputs.selections, inputs.intent.policies);
  }

  lemma ShapedFriendly(inputs: Inputs, config: H.HostConfig, opts: H.Options, n: H.NodeConfig)
    requires Shaped(inputs, config) && n in config.nodes && !Under(opts.unitDir, opts.artifactDir)
    ensures NodeFriendly(opts, n)
  {
    hide Shaped, IsSafe, DiskFront, PolicyNames, DocumentsApart, NodeDir, Under;
    ShapedNode(inputs, config, n);
    NodeDirIs(n);
    ShapedDocumentsApart(opts, n);
    var image := n.rootDisk.image;
    assert image[..|image| - 1] != [] by {
      assert |image| >= 3;
    }
  }

  lemma ShapedDisksApart(inputs: Inputs, config: H.HostConfig, opts: H.Options)
    requires Shaped(inputs, config) && Disjoint(DiskDirectories(inputs), opts.artifactDir)
    ensures DisksApart(opts, config.nodes)
  {
    hide Shaped, Under, Seed, Disjoint;
    forall n, m | n in config.nodes && m in config.nodes
      ensures n.rootDisk.image == m.rootDisk.image ==> n == m
      ensures Seed(n) == Seed(m) ==> n == m
      ensures n.rootDisk.image != Seed(m)
    {
      DisksDistinct(inputs, config, n, m);
    }
    forall n | n in config.nodes
      ensures !Under(n.rootDisk.image, opts.artifactDir) && !Under(Seed(n), opts.artifactDir)
    {
      DisksOutsideDirectories(inputs, config, n, opts.artifactDir);
    }
  }

  lemma ShapedDomainsApart(inputs: Inputs, config: H.HostConfig, opts: H.Options)
    requires Shaped(inputs, config)
    ensures DomainsApart(opts, config.nodes)
  {
    hide Shaped, DistinctDomains, XmlPath, Readable;
    ShapedDistinctDomains(inputs, config);
    var nodes := config.nodes;
    forall n, m | n in nodes && m in nodes && XmlPath(opts, n) == XmlPath(opts, m)
      ensures n == m
    {
      XmlPathsDiffer(opts, inputs, config, n, m);
    }
    forall n | n in nodes
      ensures '/' !in n.domain
    {
      ShapedReadable(inputs, config, n);
    }
  }

  /** Pairwise distinct unit names, despite the hyphens that join their parts. */
  lemma UnitNamesDistinct(inputs: Inputs, uri: string, n: H.NodeConfig, e: string, m: H.NodeConfig, f: string)
    requires Makes(inputs) && PoliciesSeparate(inputs.intent.policies)
    requires n in Made(inputs, uri).nodes && e in n.exports && m in Made(inputs, uri).nodes && f in m.exports
    requires UnitName(n.domain, e) == UnitName(m.domain, f)
    ensures n == m && e == f
  {
    hide *;
    MadeNodes(inputs, uri);
    UnitNamesApart(inputs, Made(inputs, uri), n, e, m, f);
  }

  /** No made domain name hides the hash marker. */
  lemma MadeReadable(inputs: Inputs, uri: string, n: H.NodeConfig)
    requires Makes(inputs) && n in Made(inputs, uri).nodes
    ensures Readable(n) && '/' !in n.domain
  {
    hide *;
    MadeNodes(inputs, uri);
    ShapedReadable(inputs, Made(inputs, uri), n);
  }

  // The guard can be built, and no disk, seed or artifact is among the unit files.
  lemma ShapedReady(inputs: Inputs, turn: Turn)
    requires Shaped(inputs, turn.config) && HostApart(inputs, turn.opts) && ExportsResolve(turn.config)
    ensures Ready(turn) && Isolated(SafetyFor(turn))
  {
    hide Shaped, DiskFront, Under, Seed, ExportsResolve, Isolated, NodeChecked, SafetyOf, Traverses;
    forall n | n in turn.config.nodes
      ensures NodeChecked(n, turn.opts)
    {
      ShapedChecked(inputs, turn.config, turn.opts, n);
    }
    NotEmpty(turn.opts.artifactDir, turn.opts.unitDir);
    assert Ready(turn);
    ReadyIs(turn);
    forall p | p in SafetyFor(turn).rootDisks + SafetyFor(turn).seeds
      ensures !Under(p, turn.opts.unitDir)
    {
      var n := DiskOf(turn.config, turn.opts, p);
      DisksOutsideDirectories(inputs, turn.config, n, turn.opts.unitDir);
    }
    DirectoriesIsolate(turn.config, turn.opts, SafetyFor(turn));
  }

  lemma NotEmpty(a: Path, b: Path)
    requires Disjoint(a, b)
    ensures a != [] && b != []
  {
  }

  lemma DiskOf(config: H.HostConfig, opts: H.Options, p: Path) returns (n: H.NodeConfig)
    requires p in SafetyOf(config.nodes, opts).rootDisks + SafetyOf(config.nodes, opts).seeds
    ensures n in config.nodes && (p == n.rootDisk.image || p == Seed(n))
  {
    hide UnitName, SocketPath, SeedImagePath, ParentDirForPath;
    n :| n in config.nodes && (p == n.rootDisk.image || p == SeedImagePath(n.rootDisk.image, n.domain));
  }

  /**
   * Every configuration materialization makes of acceptable inputs, with policies told apart by their sanitised names,
   * meets what the host planner's guarantees ask, on a host that keeps the agent's directories apart; and every domain
   * it defines can be read back.
   */
  lemma MaterializedIsWellFormed(inputs: Inputs, uri: string, turn: Turn)
    requires Makes(inputs) && PoliciesSeparate(inputs.intent.policies)
    requires turn.config == Made(inputs, uri) && HostApart(inputs, turn.opts)
    ensures WellFormed(turn)
    ensures forall n :: n in turn.config.nodes ==> Readable(n)
  {
    hide *;
    ApartIs(inputs, turn.opts);
    MadeNodes(inputs, uri);
    MadeExportsResolve(inputs, uri);
    ShapedReady(inputs, turn);
    forall n | n in turn.config.nodes
      ensures NodeFriendly(turn.opts, n) && Readable(n)
    {
      ShapedFriendly(inputs, turn.config, turn.opts, n);
      ShapedReadable(inputs, turn.config, n);
    }
    FriendlyIs(turn.config, turn.opts);
    ShapedDisksApart(inputs, turn.config, turn.opts);
    ShapedDomainsApart(inputs, turn.config, turn.opts);
    FilesAgree(inputs, turn.config, turn.opts, turn.lib, Files(turn.config, turn.opts, turn.lib));
    ShapedUnitsAgree(inputs, turn.config, turn.opts, turn.lib, UnitFiles(Files(turn.config, turn.opts, turn.lib)));
    WellFormedIs(turn);
  }

  lemma ApartIs(inputs: Inputs, opts: H.Options)
    requires HostApart(inputs, opts)
    ensures !Under(opts.unitDir, opts.artifactDir) && Disjoint(DiskDirectories(inputs), opts.artifactDir)
    ensures opts.virsh != opts.systemctl
  {
    hide Under, DiskDirectories, Traverses;
  }

  lemma FriendlyIs(config: H.HostConfig, opts: H.Options)
    requires (forall n :: n in config.nodes ==> NodeFriendly(opts, n)) && opts.virsh != opts.systemctl
    ensures GuardFriendly(config, opts)
  {
    hide NodeFriendly;
  }
}
