/** The guard and the planner agree: exactly which configurations have every planned operation accepted. */
module HostGuard {
  import opened HostExecutor
  import opened HostFrame
  import opened HostGoals
  import opened HostModel
  import opened HostPlanner
  import opened HostWorld
  import opened Paths
  import opened Wrappers

  predicate DistinctDomains(nodes: seq<NodeConfig>) {
    forall i, j :: 0 <= i < j < |nodes| ==> nodes[i].domain != nodes[j].domain
  }

  // No directory of a node's documents is the systemd unit directory itself.
  predicate DocumentsApart(opts: Options, node: NodeConfig) {
    var dir := opts.artifactDir + NodeDir(node);
    dir != opts.unitDir && dir + [Normal(CLOUD_INIT)] != opts.unitDir && dir + [Normal(K3S)] != opts.unitDir
  }

  predicate NodeFriendly(opts: Options, node: NodeConfig) {
    && node.name != ".."
    && node.name != SYSTEMD
    && Parent(node.rootDisk.image) != Some([])
    && DocumentsApart(opts, node)
  }

  /**
   * What a caller can check beforehand: no special node names, no bare image file names, tools and directories apart.
   */
  predicate GuardFriendly(config: HostConfig, opts: Options) {
    && (forall n {:trigger NodeFriendly(opts, n)} :: n in config.nodes ==> NodeFriendly(opts, n))
    && (config.nodes != [] ==> opts.virsh != opts.systemctl)
  }

  ghost predicate GuardAccepts(config: HostConfig, opts: Options, lib: Library, safety: ExecuteSafety) {
    forall actual: ActualState, i: nat :: i < |Plan(config, opts, lib, actual)|
      && Plan(config, opts, lib, actual)[i].Apply?
      ==> Validate(safety, Plan(config, opts, lib, actual)[i].operation)
  }

  // ---- Names the guard computed are the names the planner computes ----

  lemma DocumentName(place: Path)
    requires IsDocumentPlace(place)
    ensures FileName(place).Some? && !(UNIT_PREFIX <= FileName(place).value)
  {
    var name := FileName(place).value;
    assert name[0] != UNIT_PREFIX[0];
  }

  lemma DocumentPlace(config: HostConfig, node: NodeConfig, opts: Options, lib: Library, f: RenderedFile)
    returns (place: Path)
    requires IsDocument(config, node, opts, lib, f)
    ensures IsDocumentPlace(place) && f.relative == NodeDir(node) + place
  {
    hide SpecOf, NodeDir;
    if f.relative == NodeDir(node) + [Normal(DOMAIN_XML)] {
      place := [Normal(DOMAIN_XML)];
    } else if f.relative == NodeDir(node) + [Normal(CLOUD_INIT), Normal(USER_DATA)] {
      place := [Normal(CLOUD_INIT), Normal(USER_DATA)];
    } else if f.relative == NodeDir(node) + [Normal(CLOUD_INIT), Normal(META_DATA)] {
      place := [Normal(CLOUD_INIT), Normal(META_DATA)];
    } else {
      place := [Normal(K3S), Normal(K3S_CONFIG)];
    }
  }

  // Where a rendered file comes from: a node's document, or the unit of one of a node's exports.
  lemma FileOrigin(config: HostConfig, opts: Options, lib: Library, f: RenderedFile)
    returns (n: NodeConfig, document: bool, place: Path, e: string)
    requires f in Files(config, opts, lib)
    ensures n in config.nodes
    ensures document ==> IsDocumentPlace(place) && f.relative == NodeDir(n) + place
    ensures !document ==> e in n.exports && f == UnitArtifact(config, n, lib, e)
  {
    hide Files, IsDocument, UnitArtifact, IsDocumentPlace;
    FilesContain(config, opts, lib, f);
    n :| n in config.nodes && IsFileOf(config, n, opts, lib, f);
    document, place, e := IsDocument(config, n, opts, lib, f), [], "";
    if document {
      place := DocumentPlace(config, n, opts, lib, f);
    } else {
      e :| e in n.exports && f == UnitArtifact(config, n, lib, e);
    }
  }

  // A planned unit is one of the guard's units, when no node is named "systemd".
  lemma PlannedUnit(config: HostConfig, opts: Options, lib: Library, u: UnitFile) returns (n: NodeConfig, e: string)
    requires u in UnitFiles(Files(config, opts, lib))
    requires forall n :: n in config.nodes ==> n.name != SYSTEMD
    ensures n in config.nodes && e in n.exports && u == UnitFile(UnitName(n.domain, e), lib.unitText(config, n, e))
  {
    hide Files, UnitFiles, NodeDir, UnitName, InSystemdDirectory, FileName, IsDocumentPlace;
    UnitFilesAre(Files(config, opts, lib), u);
    var f :| f in Files(config, opts, lib) && IsUnitFile(f, u);
    var document, place;
    n, document, place, e := FileOrigin(config, opts, lib, f);
    if document {
      DocumentsInSystemd(n, place);
    } else {
      UnitsInSystemd(config, n, lib, e);
    }
  }

  // ---- The files of one node ----

  // What the document at a place holds.
  function ContentsAt(config: HostConfig, n: NodeConfig, opts: Options, lib: Library, place: Path): string {
    if place == [Normal(DOMAIN_XML)] then lib.domainXml(SpecOf(config, n, opts))
    else if place == [Normal(CLOUD_INIT), Normal(USER_DATA)] then lib.userData(config, n)
    else if place == [Normal(CLOUD_INIT), Normal(META_DATA)] then lib.metaData(n)
    else lib.k3sConfig(config, n)
  }

  lemma CancelFront(front: Path, a: Path, b: Path)
    requires front + a == front + b
    ensures a == b
  {
    assert a == (front + a)[|front|..];
    assert b == (front + b)[|front|..];
  }

  lemma PlacesApart(dir: Path)
    ensures dir + [Normal(CLOUD_INIT), Normal(USER_DATA)] != dir + [Normal(CLOUD_INIT), Normal(META_DATA)]
    ensures dir + [Normal(CLOUD_INIT), Normal(USER_DATA)] != dir + [Normal(K3S), Normal(K3S_CONFIG)]
    ensures dir + [Normal(CLOUD_INIT), Normal(META_DATA)] != dir + [Normal(K3S), Normal(K3S_CONFIG)]
    ensures |dir + [Normal(DOMAIN_XML)]| == |dir| + 1
  {
    var a, b, c := [Normal(CLOUD_INIT), Normal(USER_DATA)], [Normal(CLOUD_INIT), Normal(META_DATA)],
      [Normal(K3S), Normal(K3S_CONFIG)];
    assert (dir + a)[|dir| + 1] == Normal(USER_DATA);
    assert (dir + b)[|dir| + 1] == Normal(META_DATA);
    assert (dir + c)[|dir| + 1] == Normal(K3S_CONFIG);
    assert USER_DATA[0] == 'u' && META_DATA[0] == 'm' && K3S_CONFIG[0] == 'c';
  }

  lemma DocumentHolds(config: HostConfig, n: NodeConfig, opts: Options, lib: Library, f: RenderedFile, place: Path)
    requires IsDocument(config, n, opts, lib, f) && f.relative == NodeDir(n) + place
    ensures f.contents == ContentsAt(config, n, opts, lib, place)
  {
    hide NodeDir, SpecOf;
    var dir := NodeDir(n);
    PlacesApart(dir);
    if f.relative == dir + [Normal(DOMAIN_XML)] {
      CancelFront(dir, place, [Normal(DOMAIN_XML)]);
    } else if f.relative == dir + [Normal(CLOUD_INIT), Normal(USER_DATA)] {
      CancelFront(dir, place, [Normal(CLOUD_INIT), Normal(USER_DATA)]);
    } else if f.relative == dir + [Normal(CLOUD_INIT), Normal(META_DATA)] {
      CancelFront(dir, place, [Normal(CLOUD_INIT), Normal(META_DATA)]);
    } else {
      CancelFront(dir, place, [Normal(K3S), Normal(K3S_CONFIG)]);
    }
  }

  lemma UnitRelative(config: HostConfig, n: NodeConfig, lib: Library, e: string)
    ensures FileName(UnitArtifact(config, n, lib, e).relative) == Some(UnitName(n.domain, e))
    ensures UnitArtifact(config, n, lib, e).relative == NodeDir(n) + [Normal(SYSTEMD), Normal(UnitName(n.domain, e))]
  {
    hide UnitName, NodeDir;
  }

  lemma DocumentIsNoUnit(config: HostConfig, n: NodeConfig, opts: Options, lib: Library, f: RenderedFile, e: string)
    requires IsDocument(config, n, opts, lib, f)
    ensures f.relative != UnitArtifact(config, n, lib, e).relative
  {
    hide IsDocument, UnitName, NodeDir, IsPlainName;
    var place := DocumentPlace(config, n, opts, lib, f);
    UnitRelative(config, n, lib, e);
    DocumentName(place);
    UnitNamePrefix(n.domain, e);
    assert FileName(f.relative) == FileName(place);
  }

  lemma UnitNamePrefix(d: string, e: string)
    ensures UNIT_PREFIX <= UnitName(d, e)
  {
    hide SafePathSegment;
    assert UnitName(d, e)[..|UNIT_PREFIX|] == UNIT_PREFIX;
  }

  // ---- What the guard's sets hold ----

  lemma SafetyDirs(config: HostConfig, opts: Options, safety: ExecuteSafety)
    requires FromConfig(config, opts) == Some(safety)
    ensures safety.artifactDir == opts.artifactDir && safety.unitDir == opts.unitDir
    ensures CheckedPath(opts.artifactDir) && CheckedPath(opts.unitDir)
  {
    hide UnitName, SocketPath, SeedImagePath, ParentDirForPath, CheckedPath, NodeChecked;
  }

  lemma NodeInSafety(config: HostConfig, opts: Options, safety: ExecuteSafety, n: NodeConfig)
    requires FromConfig(config, opts) == Some(safety) && n in config.nodes
    ensures n.rootDisk.image in safety.rootDisks && CheckedPath(n.rootDisk.image)
    ensures ParentDirForPath(n.rootDisk.image) in safety.rootDirs && CheckedPath(ParentDirForPath(n.rootDisk.image))
    ensures Seed(n) in safety.seeds && CheckedPath(Seed(n))
    ensures n.domain in safety.domains
  {
    hide UnitName, SocketPath, SeedImagePath, ParentDirForPath, CheckedPath, SocketsChecked;
    assert NodeChecked(n, opts);
  }

  lemma ExportInSafety(config: HostConfig, opts: Options, safety: ExecuteSafety, n: NodeConfig, e: string)
    requires FromConfig(config, opts) == Some(safety) && n in config.nodes && e in n.exports
    ensures UnitAllowed(safety, UnitName(n.domain, e))
    ensures UnitPath(opts, UnitName(n.domain, e)) == Join(safety.unitDir, Parse(UnitName(n.domain, e)))
    ensures CheckedPath(UnitPath(opts, UnitName(n.domain, e)))
    ensures SocketPath(opts, n.domain, e) in safety.sockets && CheckedPath(SocketPath(opts, n.domain, e))
  {
    hide UnitName, SocketPath, SeedImagePath, ParentDirForPath, IsServiceName, IsPlainName, Parse, Join;
    UnitNamePlain(n.domain, e);
    JoinPlain(opts.unitDir, UnitName(n.domain, e));
    assert NodeChecked(n, opts) && SocketsChecked(n, opts);
  }

  // ---- Each kind of goal is accepted ----

  lemma RenderedAccepted(
    config: HostConfig, opts: Options, lib: Library, safety: ExecuteSafety, ctx: Context, f: RenderedFile)
    requires FromConfig(config, opts) == Some(safety) && GuardFriendly(config, opts)
    requires f in Files(config, opts, lib) && ctx.opts == opts
    ensures Validate(safety, OperationForStep(ctx, WriteFile(opts.artifactDir + f.relative, f.contents)))
  {
    hide *;
    var n, document, place, e := FileOrigin(config, opts, lib, f);
    Friendly(config, opts);
    SafetyDirs(config, opts, safety);
    if document {
      assert opts.artifactDir + f.relative == opts.artifactDir + NodeDir(n) + place;
      DocumentAccepted(ctx, safety, n, place, f.contents);
    } else {
      ExportInSafety(config, opts, safety, n, e);
      UnitArtifactAccepted(ctx, config, lib, safety, n, e);
    }
  }

  lemma DocumentAccepted(ctx: Context, safety: ExecuteSafety, n: NodeConfig, place: Path, contents: string)
    requires IsDocumentPlace(place) && NodeFriendly(ctx.opts, n)
    requires safety.artifactDir == ctx.opts.artifactDir && CheckedPath(ctx.opts.artifactDir)
    ensures Validate(safety, OperationForStep(ctx, WriteFile(ctx.opts.artifactDir + NodeDir(n) + place, contents)))
  {
    hide NodeDir, NodeFriendly, IsDocumentPlace;
    DocumentOperation(ctx.opts, n, place);
    assert Under(ctx.opts.artifactDir + NodeDir(n) + place, ctx.opts.artifactDir) by {
      assert ctx.opts.artifactDir + NodeDir(n) + place == ctx.opts.artifactDir + (NodeDir(n) + place);
    }
  }

  lemma UnitArtifactAccepted(
    ctx: Context, config: HostConfig, lib: Library, safety: ExecuteSafety, n: NodeConfig, e: string)
    requires NodeFriendly(ctx.opts, n)
    requires safety.artifactDir == ctx.opts.artifactDir && safety.unitDir == ctx.opts.unitDir
    requires CheckedPath(ctx.opts.artifactDir)
    requires UnitAllowed(safety, UnitName(n.domain, e))
    requires UnitPath(ctx.opts, UnitName(n.domain, e)) == Join(safety.unitDir, Parse(UnitName(n.domain, e)))
    ensures var f := UnitArtifact(config, n, lib, e);
      Validate(safety, OperationForStep(ctx, WriteFile(ctx.opts.artifactDir + f.relative, f.contents)))
  {
    hide UnitName, SafePathSegment, Join, Parse, UnitAllowed, DocumentsApart;
    SystemdName(n.name);
    var path := ctx.opts.artifactDir + UnitArtifact(config, n, lib, e).relative;
    assert FileName(path) == Some(UnitName(n.domain, e));
    assert Parent(path) == Some(ctx.opts.unitDir) ==> path == UnitPath(ctx.opts, UnitName(n.domain, e));
    assert CheckedPath(path);
  }

  lemma ContextOptions(config: HostConfig, opts: Options, lib: Library)
    ensures ContextOf(config, opts, lib).opts == opts && ContextOf(config, opts, lib).contentHash == lib.contentHash
    ensures ContextOf(config, opts, lib).sockets == DesiredSockets(opts, config.nodes)
    ensures ContextOf(config, opts, lib).domains == DesiredDomains(config, opts, lib, config.nodes)
    ensures ContextOf(config, opts, lib).disks == DesiredDisks(config.nodes)
  {
    hide ApplyPlan, DesiredDomains, DesiredDisks, DesiredSockets;
  }

  lemma DocumentOperation(opts: Options, n: NodeConfig, place: Path)
    requires IsDocumentPlace(place) && NodeFriendly(opts, n) && CheckedPath(opts.artifactDir)
    ensures CheckedPath(opts.artifactDir + NodeDir(n) + place)
    ensures Parent(opts.artifactDir + NodeDir(n) + place) != Some(opts.unitDir)
  {
    hide SafePathSegment;
    SystemdName(n.name);
    var dir := opts.artifactDir + NodeDir(n);
    var path := dir + place;
    if |place| == 1 {
      assert path[..|path| - 1] == dir;
    } else {
      assert path[..|path| - 1] == dir + [place[0]];
    }
  }

  lemma DirectoryAccepted(config: HostConfig, opts: Options, safety: ExecuteSafety, n: NodeConfig)
    requires FromConfig(config, opts) == Some(safety) && n in config.nodes && NodeFriendly(opts, n)
    ensures Validate(safety, CreateDirectory(ParentDirectory(n.rootDisk.image)))
  {
    hide FromConfig, DocumentsApart, CheckedPath;
    NodeInSafety(config, opts, safety, n);
    assert ParentDirectory(n.rootDisk.image) == ParentDirForPath(n.rootDisk.image);
  }

  lemma DiskAccepted(
    config: HostConfig, opts: Options, safety: ExecuteSafety, ctx: Context, actual: ActualState, changed: set<string>,
    n: NodeConfig)
    requires FromConfig(config, opts) == Some(safety) && n in config.nodes && ctx.opts == opts
    ensures var step :=
      DecideStep(ctx, actual, RunStep(QemuCreateCommand(opts.qemuImg, n), Some(n.rootDisk.image)), changed);
      step.Apply? ==>
        && (step.operation.CreateRootDisk? || step.operation.ResizeRootDisk?)
        && step.operation.path == n.rootDisk.image && Validate(safety, step.operation)
  {
    hide FromConfig, BaseImageVerified, PathOf, CheckedPath, Seed, ParentDirForPath;
    var image, command := n.rootDisk.image, QemuCreateCommand(opts.qemuImg, n);
    NodeInSafety(config, opts, safety, n);
    assert command.args[|command.args| - 2] == PathArg(image);
    assert Mentions(command, image);
    MentionsResize(opts.qemuImg, image, if image in ctx.disks then ctx.disks[image].sizeGib else 0);
  }

  lemma MentionsResize(program: string, image: Path, sizeGib: nat)
    ensures Mentions(QemuResizeCommand(program, image, sizeGib), image)
  {
    assert QemuResizeCommand(program, image, sizeGib).args[1] == PathArg(image);
  }

  // A seed is never removed: its contents are planned.
  lemma SeedClearedSkipped(
    config: HostConfig, opts: Options, lib: Library, actual: ActualState, changed: set<string>, n: NodeConfig)
    requires n in config.nodes
    ensures DecideStep(ContextOf(config, opts, lib), actual, RemoveFile(Seed(n)), changed) == SkipAlreadyCorrect
  {
    hide ContextOf, Seed, PathOf;
    SeedsAreBinaries(config, opts, lib, n);
  }

  lemma SeedAccepted(config: HostConfig, opts: Options, safety: ExecuteSafety, n: NodeConfig, contents: string)
    requires FromConfig(config, opts) == Some(safety) && n in config.nodes
    ensures Validate(safety, RewriteSeedImage(Seed(n), contents))
  {
    hide FromConfig, CheckedPath, Seed, ParentDirForPath;
    NodeInSafety(config, opts, safety, n);
  }

  lemma InstallAccepted(config: HostConfig, opts: Options, lib: Library, safety: ExecuteSafety, u: UnitFile)
    requires FromConfig(config, opts) == Some(safety) && GuardFriendly(config, opts)
    requires u in UnitFiles(Files(config, opts, lib))
    ensures Validate(safety, InstallOrUpdateSystemdUnit(u.name, UnitPath(opts, u.name), u.contents))
  {
    hide Files, UnitFiles, UnitName, FromConfig, GuardFriendly, Join, Parse, UnitAllowed;
    hide CheckedPath, SocketPath, UnitPath;
    Friendly(config, opts);
    var n, e := PlannedUnit(config, opts, lib, u);
    ExportInSafety(config, opts, safety, n, e);
  }

  lemma InstallOperation(ctx: Context, u: UnitFile)
    ensures OperationForStep(ctx, WriteFile(UnitPath(ctx.opts, u.name), u.contents))
         == InstallOrUpdateSystemdUnit(u.name, UnitPath(ctx.opts, u.name), u.contents)
  {
    assert Parent(UnitPath(ctx.opts, u.name)) == Some(ctx.opts.unitDir);
  }

  // The socket the planner waits for is the socket of some export with that unit name.
  lemma UnitSocket(config: HostConfig, opts: Options, safety: ExecuteSafety, n: NodeConfig, e: string)
    requires FromConfig(config, opts) == Some(safety) && n in config.nodes && e in n.exports
    ensures UnitName(n.domain, e) in DesiredSockets(opts, config.nodes)
    ensures DesiredSockets(opts, config.nodes)[UnitName(n.domain, e)] in safety.sockets
    ensures CheckedPath(DesiredSockets(opts, config.nodes)[UnitName(n.domain, e)])
  {
    hide UnitName, SocketPath, FromConfig, UnitAllowed, CheckedPath, DesiredSockets, Join, Parse;
    var name := UnitName(n.domain, e);
    SocketsAre(opts, config.nodes, name);
    var m, g :| m in config.nodes && g in m.exports && name == UnitName(m.domain, g)
                && DesiredSockets(opts, config.nodes)[name] == SocketPath(opts, m.domain, g);
    ExportInSafety(config, opts, safety, m, g);
  }

  lemma EnableDecision(ctx: Context, actual: ActualState, changed: set<string>, u: string)
    ensures var step := DecideStep(ctx, actual, RunStep(EnableCommand(ctx.opts, u), None), changed);
      step.Apply? ==> (step.operation.EnableAndStartVirtiofsdService? || step.operation.RestartVirtiofsdService?)
                      && step.operation.unitName == u
                      && step.operation.socketPath == if u in ctx.sockets then ctx.sockets[u] else []
  {
    hide PathOf, DecideVirsh;
  }

  lemma EnableAccepted(
    config: HostConfig, opts: Options, lib: Library, safety: ExecuteSafety, ctx: Context, actual: ActualState,
    changed: set<string>,
    u: UnitFile)
    requires FromConfig(config, opts) == Some(safety) && GuardFriendly(config, opts)
    requires u in UnitFiles(Files(config, opts, lib))
    requires ctx.opts == opts && ctx.sockets == DesiredSockets(opts, config.nodes)
    ensures var step := DecideStep(ctx, actual, RunStep(EnableCommand(opts, u.name), None), changed);
      step.Apply? ==> Validate(safety, step.operation)
  {
    hide Files, UnitFiles, UnitName, SocketPath, FromConfig, GuardFriendly, UnitAllowed;
    hide CheckedPath, DesiredSockets, DecideStep, Join, Parse, UnitPath;
    Friendly(config, opts);
    var n, e := PlannedUnit(config, opts, lib, u);
    ExportInSafety(config, opts, safety, n, e);
    UnitSocket(config, opts, safety, n, e);
    EnableDecision(ctx, actual, changed, u.name);
  }

  lemma ReloadAccepted(ctx: Context, safety: ExecuteSafety, actual: ActualState, changed: set<string>)
    ensures var step := DecideStep(ctx, actual, RunStep(ReloadCommand(ctx.opts), None), changed);
      step.Apply? ==> Validate(safety, step.operation)
  {
    hide PathOf, DecideExistingDisk, DecideMissingDisk, DecideVirsh;
  }

  lemma SameNode(nodes: seq<NodeConfig>, m: NodeConfig, n: NodeConfig)
    requires DistinctDomains(nodes) && m in nodes && n in nodes && m.domain == n.domain
    ensures m == n
  {
    var i, j :| 0 <= i < |nodes| && nodes[i] == m && 0 <= j < |nodes| && nodes[j] == n;
    assert i == j;
  }

  // With distinct domains, the XML path of a node finds a desired domain of the configuration.
  lemma XmlFindsDomain(
    config: HostConfig, opts: Options, lib: Library, domains: map<string, DesiredDomain>, n: NodeConfig)
    returns (m: NodeConfig)
    requires DistinctDomains(config.nodes) && n in config.nodes
    requires domains == DesiredDomains(config, opts, lib, config.nodes)
    ensures m in config.nodes && DomainForXml(domains, XmlPath(opts, n)).Some?
    ensures ServesDomain(config, opts, lib, m, DomainForXml(domains, XmlPath(opts, n)).value)
  {
    hide DesiredDomains, XmlPath, SpecOf, DistinctDomains;
    DomainsAre(config, opts, lib, config.nodes, n.domain);
    m :| m in config.nodes && m.domain == n.domain && ServesDomain(config, opts, lib, m, domains[n.domain]);
    SameNode(config.nodes, m, n);
    assert domains[n.domain].xmlPath == XmlPath(opts, n);
    var found := DomainForXml(domains, XmlPath(opts, n));
    var d :| d in domains && domains[d] == found.value;
    DomainsAre(config, opts, lib, config.nodes, d);
    m :| m in config.nodes && m.domain == d && ServesDomain(config, opts, lib, m, domains[d]);
  }

  lemma DefineDecision(
    ctx: Context, config: HostConfig, actual: ActualState, changed: set<string>, xmlPath: Path)
    requires ctx.opts.virsh != ctx.opts.systemctl && DomainForXml(ctx.domains, xmlPath).Some?
    ensures var command := VirshCommand(config, ctx.opts, Define, PathArg(xmlPath));
      var step := DecideStep(ctx, actual, RunStep(command, None), changed);
      step.Apply? ==> (step.operation.DefineDomain? || step.operation.RedefineDomain?)
                      && step.operation.domain == DomainForXml(ctx.domains, xmlPath).value.domain
                      && step.operation.xmlPath == xmlPath && step.operation.command == command
  {
    hide PathOf, DomainForXml, DecideSystemctl, OperationForCommand;
  }

  lemma DefineAccepted(
    config: HostConfig, opts: Options, lib: Library, safety: ExecuteSafety, ctx: Context, actual: ActualState,
    changed: set<string>,
    n: NodeConfig)
    requires FromConfig(config, opts) == Some(safety) && GuardFriendly(config, opts)
    requires DistinctDomains(config.nodes) && n in config.nodes
    requires ctx.opts == opts && ctx.domains == DesiredDomains(config, opts, lib, config.nodes)
    ensures var step :=
      DecideStep(ctx, actual, RunStep(VirshCommand(config, opts, Define, PathArg(XmlPath(opts, n))), None), changed);
      step.Apply? ==> Validate(safety, step.operation)
  {
    hide FromConfig, DesiredDomains, DomainForXml, XmlPath, DistinctDomains, NodeFriendly, DecideStep, CheckedPath;
    hide Under, SpecOf, Seed, ParentDirForPath;
    SafetyDirs(config, opts, safety);
    XmlChecked(opts, n);
    var m := XmlFindsDomain(config, opts, lib, ctx.domains, n);
    NodeInSafety(config, opts, safety, m);
    DefineDecision(ctx, config, actual, changed, XmlPath(opts, n));
    var command := VirshCommand(config, opts, Define, PathArg(XmlPath(opts, n)));
    assert command.args[3] == PathArg(XmlPath(opts, n));
    assert Mentions(command, XmlPath(opts, n));
  }

  lemma XmlChecked(opts: Options, n: NodeConfig)
    requires CheckedPath(opts.artifactDir) && NodeFriendly(opts, n)
    ensures CheckedPath(XmlPath(opts, n)) && Under(XmlPath(opts, n), opts.artifactDir)
  {
    hide SafePathSegment;
    SystemdName(n.name);
  }

  lemma PowerAccepted(
    config: HostConfig, opts: Options, safety: ExecuteSafety, ctx: Context, actual: ActualState, changed: set<string>,
    n: NodeConfig, verb: Verb)
    requires FromConfig(config, opts) == Some(safety) && GuardFriendly(config, opts) && ctx.opts == opts
    requires n in config.nodes && (verb == Autostart || verb == Start)
    ensures var step :=
      DecideStep(ctx, actual, RunStep(VirshCommand(config, opts, verb, Word(n.domain)), None), changed);
      step.Apply? ==> Validate(safety, step.operation)
  {
    hide FromConfig, PathOf, NodeFriendly, DecideSystemctl, OperationForCommand, DecideDefine, CheckedPath, Seed;
    hide ParentDirForPath;
    NodeInSafety(config, opts, safety, n);
  }

  lemma WriteDecision(ctx: Context, actual: ActualState, changed: set<string>, p: Path, contents: string)
    ensures var step := DecideStep(ctx, actual, WriteFile(p, contents), changed);
      step == SkipAlreadyCorrect || step == Apply(OperationForStep(ctx, WriteFile(p, contents)))
  {
  }

  lemma SimpleDecision(ctx: Context, actual: ActualState, changed: set<string>, p: Path, contents: string)
    ensures var step := DecideStep(ctx, actual, WriteBinaryFile(p, contents), changed);
      step == SkipAlreadyCorrect || step == Apply(RewriteSeedImage(p, contents))
    ensures var step := DecideStep(ctx, actual, EnsureDirectory(p), changed);
      step == SkipAlreadyCorrect || step == Apply(CreateDirectory(p))
  {
  }

  lemma GoalAccepted(
    config: HostConfig, opts: Options, lib: Library, safety: ExecuteSafety, ctx: Context, actual: ActualState,
    changed: set<string>,
    g: Goal)
    requires FromConfig(config, opts) == Some(safety) && GuardFriendly(config, opts)
    requires DistinctDomains(config.nodes) && IsGoal(config, opts, lib, g)
    requires ctx == ContextOf(config, opts, lib)
    ensures var step := DecideStep(ctx, actual, StepOf(config, opts, lib, g), changed);
      step.Apply? ==> Validate(safety, step.operation)
  {
    hide ContextOf, Files, UnitFiles, Validate, FromConfig, GuardFriendly, DistinctDomains;
    hide DecideStep, OperationForStep, UnitPath, Seed, SeedContents, XmlPath, EnableCommand, ReloadCommand;
    hide VirshCommand, QemuCreateCommand, ParentDirectory, DesiredDomains, DesiredSockets, DesiredDisks;
    hide NodeFriendly;
    ContextOptions(config, opts, lib);
    Friendly(config, opts);
    match g
    case Rendered(file) =>
      WriteDecision(ctx, actual, changed, opts.artifactDir + file.relative, file.contents);
      RenderedAccepted(config, opts, lib, safety, ctx, file);
    case DiskDirectory(node) =>
      SimpleDecision(ctx, actual, changed, ParentDirectory(node.rootDisk.image), "");
      DirectoryAccepted(config, opts, safety, node);
    case DiskImage(node) => DiskAccepted(config, opts, safety, ctx, actual, changed, node);
    case SeedCleared(node) => SeedClearedSkipped(config, opts, lib, actual, changed, node);
    case SeedWritten(node) =>
      SimpleDecision(ctx, actual, changed, Seed(node), SeedContents(lib, Files(config, opts, lib), node));
      SeedAccepted(config, opts, safety, node, SeedContents(lib, Files(config, opts, lib), node));
    case Installed(unit) =>
      WriteDecision(ctx, actual, changed, UnitPath(opts, unit.name), unit.contents);
      InstallOperation(ctx, unit);
      InstallAccepted(config, opts, lib, safety, unit);
    case Reloaded => ReloadAccepted(ctx, safety, actual, changed);
    case Enabled(unit) => EnableAccepted(config, opts, lib, safety, ctx, actual, changed, unit);
    case Defined(node) => DefineAccepted(config, opts, lib, safety, ctx, actual, changed, node);
    case Autostarted(node) => PowerAccepted(config, opts, safety, ctx, actual, changed, node, Autostart);
    case Started(node) => PowerAccepted(config, opts, safety, ctx, actual, changed, node, Start);
  }

  lemma Friendly(config: HostConfig, opts: Options)
    requires GuardFriendly(config, opts)
    ensures forall n :: n in config.nodes ==> NodeFriendly(opts, n)
  {
  }

  lemma FriendlyAccepted(config: HostConfig, opts: Options, lib: Library, safety: ExecuteSafety)
    requires FromConfig(config, opts) == Some(safety) && GuardFriendly(config, opts)
    requires DistinctDomains(config.nodes)
    ensures GuardAccepts(config, opts, lib, safety)
  {
    hide Plan, ContextOf, FromConfig, GuardFriendly, DistinctDomains, DecideStep, StepOf, Validate;
    hide Goals, IsGoal;
    forall actual: ActualState, i: nat | i < |Plan(config, opts, lib, actual)|
        && Plan(config, opts, lib, actual)[i].Apply?
      ensures Validate(safety, Plan(config, opts, lib, actual)[i].operation)
    {
      PlanLength(config, opts, lib, actual);
      PlanStepAt(config, opts, lib, actual, i);
      GoalAccepted(
        config, opts, lib, safety, ContextOf(config, opts, lib), actual, ChangedTo(config, opts, lib, actual, i),
        Goals(config, opts, lib)[i]);
    }
  }

  // ---- A host on which nothing exists yet but the tools ----

  function EmptyHost(opts: Options): ActualState {
    ActualState(map[], {opts.qemuImg, opts.systemctl, opts.virsh}, map[], map[], map[])
  }

  // If the guard accepts everything, it accepts what each goal plans on the empty host.
  lemma AcceptsGoal(
    config: HostConfig, opts: Options, lib: Library, safety: ExecuteSafety, ctx: Context,
    g: Goal) returns (changed: set<string>)
    requires GuardAccepts(config, opts, lib, safety)
    requires IsGoal(config, opts, lib, g)
    requires ctx == ContextOf(config, opts, lib)
    ensures var step := DecideStep(ctx, EmptyHost(opts), StepOf(config, opts, lib, g), changed);
      step.Apply? ==> Validate(safety, step.operation)
  {
    hide Plan, ContextOf, DecideStep, StepOf, Validate, Goals, IsGoal, EmptyHost;
    GoalsAre(config, opts, lib, g);
    var i :| 0 <= i < |Goals(config, opts, lib)| && Goals(config, opts, lib)[i] == g;
    PlanLength(config, opts, lib, EmptyHost(opts));
    PlanStepAt(config, opts, lib, EmptyHost(opts), i);
    changed := ChangedTo(config, opts, lib, EmptyHost(opts), i);
  }

  lemma WriteOnEmptyHost(ctx: Context, changed: set<string>, p: Path, contents: string)
    ensures DecideStep(ctx, EmptyHost(ctx.opts), WriteFile(p, contents), changed)
      == Apply(OperationForStep(ctx, WriteFile(p, contents)))
    ensures DecideStep(ctx, EmptyHost(ctx.opts), EnsureDirectory(p), changed) == Apply(CreateDirectory(p))
  {
  }

  lemma RefusedName(opts: Options, safety: ExecuteSafety, ctx: Context, n: NodeConfig, place: Path, contents: string)
    requires ctx.opts == opts && safety.unitDir == opts.unitDir && CheckedPath(opts.unitDir)
    requires IsDocumentPlace(place)
    requires n.name == ".." || Parent(opts.artifactDir + NodeDir(n) + place) == Some(opts.unitDir)
    ensures !Validate(safety, OperationForStep(ctx, WriteFile(opts.artifactDir + NodeDir(n) + place, contents)))
  {
    hide SafePathSegment;
    SystemdName(n.name);
    var dir := opts.artifactDir + NodeDir(n);
    var path := dir + place;
    DocumentName(place);
    assert FileName(path) == FileName(place);
    if n.name == ".." {
      assert path[|opts.artifactDir| + 1] == ParentDir;
    }
  }

  lemma DocumentOf(config: HostConfig, n: NodeConfig, opts: Options, lib: Library, place: Path)
    returns (f: RenderedFile)
    requires IsDocumentPlace(place)
    ensures f in NodeArtifacts(config, n, opts, lib) && f.relative == NodeDir(n) + place
  {
    hide NodeDir, SpecOf, UnitArtifacts;
    var files := NodeArtifacts(config, n, opts, lib);
    if place == [Normal(DOMAIN_XML)] {
      f := files[0];
    } else if place == [Normal(CLOUD_INIT), Normal(USER_DATA)] {
      f := files[1];
    } else if place == [Normal(CLOUD_INIT), Normal(META_DATA)] {
      f := files[2];
    } else {
      f := files[3];
    }
  }

  lemma DocumentGoal(config: HostConfig, opts: Options, lib: Library, n: NodeConfig, place: Path)
    returns (f: RenderedFile)
    requires n in config.nodes && IsDocumentPlace(place)
    ensures IsGoal(config, opts, lib, Rendered(f)) && f.relative == NodeDir(n) + place
    ensures n.name == SYSTEMD ==>
      FileName(place).Some? && IsGoal(config, opts, lib, Installed(UnitFile(FileName(place).value, f.contents)))
  {
    hide Artifacts, NodeArtifacts, UnitFiles, NodeDir, InSystemdDirectory;
    f := DocumentOf(config, n, opts, lib, place);
    ArtifactsAre(config, config.nodes, opts, lib, f);
    DocumentName(place);
    DocumentsInSystemd(n, place);
    assert FileName(f.relative) == FileName(place);
    if n.name == SYSTEMD {
      var u := UnitFile(FileName(place).value, f.contents);
      assert IsUnitFile(f, u);
      UnitFilesAre(Files(config, opts, lib), u);
    }
  }

  lemma DocumentsAreFriendly(
    config: HostConfig, opts: Options, lib: Library, safety: ExecuteSafety, ctx: Context, n: NodeConfig, place: Path)
    requires GuardAccepts(config, opts, lib, safety)
    requires FromConfig(config, opts) == Some(safety) && ctx == ContextOf(config, opts, lib)
    requires n in config.nodes && IsDocumentPlace(place)
    ensures n.name != ".." && n.name != SYSTEMD
    ensures Parent(opts.artifactDir + NodeDir(n) + place) != Some(opts.unitDir)
  {
    hide GuardAccepts, FromConfig, ContextOf, DecideStep, OperationForStep, Validate, IsGoal;
    hide EmptyHost, NodeDir, Parent, IsDocumentPlace;
    hide UnitPath, Seed, SeedContents, XmlPath, EnableCommand, ReloadCommand, VirshCommand, QemuCreateCommand;
    hide ParentDirectory, DesiredDomains, DesiredSockets, DesiredDisks;
    ContextOptions(config, opts, lib);
    SafetyDirs(config, opts, safety);
    var f := DocumentGoal(config, opts, lib, n, place);
    assert opts.artifactDir + f.relative == opts.artifactDir + NodeDir(n) + place;
    var changed := AcceptsGoal(config, opts, lib, safety, ctx, Rendered(f));
    WriteOnEmptyHost(ctx, changed, opts.artifactDir + f.relative, f.contents);
    if n.name == ".." || Parent(opts.artifactDir + NodeDir(n) + place) == Some(opts.unitDir) {
      RefusedName(opts, safety, ctx, n, place, f.contents);
    }
    if n.name == SYSTEMD {
      var u := UnitFile(FileName(place).value, f.contents);
      changed := AcceptsGoal(config, opts, lib, safety, ctx, Installed(u));
      WriteOnEmptyHost(ctx, changed, UnitPath(opts, u.name), u.contents);
      InstallOperation(ctx, u);
      DocumentName(place);
      RefusedUnit(safety, u.name, UnitPath(opts, u.name), u.contents);
    }
  }

  lemma RefusedUnit(safety: ExecuteSafety, name: string, p: Path, contents: string)
    requires !(UNIT_PREFIX <= name)
    ensures !Validate(safety, InstallOrUpdateSystemdUnit(name, p, contents))
  {
  }

  lemma DirectoryIsFriendly(
    config: HostConfig, opts: Options, lib: Library, safety: ExecuteSafety, ctx: Context, n: NodeConfig)
    requires GuardAccepts(config, opts, lib, safety)
    requires ctx == ContextOf(config, opts, lib) && n in config.nodes
    ensures Parent(n.rootDisk.image) != Some([])
  {
    hide GuardAccepts, ContextOf, DecideStep, EmptyHost, UnitFiles, Files, Validate;
    hide UnitPath, Seed, SeedContents, XmlPath, EnableCommand, ReloadCommand, VirshCommand, QemuCreateCommand;
    hide ParentDirectory, DesiredDomains, DesiredSockets, DesiredDisks;
    ContextOptions(config, opts, lib);
    var changed := AcceptsGoal(config, opts, lib, safety, ctx, DiskDirectory(n));
    WriteOnEmptyHost(ctx, changed, ParentDirectory(n.rootDisk.image), "");
    if Parent(n.rootDisk.image) == Some([]) {
      EmptyDirectoryRefused(safety, n);
    }
  }

  lemma EmptyDirectoryRefused(safety: ExecuteSafety, n: NodeConfig)
    requires Parent(n.rootDisk.image) == Some([])
    ensures !Validate(safety, CreateDirectory(ParentDirectory(n.rootDisk.image)))
  {
  }

  lemma ToolsAreFriendly(
    config: HostConfig, opts: Options, lib: Library, safety: ExecuteSafety, ctx: Context, n: NodeConfig)
    requires GuardAccepts(config, opts, lib, safety)
    requires ctx == ContextOf(config, opts, lib) && n in config.nodes
    ensures opts.virsh != opts.systemctl
  {
    hide GuardAccepts, ContextOf, DecideStep, EmptyHost, UnitFiles, Files, Validate;
    hide UnitPath, Seed, SeedContents, XmlPath, EnableCommand, ReloadCommand, VirshCommand, QemuCreateCommand;
    hide ParentDirectory, DesiredDomains, DesiredSockets, DesiredDisks;
    ContextOptions(config, opts, lib);
    var changed := AcceptsGoal(config, opts, lib, safety, ctx, Defined(n));
    if opts.virsh == opts.systemctl {
      SameToolDecision(ctx, config, changed, PathArg(XmlPath(opts, n)));
      UnclassifiedRefused(safety, VirshCommand(config, opts, Define, PathArg(XmlPath(opts, n))));
    }
  }

  lemma SameToolDecision(ctx: Context, config: HostConfig, changed: set<string>, arg: Arg)
    requires ctx.opts.virsh == ctx.opts.systemctl
    ensures var command := VirshCommand(config, ctx.opts, Define, arg);
      DecideStep(ctx, EmptyHost(ctx.opts), RunStep(command, None), changed) == Apply(RunCommand(command, None))
  {
  }

  lemma UnclassifiedRefused(safety: ExecuteSafety, command: Command)
    ensures !Validate(safety, RunCommand(command, None))
  {
  }

  lemma AcceptedFriendly(config: HostConfig, opts: Options, lib: Library, safety: ExecuteSafety)
    requires FromConfig(config, opts) == Some(safety)
    requires GuardAccepts(config, opts, lib, safety)
    ensures GuardFriendly(config, opts)
  {
    hide GuardAccepts, FromConfig, ContextOf, NodeDir, Parent;
    var ctx := ContextOf(config, opts, lib);
    forall n | n in config.nodes
      ensures NodeFriendly(opts, n) && opts.virsh != opts.systemctl
    {
      ToolsAreFriendly(config, opts, lib, safety, ctx, n);
      DirectoryIsFriendly(config, opts, lib, safety, ctx, n);
      DocumentsAreFriendly(config, opts, lib, safety, ctx, n, [Normal(DOMAIN_XML)]);
      DocumentsAreFriendly(config, opts, lib, safety, ctx, n, [Normal(CLOUD_INIT), Normal(USER_DATA)]);
      DocumentsAreFriendly(config, opts, lib, safety, ctx, n, [Normal(K3S), Normal(K3S_CONFIG)]);
      ParentsOfPlaces(opts.artifactDir + NodeDir(n));
    }
    if config.nodes != [] {
      assert config.nodes[0] in config.nodes;
    }
  }

  lemma ParentsOfPlaces(dir: Path)
    ensures Parent(dir + [Normal(DOMAIN_XML)]) == Some(dir)
    ensures Parent(dir + [Normal(CLOUD_INIT), Normal(USER_DATA)]) == Some(dir + [Normal(CLOUD_INIT)])
    ensures Parent(dir + [Normal(K3S), Normal(K3S_CONFIG)]) == Some(dir + [Normal(K3S)])
  {
    var a, b := dir + [Normal(CLOUD_INIT), Normal(USER_DATA)], dir + [Normal(K3S), Normal(K3S_CONFIG)];
    assert a[..|a| - 1] == dir + [Normal(CLOUD_INIT)];
    assert b[..|b| - 1] == dir + [Normal(K3S)];
  }

  /**
   * For a configuration with distinct domains, the guard accepts every operation the planner can emit, in whatever
   * state the host is, exactly when the configuration is friendly. In particular no such plan holds a raw command.
   */
  lemma GuardComplete(config: HostConfig, opts: Options, lib: Library, safety: ExecuteSafety)
    requires FromConfig(config, opts) == Some(safety) && DistinctDomains(config.nodes)
    ensures GuardAccepts(config, opts, lib, safety) <==> GuardFriendly(config, opts)
  {
    hide FromConfig, DistinctDomains, GuardAccepts, GuardFriendly;
    if GuardFriendly(config, opts) {
      FriendlyAccepted(config, opts, lib, safety);
    }
    if GuardAccepts(config, opts, lib, safety) {
      AcceptedFriendly(config, opts, lib, safety);
    }
  }
}
