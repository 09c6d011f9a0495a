/** What every run of stage, publish, unpublish and unstage requests keeps of a node's mount table. */
module NodePluginProofs {
  import opened MountInfo
  import opened NodePlugin
  import opened Wrappers

  predicate DistinctPoints(table: seq<Mount>) {
    forall i, j :: 0 <= i < j < |table| ==> table[i].entry.mountPoint != table[j].entry.mountPoint
  }

  predicate Readable(table: seq<Mount>) {
    forall m :: m in table ==> IsPrintable(ToKernel(m))
  }

  // A path the kernel's table can carry as one field.
  predicate IsMountable(path: string) {
    IsEscapable(path) && path != "-"
  }

  predicate Acceptable(request: Request, env: Environment) {
    && (request.Stage? ==> IsMountable(request.stagingPath))
    && (request.Publish? ==> IsMountable(request.targetPath))
    && env.mountId <= 0xFFFF_FFFF_FFFF_FFFF && env.parentId <= 0xFFFF_FFFF_FFFF_FFFF
  }

  // ---- Reading and searching the table ----

  lemma ReadsTable(table: seq<Mount>, env: Environment)
    requires Readable(table)
    ensures CurrentMounts(table, env) ==
            if env.fault.ReadFails? then Err(Internal) else Ok(TableEntries(table))
  {
    ParsePrintedTable(Kernel(table));
    assert Entries(Kernel(table)) == TableEntries(table);
  }

  lemma {:induction false} FindMountFinds(entries: seq<MountInfoEntry>, path: string)
    ensures match FindMount(entries, path)
            case Some(e) => e in entries && e.mountPoint == path
            case None => forall e :: e in entries ==> e.mountPoint != path
  {
    if entries != [] {
      FindMountFinds(entries[1..], path);
    }
  }

  lemma {:induction false} FindExportFinds(exports: seq<RuntimeExport>, id: string)
    ensures match FindExport(exports, id)
            case Some(e) => e in exports && e.id == id
            case None => forall e :: e in exports ==> e.id != id
  {
    if exports != [] {
      FindExportFinds(exports[1..], id);
    }
  }

  lemma {:induction false} TopMountFinds(table: seq<Mount>, path: string)
    ensures match TopMount(table, path)
            case Some(m) => m in table && m.entry.mountPoint == path
            case None => forall m :: m in table ==> m.entry.mountPoint != path
  {
    if table != [] {
      TopMountFinds(table[..|table| - 1], path);
    }
  }

  lemma FoundIsTop(table: seq<Mount>, path: string)
    requires DistinctPoints(table)
    ensures FindMount(TableEntries(table), path) ==
            match TopMount(table, path) case None => None case Some(m) => Some(m.entry)
  {
    var entries := TableEntries(table);
    FindMountFinds(entries, path);
    TopMountFinds(table, path);
    if TopMount(table, path).Some? {
      var j :| 0 <= j < |table| && table[j] == TopMount(table, path).value;
      assert entries[j] in entries;
      var i :| 0 <= i < |entries| && entries[i] == FindMount(entries, path).value;
    } else {
      assert forall e :: e in entries ==> exists m :: m in table && m.entry == e;
    }
  }

  lemma {:induction false} RemoveTopExactly(table: seq<Mount>, path: string)
    requires DistinctPoints(table)
    ensures var r := RemoveTop(table, path);
            && DistinctPoints(r)
            && (forall m :: m in r <==> m in table && m.entry.mountPoint != path)
  {
    if table != [] {
      var last, rest := table[|table| - 1], table[..|table| - 1];
      assert forall m :: m in table <==> m in rest || m == last;
      if last.entry.mountPoint == path {
        assert forall m :: m in rest ==> m.entry.mountPoint != path;
      } else {
        RemoveTopExactly(rest, path);
        var r := RemoveTop(rest, path);
        assert RemoveTop(table, path) == r + [last];
        forall m | m in r ensures m.entry.mountPoint != last.entry.mountPoint {
          assert m in rest;
        }
      }
    }
  }

  lemma {:induction false} RemoveTopAbsent(table: seq<Mount>, path: string)
    requires forall m :: m in table ==> m.entry.mountPoint != path
    ensures RemoveTop(table, path) == table
  {
    if table != [] {
      RemoveTopAbsent(table[..|table| - 1], path);
    }
  }

  // ---- One request ----

  // The mount a bind request adds: a copy of the mount at `source`, moved to `target`.
  ghost predicate IsCopy(m: Mount, source: Mount, target: string) {
    && m.entry.mountPoint == target
    && m.entry.filesystemType == source.entry.filesystemType
    && m.entry.source == source.entry.source
    && m.entry.root == source.entry.root
    && m.device == source.device && m.optionalFields == source.optionalFields && m.superOptions == source.superOptions
    && (source.readOnly ==> m.readOnly)
  }

  lemma CopyIsPrintable(m: Mount, source: Mount, target: string)
    requires IsCopy(m, source, target) && IsPrintable(ToKernel(source)) && IsMountable(target)
    requires m.entry.mountId <= 0xFFFF_FFFF_FFFF_FFFF && m.entry.parentId <= 0xFFFF_FFFF_FFFF_FFFF
    ensures IsPrintable(ToKernel(m))
  {
  }

  // The mount a bind appends, if it gets that far.
  function Appended(source: Mount, action: MountAction, env: Environment): Mount
    requires action.BindMount?
  {
    var bound := BoundMount(source, action.target, env);
    if action.readOnly && !env.fault.RemountFails? then bound.(readOnly := true) else bound
  }

  lemma BindAppends(table: seq<Mount>, action: MountAction, env: Environment)
    requires action.BindMount? && TopMount(table, action.source).Some?
    ensures var after := CarryOutMount(table, action, env).table;
            var m := Appended(TopMount(table, action.source).value, action, env);
            if env.fault.EnsureDirFails? || env.fault.BindFails? then after == table else after == table + [m]
    ensures IsCopy(Appended(TopMount(table, action.source).value, action, env), TopMount(table, action.source).value,
      action.target)
  {
  }

  lemma AppendKeepsPoints(table: seq<Mount>, m: Mount)
    requires DistinctPoints(table) && forall x :: x in table ==> x.entry.mountPoint != m.entry.mountPoint
    ensures DistinctPoints(table + [m])
  {
  }

  function ActionOf(table: seq<Mount>, runtime: RuntimeConfig, request: Request): MountAction
    requires request.Stage? || request.Publish?
  {
    if request.Stage? then
      PlanNodeStage(request.volumeId, request.stagingPath, request.readOnly, runtime, TableEntries(table))
    else PlanNodePublish(request.stagingPath, request.targetPath, request.readOnly, TableEntries(table))
  }

  function PathOf(request: Request): string {
    match request
    case Stage(_, stagingPath, _) => stagingPath
    case Publish(_, targetPath, _) => targetPath
    case Unpublish(targetPath) => targetPath
    case Unstage(stagingPath) => stagingPath
  }

  // A planned bind copies a mounted virtiofs mount to its own, free path.
  lemma BindFacts(table: seq<Mount>, runtime: RuntimeConfig, request: Request)
    requires DistinctPoints(table) && (request.Stage? || request.Publish?)
    requires ActionOf(table, runtime, request).BindMount?
    ensures var action := ActionOf(table, runtime, request);
            && action.target == PathOf(request)
            && (forall x :: x in table ==> x.entry.mountPoint != PathOf(request))
            && TopMount(table, action.source).Some?
            && var source := TopMount(table, action.source).value;
               && source in table && source.entry.mountPoint == action.source
               && source.entry.filesystemType == VIRTIOFS
               && FindMount(TableEntries(table), action.source) == Some(source.entry)
  {
    var action := ActionOf(table, runtime, request);
    FoundIsTop(table, PathOf(request));
    TopMountFinds(table, PathOf(request));
    FoundIsTop(table, action.source);
    TopMountFinds(table, action.source);
  }

  /** Where the mount a request adds comes from: staging copies the virtiofs mount of that volume's export, with its
      tag; publishing copies the virtiofs mount at its staging path. */
  ghost predicate Provenance(m: Mount, table: seq<Mount>, runtime: RuntimeConfig, request: Request) {
    match request
    case Stage(volumeId, stagingPath, _) =>
      var entry := FindExport(runtime.exports, volumeId);
      && entry.Some?
      && m.entry.filesystemType == VIRTIOFS && m.entry.source == entry.value.tag
      && TopMount(table, entry.value.guestMountPath).Some?
      && IsCopy(m, TopMount(table, entry.value.guestMountPath).value, stagingPath)
    case Publish(stagingPath, targetPath, _) =>
      && m.entry.filesystemType == VIRTIOFS
      && TopMount(table, stagingPath).Some?
      && IsCopy(m, TopMount(table, stagingPath).value, targetPath)
    case _ => false
  }

  // Whether a request is to mount read-only: by its own wish, or for a read-only export.
  predicate WantsReadOnly(runtime: RuntimeConfig, request: Request) {
    match request
    case Stage(volumeId, _, readOnly) =>
      var entry := FindExport(runtime.exports, volumeId);
      readOnly || (entry.Some? && entry.value.access.ReadOnly?)
    case Publish(_, _, readOnly) => readOnly
    case _ => false
  }

  // What one request may do to the table: everything at other paths stays, and a new mount stands at its own, free
  // path, with its provenance; it is read-only if that was wanted and the request succeeded.
  ghost predicate Kept(table: seq<Mount>, after: Outcome, runtime: RuntimeConfig, request: Request) {
    && DistinctPoints(after.table)
    && Readable(after.table)
    && (forall m :: m in table && m.entry.mountPoint != PathOf(request) ==> m in after.table)
    && (forall m :: m in after.table && m !in table ==>
          && Provenance(m, table, runtime, request)
          && (forall x :: x in table ==> x.entry.mountPoint != PathOf(request))
          && (after.result.Ok? && WantsReadOnly(runtime, request) ==> m.readOnly))
  }

  // A step on a readable table acts on what is really mounted.
  lemma StepActs(table: seq<Mount>, runtime: RuntimeConfig, request: Request, env: Environment)
    requires Readable(table)
    ensures env.fault.ReadFails? ==> Step(table, runtime, request, env).table == table
    ensures env.fault.ReadFails? ==> Step(table, runtime, request, env).result.Err?
    ensures !env.fault.ReadFails? ==> Step(table, runtime, request, env) == CarryOut(table, runtime, request, env)
  {
    ReadsTable(table, env);
  }

  function CarryOut(table: seq<Mount>, runtime: RuntimeConfig, request: Request, env: Environment): Outcome {
    if request.Stage? || request.Publish?
    then CarryOutMount(table, ActionOf(table, runtime, request), env)
    else CarryOutUnmount(table, PlanNodeUnmount(PathOf(request), TableEntries(table)), env)
  }

  // A planned bind copies what the request's provenance says.
  lemma BindProvenance(table: seq<Mount>, runtime: RuntimeConfig, request: Request)
    requires DistinctPoints(table) && (request.Stage? || request.Publish?)
    requires ActionOf(table, runtime, request).BindMount?
    ensures var action := ActionOf(table, runtime, request);
            && action.readOnly == WantsReadOnly(runtime, request)
            && TopMount(table, action.source).Some?
            && forall m :: IsCopy(m, TopMount(table, action.source).value, PathOf(request)) ==>
                 Provenance(m, table, runtime, request)
  {
    BindFacts(table, runtime, request);
    hide TopMount, DistinctPoints, TableEntries;
  }

  lemma BindAnswer(table: seq<Mount>, action: MountAction, env: Environment)
    requires action.BindMount? && TopMount(table, action.source).Some?
    ensures var m := Appended(TopMount(table, action.source).value, action, env);
            CarryOutMount(table, action, env).result.Ok? && action.readOnly ==> m.readOnly
  {
  }

  lemma AppendIsKept(
    table: seq<Mount>, m: Mount, result: Result<Done, Status>, runtime: RuntimeConfig, request: Request)
    requires DistinctPoints(table + [m]) && Readable(table) && IsPrintable(ToKernel(m))
    requires Provenance(m, table, runtime, request)
    requires forall x :: x in table ==> x.entry.mountPoint != PathOf(request)
    requires result.Ok? && WantsReadOnly(runtime, request) ==> m.readOnly
    ensures Kept(table, Outcome(table + [m], result), runtime, request)
  {
    hide Provenance, WantsReadOnly, IsPrintable, DistinctPoints;
  }

  lemma SameIsKept(table: seq<Mount>, result: Result<Done, Status>, runtime: RuntimeConfig, request: Request)
    requires DistinctPoints(table) && Readable(table)
    ensures Kept(table, Outcome(table, result), runtime, request)
  {
    hide Provenance, WantsReadOnly, DistinctPoints, Readable;
  }

  lemma MountKeeps(table: seq<Mount>, runtime: RuntimeConfig, request: Request, env: Environment)
    requires DistinctPoints(table) && Readable(table) && Acceptable(request, env)
    requires request.Stage? || request.Publish?
    ensures Kept(table, CarryOutMount(table, ActionOf(table, runtime, request), env), runtime, request)
  {
    hide ActionOf, Provenance, WantsReadOnly, Kept, Appended, IsCopy, TopMount, DistinctPoints, IsPrintable;
    var action := ActionOf(table, runtime, request);
    var after := CarryOutMount(table, action, env);
    SameIsKept(table, after.result, runtime, request);
    if action.BindMount? {
      hide CarryOutMount;
      BindFacts(table, runtime, request);
      BindProvenance(table, runtime, request);
      BindAppends(table, action, env);
      BindAnswer(table, action, env);
      if after.table != table {
        var source := TopMount(table, action.source).value;
        var m := Appended(source, action, env);
        AppendedIds(source, action, env);
        AppendKeepsPoints(table, m);
        CopyIsPrintable(m, source, action.target);
        AppendIsKept(table, m, after.result, runtime, request);
        assert after == Outcome(table + [m], after.result);
      }
    }
  }

  lemma AppendedIds(source: Mount, action: MountAction, env: Environment)
    requires action.BindMount?
    ensures var m := Appended(source, action, env);
            m.entry.mountId == env.mountId && m.entry.parentId == env.parentId && m.entry.mountPoint == action.target
  {
  }

  /** One request appends at most one mount, at a path where nothing was mounted and with the provenance of that
      request, or removes exactly the mount at its own path. Mount points stay distinct and the table stays readable. */
  lemma StepKeepsTable(table: seq<Mount>, runtime: RuntimeConfig, request: Request, env: Environment)
    requires DistinctPoints(table) && Readable(table) && Acceptable(request, env)
    ensures Kept(table, Step(table, runtime, request, env), runtime, request)
    ensures |Step(table, runtime, request, env).table| <= |table| + 1
  {
    hide Step, Provenance, WantsReadOnly;
    StepActs(table, runtime, request, env);
    StepGrows(table, runtime, request, env);
    if !env.fault.ReadFails? {
      if request.Stage? || request.Publish? {
        MountKeeps(table, runtime, request, env);
      } else {
        RemoveTopExactly(table, PathOf(request));
      }
    }
  }

  lemma StepGrows(table: seq<Mount>, runtime: RuntimeConfig, request: Request, env: Environment)
    ensures |Step(table, runtime, request, env).table| <= |table| + 1
  {
    hide CurrentMounts, PlanNodeStage, PlanNodePublish, PlanNodeUnmount, TopMount;
    forall path ensures |RemoveTop(table, path)| <= |table| {
      RemoveTopSize(table, path);
    }
    hide RemoveTop;
  }

  lemma {:induction false} RemoveTopSize(table: seq<Mount>, path: string)
    ensures |RemoveTop(table, path)| <= |table|
  {
    if table != [] {
      RemoveTopSize(table[..|table| - 1], path);
    }
  }

  // ---- Provenance and read-only exports ----

  function GuestPaths(runtime: RuntimeConfig): set<string> {
    set e | e in runtime.exports :: e.guestMountPath
  }

  // Every virtiofs mount carries the tag of a configured export.
  ghost predicate TagsConfigured(table: seq<Mount>, runtime: RuntimeConfig) {
    forall m :: m in table && m.entry.filesystemType == VIRTIOFS ==>
      exists e :: e in runtime.exports && e.tag == m.entry.source
  }

  ghost predicate ShowsReadOnlyExport(m: Mount, runtime: RuntimeConfig) {
    && m.entry.filesystemType == VIRTIOFS
    && m.entry.mountPoint !in GuestPaths(runtime)
    && exists e :: e in runtime.exports && e.tag == m.entry.source && e.access.ReadOnly?
  }

  // Away from the guest's own mount of it, a read-only export is mounted read-only.
  ghost predicate ReadOnlyKept(table: seq<Mount>, runtime: RuntimeConfig) {
    forall m :: m in table && ShowsReadOnlyExport(m, runtime) ==> m.readOnly
  }

  lemma StepKeepsTags(table: seq<Mount>, runtime: RuntimeConfig, request: Request, env: Environment)
    requires DistinctPoints(table) && Readable(table) && Acceptable(request, env)
    requires TagsConfigured(table, runtime)
    ensures TagsConfigured(Step(table, runtime, request, env).table, runtime)
  {
    hide Step;
    StepKeepsTable(table, runtime, request, env);
    if request.Stage? {
      FindExportFinds(runtime.exports, request.volumeId);
    } else if request.Publish? {
      TopMountFinds(table, request.stagingPath);
    }
    hide TopMount, FindExport, DistinctPoints, Readable;
  }

  // A writable mount of a read-only export at the top of a path.
  ghost predicate WritableAt(table: seq<Mount>, runtime: RuntimeConfig, path: string) {
    && TopMount(table, path).Some?
    && !TopMount(table, path).value.readOnly
    && exists e :: e in runtime.exports && e.tag == TopMount(table, path).value.entry.source && e.access.ReadOnly?
  }

  /** The steps that mount a read-only export writable outside the guest's own mounts: a bind from a writable guest
      mount of it, when the read-only remount fails, or when a publish that was not asked to be read-only takes the
      guest mount itself for its staging path. */
  ghost predicate LosesReadOnly(table: seq<Mount>, runtime: RuntimeConfig, request: Request, env: Environment) {
    && (request.Stage? || request.Publish?)
    && ActionOf(table, runtime, request).BindMount?
    && !env.fault.ReadFails? && !env.fault.EnsureDirFails? && !env.fault.BindFails?
    && PathOf(request) !in GuestPaths(runtime)
    && ActionOf(table, runtime, request).source in GuestPaths(runtime)
    && WritableAt(table, runtime, ActionOf(table, runtime, request).source)
    && (env.fault.RemountFails? || (request.Publish? && !request.readOnly))
  }

  lemma StagedExport(table: seq<Mount>, runtime: RuntimeConfig, request: Request)
    requires DistinctPoints(table) && DistinctExports(runtime) && request.Stage?
    requires ActionOf(table, runtime, request).BindMount?
    ensures var entry, action := FindExport(runtime.exports, request.volumeId), ActionOf(table, runtime, request);
            && entry.Some? && action.source == entry.value.guestMountPath
            && action.readOnly == (request.readOnly || entry.value.access.ReadOnly?)
            && TopMount(table, action.source).Some?
            && TopMount(table, action.source).value.entry.source == entry.value.tag
            && (forall e :: e in runtime.exports && e.tag == entry.value.tag ==> e == entry.value)
  {
    BindFacts(table, runtime, request);
    FindExportFinds(runtime.exports, request.volumeId);
    DistinctTags(runtime, FindExport(runtime.exports, request.volumeId).value);
  }

  lemma DistinctTags(runtime: RuntimeConfig, entry: RuntimeExport)
    requires DistinctExports(runtime) && entry in runtime.exports
    ensures forall e :: e in runtime.exports && e.tag == entry.tag ==> e == entry
  {
  }

  lemma AppendReadOnly(table: seq<Mount>, m: Mount, runtime: RuntimeConfig)
    requires ReadOnlyKept(table, runtime)
    ensures ReadOnlyKept(table + [m], runtime) <==> (ShowsReadOnlyExport(m, runtime) ==> m.readOnly)
  {
    assert m in table + [m];
  }

  lemma ReadOnlyBind(table: seq<Mount>, runtime: RuntimeConfig, request: Request, env: Environment)
    requires DistinctPoints(table) && DistinctExports(runtime) && ReadOnlyKept(table, runtime)
    requires (request.Stage? || request.Publish?) && !env.fault.ReadFails?
    ensures ReadOnlyKept(CarryOut(table, runtime, request, env).table, runtime)
            <==> !LosesReadOnly(table, runtime, request, env)
  {
    var action := ActionOf(table, runtime, request);
    if action.BindMount? {
      BindFacts(table, runtime, request);
      BindReadOnly(table, runtime, request);
      hide ActionOf, CarryOutMount;
      BindAppends(table, action, env);
      var source := TopMount(table, action.source).value;
      var m := Appended(source, action, env);
      AppendReadOnly(table, m, runtime);
      hide TopMount, GuestPaths;
      assert ShowsReadOnlyExport(m, runtime) && !m.readOnly ==>
        WritableAt(table, runtime, action.source) && action.source in GuestPaths(runtime);
    }
  }

  // Whether a planned bind is read-only; a read-only export is never planned writable by its stage.
  lemma BindReadOnly(table: seq<Mount>, runtime: RuntimeConfig, request: Request)
    requires DistinctPoints(table) && DistinctExports(runtime) && (request.Stage? || request.Publish?)
    requires ActionOf(table, runtime, request).BindMount?
    ensures request.Publish? ==> ActionOf(table, runtime, request).readOnly == request.readOnly
    ensures request.Stage? && WritableAt(table, runtime, ActionOf(table, runtime, request).source) ==>
      ActionOf(table, runtime, request).readOnly
  {
    if request.Stage? {
      StagedExport(table, runtime, request);
    }
  }

  /** Read-only exports stay read-only in every step except those, and there they do not: the writable mount a failing
      remount leaves is what a retried stage then reports as already staged. */
  lemma StepKeepsReadOnly(table: seq<Mount>, runtime: RuntimeConfig, request: Request, env: Environment)
    requires DistinctPoints(table) && Readable(table) && Acceptable(request, env) && DistinctExports(runtime)
    requires ReadOnlyKept(table, runtime)
    ensures ReadOnlyKept(Step(table, runtime, request, env).table, runtime)
            <==> !LosesReadOnly(table, runtime, request, env)
  {
    hide Step;
    StepActs(table, runtime, request, env);
    if env.fault.ReadFails? {
    } else if request.Stage? || request.Publish? {
      ReadOnlyBind(table, runtime, request, env);
    } else {
      RemoveTopExactly(table, PathOf(request));
      RemovalKeepsReadOnly(table, runtime, PathOf(request));
    }
  }

  lemma RemovalKeepsReadOnly(table: seq<Mount>, runtime: RuntimeConfig, path: string)
    requires DistinctPoints(table) && ReadOnlyKept(table, runtime)
    ensures ReadOnlyKept(RemoveTop(table, path), runtime)
  {
    RemoveTopExactly(table, path);
  }

  /** A publish that takes the guest's own writable mount of a read-only export for its staging path is accepted, and
      gives a pod that export writable. */
  lemma PublishFromGuestMount(
    entry: RuntimeExport, m: Mount, nodeName: string, targetPath: string, env: Environment)
    requires entry.access.ReadOnly? && !m.readOnly && IsPrintable(ToKernel(m)) && env.fault.NoFault?
    requires m.entry.filesystemType == VIRTIOFS && m.entry.source == entry.tag
    requires m.entry.mountPoint == entry.guestMountPath
    requires IsMountable(targetPath) && targetPath != entry.guestMountPath
    requires env.mountId <= 0xFFFF_FFFF_FFFF_FFFF && env.parentId <= 0xFFFF_FFFF_FFFF_FFFF
    ensures var runtime, request := RuntimeConfig(nodeName, [entry]), Publish(entry.guestMountPath, targetPath, false);
            && ReadOnlyKept([m], runtime)
            && Step([m], runtime, request, env) == Outcome([m, BoundMount(m, targetPath, env)], Ok(Mounted))
            && !ReadOnlyKept(Step([m], runtime, request, env).table, runtime)
  {
    var runtime, request := RuntimeConfig(nodeName, [entry]), Publish(entry.guestMountPath, targetPath, false);
    hide IsPrintable, IsMountable;
    assert entry in runtime.exports;
    StepActs([m], runtime, request, env);
    assert TableEntries([m]) == [m.entry] && [m.entry][1..] == [] && [m][..0] == [];
    assert FindMount([m.entry], entry.guestMountPath) == Some(m.entry) && FindMount([m.entry], targetPath) == None;
    assert TopMount([m], entry.guestMountPath) == Some(m);
    assert ActionOf([m], runtime, request) == BindMount(entry.guestMountPath, targetPath, false);
    var bound := BoundMount(m, targetPath, env);
    assert bound in [m, bound] && ShowsReadOnlyExport(bound, runtime);
    hide Step;
  }

  // ---- Repeating and undoing ----

  lemma FindBehindAppend(table: seq<Mount>, m: Mount, path: string)
    ensures TopMount(table + [m], path) == if m.entry.mountPoint == path then Some(m) else TopMount(table, path)
  {
    assert (table + [m])[..|table|] == table;
  }

  // What the planners look up once a bind has appended its copy.
  lemma LookupsBehindBind(table: seq<Mount>, runtime: RuntimeConfig, request: Request, m: Mount)
    requires DistinctPoints(table) && (request.Stage? || request.Publish?)
    requires ActionOf(table, runtime, request).BindMount? && m.entry.mountPoint == PathOf(request)
    ensures var after, action := table + [m], ActionOf(table, runtime, request);
            && DistinctPoints(after)
            && FindMount(TableEntries(after), PathOf(request)) == Some(m.entry)
            && FindMount(TableEntries(after), action.source) == FindMount(TableEntries(table), action.source)
            && TopMount(after, PathOf(request)) == Some(m)
            && RemoveTop(after, PathOf(request)) == table
  {
    BindFacts(table, runtime, request);
    var action := ActionOf(table, runtime, request);
    hide ActionOf;
    var path, after := PathOf(request), table + [m];
    AppendKeepsPoints(table, m);
    FindBehindAppend(table, m, path);
    FindBehindAppend(table, m, action.source);
    FoundIsTop(table, action.source);
    FoundIsTop(after, action.source);
    FoundIsTop(after, path);
    assert after[..|after| - 1] == table;
  }

  // So the same request is already done.

  lemma StageBehindBind(table: seq<Mount>, runtime: RuntimeConfig, request: Request, m: Mount)
    requires DistinctPoints(table) && request.Stage?
    requires ActionOf(table, runtime, request).BindMount? && m.entry.mountPoint == PathOf(request)
    requires FindMount(TableEntries(table), ActionOf(table, runtime, request).source).Some?
    requires FindMount(TableEntries(table), ActionOf(table, runtime, request).source).value.source == m.entry.source
    ensures ActionOf(table + [m], runtime, request) == AlreadyMounted
  {
    LookupsBehindBind(table, runtime, request, m);
    hide TopMount, DistinctPoints, RemoveTop, FindMount, TableEntries, FindExport;
  }

  lemma PublishBehindBind(table: seq<Mount>, runtime: RuntimeConfig, request: Request, m: Mount)
    requires DistinctPoints(table) && request.Publish?
    requires ActionOf(table, runtime, request).BindMount? && m.entry.mountPoint == PathOf(request)
    requires FindMount(TableEntries(table), ActionOf(table, runtime, request).source).Some?
    requires FindMount(TableEntries(table), ActionOf(table, runtime, request).source).value.source == m.entry.source
    ensures ActionOf(table + [m], runtime, request) == AlreadyMounted
  {
    LookupsBehindBind(table, runtime, request, m);
    hide TopMount, DistinctPoints, RemoveTop, FindMount, TableEntries;
  }

  lemma PlansBehindBind(table: seq<Mount>, runtime: RuntimeConfig, request: Request, m: Mount)
    requires DistinctPoints(table) && (request.Stage? || request.Publish?)
    requires ActionOf(table, runtime, request).BindMount?
    requires TopMount(table, ActionOf(table, runtime, request).source).Some?
    requires IsCopy(m, TopMount(table, ActionOf(table, runtime, request).source).value, PathOf(request))
    ensures ActionOf(table + [m], runtime, request) == AlreadyMounted
  {
    BindFacts(table, runtime, request);
    hide ActionOf, DistinctPoints, TableEntries, TopMount, FindMount;
    if request.Stage? {
      StageBehindBind(table, runtime, request, m);
    } else {
      PublishBehindBind(table, runtime, request, m);
    }
  }

  /** After the failing remount a retry of the same stage succeeds and leaves the writable mount in place. */
  lemma RetryAcceptsWritable(
    table: seq<Mount>, runtime: RuntimeConfig, request: Request, env: Environment, retry: Environment)
    requires DistinctPoints(table) && Readable(table) && Acceptable(request, env) && DistinctExports(runtime)
    requires request.Stage? && LosesReadOnly(table, runtime, request, env) && retry.fault.NoFault?
    ensures var after := Step(table, runtime, request, env).table;
            && TopMount(after, request.stagingPath).Some?
            && !TopMount(after, request.stagingPath).value.readOnly
            && Step(after, runtime, request, retry) == Outcome(after, Ok(AlreadyDone))
  {
    StepActs(table, runtime, request, env);
    StepKeepsTable(table, runtime, request, env);
    hide Step;
    var after := Step(table, runtime, request, env).table;
    StepActs(after, runtime, request, retry);
    StagedExport(table, runtime, request);
    var action := ActionOf(table, runtime, request);
    BindAppends(table, action, env);
    BindFacts(table, runtime, request);
    var m := Appended(TopMount(table, action.source).value, action, env);
    LookupsBehindBind(table, runtime, request, m);
    PlansBehindBind(table, runtime, request, m);
  }

  lemma RepeatMount(table: seq<Mount>, runtime: RuntimeConfig, request: Request, env: Environment, again: Environment)
    requires DistinctPoints(table) && (request.Stage? || request.Publish?)
    requires CarryOut(table, runtime, request, env).result.Ok?
    ensures var after := CarryOut(table, runtime, request, env).table;
            CarryOut(after, runtime, request, again) == Outcome(after, Ok(AlreadyDone))
  {
    var action := ActionOf(table, runtime, request);
    if action.BindMount? {
      BindFacts(table, runtime, request);
      var m := Appended(TopMount(table, action.source).value, action, env);
      PlansBehindBind(table, runtime, request, m);
      BindAppends(table, action, env);
      hide ActionOf, PlanNodeUnmount;
      assert CarryOut(table, runtime, request, env).table == table + [m];
    }
  }

  lemma RepeatUnmount(table: seq<Mount>, runtime: RuntimeConfig, request: Request, env: Environment, again: Environment)
    requires DistinctPoints(table) && (request.Unpublish? || request.Unstage?)
    requires CarryOut(table, runtime, request, env).result.Ok?
    ensures var after := CarryOut(table, runtime, request, env).table;
            CarryOut(after, runtime, request, again) == Outcome(after, Ok(AlreadyDone))
  {
    var path := PathOf(request);
    FoundIsTop(table, path);
    GoneBehindUnmount(table, path);
    hide TableEntries, FindMount, TopMount, DistinctPoints, RemoveTop;
  }

  lemma GoneBehindUnmount(table: seq<Mount>, path: string)
    requires DistinctPoints(table)
    ensures FindMount(TableEntries(RemoveTop(table, path)), path) == None
  {
    RemoveTopExactly(table, path);
    TopMountFinds(RemoveTop(table, path), path);
    FoundIsTop(RemoveTop(table, path), path);
  }

  /** A request that succeeded, sent again, succeeds and changes nothing. */
  lemma RepeatIsNoChange(
    table: seq<Mount>, runtime: RuntimeConfig, request: Request, env: Environment, again: Environment)
    requires DistinctPoints(table) && Readable(table) && Acceptable(request, env)
    requires Step(table, runtime, request, env).result.Ok? && !again.fault.ReadFails?
    ensures var after := Step(table, runtime, request, env).table;
            Step(after, runtime, request, again) == Outcome(after, Ok(AlreadyDone))
  {
    StepActs(table, runtime, request, env);
    StepKeepsTable(table, runtime, request, env);
    hide Step;
    StepActs(Step(table, runtime, request, env).table, runtime, request, again);
    hide CarryOut;
    if request.Stage? || request.Publish? {
      RepeatMount(table, runtime, request, env, again);
    } else {
      RepeatUnmount(table, runtime, request, env, again);
    }
  }

  function UndoOf(request: Request): Request
    requires request.Stage? || request.Publish?
  {
    if request.Stage? then Unstage(request.stagingPath) else Unpublish(request.targetPath)
  }

  lemma UndoMount(table: seq<Mount>, runtime: RuntimeConfig, request: Request, m: Mount, env: Environment)
    requires DistinctPoints(table) && (request.Stage? || request.Publish?) && env.fault.NoFault?
    requires ActionOf(table, runtime, request).BindMount? && m.entry.mountPoint == PathOf(request)
    ensures CarryOut(table + [m], runtime, UndoOf(request), env) == Outcome(table, Ok(Unmounted))
  {
    LookupsBehindBind(table, runtime, request, m);
    hide ActionOf;
  }

  /** Unpublish and unstage undo exactly the mount they follow: the table is the one from before. */
  lemma UndoRestores(table: seq<Mount>, runtime: RuntimeConfig, request: Request, env: Environment, env': Environment)
    requires DistinctPoints(table) && Readable(table) && Acceptable(request, env)
    requires (request.Stage? || request.Publish?)
    requires env.fault.NoFault? && env'.fault.NoFault?
    requires ActionOf(table, runtime, request).BindMount?
    ensures var after := Step(table, runtime, request, env);
            && after.result == Ok(Mounted) && after.table != table
            && Step(after.table, runtime, UndoOf(request), env') == Outcome(table, Ok(Unmounted))
  {
    hide Step, ActionOf;
    StepActs(table, runtime, request, env);
    StepKeepsTable(table, runtime, request, env);
    BindFacts(table, runtime, request);
    var action := ActionOf(table, runtime, request);
    var m := Appended(TopMount(table, action.source).value, action, env);
    BindAppends(table, action, env);
    assert CarryOut(table, runtime, request, env).table == table + [m];
    StepActs(table + [m], runtime, UndoOf(request), env');
    UndoMount(table, runtime, request, m, env');
  }

  // ---- Runs ----

  datatype Call = Call(request: Request, env: Environment)

  function Run(table: seq<Mount>, runtime: RuntimeConfig, calls: seq<Call>): seq<Mount> {
    if calls == [] then table
    else
      var before := Run(table, runtime, calls[..|calls| - 1]);
      var last := calls[|calls| - 1];
      Step(before, runtime, last.request, last.env).table
  }

  // Mounts at paths no call of the run names are the ones from the start.
  ghost predicate OthersUntouched(table: seq<Mount>, after: seq<Mount>, calls: seq<Call>) {
    forall m :: m in table && (forall c :: c in calls ==> PathOf(c.request) != m.entry.mountPoint) ==> m in after
  }

  // Every mount was there at the start, or has the provenance of the call that added it.
  ghost predicate Accounted(table: seq<Mount>, runtime: RuntimeConfig, calls: seq<Call>, after: seq<Mount>) {
    forall m :: m in after ==> m in table || exists i :: AddedBy(m, table, runtime, calls, i)
  }

  ghost predicate AddedBy(m: Mount, table: seq<Mount>, runtime: RuntimeConfig, calls: seq<Call>, i: int) {
    0 <= i < |calls| && Provenance(m, Run(table, runtime, calls[..i]), runtime, calls[i].request)
  }

  lemma AddedByFront(m: Mount, table: seq<Mount>, runtime: RuntimeConfig, calls: seq<Call>, n: nat, i: int)
    requires n <= |calls| && AddedBy(m, table, runtime, calls[..n], i)
    ensures AddedBy(m, table, runtime, calls, i)
  {
    hide Provenance, Run;
    assert calls[..n][..i] == calls[..i];
  }

  lemma AccountedNext(table: seq<Mount>, runtime: RuntimeConfig, calls: seq<Call>)
    requires calls != [] && Accounted(table, runtime, calls[..|calls| - 1], Run(table, runtime, calls[..|calls| - 1]))
    requires forall m :: m in Run(table, runtime, calls) && m !in Run(table, runtime, calls[..|calls| - 1]) ==>
      Provenance(m, Run(table, runtime, calls[..|calls| - 1]), runtime, calls[|calls| - 1].request)
    ensures Accounted(table, runtime, calls, Run(table, runtime, calls))
  {
    hide Provenance, Run, AddedBy;
    var n := |calls| - 1;
    forall m | m in Run(table, runtime, calls) && m !in table
      ensures exists i :: AddedBy(m, table, runtime, calls, i)
    {
      if m in Run(table, runtime, calls[..n]) {
        var i :| AddedBy(m, table, runtime, calls[..n], i);
        AddedByFront(m, table, runtime, calls, n, i);
      } else {
        assert AddedBy(m, table, runtime, calls, n) by { hide *; LastAdds(m, table, runtime, calls); }
      }
    }
  }

  lemma LastAdds(m: Mount, table: seq<Mount>, runtime: RuntimeConfig, calls: seq<Call>)
    requires calls != []
    requires Provenance(m, Run(table, runtime, calls[..|calls| - 1]), runtime, calls[|calls| - 1].request)
    ensures AddedBy(m, table, runtime, calls, |calls| - 1)
  {
    hide Provenance, Run;
  }

  /** Over every run: mount points stay distinct, mounts at paths no request names stay, and every mount was there at
      the start or was added by a call of the run with that call's provenance. */
  lemma {:induction false} RunKeeps(table: seq<Mount>, runtime: RuntimeConfig, calls: seq<Call>)
    requires DistinctPoints(table) && Readable(table)
    requires forall c :: c in calls ==> Acceptable(c.request, c.env)
    ensures var after := Run(table, runtime, calls);
            && DistinctPoints(after) && Readable(after)
            && Accounted(table, runtime, calls, after) && OthersUntouched(table, after, calls)
    ensures TagsConfigured(table, runtime) ==> TagsConfigured(Run(table, runtime, calls), runtime)
  {
    hide Provenance, Step, WantsReadOnly, TagsConfigured, DistinctPoints, Readable, Acceptable;
    if calls != [] {
      var last := calls[|calls| - 1];
      assert last in calls;
      RunKeeps(table, runtime, calls[..|calls| - 1]);
      var before := Run(table, runtime, calls[..|calls| - 1]);
      StepKeepsTable(before, runtime, last.request, last.env);
      if TagsConfigured(before, runtime) {
        StepKeepsTags(before, runtime, last.request, last.env);
      }
      AccountedNext(table, runtime, calls);
    }
  }

  // The mounts behind the first calls of the run keep read-only exports read-only.
  ghost predicate KeptBehind(table: seq<Mount>, runtime: RuntimeConfig, calls: seq<Call>, k: nat)
    requires k <= |calls|
  {
    ReadOnlyKept(Run(table, runtime, calls[..k]), runtime)
  }

  ghost predicate LosesAt(table: seq<Mount>, runtime: RuntimeConfig, calls: seq<Call>, i: nat)
    requires i < |calls|
  {
    LosesReadOnly(Run(table, runtime, calls[..i]), runtime, calls[i].request, calls[i].env)
  }

  lemma LosesNext(table: seq<Mount>, runtime: RuntimeConfig, calls: seq<Call>, i: nat)
    requires i < |calls| && DistinctPoints(table) && Readable(table) && DistinctExports(runtime)
    requires forall c :: c in calls ==> Acceptable(c.request, c.env)
    requires KeptBehind(table, runtime, calls, i)
    ensures KeptBehind(table, runtime, calls, i + 1) <==> !LosesAt(table, runtime, calls, i)
  {
    hide Step, LosesReadOnly, ReadOnlyKept, DistinctPoints, Readable, Acceptable, DistinctExports, Accounted;
    hide OthersUntouched;
    RunKeeps(table, runtime, calls[..i]);
    assert calls[..i + 1][..i] == calls[..i];
    StepKeepsReadOnly(Run(table, runtime, calls[..i]), runtime, calls[i].request, calls[i].env);
  }

  /** Through a whole run a read-only export is never mounted writable for a pod, exactly if no call of the run is one
      of the losing ones. */
  lemma {:induction false} RunKeepsReadOnly(table: seq<Mount>, runtime: RuntimeConfig, calls: seq<Call>)
    requires DistinctPoints(table) && Readable(table) && DistinctExports(runtime) && ReadOnlyKept(table, runtime)
    requires forall c :: c in calls ==> Acceptable(c.request, c.env)
    ensures (forall k :: 0 <= k <= |calls| ==> KeptBehind(table, runtime, calls, k))
       <==> (forall i :: 0 <= i < |calls| ==> !LosesAt(table, runtime, calls, i))
  {
    assert KeptBehind(table, runtime, calls, 0) by { assert calls[..0] == []; }
    hide KeptBehind, LosesAt, ReadOnlyKept, DistinctPoints, Readable, Acceptable, DistinctExports;
    if forall i :: 0 <= i < |calls| ==> !LosesAt(table, runtime, calls, i) {
      for k := 0 to |calls|
        invariant forall j :: 0 <= j <= k ==> KeptBehind(table, runtime, calls, j)
      {
        LosesNext(table, runtime, calls, k);
      }
    } else {
      var i :| 0 <= i < |calls| && LosesAt(table, runtime, calls, i);
      if KeptBehind(table, runtime, calls, i) {
        LosesNext(table, runtime, calls, i);
      }
    }
  }
}
