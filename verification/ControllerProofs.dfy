/** What the controller keeps when requests run one at a time, what interleaving costs,
    and the publish assignments as a relation on (volume, node) pairs. */
module ControllerProofs {
  import opened Controller
  import opened ControllerInterleaving
  import opened Text
  import opened Wrappers

  // ---- Requests one at a time ----

  datatype Call = Call(request: Request, env: Environment)

  // A backend that answers for the dataset it was asked about.
  predicate AnswersExactly(call: Call) {
    call.request.Create? && call.env.lookup.Ok? && call.env.lookup.value.Some? ==>
      call.request.request.dataset == Some(call.env.lookup.value.value.dataset)
  }

  function ServeAll(config: Config, store: Store, calls: seq<Call>): Store {
    if calls == [] then store
    else
      var last := calls[|calls| - 1];
      Serve(config, ServeAll(config, store, calls[..|calls| - 1]), last.request, last.env)
  }

  predicate DatasetsUnique(state: State) {
    forall a, b :: a in state.volumes && b in state.volumes && a != b ==>
      state.volumes[a].dataset != state.volumes[b].dataset
  }

  // The volume a CreateVolume inserts, if it gets that far.
  function InsertedBy(config: Config, state: State, create: CreateRequest, env: Environment): Option<Volume> {
    match LookupSection(config, state, create)
    case Answered(_) => None
    case RegisterExisting(_) =>
      if env.lookup.Ok? && env.lookup.value.Some? then Some(ExistingVolume(config, create, env.lookup.value.value))
      else None
    case CreateDynamic(dataset) =>
      var volume := DynamicVolume(config, create, dataset);
      if env.backendOk && ValidCapabilities(volume.policy, create.capabilities) then Some(volume) else None
  }

  /** What a CreateVolume does to the volumes: nothing, or one volume named after the request whose name, id and
      dataset no volume had before. */
  lemma CreateInserts(config: Config, store: Store, create: CreateRequest, env: Environment)
    requires AnswersExactly(Call(Create(create), env))
    ensures var after := CreateVolume(config, store, create, env).0;
            match InsertedBy(config, store.state, create, env)
            case None => after.state == store.state
            case Some(v) =>
              && after.state == store.state.(volumes := store.state.volumes[v.id := v])
              && v.id == create.name && v.name == create.name && create.dataset == Some(v.dataset)
              && forall id :: id in store.state.volumes ==> !Matches(store.state.volumes[id], v.name, Some(v.dataset))
  {
    hide ExistingVolume, DynamicVolume, ValidCapabilities, IsBlank;
    CreatedShape(config, create, env);
  }

  lemma CreatedShape(config: Config, create: CreateRequest, env: Environment)
    ensures forall metadata :: var v := ExistingVolume(config, create, metadata);
              v.id == create.name && v.name == create.name && v.dataset == metadata.dataset
    ensures forall dataset :: var v := DynamicVolume(config, create, dataset);
              v.id == create.name && v.name == create.name && v.dataset == dataset
  {
  }

  lemma ServeKeepsUnique(config: Config, store: Store, call: Call)
    requires DatasetsUnique(store.state) && AnswersExactly(call)
    ensures DatasetsUnique(Serve(config, store, call.request, call.env).state)
  {
    if call.request.Create? {
      CreateInserts(config, store, call.request.request, call.env);
      hide InsertedBy, CreateVolume;
    }
  }

  /** One at a time, no two volumes ever share a dataset: deleting a dataset with its volume strands no other. */
  lemma {:induction false} SequentialDatasetsUnique(config: Config, store: Store, calls: seq<Call>)
    requires DatasetsUnique(store.state)
    requires forall c :: c in calls ==> AnswersExactly(c)
    ensures DatasetsUnique(ServeAll(config, store, calls).state)
  {
    if calls != [] {
      SequentialDatasetsUnique(config, store, calls[..|calls| - 1]);
      ServeKeepsUnique(config, ServeAll(config, store, calls[..|calls| - 1]), calls[|calls| - 1]);
    }
  }

  // ---- Replaying a CreateVolume ----

  // `v` is stored under its id, and no other volume answers to its name or dataset.
  predicate SoleMatch(state: State, v: Volume) {
    && v.id in state.volumes && state.volumes[v.id] == v && v.id == v.name
    && forall id :: id in state.volumes && id != v.id ==> !Matches(state.volumes[id], v.name, Some(v.dataset))
  }

  lemma ServeKeepsSoleMatch(config: Config, store: Store, call: Call, v: Volume)
    requires SoleMatch(store.state, v) && AnswersExactly(call)
    requires call.request != Delete(v.id)
    ensures SoleMatch(Serve(config, store, call.request, call.env).state, v)
  {
    if call.request.Create? {
      CreateInserts(config, store, call.request.request, call.env);
      hide InsertedBy, CreateVolume;
    }
  }

  lemma {:induction false} SoleMatchLasts(config: Config, store: Store, calls: seq<Call>, v: Volume)
    requires SoleMatch(store.state, v)
    requires forall c :: c in calls ==> AnswersExactly(c) && c.request != Delete(v.id)
    ensures SoleMatch(ServeAll(config, store, calls).state, v)
  {
    if calls != [] {
      SoleMatchLasts(config, store, calls[..|calls| - 1], v);
      assert calls[|calls| - 1] in calls;
      ServeKeepsSoleMatch(config, ServeAll(config, store, calls[..|calls| - 1]), calls[|calls| - 1], v);
    }
  }

  lemma SoleMatchIsFound(config: Config, state: State, v: Volume, create: CreateRequest)
    requires SoleMatch(state, v) && create.name == v.name && create.dataset == Some(v.dataset) && !IsBlank(create.name)
    ensures LookupSection(config, state, create)
         == Answered(if ValidCapabilities(v.policy, create.capabilities) then Ok(v) else Err(InvalidArgument))
  {
    hide ValidCapabilities, IsBlank;
    assert Matches(state.volumes[v.id], create.name, create.dataset);
  }

  /** A CreateVolume that inserts a volume may still fail: writing the metadata file, or matching the capabilities. */
  lemma InsertedAnswer(config: Config, store: Store, create: CreateRequest, env: Environment, v: Volume)
    requires InsertedBy(config, store.state, create, env) == Some(v)
    ensures !IsBlank(create.name)
    ensures CreateVolume(config, store, create, env).1
         == if !env.persistOk then Err(Internal)
            else if !ValidCapabilities(v.policy, create.capabilities) then Err(InvalidArgument)
            else Ok(v)
  {
    hide ExistingVolume, DynamicVolume, ValidCapabilities, IsBlank;
  }

  /** CreateVolume is idempotent as the CSI specification's CreateVolume section asks: a request that inserted a
      volume, however it was answered, sent again after any requests that do not delete it, is answered from that
      same volume and changes nothing. */
  lemma ReplayReturnsSameVolume(
    config: Config, store: Store, create: CreateRequest, env: Environment, v: Volume, calls: seq<Call>,
    replay: Environment)
    requires AnswersExactly(Call(Create(create), env)) && InsertedBy(config, store.state, create, env) == Some(v)
    requires forall c :: c in calls ==> AnswersExactly(c) && c.request != Delete(v.id)
    ensures var later := ServeAll(config, CreateVolume(config, store, create, env).0, calls);
            CreateVolume(config, later, create, replay) ==
            (later, if ValidCapabilities(v.policy, create.capabilities) then Ok(v) else Err(InvalidArgument))
  {
    hide InsertedBy, ValidCapabilities, IsBlank, ServeAll, LookupSection;
    var created := CreateVolume(config, store, create, env).0;
    CreateInserts(config, store, create, env);
    InsertedAnswer(config, store, create, env, v);
    assert SoleMatch(created.state, v) by { hide CreateVolume, Matches; }
    SoleMatchLasts(config, created, calls, v);
    SoleMatchIsFound(config, ServeAll(config, created, calls).state, v, create);
  }

  // ---- What interleaving costs ----

  // Both requests look first, then both learn the dataset exists and insert.
  function RaceFor(first: CreateRequest, second: CreateRequest, metadata: Metadata): seq<Step> {
    [BeginCreate(0, first), BeginCreate(1, second), LookupAndInsert(0, Ok(Some(metadata))),
      LookupAndInsert(1, Ok(Some(metadata)))]
  }

  predicate RegistersExisting(create: CreateRequest, dataset: string) {
    !IsBlank(create.name) && create.dataset == Some(dataset) && create.existingDataset
  }

  lemma NothingFound(config: Config, create: CreateRequest, dataset: string)
    requires RegistersExisting(create, dataset)
    ensures LookupSection(config, IDLE.store.state, create) == RegisterExisting(dataset)
  {
  }

  /** Any two concurrent requests to register one dataset under two names both pass the first section, and both
      register a volume on it: dataset uniqueness does not survive interleaving. */
  lemma RaceSharesDataset(config: Config, first: CreateRequest, second: CreateRequest, metadata: Metadata)
    requires first.name != second.name
    requires RegistersExisting(first, metadata.dataset) && RegistersExisting(second, metadata.dataset)
    ensures var state := Run(config, IDLE, RaceFor(first, second, metadata)).store.state;
            && first.name in state.volumes && second.name in state.volumes
            && state.volumes[first.name].dataset == state.volumes[second.name].dataset == metadata.dataset
            && !DatasetsUnique(state)
  {
    hide LookupSection, IsBlank;
    var steps := RaceFor(first, second, metadata);
    assert steps[..3][..2] == steps[..2] && steps[..2][..1] == steps[..1] && steps[..1][..0] == [];
    NothingFound(config, first, metadata.dataset);
    NothingFound(config, second, metadata.dataset);
    assert Run(config, IDLE, steps[..1]) == Next(config, IDLE, steps[0])
      == System(IDLE.store, map[0 := AwaitLookup(first)]);
    assert Run(config, IDLE, steps[..2]) == System(IDLE.store, map[0 := AwaitLookup(first), 1 := AwaitLookup(second)]);
    var v, w := ExistingVolume(config, first, metadata), ExistingVolume(config, second, metadata);
    assert Run(config, IDLE, steps[..3]) == System(InsertSection(IDLE.store, v), map[1 := AwaitLookup(second)]);
    assert Run(config, IDLE, steps).store == InsertSection(InsertSection(IDLE.store, v), w);
  }

  // ---- Assignments as a relation ----

  predicate NulFree(s: string) {
    '\0' !in s
  }

  /** The keys tell pairs apart when volume ids have no NUL in them. */
  lemma AssignmentKeyInjective(v: string, n: string, v': string, n': string)
    requires NulFree(v) && NulFree(v')
    requires AssignmentKey(v, n) == AssignmentKey(v', n')
    ensures v == v' && n == n'
  {
    var key := AssignmentKey(v, n);
    assert key[|v|] == '\0' && key[|v'|] == '\0';
    assert forall i :: 0 <= i < |v| ==> key[i] == v[i];
    assert forall i :: 0 <= i < |v'| ==> key[i] == v'[i];
    assert key[..|v|] == v && key[..|v'|] == v';
    assert key[|v| + 1..] == n && key[|v'| + 1..] == n';
  }

  /** Exactly the pairs with a NUL in either part share their key with another pair. */
  lemma AssignmentKeyCollides(v: string, n: string)
    ensures (exists v', n' :: (v', n') != (v, n) && AssignmentKey(v', n') == AssignmentKey(v, n))
       <==> !(NulFree(v) && NulFree(n))
  {
    var key := AssignmentKey(v, n);
    if !NulFree(v) {
      var i :| 0 <= i < |v| && v[i] == '\0';
      assert AssignmentKey(v[..i], v[i + 1..] + ['\0'] + n) == key;
      assert v[..i] != v;
    } else if !NulFree(n) {
      var i :| 0 <= i < |n| && n[i] == '\0';
      assert AssignmentKey(v + ['\0'] + n[..i], n[i + 1..]) == key;
      assert |v + ['\0'] + n[..i]| != |v|;
    } else {
      forall v', n' | AssignmentKey(v', n') == key
        ensures (v', n') == (v, n)
      {
        assert key[|v'|] == '\0';
        assert forall i :: 0 <= i < |v| ==> key[i] == v[i];
        assert forall i :: |v| < i < |key| ==> key[i] == n[i - |v| - 1];
        assert |v'| == |v|;
        assert v' == key[..|v|] == v && n' == key[|v| + 1..] == n;
      }
    }
  }

  // Whether a volume is published to a node, and if so how.
  function PublishedTo(state: State, volumeId: string, nodeId: string): Option<bool> {
    var key := AssignmentKey(volumeId, nodeId);
    if key in state.assignments && state.assignments[key].volumeId == volumeId
        && state.assignments[key].nodeId == nodeId
    then Some(state.assignments[key].readOnly)
    else None
  }

  /** Publishing changes exactly one pair of the relation. */
  lemma PublishRefines(
    store: Store, v: string, n: string, readOnly: bool, caps: seq<VolumeCapability>, v': string, n': string)
    requires NulFree(v) && NulFree(v')
    ensures PublishedTo(PublishSection(store, v, n, readOnly, caps).state, v', n') ==
            if PublishStatus(store, v, n, caps).Ok? && v' == v && n' == n
            then Some(readOnly || store.state.volumes[v].policy.access.ReadOnly?)
            else PublishedTo(store.state, v', n')
  {
    if AssignmentKey(v, n) == AssignmentKey(v', n') {
      AssignmentKeyInjective(v, n, v', n');
    }
    hide AssignmentKey;
  }

  /** Unpublishing removes exactly one pair. */
  lemma UnpublishRefines(store: Store, v: string, n: string, v': string, n': string)
    requires NulFree(v) && NulFree(v')
    ensures PublishedTo(UnpublishSection(store, v, n).state, v', n') ==
            if v' == v && n' == n then None else PublishedTo(store.state, v', n')
  {
    if AssignmentKey(v, n) == AssignmentKey(v', n') {
      AssignmentKeyInjective(v, n, v', n');
    }
    hide AssignmentKey;
  }

  /** Deleting a volume unpublishes it everywhere and nothing else. */
  lemma DeleteRefines(config: Config, store: Store, v: string, v': string, n': string)
    requires !IsBlank(v) && v in store.state.volumes
    ensures PublishedTo(DeleteSection(config, store, v).state, v', n') ==
            if v' == v then None else PublishedTo(store.state, v', n')
  {
    hide AssignmentKey, IsBlank;
  }
}
