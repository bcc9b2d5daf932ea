/** Startup: the indexes over the configuration, the validation of its links and the creation of the pools,
    and the graph construction that later relies on both.  Pools are identified by their names. */
module Startup {

  datatype Option<T> = None | Some(value: T)

  datatype Semantics = Undefined | Inherited | FunctionCall | TaskPool | PriorityTaskPool | ParallelCall

  /** Stream kinds; only the first three have an error output. */
  datatype Kind = Input | Process | Sink | OtherKind(name: string)

  datatype Stream = Stream(id: int, name: string, kind: Kind, service: int)

  datatype Service = Service(id: int, name: string, defaultSemantics: Option<Semantics>)

  datatype Link = Link(
    from: int,
    to: int,
    semantics: Option<Semantics>,
    incomeSemantics: Option<Semantics>,
    pool: Option<string>,
    incomePool: Option<string>,
    priority: Option<int>,
    incomePriority: Option<int>,
    isAsync: bool)

  /** An endpoint or a data connector. */
  datatype Named = Named(id: int, name: string)

  /** A module entry, and whether it can be turned into a module's configuration. */
  datatype Module = Module(name: string, convertible: bool)

  /** Pools and types are identified by their names. */
  datatype Config = Config(
    streams: seq<Stream>,
    services: seq<Service>,
    endpoints: seq<Named>,
    connectors: seq<Named>,
    modules: seq<Module>,
    pools: seq<string>,
    types: seq<string>,
    links: seq<Link>)

  /** The runtime indexes. */
  datatype Index = Index(
    streamsByName: map<string, Stream>,
    streamsById: map<int, Stream>,
    servicesByName: map<string, Service>,
    servicesById: map<int, Service>,
    endpointsByName: map<string, Named>,
    endpointsById: map<int, Named>,
    connectorsByName: map<string, Named>,
    connectorsById: map<int, Named>,
    modules: map<string, Module>,
    pools: set<string>,
    types: set<string>,
    links: map<(int, int), Link>)

  datatype Error =
    | DuplicateName(name: string)
    | DuplicateId(id: int)
    | InvalidModule(name: string)
    | DuplicateLink(from: int, to: int)
    | UnknownService
    | UnknownStream(id: int)
    | NoIncomeSemantics
    | InvalidSemantics
    | NoPoolName
    | NoPriority
    | PoolNotConfigured(name: string)
    | NoLink
    | PoolNotCreated(name: string)

  datatype Result<T> = Ok(value: T) | Err(error: Error)

  // ---------------------------------------------------------------------------
  // Indexes
  // ---------------------------------------------------------------------------

  predicate Distinct<K(==)>(keys: seq<K>) {
    forall i, j :: 0 <= i < j < |keys| ==> keys[i] != keys[j]
  }

  /** A map is the index of a sequence under its keys. */
  ghost predicate Indexes<K(!new), V>(m: map<K, V>, keys: seq<K>, values: seq<V>)
    requires |keys| == |values|
  {
    && (forall i :: 0 <= i < |keys| ==> keys[i] in m && m[keys[i]] == values[i])
    && (forall k <- m :: k in keys)
  }

  function StreamNames(streams: seq<Stream>): (r: seq<string>)
    ensures |r| == |streams|
  {
    seq(|streams|, i requires 0 <= i < |streams| => streams[i].name)
  }

  function StreamIds(streams: seq<Stream>): (r: seq<int>)
    ensures |r| == |streams|
  {
    seq(|streams|, i requires 0 <= i < |streams| => streams[i].id)
  }

  function ServiceNames(services: seq<Service>): (r: seq<string>)
    ensures |r| == |services|
  {
    seq(|services|, i requires 0 <= i < |services| => services[i].name)
  }

  function ServiceIds(services: seq<Service>): (r: seq<int>)
    ensures |r| == |services|
  {
    seq(|services|, i requires 0 <= i < |services| => services[i].id)
  }

  function NamesOf(items: seq<Named>): (r: seq<string>)
    ensures |r| == |items|
  {
    seq(|items|, i requires 0 <= i < |items| => items[i].name)
  }

  function IdsOf(items: seq<Named>): (r: seq<int>)
    ensures |r| == |items|
  {
    seq(|items|, i requires 0 <= i < |items| => items[i].id)
  }

  function ModuleNames(modules: seq<Module>): (r: seq<string>)
    ensures |r| == |modules|
  {
    seq(|modules|, i requires 0 <= i < |modules| => modules[i].name)
  }

  function LinkIds(links: seq<Link>): (r: seq<(int, int)>)
    ensures |r| == |links|
  {
    seq(|links|, i requires 0 <= i < |links| => (links[i].from, links[i].to))
  }

  method IndexStreams(streams: seq<Stream>) returns (byName: map<string, Stream>, byId: map<int, Stream>, error: Option<Error>)
    ensures error.None? <==> Distinct(StreamNames(streams)) && Distinct(StreamIds(streams))
    ensures error.None? ==> Indexes(byName, StreamNames(streams), streams) && Indexes(byId, StreamIds(streams), streams)
  {
    byName, byId := map[], map[];
    for i := 0 to |streams|
      invariant Indexes(byName, StreamNames(streams)[..i], streams[..i]) && Indexes(byId, StreamIds(streams)[..i], streams[..i])
      invariant Distinct(StreamNames(streams)[..i]) && Distinct(StreamIds(streams)[..i])
    {
      var stream := streams[i];
      Appended(byName, StreamNames(streams), streams, i);
      Appended(byId, StreamIds(streams), streams, i);
      if stream.name in byName {
        return byName, byId, Some(DuplicateName(stream.name));
      }
      if stream.id in byId {
        return byName, byId, Some(DuplicateId(stream.id));
      }
      byName := byName[stream.name := stream];
      byId := byId[stream.id := stream];
    }
    WholeIs(StreamNames(streams), streams);
    WholeIs(StreamIds(streams), streams);
    error := None;
  }

  method IndexServices(services: seq<Service>) returns (byName: map<string, Service>, byId: map<int, Service>, error: Option<Error>)
    ensures error.None? <==> Distinct(ServiceNames(services)) && Distinct(ServiceIds(services))
    ensures error.None? ==> Indexes(byName, ServiceNames(services), services) && Indexes(byId, ServiceIds(services), services)
  {
    byName, byId := map[], map[];
    for i := 0 to |services|
      invariant Indexes(byName, ServiceNames(services)[..i], services[..i])
      invariant Indexes(byId, ServiceIds(services)[..i], services[..i])
      invariant Distinct(ServiceNames(services)[..i]) && Distinct(ServiceIds(services)[..i])
    {
      var service := services[i];
      Appended(byName, ServiceNames(services), services, i);
      Appended(byId, ServiceIds(services), services, i);
      if service.name in byName {
        return byName, byId, Some(DuplicateName(service.name));
      }
      if service.id in byId {
        return byName, byId, Some(DuplicateId(service.id));
      }
      byName := byName[service.name := service];
      byId := byId[service.id := service];
    }
    WholeIs(ServiceNames(services), services);
    WholeIs(ServiceIds(services), services);
    error := None;
  }

  /** Endpoints and data connectors are indexed in the same way. */
  method IndexNamed(items: seq<Named>) returns (byName: map<string, Named>, byId: map<int, Named>, error: Option<Error>)
    ensures error.None? <==> Distinct(NamesOf(items)) && Distinct(IdsOf(items))
    ensures error.None? ==> Indexes(byName, NamesOf(items), items) && Indexes(byId, IdsOf(items), items)
  {
    byName, byId := map[], map[];
    for i := 0 to |items|
      invariant Indexes(byName, NamesOf(items)[..i], items[..i]) && Indexes(byId, IdsOf(items)[..i], items[..i])
      invariant Distinct(NamesOf(items)[..i]) && Distinct(IdsOf(items)[..i])
    {
      var item := items[i];
      Appended(byName, NamesOf(items), items, i);
      Appended(byId, IdsOf(items), items, i);
      if item.name in byName {
        return byName, byId, Some(DuplicateName(item.name));
      }
      if item.id in byId {
        return byName, byId, Some(DuplicateId(item.id));
      }
      byName := byName[item.name := item];
      byId := byId[item.id := item];
    }
    WholeIs(NamesOf(items), items);
    WholeIs(IdsOf(items), items);
    error := None;
  }

  /** Every module entry can be turned into a module's configuration. */
  predicate Convertible(modules: seq<Module>) {
    forall m <- modules :: m.convertible
  }

  method IndexModules(modules: seq<Module>) returns (index: map<string, Module>, error: Option<Error>)
    ensures error.None? <==> Distinct(ModuleNames(modules)) && Convertible(modules)
    ensures error.None? ==> Indexes(index, ModuleNames(modules), modules)
  {
    index := map[];
    for i := 0 to |modules|
      invariant Indexes(index, ModuleNames(modules)[..i], modules[..i]) && Distinct(ModuleNames(modules)[..i])
      invariant Convertible(modules[..i])
    {
      var mod := modules[i];
      Appended(index, ModuleNames(modules), modules, i);
      if mod.name in index {
        return index, Some(DuplicateName(mod.name));
      }
      if !mod.convertible {
        return index, Some(InvalidModule(mod.name));
      }
      index := index[mod.name := mod];
    }
    WholeIs(ModuleNames(modules), modules);
    error := None;
  }

  /** Pools and types are indexed by their names. */
  method IndexNames(names: seq<string>) returns (index: set<string>, error: Option<Error>)
    ensures error.None? <==> Distinct(names)
    ensures error.None? ==> forall name :: name in index <==> name in names
  {
    index := {};
    for i := 0 to |names|
      invariant forall name :: name in index <==> name in names[..i]
      invariant Distinct(names[..i])
    {
      if names[i] in index {
        return index, Some(DuplicateName(names[i]));
      }
      index := index + {names[i]};
      assert names[..i + 1] == names[..i] + [names[i]];
    }
    assert names[..|names|] == names;
    error := None;
  }

  method IndexLinks(links: seq<Link>) returns (index: map<(int, int), Link>, error: Option<Error>)
    ensures error.None? <==> Distinct(LinkIds(links))
    ensures error.None? ==> Indexes(index, LinkIds(links), links)
  {
    index := map[];
    for i := 0 to |links|
      invariant Indexes(index, LinkIds(links)[..i], links[..i]) && Distinct(LinkIds(links)[..i])
    {
      var link := links[i];
      Appended(index, LinkIds(links), links, i);
      if (link.from, link.to) in index {
        return index, Some(DuplicateLink(link.from, link.to));
      }
      index := index[(link.from, link.to) := link];
    }
    WholeIs(LinkIds(links), links);
    error := None;
  }

  /** One more entry of an index under construction. */
  lemma Appended<K(!new), V>(m: map<K, V>, keys: seq<K>, values: seq<V>, i: nat)
    requires |keys| == |values| && i < |keys|
    requires Indexes(m, keys[..i], values[..i]) && Distinct(keys[..i])
    ensures keys[i] in m ==> !Distinct(keys)
    ensures keys[i] !in m ==> Distinct(keys[..i + 1]) && Indexes(m[keys[i] := values[i]], keys[..i + 1], values[..i + 1])
  {
    assert keys[..i + 1] == keys[..i] + [keys[i]] && values[..i + 1] == values[..i] + [values[i]];
    if keys[i] in m {
      var j :| 0 <= j < i && keys[..i][j] == keys[i];
      assert keys[j] == keys[i];
    }
  }

  lemma WholeIs<K, V>(keys: seq<K>, values: seq<V>)
    requires |keys| == |values|
    ensures keys[..|keys|] == keys && values[..|keys|] == values
  {
  }

  /** Nothing shares a name or an ID with another of its kind, and no two links share both ends. */
  predicate Unique(config: Config) {
    && Distinct(StreamNames(config.streams)) && Distinct(StreamIds(config.streams))
    && Distinct(ServiceNames(config.services)) && Distinct(ServiceIds(config.services))
    && Distinct(NamesOf(config.endpoints)) && Distinct(IdsOf(config.endpoints))
    && Distinct(NamesOf(config.connectors)) && Distinct(IdsOf(config.connectors))
    && Distinct(ModuleNames(config.modules)) && Distinct(config.pools) && Distinct(config.types)
    && Distinct(LinkIds(config.links))
  }

  ghost predicate IsSetOf(index: set<string>, names: seq<string>) {
    forall name :: name in index <==> name in names
  }

  /** The indexes hold exactly the configuration. */
  ghost predicate IndexOf(ix: Index, config: Config) {
    && Indexes(ix.streamsByName, StreamNames(config.streams), config.streams)
    && Indexes(ix.streamsById, StreamIds(config.streams), config.streams)
    && Indexes(ix.servicesByName, ServiceNames(config.services), config.services)
    && Indexes(ix.servicesById, ServiceIds(config.services), config.services)
    && Indexes(ix.endpointsByName, NamesOf(config.endpoints), config.endpoints)
    && Indexes(ix.endpointsById, IdsOf(config.endpoints), config.endpoints)
    && Indexes(ix.connectorsByName, NamesOf(config.connectors), config.connectors)
    && Indexes(ix.connectorsById, IdsOf(config.connectors), config.connectors)
    && Indexes(ix.modules, ModuleNames(config.modules), config.modules)
    && IsSetOf(ix.pools, config.pools) && IsSetOf(ix.types, config.types)
    && Indexes(ix.links, LinkIds(config.links), config.links)
  }

  /** The indexes are built exactly when nothing is duplicated and every module entry can be converted, and
      then they hold the configuration. */
  method InitRuntimeConfig(config: Config) returns (r: Result<Index>)
    ensures r.Ok? <==> Unique(config) && Convertible(config.modules)
    ensures r.Ok? ==> IndexOf(r.value, config)
  {
    hide Distinct, Indexes, Convertible;
    var streamsByName, streamsById, e1 := IndexStreams(config.streams);
    if e1.Some? {
      return Err(e1.value);
    }
    var servicesByName, servicesById, e2 := IndexServices(config.services);
    if e2.Some? {
      return Err(e2.value);
    }
    var endpointsByName, endpointsById, e3 := IndexNamed(config.endpoints);
    if e3.Some? {
      return Err(e3.value);
    }
    var connectorsByName, connectorsById, e4 := IndexNamed(config.connectors);
    if e4.Some? {
      return Err(e4.value);
    }
    var modules, e5 := IndexModules(config.modules);
    if e5.Some? {
      return Err(e5.value);
    }
    var pools, e6 := IndexNames(config.pools);
    if e6.Some? {
      return Err(e6.value);
    }
    var types, e7 := IndexNames(config.types);
    if e7.Some? {
      return Err(e7.value);
    }
    var links, e8 := IndexLinks(config.links);
    if e8.Some? {
      return Err(e8.value);
    }
    r := Ok(Index(streamsByName, streamsById, servicesByName, servicesById, endpointsByName, endpointsById,
                  connectorsByName, connectorsById, modules, pools, types, links));
  }

  // ---------------------------------------------------------------------------
  // Lookups
  // ---------------------------------------------------------------------------

  predicate HasErrorOutput(kind: Kind) {
    kind.Input? || kind.Process? || kind.Sink?
  }

  /** A negative ID refers to the error output of its owner, when the owner has one. */
  function GetStream(ix: Index, id: int): Option<Stream> {
    if id < 0 && -id in ix.streamsById && HasErrorOutput(ix.streamsById[-id].kind) then Some(ix.streamsById[-id])
    else if id in ix.streamsById then Some(ix.streamsById[id])
    else None
  }

  function GetLink(ix: Index, from: int, to: int): Option<Link> {
    if (from, to) in ix.links then Some(ix.links[(from, to)]) else None
  }

  /** A negative reference gives the owner's configuration exactly when the owner has an error output. */
  lemma ErrorReferenceIffOutput(ix: Index, config: Config, id: int)
    requires IndexOf(ix, config) && id > 0 && id in ix.streamsById
    ensures GetStream(ix, -id) == Some(ix.streamsById[id]) <==> HasErrorOutput(ix.streamsById[id].kind)
  {
    IndexedUnderItsId(ix, config, id);
    if -id in ix.streamsById {
      IndexedUnderItsId(ix, config, -id);
    }
  }

  lemma IndexedUnderItsId(ix: Index, config: Config, id: int)
    requires IndexOf(ix, config) && id in ix.streamsById
    ensures ix.streamsById[id].id == id && ix.streamsById[id] in config.streams
  {
    var i :| 0 <= i < |config.streams| && StreamIds(config.streams)[i] == id;
    assert ix.streamsById[id] == config.streams[i];
  }

  // ---------------------------------------------------------------------------
  // Validation
  // ---------------------------------------------------------------------------

  /** What a link needs in this service. */
  datatype Need = Need(semantics: Semantics, pool: Option<string>, priority: Option<int>)

  predicate Pooled(semantics: Semantics) {
    semantics.TaskPool? || semantics.PriorityTaskPool?
  }

  predicate Callable(semantics: Semantics) {
    semantics.FunctionCall? || semantics.ParallelCall? || Pooled(semantics)
  }

  /** One link's check: nothing for other services' links, an error, or what the link needs. */
  function CheckLink(ix: Index, service: Service, link: Link): Result<Option<Need>> {
    var from, to := GetStream(ix, link.from), GetStream(ix, link.to);
    if from.None? then Err(UnknownStream(link.from))
    else if to.None? then Err(UnknownStream(link.to))
    else if from.value.service != service.id && to.value.service != service.id then Ok(None)
    else
      var outgoing := from.value.service == service.id;
      if !outgoing && link.incomeSemantics.None? then Err(NoIncomeSemantics)
      else
        var semantics := if outgoing then link.semantics else link.incomeSemantics;
        if semantics.None? || !Callable(semantics.value) then Err(InvalidSemantics)
        else if !Pooled(semantics.value) then Ok(Some(Need(semantics.value, None, None)))
        else
          var pool := if outgoing then link.pool else link.incomePool;
          var priority := if outgoing then link.priority else link.incomePriority;
          if pool.None? then Err(NoPoolName)
          else if semantics.value.PriorityTaskPool? && priority.None? then Err(NoPriority)
          else if pool.value !in ix.pools then Err(PoolNotConfigured(pool.value))
          else Ok(Some(Need(semantics.value, pool, if semantics.value.PriorityTaskPool? then priority else None)))
  }

  /** The call semantics of one end of a link, with what a pool of that kind needs: its name, configured, and a
      priority for a priority pool. */
  predicate Usable(ix: Index, semantics: Option<Semantics>, pool: Option<string>, priority: Option<int>) {
    || semantics == Some(FunctionCall) || semantics == Some(ParallelCall)
    || (semantics == Some(TaskPool) && pool.Some? && pool.value in ix.pools)
    || (semantics == Some(PriorityTaskPool) && pool.Some? && pool.value in ix.pools && priority.Some?)
  }

  /** A link passes exactly when both its streams exist and the end that lies in this service is usable: the
      outgoing end, or else the incoming one.  A link of other services only needs its streams. */
  lemma LinkPassesIff(ix: Index, service: Service, link: Link)
    ensures var from, to := GetStream(ix, link.from), GetStream(ix, link.to);
            CheckLink(ix, service, link).Ok? <==>
            && from.Some? && to.Some?
            && (from.value.service == service.id ==> Usable(ix, link.semantics, link.pool, link.priority))
            && (from.value.service != service.id && to.value.service == service.id ==>
                  Usable(ix, link.incomeSemantics, link.incomePool, link.incomePriority))
  {
    hide GetStream;
  }

  /** What a link that passes needs is what its own end says; a pool only where its semantics name one. */
  lemma NeedIsOfOwnEnd(ix: Index, service: Service, link: Link)
    requires CheckLink(ix, service, link).Ok?
    ensures var from, to, need := GetStream(ix, link.from), GetStream(ix, link.to), CheckLink(ix, service, link).value;
            && from.Some? && to.Some?
            && (need.Some? <==> from.value.service == service.id || to.value.service == service.id)
            && (need.Some? ==>
                  var outgoing := from.value.service == service.id;
                  && Some(need.value.semantics) == (if outgoing then link.semantics else link.incomeSemantics)
                  && (need.value.pool.Some? <==> need.value.semantics in [TaskPool, PriorityTaskPool])
                  && (need.value.pool.Some? ==> need.value.pool == if outgoing then link.pool else link.incomePool)
                  && (need.value.priority.Some? <==> need.value.semantics == PriorityTaskPool)
                  && (need.value.priority.Some? ==> need.value.priority == if outgoing then link.priority else link.incomePriority))
  {
    hide GetStream;
  }

  /** Some checked link needs a pool of this name and kind. */
  ghost predicate Needed(ix: Index, service: Service, links: seq<Link>, semantics: Semantics, name: string) {
    exists i :: 0 <= i < |links| && NeedsPool(CheckLink(ix, service, links[i]), semantics, name)
  }

  predicate NeedsPool(r: Result<Option<Need>>, semantics: Semantics, name: string) {
    r.Ok? && r.value.Some? && r.value.value.semantics == semantics && r.value.value.pool == Some(name)
  }

  lemma NeededMore(ix: Index, service: Service, links: seq<Link>, i: nat, semantics: Semantics, name: string)
    requires i < |links|
    ensures Needed(ix, service, links[..i + 1], semantics, name)
            <==> Needed(ix, service, links[..i], semantics, name) || NeedsPool(CheckLink(ix, service, links[i]), semantics, name)
  {
    hide CheckLink, NeedsPool;
    var more := links[..i + 1];
    assert more[i] == links[i];
    assert forall j :: 0 <= j < i ==> more[j] == links[..i][j];
  }

  // ---------------------------------------------------------------------------
  // Graph construction
  // ---------------------------------------------------------------------------

  datatype Caller =
    | Direct(isAsync: bool)
    | ToPool(pool: string)
    | ToPriorityPool(priorityPool: string, priority: int)
    | Parallel

  function SemanticsOf(caller: Caller): Semantics {
    match caller
    case Direct(_) => FunctionCall
    case ToPool(_) => TaskPool
    case ToPriorityPool(_, _) => PriorityTaskPool
    case Parallel => ParallelCall
  }

  function Explicit(semantics: Option<Semantics>): Option<Semantics> {
    if semantics == Some(Inherited) then None else semantics
  }

  /** The semantics of a connection: the link's, else the service's default, else a function call. */
  function Resolve(service: Service, link: Option<Link>, outgoing: bool): Semantics {
    var own := if link.None? then None else Explicit(if outgoing then link.value.semantics else link.value.incomeSemantics);
    if own.Some? then own.value
    else if Explicit(service.defaultSemantics).Some? then service.defaultSemantics.value
    else FunctionCall
  }

  /** The caller for a source stream and its consumer.  An error output has its owner's ID and configuration,
      and its own connection key. */
  function MakeCaller(ix: Index, service: Service, taskPools: set<string>, priorityPools: set<string>,
                      source: int, errorOutput: bool, consumer: int): Result<Caller>
  {
    var link := GetLink(ix, if errorOutput then -source else source, consumer);
    var stream := GetStream(ix, source);
    if stream.None? then Err(UnknownStream(source))
    else
      var outgoing := stream.value.service == service.id;
      var semantics := Resolve(service, link, outgoing);
      match semantics
      case FunctionCall => Ok(Direct(link.Some? && link.value.semantics == Some(FunctionCall) && link.value.isAsync))
      case TaskPool =>
        if link.None? then Err(NoLink)
        else
          var pool := if outgoing then link.value.pool else link.value.incomePool;
          if pool.None? then Err(NoPoolName)
          else if pool.value !in taskPools then Err(PoolNotCreated(pool.value))
          else Ok(ToPool(pool.value))
      case PriorityTaskPool =>
        if link.None? then Err(NoLink)
        else
          var pool := if outgoing then link.value.pool else link.value.incomePool;
          var priority := if outgoing then link.value.priority else link.value.incomePriority;
          if pool.None? then Err(NoPoolName)
          else if priority.None? then Err(NoPriority)
          else if pool.value !in priorityPools then Err(PoolNotCreated(pool.value))
          else Ok(ToPriorityPool(pool.value, priority.value))
      case ParallelCall => Ok(Parallel)
      case _ => Err(InvalidSemantics)
  }

  // ---------------------------------------------------------------------------
  // The service
  // ---------------------------------------------------------------------------

  class ServiceApp {
    var taskPools: set<string>
    var priorityTaskPools: set<string>

    constructor ()
      ensures taskPools == {} && priorityTaskPools == {}
    {
      taskPools, priorityTaskPools := {}, {};
    }

    /** Check the links in order, creating each pool that one of them needs.  It succeeds exactly when every
        link passes; then the pools are the earlier ones and exactly those that the links need. */
    method ServiceInit(ix: Index, links: seq<Link>, name: string) returns (r: Result<Service>)
      modifies this
      ensures r.Ok? <==> name in ix.servicesByName
                         && forall i :: 0 <= i < |links| ==> CheckLink(ix, ix.servicesByName[name], links[i]).Ok?
      ensures r.Ok? ==> r.value == ix.servicesByName[name]
      ensures r.Ok? ==> forall pool ::
                (pool in taskPools <==> pool in old(taskPools) || Needed(ix, r.value, links, TaskPool, pool))
                && (pool in priorityTaskPools <==>
                      pool in old(priorityTaskPools) || Needed(ix, r.value, links, PriorityTaskPool, pool))
    {
      if name !in ix.servicesByName {
        return Err(UnknownService);
      }
      var service := ix.servicesByName[name];
      for i := 0 to |links|
        invariant forall j :: 0 <= j < i ==> CheckLink(ix, service, links[j]).Ok?
        invariant forall pool ::
          (pool in taskPools <==> pool in old(taskPools) || Needed(ix, service, links[..i], TaskPool, pool))
          && (pool in priorityTaskPools <==>
                pool in old(priorityTaskPools) || Needed(ix, service, links[..i], PriorityTaskPool, pool))
      {
        var need := CheckOne(ix, service, links[i]);
        if need.Err? {
          return Err(need.error);
        }
        forall pool, semantics
          ensures Needed(ix, service, links[..i + 1], semantics, pool)
                  <==> Needed(ix, service, links[..i], semantics, pool) || NeedsPool(need, semantics, pool)
        {
          NeededMore(ix, service, links, i, semantics, pool);
        }
        if need.value.Some? && need.value.value.pool.Some? {
          var pool := need.value.value.pool.value;
          if need.value.value.semantics == TaskPool {
            taskPools := taskPools + {pool};
          } else if need.value.value.semantics == PriorityTaskPool {
            priorityTaskPools := priorityTaskPools + {pool};
          }
        }
      }
      assert links[..|links|] == links;
      r := Ok(service);
    }
  }

  /** The body of the validation loop. */
  method CheckOne(ix: Index, service: Service, link: Link) returns (r: Result<Option<Need>>)
    ensures r == CheckLink(ix, service, link)
  {
    var from := GetStream(ix, link.from);
    if from.None? {
      return Err(UnknownStream(link.from));
    }
    var to := GetStream(ix, link.to);
    if to.None? {
      return Err(UnknownStream(link.to));
    }
    if from.value.service != service.id && to.value.service != service.id {
      return Ok(None);
    }
    var semantics;
    if from.value.service == service.id {
      semantics := link.semantics;
    } else {
      if link.incomeSemantics.None? {
        return Err(NoIncomeSemantics);
      }
      semantics := link.incomeSemantics;
    }
    if semantics !in [Some(FunctionCall), Some(TaskPool), Some(PriorityTaskPool), Some(ParallelCall)] {
      return Err(InvalidSemantics);
    }
    if semantics !in [Some(TaskPool), Some(PriorityTaskPool)] {
      return Ok(Some(Need(semantics.value, None, None)));
    }
    var pool, priority;
    if from.value.service == service.id {
      pool, priority := link.pool, link.priority;
    } else {
      pool, priority := link.incomePool, link.incomePriority;
    }
    if pool.None? {
      return Err(NoPoolName);
    }
    if semantics == Some(PriorityTaskPool) && priority.None? {
      return Err(NoPriority);
    }
    if pool.value !in ix.pools {
      return Err(PoolNotConfigured(pool.value));
    }
    r := Ok(Some(Need(semantics.value, pool, if semantics == Some(PriorityTaskPool) then priority else None)));
  }

  // ---------------------------------------------------------------------------
  // Validation is sound for graph construction
  // ---------------------------------------------------------------------------

  /** The startup succeeded with these indexes and pools. */
  ghost predicate Started(config: Config, ix: Index, service: Service, taskPools: set<string>, priorityPools: set<string>) {
    && IndexOf(ix, config)
    && (forall i :: 0 <= i < |config.links| ==> CheckLink(ix, service, config.links[i]).Ok?)
    && (forall pool :: Needed(ix, service, config.links, TaskPool, pool) ==> pool in taskPools)
    && (forall pool :: Needed(ix, service, config.links, PriorityTaskPool, pool) ==> pool in priorityPools)
  }

  /** The link of the configuration is the one that graph construction finds. */
  lemma LinkIsFound(config: Config, ix: Index, i: nat)
    requires IndexOf(ix, config) && i < |config.links|
    ensures GetLink(ix, config.links[i].from, config.links[i].to) == Some(config.links[i])
  {
    assert LinkIds(config.links)[i] == (config.links[i].from, config.links[i].to);
  }

  /** The source of a link as graph construction sees it: a stream, or an error output under its owner's ID. */
  predicate SourceOf(ix: Index, link: Link, source: int, errorOutput: bool) {
    if errorOutput then source >= 0 && link.from == -source && source in ix.streamsById && HasErrorOutput(ix.streamsById[source].kind)
    else link.from == source
  }

  lemma SameStream(ix: Index, link: Link, source: int, errorOutput: bool)
    requires SourceOf(ix, link, source, errorOutput)
    ensures GetStream(ix, link.from) == GetStream(ix, source)
  {
  }

  /** What graph construction must give for a link's need. */
  predicate Serves(r: Result<Caller>, need: Need, taskPools: set<string>, priorityPools: set<string>) {
    && r.Ok? && SemanticsOf(r.value) == need.semantics
    && (r.value.ToPool? ==> need.pool == Some(r.value.pool) && r.value.pool in taskPools)
    && (r.value.ToPriorityPool? ==> need.pool == Some(r.value.priorityPool) && r.value.priorityPool in priorityPools
                                    && need.priority == Some(r.value.priority))
  }

  lemma CallerServesNeed(ix: Index, service: Service, link: Link, taskPools: set<string>, priorityPools: set<string>,
                         source: int, errorOutput: bool)
    requires GetLink(ix, if errorOutput then -source else source, link.to) == Some(link)
    requires GetStream(ix, link.from) == GetStream(ix, source)
    requires CheckLink(ix, service, link).Ok? && CheckLink(ix, service, link).value.Some?
    requires var need := CheckLink(ix, service, link).value.value;
             && (need.semantics == TaskPool && need.pool.Some? ==> need.pool.value in taskPools)
             && (need.semantics == PriorityTaskPool && need.pool.Some? ==> need.pool.value in priorityPools)
    ensures Serves(MakeCaller(ix, service, taskPools, priorityPools, source, errorOutput, link.to),
                   CheckLink(ix, service, link).value.value, taskPools, priorityPools)
  {
    hide GetStream, GetLink;
  }

  /** A direct call is asynchronous only by the flag of a link whose own semantics are a function call. */
  lemma DirectCallFlag(ix: Index, service: Service, link: Link, taskPools: set<string>, priorityPools: set<string>,
                       source: int, errorOutput: bool)
    requires GetLink(ix, if errorOutput then -source else source, link.to) == Some(link)
    ensures var r := MakeCaller(ix, service, taskPools, priorityPools, source, errorOutput, link.to);
            r.Ok? && r.value.Direct? ==> r.value.isAsync == (link.semantics == Some(FunctionCall) && link.isAsync)
  {
    hide GetStream, GetLink;
  }

  /** After a successful startup every link of this service gets its caller: with the semantics that the
      validation saw, and with the pool, pool name and priority it needs. */
  lemma ValidationIsSound(config: Config, ix: Index, service: Service, taskPools: set<string>, priorityPools: set<string>,
                          i: nat, source: int, errorOutput: bool)
    requires Started(config, ix, service, taskPools, priorityPools)
    requires i < |config.links| && SourceOf(ix, config.links[i], source, errorOutput)
    requires CheckLink(ix, service, config.links[i]).value.Some?
    ensures Serves(MakeCaller(ix, service, taskPools, priorityPools, source, errorOutput, config.links[i].to),
                   CheckLink(ix, service, config.links[i]).value.value, taskPools, priorityPools)
  {
    var link := config.links[i];
    LinkIsFound(config, ix, i);
    SameStream(ix, link, source, errorOutput);
    hide IndexOf, GetStream, GetLink, CheckLink, MakeCaller, Serves;
    var need := CheckLink(ix, service, link).value.value;
    if need.pool.Some? {
      assert NeedsPool(CheckLink(ix, service, config.links[i]), need.semantics, need.pool.value);
      assert Needed(ix, service, config.links, need.semantics, need.pool.value);
    }
    CallerServesNeed(ix, service, link, taskPools, priorityPools, source, errorOutput);
  }

  /** The link of a connection, if it has one. */
  lemma FoundLink(config: Config, ix: Index, from: int, to: int) returns (i: nat)
    requires IndexOf(ix, config) && GetLink(ix, from, to).Some?
    ensures i < |config.links| && config.links[i] == GetLink(ix, from, to).value
    ensures config.links[i].from == from && config.links[i].to == to
  {
    i :| 0 <= i < |config.links| && LinkIds(config.links)[i] == (from, to);
    assert config.links[i] == GetLink(ix, from, to).value;
  }

  lemma OwnLinkIsChecked(ix: Index, service: Service, link: Link)
    requires GetStream(ix, link.from).Some? && GetStream(ix, link.from).value.service == service.id
    requires CheckLink(ix, service, link).Ok?
    ensures CheckLink(ix, service, link).value.Some?
    ensures link.semantics == Some(CheckLink(ix, service, link).value.value.semantics)
  {
    hide GetStream;
  }

  lemma SemanticsOfDirect(r: Result<Caller>)
    ensures r.Ok? && r.value.Direct? ==> SemanticsOf(r.value) == FunctionCall
  {
  }

  /** A link of this service with inherited semantics does not start: after a successful startup each of
      its connections with a link uses the link's own semantics. */
  lemma LinkedConnectionsAreExplicit(config: Config, ix: Index, service: Service, taskPools: set<string>,
                                     priorityPools: set<string>, source: int, errorOutput: bool, consumer: int)
    requires Started(config, ix, service, taskPools, priorityPools) && source in ix.streamsById && source >= 0
    requires errorOutput ==> HasErrorOutput(ix.streamsById[source].kind)
    requires ix.streamsById[source].service == service.id
    requires GetLink(ix, if errorOutput then -source else source, consumer).Some?
    ensures var r := MakeCaller(ix, service, taskPools, priorityPools, source, errorOutput, consumer);
            var link := GetLink(ix, if errorOutput then -source else source, consumer).value;
            r.Ok? && Some(SemanticsOf(r.value)) == link.semantics && (r.value.Direct? ==> r.value.isAsync == link.isAsync)
  {
    var i := FoundLink(config, ix, if errorOutput then -source else source, consumer);
    var link := config.links[i];
    SameStream(ix, link, source, errorOutput);
    assert GetStream(ix, source) == Some(ix.streamsById[source]);
    assert CheckLink(ix, service, link).Ok?;
    hide IndexOf, Needed, Started, GetStream, GetLink, MakeCaller, CheckLink, SemanticsOf;
    OwnLinkIsChecked(ix, service, link);
    assert GetLink(ix, if errorOutput then -source else source, link.to) == Some(link);
    DirectCallFlag(ix, service, link, taskPools, priorityPools, source, errorOutput);
    SemanticsOfDirect(MakeCaller(ix, service, taskPools, priorityPools, source, errorOutput, consumer));
    ValidationIsSound(config, ix, service, taskPools, priorityPools, i, source, errorOutput);
  }

  /** A connection without a link uses the service's default, and gets its caller exactly when that needs no pool. */
  lemma UnlinkedConnectionsUseTheDefault(ix: Index, service: Service, taskPools: set<string>, priorityPools: set<string>,
                                         source: int, errorOutput: bool, consumer: int)
    requires GetStream(ix, source).Some? && GetLink(ix, if errorOutput then -source else source, consumer).None?
    ensures var r := MakeCaller(ix, service, taskPools, priorityPools, source, errorOutput, consumer);
            && (r.Ok? <==> service.defaultSemantics in [None, Some(Inherited), Some(FunctionCall), Some(ParallelCall)])
            && (r.Ok? ==> SemanticsOf(r.value) == if service.defaultSemantics == Some(ParallelCall) then ParallelCall else FunctionCall)
  {
    hide GetStream, GetLink;
  }

  lemma IncomingLinkIsChecked(ix: Index, service: Service, link: Link)
    requires GetStream(ix, link.from).Some? && GetStream(ix, link.to).Some?
    requires GetStream(ix, link.from).value.service == service.id || GetStream(ix, link.to).value.service == service.id
    requires CheckLink(ix, service, link).Ok?
    ensures CheckLink(ix, service, link).value.Some?
  {
    hide GetStream;
  }

  /** After a successful startup, a connection that touches this service gets a caller if and only if it has
      a link, or the service's default semantics need no pool. */
  lemma ConnectionGetsCallerIff(config: Config, ix: Index, service: Service, taskPools: set<string>,
                                priorityPools: set<string>, source: int, errorOutput: bool, consumer: int)
    requires Started(config, ix, service, taskPools, priorityPools) && source in ix.streamsById && source >= 0
    requires errorOutput ==> HasErrorOutput(ix.streamsById[source].kind)
    requires GetStream(ix, consumer).Some?
    requires ix.streamsById[source].service == service.id || GetStream(ix, consumer).value.service == service.id
    ensures MakeCaller(ix, service, taskPools, priorityPools, source, errorOutput, consumer).Ok? <==>
            (GetLink(ix, if errorOutput then -source else source, consumer).Some?
             || service.defaultSemantics in [None, Some(Inherited), Some(FunctionCall), Some(ParallelCall)])
  {
    var from := if errorOutput then -source else source;
    if GetLink(ix, from, consumer).Some? {
      var i := FoundLink(config, ix, from, consumer);
      var link := config.links[i];
      SameStream(ix, link, source, errorOutput);
      assert GetStream(ix, source) == Some(ix.streamsById[source]);
      assert CheckLink(ix, service, link).Ok?;
      hide IndexOf, Needed, Started, GetStream, GetLink, MakeCaller, CheckLink;
      IncomingLinkIsChecked(ix, service, link);
      ValidationIsSound(config, ix, service, taskPools, priorityPools, i, source, errorOutput);
    } else {
      UnlinkedConnectionsUseTheDefault(ix, service, taskPools, priorityPools, source, errorOutput, consumer);
    }
  }

  /** The whole startup: the indexes, then the service; after it, each of the service's links has a caller. */
  method Startup(config: Config, name: string) returns (r: Result<(Index, Service, set<string>, set<string>)>)
    ensures r.Ok? ==> r.value.1.name == name && Started(config, r.value.0, r.value.1, r.value.2, r.value.3)
    ensures r.Ok? ==> Unique(config) && Convertible(config.modules)
  {
    var index := InitRuntimeConfig(config);
    if index.Err? {
      return Err(index.error);
    }
    var app := new ServiceApp();
    var service := app.ServiceInit(index.value, config.links, name);
    if service.Err? {
      return Err(service.error);
    }
    ServiceHasName(config, index.value, name);
    hide IndexOf, Unique, Convertible, Needed;
    r := Ok((index.value, service.value, app.taskPools, app.priorityTaskPools));
  }

  lemma ServiceHasName(config: Config, ix: Index, name: string)
    requires IndexOf(ix, config) && name in ix.servicesByName
    ensures ix.servicesByName[name].name == name
  {
    var i :| 0 <= i < |config.services| && ServiceNames(config.services)[i] == name;
    assert ix.servicesByName[name] == config.services[i];
  }
}
