/** The rendered configuration does with each tenant's data what the pipelines say. */
module Compiler {
  import opened Wrappers
  import opened Json
  import opened Graph
  import opened Naming
  import opened Collector
  import opened Render
  import opened Identifiers

  // ---------------------------------------------------------------- what the pipelines mean

  /** What a node's author wrote; a node without a config means an empty one. */
  function Settings(n: Node): Json {
    match n.config
    case Some(fields) => JObj(fields)
    case None => JObj(map[])
  }

  function Stages(ns: seq<Node>): seq<Stage> {
    seq(|ns|, i requires 0 <= i < |ns| => Stage(ns[i].component, Some(Settings(ns[i]))))
  }

  const ENTRY_CHAIN: seq<Stage> := [Stage("memory_limiter", Some(MEMORY_LIMITER)), Stage("batch", Some(BATCH))]

  /** Data through the defaults and the pipeline's processors, in order, to each of its exporters. */
  function Own(p: Pipeline): seq<Delivery> {
    var exporters := Stages(p.graph.exporters);
    seq(|exporters|, i requires 0 <= i < |exporters| => Delivery(ENTRY_CHAIN + Stages(p.graph.processors),
        exporters[i]))
  }

  function OwnFor(signal: string, tenant: string): Pipeline -> seq<Delivery> {
    (p: Pipeline) => if signal in p.graph.signals && p.client == tenant then Own(p) else []
  }

  predicate Carried(ps: seq<Pipeline>, signal: string) { exists i :: 0 <= i < |ps| && signal in ps[i].graph.signals }

  const DRAINED: seq<Delivery> := [Delivery(ENTRY_CHAIN, Stage("debug", Some(JObj(map[]))))]

  /** A signal nobody carries drains to debug; otherwise a tenant's data goes to the tenant's own pipelines for it. */
  function Meaning(ps: seq<Pipeline>, signal: string, tenant: string): seq<Delivery> {
    if Carried(ps, signal) then FlatMap(ps, OwnFor(signal, tenant)) else DRAINED
  }

  // ---------------------------------------------------------------- carried signals

  lemma {:induction false} ListedOnce(signals: seq<string>, signal: string, p: Pipeline)
    requires forall i, j :: 0 <= i < j < |signals| ==> signals[i] != signals[j]
    ensures FlatMap(signals, s => if s == signal then [p] else []) == if signal in signals then [p] else []
  {
    var f := s => if s == signal then [p] else [];
    if signal in signals {
      var k :| 0 <= k < |signals| && signals[k] == signal;
      FlatOnly(signals, f, k);
    } else {
      FlatNothing(signals, f);
    }
  }

  lemma OccursOnce(p: Pipeline, signal: string)
    requires SignalsListed(p.graph.signals)
    ensures Occurrences(signal)(p) == if signal in p.graph.signals then [p] else []
  {
    ListedOnce(p.graph.signals, signal, p);
    FlatSame(p.graph.signals, s => if s == signal then [p] else [], s => if s == signal then [p] else []);
  }

  lemma IdleIffUncarried(ps: seq<Pipeline>, signal: string)
    requires AllNamed(ps)
    ensures Idle(ps, signal) <==> !Carried(ps, signal)
  {
    hide FlatMap;
    forall i | 0 <= i < |ps|
      ensures Occurrences(signal)(ps[i]) == if signal in ps[i].graph.signals then [ps[i]] else []
    {
      OccursOnce(ps[i], signal);
    }
    hide Occurrences;
    if Carried(ps, signal) {
      var i :| 0 <= i < |ps| && signal in ps[i].graph.signals;
      FlatHolds(ps, Occurrences(signal), i, ps[i]);
    } else {
      FlatNothing(ps, Occurrences(signal));
    }
  }

  // ---------------------------------------------------------------- routing tables

  lemma {:induction false} ClientsDistinct(ps: seq<Pipeline>)
    ensures forall i, j :: 0 <= i < j < |Clients(ps)| ==> Clients(ps)[i] != Clients(ps)[j]
    ensures forall i :: 0 <= i < |ps| ==> ps[i].client in Clients(ps)
  {
    if ps == [] {
    } else {
      ClientsDistinct(ps[..|ps| - 1]);
    }
  }

  lemma {:induction false} FirstMatch(table: seq<Route>, tenant: string, k: nat)
    requires k < |table| && table[k].client == tenant && forall i :: 0 <= i < k ==> table[i].client != tenant
    ensures TargetsFor(table, tenant) == table[k].targets
  {
    if k > 0 {
      FirstMatch(table[1..], tenant, k - 1);
    }
  }

  lemma {:induction false} NoMatch(table: seq<Route>, tenant: string)
    requires forall i :: 0 <= i < |table| ==> table[i].client != tenant
    ensures TargetsFor(table, tenant) == []
  {
    if table == [] {
    } else {
      NoMatch(table[1..], tenant);
    }
  }

  /** The table sends a tenant to its own pipelines, in order. */
  lemma TableSelects(routed: seq<Pipeline>, signal: string, tenant: string)
    ensures TargetsFor(Table(routed, signal), tenant) == FlatMap(routed, TargetOf(signal, tenant))
  {
    hide FlatMap;
    ClientsDistinct(routed);
    var clients := Clients(routed);
    if tenant in clients {
      var k :| 0 <= k < |clients| && clients[k] == tenant;
      FirstMatch(Table(routed, signal), tenant, k);
    } else {
      NoMatch(Table(routed, signal), tenant);
      forall i | 0 <= i < |routed| ensures TargetOf(signal, tenant)(routed[i]) == [] {
        assert routed[i].client in clients;
      }
      FlatNothing(routed, TargetOf(signal, tenant));
    }
  }

  // ---------------------------------------------------------------- lookups

  lemma NodeFound(entries: seq<Entry<Json>>, p: Pipeline, ns: seq<Node>, i: nat)
    requires UniqueKeys(entries) && i < |ns| && '/' !in ns[i].component
    requires forall e :: e in NodeEntries(p, ns) ==> e in entries
    ensures Stage(ComponentType(NodeIDs(p, ns)[i]), Find(entries, NodeIDs(p, ns)[i]))
            == Stage(ns[i].component, Some(Settings(ns[i])))
  {
    hide ComponentID, ComponentType, Find;
    var e := NodeEntries(p, ns)[i];
    assert e in NodeEntries(p, ns);
    FoundByKey(entries, e);
    TypeReadsBack(ns[i], i, p.customer, p.slug);
  }

  lemma ChainFound(entries: seq<Entry<Json>>, p: Pipeline, ns: seq<Node>)
    requires UniqueKeys(entries) && NodesNamed(ns)
    requires forall e :: e in NodeEntries(p, ns) ==> e in entries
    ensures Chain(entries, NodeIDs(p, ns)) == Stages(ns)
  {
    hide ComponentID, ComponentType, Find, UniqueKeys;
    forall i | 0 <= i < |ns| ensures Chain(entries, NodeIDs(p, ns))[i] == Stages(ns)[i] {
      NodeFound(entries, p, ns, i);
    }
  }

  lemma SharedType(id: string)
    requires '/' !in id
    ensures ComponentType(id) == id
  {
    NoIndex(id, '/');
  }

  lemma {:induction false} NoIndex(s: string, c: char)
    requires c !in s
    ensures IndexOf(s, c) == None
  {
    if s == [] {
    } else {
      NoIndex(s[1..], c);
    }
  }

  lemma SharedFound(entries: seq<Entry<Json>>, key: string, config: Json)
    requires UniqueKeys(entries) && Entry(key, config) in entries && '/' !in key
    ensures Stage(ComponentType(key), Find(entries, key)) == Stage(key, Some(config))
  {
    FoundByKey(entries, Entry(key, config));
    SharedType(key);
  }

  lemma TwoInChain(entries: seq<Entry<Json>>, a: string, b: string)
    ensures Chain(entries, [a, b])
            == [Stage(ComponentType(a), Find(entries, a)), Stage(ComponentType(b), Find(entries, b))]
  {
    hide Find, ComponentType;
  }

  lemma EntryChainFound(entries: seq<Entry<Json>>)
    requires UniqueKeys(entries) && Entry("memory_limiter", MEMORY_LIMITER) in entries
    requires Entry("batch", BATCH) in entries
    ensures Chain(entries, ENTRY_PROCESSORS) == ENTRY_CHAIN
  {
    hide Find, ComponentType, UniqueKeys, Chain;
    SharedFound(entries, "memory_limiter", MEMORY_LIMITER);
    SharedFound(entries, "batch", BATCH);
    TwoInChain(entries, "memory_limiter", "batch");
  }

  // ---------------------------------------------------------------- one pipeline

  lemma ConnectorIsNoComponent(signal: string, n: Node, i: nat, c: string, p: string)
    requires signal != "" && signal[0] != '_' && '/' !in n.component && '_' !in c
    ensures RoutingConnector(signal) != ComponentID(n, i, c, p)
  {
    var rest := "_" + p + "__" + NodeSuffix(n, i);
    ComponentIDShape(n, i, c, p);
    hide ComponentID, NodeSuffix;
    assert Suffixed(c, p, NodeSuffix(n, i)) == c + ['_'] + rest;
    assert rest[0] == '_';
    if RoutingConnector(signal) == ComponentID(n, i, c, p) {
      assert RoutingConnector(signal) == "routing" + ['/'] + ("tenants" + ['_'] + signal);
      SplitsAtFirst("routing", "tenants" + ['_'] + signal, n.component, c + ['_'] + rest, '/');
      SplitsAtFirst("tenants", signal, c, rest, '_');
    }
  }

  /** The connectors a rendered config may have. */
  predicate RoutingOnly(connectors: seq<Entry<seq<Route>>>) {
    forall e :: e in connectors ==> exists i :: 0 <= i < |SIGNALS| && e.key == RoutingConnector(SIGNALS[i])
  }

  lemma NodeIsNoConnector(connectors: seq<Entry<seq<Route>>>, n: Node, i: nat, c: string, p: string)
    requires RoutingOnly(connectors) && '/' !in n.component && '_' !in c
    ensures Find(connectors, ComponentID(n, i, c, p)) == None
  {
    hide ComponentID;
    SignalsDiffer();
    forall e | e in connectors ensures e.key != ComponentID(n, i, c, p) {
      var k :| 0 <= k < |SIGNALS| && e.key == RoutingConnector(SIGNALS[k]);
      ConnectorIsNoComponent(SIGNALS[k], n, i, c, p);
    }
    NotFound(connectors, ComponentID(n, i, c, p));
  }

  /** The config defines the pipeline's components, and nothing else under their IDs. */
  ghost predicate Hosts(cfg: Config, p: Pipeline) {
    && UniqueKeys(cfg.processors) && UniqueKeys(cfg.exporters) && RoutingOnly(cfg.connectors)
    && (forall e :: e in NodeEntries(p, p.graph.processors) ==> e in cfg.processors)
    && (forall e :: e in NodeEntries(p, p.graph.exporters) ==> e in cfg.exporters)
  }

  lemma {:induction false} FlatSingles<A, B>(xs: seq<A>, f: A -> seq<B>, ys: seq<B>)
    requires |xs| == |ys| && forall i :: 0 <= i < |xs| ==> f(xs[i]) == [ys[i]]
    ensures FlatMap(xs, f) == ys
  {
    if xs == [] {
    } else {
      FlatSingles(xs[..|xs| - 1], f, ys[..|ys| - 1]);
      assert ys == ys[..|ys| - 1] + [ys[|ys| - 1]];
    }
  }

  lemma ThroughOwn(cfg: Config, tenant: string, chain: seq<Stage>, hops: nat, p: Pipeline, svc: Service)
    requires Hosts(cfg, p) && WellNamed(p) && svc.exporters == NodeIDs(p, p.graph.exporters)
    requires chain + Chain(cfg.processors, svc.processors) == ENTRY_CHAIN + Stages(p.graph.processors)
    ensures Through(cfg, tenant, chain, hops, svc) == Own(p)
  {
    hide FlatMap, Find, ComponentID, ComponentType, UniqueKeys, Chain;
    var full := ENTRY_CHAIN + Stages(p.graph.processors);
    var f := id => Reach(cfg, tenant, chain + Chain(cfg.processors, svc.processors), hops, id);
    var ns := p.graph.exporters;
    forall i | 0 <= i < |ns| ensures f(svc.exporters[i]) == [Own(p)[i]] {
      NodeIsNoConnector(cfg.connectors, ns[i], i, p.customer, p.slug);
      NodeFound(cfg.exporters, p, ns, i);
    }
    FlatSingles(svc.exporters, f, Own(p));
  }

  // ---------------------------------------------------------------- the forwarding config

  lemma ForwardingConnectors(ps: seq<Pipeline>)
    ensures RoutingOnly(Forwarding(ps).connectors)
  {
    hide FlatMap, Carrying, Table;
    var es := FlatMap(SIGNALS, ConnectorEntries(ps));
    forall e | e in es ensures exists i :: 0 <= i < |SIGNALS| && e.key == RoutingConnector(SIGNALS[i]) {
      var i := FlatMember(SIGNALS, ConnectorEntries(ps), e);
      assert e.key == RoutingConnector(SIGNALS[i]);
    }
  }

  lemma ForwardingHosts(ps: seq<Pipeline>, i: nat)
    requires AllNamed(ps) && DistinctKeys(ps) && i < |ps|
    ensures Hosts(Forwarding(ps), ps[i])
  {
    ForwardingDefinedOnce(ps);
    ForwardingConnectors(ps);
    hide FlatMap, NodeEntries, UniqueKeys, RoutingOnly, AllNamed, DistinctKeys, Idle;
    forall e | e in NodeEntries(ps[i], ps[i].graph.processors) ensures e in Forwarding(ps).processors {
      FlatHolds(ps, ProcessorEntries(), i, e);
    }
    forall e | e in NodeEntries(ps[i], ps[i].graph.exporters) ensures e in Forwarding(ps).exporters {
      FlatHolds(ps, ExporterEntries(), i, e);
    }
  }

  lemma ServiceFound(ps: seq<Pipeline>, i: nat, k: nat)
    requires AllNamed(ps) && DistinctKeys(ps) && i < |ps| && k < |SIGNALS| && SIGNALS[k] in ps[i].graph.signals
    ensures Find(Forwarding(ps).pipelines, PipelineID(ps[i], SIGNALS[k])) == Some(CustomerService(ps[i], SIGNALS[k]))
  {
    hide FlatMap, Find, UniqueKeys, AllNamed, DistinctKeys, Idle, PipelineID, CustomerService;
    ForwardingDefinedOnce(ps);
    var e := Entry(PipelineID(ps[i], SIGNALS[k]), CustomerService(ps[i], SIGNALS[k]));
    FlatHolds(SIGNALS, ServiceFor(ps[i]), k, e);
    FlatHolds(ps, CustomerPipelines(), i, e);
    FoundByKey(Forwarding(ps).pipelines, e);
  }

  lemma EnteredOwn(ps: seq<Pipeline>, i: nat, k: nat, tenant: string, hops: nat)
    requires AllNamed(ps) && DistinctKeys(ps) && i < |ps| && k < |SIGNALS| && SIGNALS[k] in ps[i].graph.signals
    ensures var connector, target := RoutingConnector(SIGNALS[k]), PipelineID(ps[i], SIGNALS[k]);
            Entered(Forwarding(ps), tenant, ENTRY_CHAIN, hops, connector, target) == Own(ps[i])
  {
    var cfg, p := Forwarding(ps), ps[i];
    ServiceFound(ps, i, k);
    ForwardingHosts(ps, i);
    assert WellNamed(p);
    hide Forwarding, Find, Through, AllNamed, DistinctKeys, PipelineID, Own, NodeEntries;
    ChainFound(cfg.processors, p, p.graph.processors);
    ThroughOwn(cfg, tenant, ENTRY_CHAIN, hops, p, CustomerService(p, SIGNALS[k]));
  }

  function RoutedOwn(tenant: string): Pipeline -> seq<Delivery> {
    (p: Pipeline) => if p.client == tenant then Own(p) else []
  }

  lemma CarryingMember(ps: seq<Pipeline>, signal: string, p: Pipeline) returns (i: nat)
    requires AllNamed(ps) && p in Carrying(ps, signal)
    ensures i < |ps| && ps[i] == p && signal in p.graph.signals
  {
    hide FlatMap;
    i := FlatMember(ps, Occurrences(signal), p);
    OccursOnce(ps[i], signal);
  }

  lemma RoutedDeliveries(ps: seq<Pipeline>, k: nat, tenant: string, hops: nat)
    requires AllNamed(ps) && DistinctKeys(ps) && k < |SIGNALS|
    ensures var routed := Carrying(ps, SIGNALS[k]);
            FlatMap(FlatMap(routed, TargetOf(SIGNALS[k], tenant)),
                    t => Entered(Forwarding(ps), tenant, ENTRY_CHAIN, hops, RoutingConnector(SIGNALS[k]), t))
            == FlatMap(routed, RoutedOwn(tenant))
  {
    var sig := SIGNALS[k];
    var routed := Carrying(ps, sig);
    var g := t => Entered(Forwarding(ps), tenant, ENTRY_CHAIN, hops, RoutingConnector(sig), t);
    forall j | 0 <= j < |routed| ensures FlatMap(TargetOf(sig, tenant)(routed[j]), g) == RoutedOwn(tenant)(routed[j]) {
      hide Entered, Forwarding, PipelineID, Own, Carrying;
      if routed[j].client == tenant {
        var i := CarryingMember(ps, sig, routed[j]);
        EnteredOwn(ps, i, k, tenant, hops);
        FlatOne(PipelineID(routed[j], sig), g);
      }
    }
    hide FlatMap, Entered, Forwarding, Carrying;
    FlatFlat(routed, TargetOf(sig, tenant), g, RoutedOwn(tenant));
  }

  lemma RoutedMeaning(ps: seq<Pipeline>, signal: string, tenant: string)
    requires AllNamed(ps)
    ensures FlatMap(Carrying(ps, signal), RoutedOwn(tenant)) == FlatMap(ps, OwnFor(signal, tenant))
  {
    forall i | 0 <= i < |ps|
      ensures FlatMap(Occurrences(signal)(ps[i]), RoutedOwn(tenant)) == OwnFor(signal, tenant)(ps[i])
    {
      hide Own, WellNamed;
      assert WellNamed(ps[i]);
      OccursOfNamed(ps[i], signal);
      FlatOne(ps[i], RoutedOwn(tenant));
    }
    hide FlatMap;
    FlatFlat(ps, Occurrences(signal), RoutedOwn(tenant), OwnFor(signal, tenant));
  }

  lemma OccursOfNamed(p: Pipeline, signal: string)
    requires WellNamed(p)
    ensures Occurrences(signal)(p) == if signal in p.graph.signals then [p] else []
  {
    OccursOnce(p, signal);
  }

  lemma ConnectorFound(ps: seq<Pipeline>, k: nat)
    requires k < |SIGNALS|
    ensures Find(Forwarding(ps).connectors, RoutingConnector(SIGNALS[k]))
            == if Idle(ps, SIGNALS[k]) then None else Some(Table(Carrying(ps, SIGNALS[k]), SIGNALS[k]))
    ensures !Idle(ps, SIGNALS[k]) ==> |Forwarding(ps).connectors| > 0
  {
    hide FlatMap, Find, Carrying, Table;
    ConnectorsUnique(ps);
    var es := FlatMap(SIGNALS, ConnectorEntries(ps));
    if !Idle(ps, SIGNALS[k]) {
      var e := Entry(RoutingConnector(SIGNALS[k]), Table(Carrying(ps, SIGNALS[k]), SIGNALS[k]));
      FlatHolds(SIGNALS, ConnectorEntries(ps), k, e);
      FoundByKey(es, e);
    } else {
      SignalsDiffer();
      forall j | 0 <= j < |es| ensures es[j].key != RoutingConnector(SIGNALS[k]) {
        var i := FlatMember(SIGNALS, ConnectorEntries(ps), es[j]);
        assert RoutingConnector(SIGNALS[i])[|"routing/tenants_"|..] == SIGNALS[i];
        assert RoutingConnector(SIGNALS[k])[|"routing/tenants_"|..] == SIGNALS[k];
      }
      NotFound(es, RoutingConnector(SIGNALS[k]));
    }
  }

  lemma RoutedSink(ps: seq<Pipeline>, k: nat, tenant: string)
    requires AllNamed(ps) && DistinctKeys(ps) && k < |SIGNALS| && !Idle(ps, SIGNALS[k])
    ensures Reach(Forwarding(ps), tenant, ENTRY_CHAIN, |Forwarding(ps).connectors|, RoutingConnector(SIGNALS[k]))
            == FlatMap(ps, OwnFor(SIGNALS[k], tenant))
  {
    hide FlatMap, Entered, Forwarding, Carrying, Find, Table, AllNamed, DistinctKeys, Own;
    var sig, hops := SIGNALS[k], |Forwarding(ps).connectors|;
    ConnectorFound(ps, k);
    TableSelects(Carrying(ps, sig), sig, tenant);
    RoutedDeliveries(ps, k, tenant, hops - 1);
    RoutedMeaning(ps, sig, tenant);
  }

  lemma DebugIsNoConnector(connectors: seq<Entry<seq<Route>>>)
    requires RoutingOnly(connectors)
    ensures Find(connectors, "debug") == None
  {
    forall e | e in connectors ensures e.key != "debug" {
      var k :| 0 <= k < |SIGNALS| && e.key == RoutingConnector(SIGNALS[k]);
      assert e.key[0] == 'r';
    }
    NotFound(connectors, "debug");
  }

  lemma DrainedSink(cfg: Config, tenant: string, hops: nat)
    requires RoutingOnly(cfg.connectors) && UniqueKeys(cfg.exporters) && DEBUG[0] in cfg.exporters
    ensures Reach(cfg, tenant, ENTRY_CHAIN, hops, "debug") == DRAINED
  {
    hide Find, ComponentType, UniqueKeys;
    DebugIsNoConnector(cfg.connectors);
    SharedFound(cfg.exporters, "debug", JObj(map[]));
  }

  // ---------------------------------------------------------------- entry pipelines

  function IngestOf(cfg: Config, signal: string, tenant: string): Entry<Service> -> seq<Delivery> {
    (e: Entry<Service>) => Ingest(cfg, signal, tenant, e)
  }

  lemma EntrySignal(signal: string)
    requires '/' !in signal
    ensures ComponentType(signal + "/in") == signal
  {
    assert signal + "/in" == signal + ['/'] + "in";
    IndexOfFirst(signal, "in", '/');
  }

  /** Of the entry pipelines, only the one for the signal takes it in. */
  lemma OneEntry(cfg: Config, k: nat, tenant: string, h: string -> seq<Entry<Service>>)
    requires k < |SIGNALS| && Entries(h)
    ensures FlatMap(FlatMap(SIGNALS, h), IngestOf(cfg, SIGNALS[k], tenant))
            == Ingest(cfg, SIGNALS[k], tenant, h(SIGNALS[k])[0])
  {
    SignalsDiffer();
    var f := IngestOf(cfg, SIGNALS[k], tenant);
    var one := (s: string) => FlatMap(h(s), f);
    forall i | 0 <= i < |SIGNALS| ensures one(SIGNALS[i]) == if i == k then f(h(SIGNALS[k])[0]) else [] {
      var e := h(SIGNALS[i])[0];
      assert h(SIGNALS[i]) == [e];
      FlatOne(e, f);
      EntrySignal(SIGNALS[i]);
    }
    hide FlatMap, Ingest;
    FlatFlat(SIGNALS, h, f, one);
    FlatOnly(SIGNALS, one, k);
  }

  lemma OneExporter(cfg: Config, tenant: string, hops: nat, sink: string)
    requires Chain(cfg.processors, ENTRY_PROCESSORS) == ENTRY_CHAIN
    ensures Through(cfg, tenant, [], hops, Service(["otlp"], ENTRY_PROCESSORS, [sink]))
            == Reach(cfg, tenant, ENTRY_CHAIN, hops, sink)
  {
    hide Reach, Chain, FlatMap;
    assert [] + ENTRY_CHAIN == ENTRY_CHAIN;
    FlatOne(sink, id => Reach(cfg, tenant, [] + Chain(cfg.processors, ENTRY_PROCESSORS), hops, id));
    FlatSame([sink], id => Reach(cfg, tenant, [] + Chain(cfg.processors, ENTRY_PROCESSORS), hops, id),
             id => Reach(cfg, tenant, [] + Chain(cfg.processors, ENTRY_PROCESSORS), hops, id));
  }

  lemma CustomersDoNotIngest(cfg: Config, ps: seq<Pipeline>, signal: string, tenant: string)
    ensures FlatMap(FlatMap(ps, CustomerPipelines()), IngestOf(cfg, signal, tenant)) == []
  {
    hide FlatMap, Through;
    var es := FlatMap(ps, CustomerPipelines());
    forall j | 0 <= j < |es| ensures IngestOf(cfg, signal, tenant)(es[j]) == [] {
      var i := FlatMember(ps, CustomerPipelines(), es[j]);
      var k := FlatMember(SIGNALS, ServiceFor(ps[i]), es[j]);
      assert es[j].value.receivers == [RoutingConnector(SIGNALS[k])];
      assert RoutingConnector(SIGNALS[k])[0] == 'r';
    }
    FlatNothing(es, IngestOf(cfg, signal, tenant));
  }

  lemma InterpretSplits(cfg: Config, signal: string, tenant: string, a: seq<Entry<Service>>, b: seq<Entry<Service>>)
    requires cfg.pipelines == a + b
    ensures Interpret(cfg, signal, tenant)
            == FlatMap(a, IngestOf(cfg, signal, tenant)) + FlatMap(b, IngestOf(cfg, signal, tenant))
  {
    hide Ingest;
    FlatSame(cfg.pipelines, e => Ingest(cfg, signal, tenant, e), IngestOf(cfg, signal, tenant));
    FlatConcat(a, b, IngestOf(cfg, signal, tenant));
  }

  lemma ForwardingEntryChain(ps: seq<Pipeline>)
    requires AllNamed(ps) && DistinctKeys(ps)
    ensures Chain(Forwarding(ps).processors, ENTRY_PROCESSORS) == ENTRY_CHAIN
  {
    ForwardingDefinedOnce(ps);
    assert DEFAULTS[0] == Entry("memory_limiter", MEMORY_LIMITER) && DEFAULTS[1] == Entry("batch", BATCH);
    hide FlatMap, UniqueKeys, AllNamed, DistinctKeys, Chain;
    assert Processors(ps)[0] == DEFAULTS[0] && Processors(ps)[1] == DEFAULTS[1];
    EntryChainFound(Forwarding(ps).processors);
  }

  lemma EntryReaches(ps: seq<Pipeline>, k: nat, tenant: string)
    requires AllNamed(ps) && DistinctKeys(ps) && k < |SIGNALS|
    ensures Reach(Forwarding(ps), tenant, ENTRY_CHAIN, |Forwarding(ps).connectors|,
            EntryService(ps, SIGNALS[k]).exporters[0])
            == Meaning(ps, SIGNALS[k], tenant)
  {
    hide FlatMap, Reach, AllNamed, DistinctKeys, Carried, UniqueKeys, RoutingOnly;
    IdleIffUncarried(ps, SIGNALS[k]);
    if Idle(ps, SIGNALS[k]) {
      ForwardingDefinedOnce(ps);
      ForwardingConnectors(ps);
      assert Exporters(ps)[0] == DEBUG[0];
      DrainedSink(Forwarding(ps), tenant, |Forwarding(ps).connectors|);
    } else {
      RoutedSink(ps, k, tenant);
    }
  }

  lemma ForwardingEntries(ps: seq<Pipeline>)
    ensures Entries(EntryPipelines(ps))
  {
    hide Idle;
  }

  /**
   Compiler correctness: in the rendered forwarding config, one signal of one tenant's data reaches exactly the
   exporters of that tenant's pipelines that carry it, each through that pipeline's own processors in order.
   */
  lemma ForwardingMeans(ps: seq<Pipeline>, k: nat, tenant: string)
    requires AllNamed(ps) && DistinctKeys(ps) && k < |SIGNALS|
    ensures Interpret(Forwarding(ps), SIGNALS[k], tenant) == Meaning(ps, SIGNALS[k], tenant)
  {
    var cfg, sig := Forwarding(ps), SIGNALS[k];
    ForwardingEntries(ps);
    SignalsDiffer();
    EntrySignal(sig);
    hide FlatMap, Interpret, Through, Reach, AllNamed, DistinctKeys, Idle, Meaning, ComponentType;
    InterpretSplits(cfg, sig, tenant, FlatMap(SIGNALS, EntryPipelines(ps)), FlatMap(ps, CustomerPipelines()));
    CustomersDoNotIngest(cfg, ps, sig, tenant);
    OneEntry(cfg, k, tenant, EntryPipelines(ps));
    ForwardingEntryChain(ps);
    OneExporter(cfg, tenant, |cfg.connectors|, EntryService(ps, sig).exporters[0]);
    EntryReaches(ps, k, tenant);
  }
}
