/** The edge configuration, fragments and references of rendered configurations. */
module EdgeCompiler {
  import opened Wrappers
  import opened Json
  import opened Graph
  import opened Naming
  import opened Collector
  import opened Render
  import opened Identifiers
  import opened Compiler

  // ---------------------------------------------------------------- edge meaning

  function OwnSignal(signal: string): Pipeline -> seq<Delivery> {
    (p: Pipeline) => if signal in p.graph.signals then Own(p) else []
  }

  /** All data of an edge agent belongs to its one customer. */
  function EdgeMeaning(ps: seq<Pipeline>, signal: string): seq<Delivery> {
    if ps == [] then DRAINED else FlatMap(ps, OwnSignal(signal))
  }

  lemma EdgeHosts(ps: seq<Pipeline>, i: nat)
    requires AllNamed(ps) && DistinctKeys(ps) && i < |ps|
    ensures Hosts(Edge(ps), ps[i])
  {
    EdgeDefinedOnce(ps);
    hide FlatMap, NodeEntries, UniqueKeys, AllNamed, DistinctKeys;
    forall e | e in NodeEntries(ps[i], ps[i].graph.processors) ensures e in Edge(ps).processors {
      FlatHolds(ps, ProcessorEntries(), i, e);
    }
    forall e | e in NodeEntries(ps[i], ps[i].graph.exporters) ensures e in Edge(ps).exporters {
      FlatHolds(ps, ExporterEntries(), i, e);
    }
  }

  lemma EdgeEntryChain(ps: seq<Pipeline>)
    requires AllNamed(ps) && DistinctKeys(ps)
    ensures Chain(Edge(ps).processors, ENTRY_PROCESSORS) == ENTRY_CHAIN
  {
    EdgeDefinedOnce(ps);
    assert DEFAULTS[0] == Entry("memory_limiter", MEMORY_LIMITER) && DEFAULTS[1] == Entry("batch", BATCH);
    hide FlatMap, UniqueKeys, AllNamed, DistinctKeys, Chain;
    assert Processors(ps)[0] == DEFAULTS[0] && Processors(ps)[1] == DEFAULTS[1];
    EntryChainFound(Edge(ps).processors);
  }

  lemma ChainJoins(entries: seq<Entry<Json>>, a: seq<string>, b: seq<string>)
    ensures Chain(entries, a + b) == Chain(entries, a) + Chain(entries, b)
  {
    hide Find, ComponentType;
  }

  lemma EdgeThrough(ps: seq<Pipeline>, i: nat, tenant: string, hops: nat)
    requires AllNamed(ps) && DistinctKeys(ps) && i < |ps|
    ensures Through(Edge(ps), tenant, [], hops, EdgeService(ps[i])) == Own(ps[i])
  {
    var cfg, p := Edge(ps), ps[i];
    EdgeHosts(ps, i);
    EdgeEntryChain(ps);
    assert WellNamed(p);
    hide Edge, Through, AllNamed, DistinctKeys, Own, NodeEntries, Chain;
    ChainFound(cfg.processors, p, p.graph.processors);
    ChainJoins(cfg.processors, ENTRY_PROCESSORS, NodeIDs(p, p.graph.processors));
    var chain := Chain(cfg.processors, ENTRY_PROCESSORS + NodeIDs(p, p.graph.processors));
    assert [] + chain == chain;
    ThroughOwn(cfg, tenant, [], hops, p, EdgeService(p));
  }

  lemma EdgeIngestsOne(ps: seq<Pipeline>, i: nat, signal: string, other: string, tenant: string)
    requires AllNamed(ps) && DistinctKeys(ps) && i < |ps| && '/' !in other
    ensures FlatMap(EdgeServiceFor(ps[i])(other), IngestOf(Edge(ps), signal, tenant))
            == if other == signal then OwnSignal(signal)(ps[i]) else []
  {
    var cfg, p := Edge(ps), ps[i];
    var f := IngestOf(cfg, signal, tenant);
    if other in p.graph.signals {
      var e := Entry(PipelineID(p, other), EdgeService(p));
      hide AllNamed, DistinctKeys, Edge;
      EdgeThrough(ps, i, tenant, |cfg.connectors|);
      SignalReads(p, other);
      hide Through, Own, PipelineID, ComponentType;
      assert f(e) == if other == signal then Own(p) else [];
      hide FlatMap, Ingest;
      FlatOne(e, f);
    } else {
      assert FlatMap([], f) == [];
    }
  }

  lemma EdgeIngests(ps: seq<Pipeline>, i: nat, k: nat, tenant: string)
    requires AllNamed(ps) && DistinctKeys(ps) && i < |ps| && k < |SIGNALS|
    ensures FlatMap(EdgePipelines()(ps[i]), IngestOf(Edge(ps), SIGNALS[k], tenant)) == OwnSignal(SIGNALS[k])(ps[i])
  {
    var f := IngestOf(Edge(ps), SIGNALS[k], tenant);
    var one := (s: string) => FlatMap(EdgeServiceFor(ps[i])(s), f);
    SignalsDiffer();
    hide FlatMap, Edge, Ingest, AllNamed, DistinctKeys, OwnSignal, EdgeServiceFor;
    forall j | 0 <= j < |SIGNALS| ensures one(SIGNALS[j]) == if j == k then OwnSignal(SIGNALS[k])(ps[i]) else [] {
      EdgeIngestsOne(ps, i, SIGNALS[k], SIGNALS[j], tenant);
    }
    FlatFlat(SIGNALS, EdgeServiceFor(ps[i]), f, one);
    FlatOnly(SIGNALS, one, k);
  }

  lemma SignalReads(p: Pipeline, signal: string)
    requires '/' !in signal
    ensures ComponentType(PipelineID(p, signal)) == signal
  {
    SignalReadsBack(signal, p.customer, p.slug);
  }

  lemma EdgeCustomers(ps: seq<Pipeline>, k: nat, tenant: string)
    requires AllNamed(ps) && DistinctKeys(ps) && k < |SIGNALS|
    ensures FlatMap(FlatMap(ps, EdgePipelines()), IngestOf(Edge(ps), SIGNALS[k], tenant))
            == FlatMap(ps, OwnSignal(SIGNALS[k]))
  {
    hide FlatMap, Edge, AllNamed, DistinctKeys, Own;
    forall i | 0 <= i < |ps|
      ensures FlatMap(EdgePipelines()(ps[i]), IngestOf(Edge(ps), SIGNALS[k], tenant)) == OwnSignal(SIGNALS[k])(ps[i])
    {
      EdgeIngests(ps, i, k, tenant);
    }
    FlatFlat(ps, EdgePipelines(), IngestOf(Edge(ps), SIGNALS[k], tenant), OwnSignal(SIGNALS[k]));
  }

  lemma EmptyEdge()
    ensures var cfg := Edge([]);
            && cfg.pipelines == FlatMap(SIGNALS, Draining()) + [] && cfg.connectors == [] && cfg.exporters == DEBUG
            && RoutingOnly(cfg.connectors) && UniqueKeys(cfg.exporters) && DEBUG[0] in cfg.exporters
               && Entries(Draining())
  {
    OneKey(DEBUG);
    assert FlatMap([], ExporterEntries()) == [] && FlatMap([], EdgePipelines()) == [];
    assert DEBUG + [] == DEBUG;
  }

  lemma DrainIngests(cfg: Config, k: nat, tenant: string)
    requires k < |SIGNALS| && ComponentType(SIGNALS[k] + "/in") == SIGNALS[k]
    requires Chain(cfg.processors, ENTRY_PROCESSORS) == ENTRY_CHAIN
    ensures Ingest(cfg, SIGNALS[k], tenant, Draining()(SIGNALS[k])[0])
            == Reach(cfg, tenant, ENTRY_CHAIN, |cfg.connectors|, "debug")
  {
    hide Through, Reach, ComponentType, Chain;
    OneExporter(cfg, tenant, |cfg.connectors|, "debug");
  }

  lemma EdgeDrains(k: nat, tenant: string)
    requires k < |SIGNALS|
    ensures Interpret(Edge([]), SIGNALS[k], tenant) == DRAINED
  {
    var cfg := Edge([]);
    EmptyEdge();
    SignalsDiffer();
    EntrySignal(SIGNALS[k]);
    EdgeEntryChain([]);
    hide Edge, FlatMap, Interpret, Ingest, Through, Reach, ComponentType, RoutingOnly, UniqueKeys, Chain, Entries;
    InterpretSplits(cfg, SIGNALS[k], tenant, FlatMap(SIGNALS, Draining()), []);
    FlatNothing([], IngestOf(cfg, SIGNALS[k], tenant));
    OneEntry(cfg, k, tenant, Draining());
    DrainIngests(cfg, k, tenant);
    DrainedSink(cfg, tenant, |cfg.connectors|);
  }

  /**
   Compiler correctness at the edge: a signal reaches the exporters of every pipeline that carries it, through
   its own processors.
   */
  lemma EdgeMeans(ps: seq<Pipeline>, k: nat, tenant: string)
    requires AllNamed(ps) && DistinctKeys(ps) && k < |SIGNALS|
    ensures Interpret(Edge(ps), SIGNALS[k], tenant) == EdgeMeaning(ps, SIGNALS[k])
  {
    hide FlatMap, Interpret, AllNamed, DistinctKeys;
    if ps == [] {
      EdgeDrains(k, tenant);
    } else {
      var cfg := Edge(ps);
      assert cfg.pipelines == [] + FlatMap(ps, EdgePipelines());
      InterpretSplits(cfg, SIGNALS[k], tenant, [], FlatMap(ps, EdgePipelines()));
      FlatNothing([], IngestOf(cfg, SIGNALS[k], tenant));
      EdgeCustomers(ps, k, tenant);
    }
  }

  // ---------------------------------------------------------------- fragments

  predicate Within<V(==)>(a: seq<Entry<V>>, b: seq<Entry<V>>) { forall e :: e in a ==> e in b }

  predicate SubConfig(a: Config, b: Config) {
    && Within(a.receivers, b.receivers) && Within(a.processors, b.processors) && Within(a.connectors, b.connectors)
    && Within(a.exporters, b.exporters) && Within(a.pipelines, b.pipelines)
  }

  lemma PartWithin<V>(ps: seq<Pipeline>, f: Pipeline -> seq<Entry<V>>, front: seq<Entry<V>>, i: nat)
    requires i < |ps|
    ensures Within(f(ps[i]), front + FlatMap(ps, f))
  {
    hide FlatMap;
    forall e | e in f(ps[i]) ensures e in front + FlatMap(ps, f) {
      FlatHolds(ps, f, i, e);
    }
  }

  /** The entries of a section's nodes, each with the settings its author wrote. */
  predicate HoldsNodes(entries: seq<Entry<Json>>, p: Pipeline, ns: seq<Node>) {
    && |entries| == |ns|
    && forall i :: 0 <= i < |ns| ==> entries[i] == Entry(ComponentID(ns[i], i, p.customer, p.slug), Settings(ns[i]))
  }

  /** Both fragments define every node of the graph, in order and with its own settings, and nothing else. */
  lemma FragmentsHoldNodes(p: Pipeline)
    ensures forall f :: f in [Fragment(p), EdgeFragment(p)] ==>
              && HoldsNodes(f.processors, p, p.graph.processors) && HoldsNodes(f.exporters, p, p.graph.exporters)
              && f.receivers == [] && f.connectors == []
  {
    hide ComponentID;
  }

  /** Each pipeline's stored fragment is part of the full config, in both target classes. */
  lemma FragmentsWithin(ps: seq<Pipeline>, i: nat)
    requires i < |ps|
    ensures SubConfig(Fragment(ps[i]), Forwarding(ps)) && SubConfig(EdgeFragment(ps[i]), Edge(ps))
  {
    hide FlatMap, NodeEntries, Idle, Within;
    PartWithin(ps, ProcessorEntries(), DEFAULTS, i);
    PartWithin(ps, ExporterEntries(), DEBUG, i);
    PartWithin(ps, ExporterEntries(), [], i);
    PartWithin(ps, CustomerPipelines(), FlatMap(SIGNALS, EntryPipelines(ps)), i);
    PartWithin(ps, EdgePipelines(), [], i);
    NothingWithin(RECEIVERS);
    NothingWithin(Forwarding(ps).connectors);
    NothingWithin(Edge(ps).connectors);
  }

  lemma NothingWithin<V>(b: seq<Entry<V>>)
    ensures Within([], b)
  {
  }

  predicate Part<V(==)>(e: Entry<V>, ps: seq<Pipeline>, f: Pipeline -> seq<Entry<V>>) {
    exists i :: 0 <= i < |ps| && e in f(ps[i])
  }

  lemma FromParts<V>(ps: seq<Pipeline>, f: Pipeline -> seq<Entry<V>>, front: seq<Entry<V>>, e: Entry<V>)
    requires e in front + FlatMap(ps, f)
    ensures e in front || Part(e, ps, f)
  {
    if e !in front {
      var i := FlatMember(ps, f, e);
    }
  }

  /** And the full forwarding config holds nothing but shared entries and the fragments. */
  lemma NothingButFragments(ps: seq<Pipeline>)
    ensures forall e :: e in Forwarding(ps).processors ==>
              e in DEFAULTS || Part(e, ps, (p: Pipeline) => Fragment(p).processors)
    ensures forall e :: e in Forwarding(ps).exporters ==>
              e in DEBUG || Part(e, ps, (p: Pipeline) => Fragment(p).exporters)
    ensures forall e :: e in Forwarding(ps).pipelines ==>
      e in FlatMap(SIGNALS, EntryPipelines(ps)) || Part(e, ps, (p: Pipeline) => Fragment(p).pipelines)
  {
    hide FlatMap, NodeEntries, Idle;
    forall e | e in Forwarding(ps).processors
      ensures e in DEFAULTS || Part(e, ps, (p: Pipeline) => Fragment(p).processors)
    {
      FromParts(ps, ProcessorEntries(), DEFAULTS, e);
    }
    forall e | e in Forwarding(ps).exporters ensures e in DEBUG || Part(e, ps, (p: Pipeline) => Fragment(p).exporters) {
      FromParts(ps, ExporterEntries(), DebugSink(ps), e);
    }
    forall e | e in Forwarding(ps).pipelines
      ensures e in FlatMap(SIGNALS, EntryPipelines(ps)) || Part(e, ps, (p: Pipeline) => Fragment(p).pipelines)
    {
      FromParts(ps, CustomerPipelines(), FlatMap(SIGNALS, EntryPipelines(ps)), e);
    }
  }

  /** So does the full edge config; beyond the default processors it shares entries only when it has no pipeline. */
  lemma NothingButEdgeFragments(ps: seq<Pipeline>)
    ensures Edge(ps).receivers == RECEIVERS && Edge(ps).connectors == []
    ensures forall e :: e in Edge(ps).processors ==>
              e in DEFAULTS || Part(e, ps, (p: Pipeline) => EdgeFragment(p).processors)
    ensures forall e :: e in Edge(ps).exporters ==>
              if ps == [] then e in DEBUG else Part(e, ps, (p: Pipeline) => EdgeFragment(p).exporters)
    ensures forall e :: e in Edge(ps).pipelines ==>
      if ps == [] then e in FlatMap(SIGNALS, Draining()) else Part(e, ps, (p: Pipeline) => EdgeFragment(p).pipelines)
  {
    assert FlatMap([], ExporterEntries()) == [] && FlatMap([], EdgePipelines()) == [];
    hide FlatMap, NodeEntries;
    forall e | e in Edge(ps).processors
      ensures e in DEFAULTS || Part(e, ps, (p: Pipeline) => EdgeFragment(p).processors)
    {
      FromParts(ps, ProcessorEntries(), DEFAULTS, e);
    }
    forall e | ps != [] && e in Edge(ps).exporters ensures Part(e, ps, (p: Pipeline) => EdgeFragment(p).exporters) {
      FromParts(ps, ExporterEntries(), [], e);
    }
    forall e | ps != [] && e in Edge(ps).pipelines ensures Part(e, ps, (p: Pipeline) => EdgeFragment(p).pipelines) {
      FromParts(ps, EdgePipelines(), [], e);
    }
  }
}
