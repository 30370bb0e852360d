/** Every reference inside a rendered configuration resolves. */
module References {
  import opened Wrappers
  import opened Json
  import opened Graph
  import opened Naming
  import opened Collector
  import opened Render
  import opened Identifiers
  import opened Compiler
  import opened EdgeCompiler

  predicate Defined<V>(es: seq<Entry<V>>, key: string) { exists i :: 0 <= i < |es| && es[i].key == key }

  predicate AllDefined<V>(es: seq<Entry<V>>, keys: seq<string>) { forall i :: 0 <= i < |keys| ==> Defined(es, keys[i]) }

  predicate DefinedIn<V, W>(es: seq<Entry<V>>, ds: seq<Entry<W>>, keys: seq<string>) {
    forall i :: 0 <= i < |keys| ==> Defined(es, keys[i]) || Defined(ds, keys[i])
  }

  predicate ServiceResolves(cfg: Config, svc: Service) {
    && DefinedIn(cfg.receivers, cfg.connectors, svc.receivers)
    && AllDefined(cfg.processors, svc.processors)
    && DefinedIn(cfg.exporters, cfg.connectors, svc.exporters)
  }

  /** A target exists and takes data from the connector. */
  predicate TargetResolves(cfg: Config, connector: string, target: string) {
    exists i :: 0 <= i < |cfg.pipelines| && cfg.pipelines[i].key == target
        && connector in cfg.pipelines[i].value.receivers
  }

  predicate TableResolves(cfg: Config, connector: string, table: seq<Route>) {
    forall i, j :: 0 <= i < |table| && 0 <= j < |table[i].targets|
        ==> TargetResolves(cfg, connector, table[i].targets[j])
  }

  predicate Resolves(cfg: Config) {
    && (forall i :: 0 <= i < |cfg.pipelines| ==> ServiceResolves(cfg, cfg.pipelines[i].value))
    && (forall i :: 0 <= i < |cfg.connectors| ==> TableResolves(cfg, cfg.connectors[i].key, cfg.connectors[i].value))
  }

  lemma EntryDefined<V>(es: seq<Entry<V>>, e: Entry<V>)
    requires e in es
    ensures Defined(es, e.key)
  {
  }

  lemma NodesDefined(es: seq<Entry<Json>>, p: Pipeline, ns: seq<Node>)
    requires forall e :: e in NodeEntries(p, ns) ==> e in es
    ensures AllDefined(es, NodeIDs(p, ns))
  {
    hide ComponentID, Defined;
    forall i | 0 <= i < |ns| ensures Defined(es, NodeIDs(p, ns)[i]) {
      assert NodeEntries(p, ns)[i] in NodeEntries(p, ns);
      EntryDefined(es, NodeEntries(p, ns)[i]);
    }
  }

  lemma Joined(es: seq<Entry<Json>>, a: seq<string>, b: seq<string>)
    requires AllDefined(es, a) && AllDefined(es, b)
    ensures AllDefined(es, a + b)
  {
    hide Defined;
  }

  lemma DefaultsDefined(es: seq<Entry<Json>>)
    requires Entry("memory_limiter", MEMORY_LIMITER) in es && Entry("batch", BATCH) in es
    ensures AllDefined(es, ENTRY_PROCESSORS)
  {
    EntryDefined(es, Entry("memory_limiter", MEMORY_LIMITER));
    EntryDefined(es, Entry("batch", BATCH));
  }

  lemma OtlpDefined()
    ensures Defined(RECEIVERS, "otlp")
  {
    assert RECEIVERS[0].key == "otlp";
  }

  lemma PartsDefined(cfg: Config, p: Pipeline)
    requires Hosts(cfg, p)
    ensures AllDefined(cfg.processors, NodeIDs(p, p.graph.processors))
    ensures AllDefined(cfg.exporters, NodeIDs(p, p.graph.exporters))
  {
    hide NodeEntries, NodeIDs, AllDefined;
    NodesDefined(cfg.processors, p, p.graph.processors);
    NodesDefined(cfg.exporters, p, p.graph.exporters);
  }

  // ---------------------------------------------------------------- forwarding

  lemma SharedProcessors(ps: seq<Pipeline>)
    ensures AllDefined(Processors(ps), ENTRY_PROCESSORS)
  {
    hide FlatMap;
    assert DEFAULTS[0] == Entry("memory_limiter", MEMORY_LIMITER) && DEFAULTS[1] == Entry("batch", BATCH);
    assert Processors(ps)[0] == DEFAULTS[0] && Processors(ps)[1] == DEFAULTS[1];
    DefaultsDefined(Processors(ps));
  }

  lemma ConnectorDefined(ps: seq<Pipeline>, k: nat)
    requires k < |SIGNALS| && !Idle(ps, SIGNALS[k])
    ensures Defined(Forwarding(ps).connectors, RoutingConnector(SIGNALS[k]))
  {
    hide FlatMap, Carrying, Table;
    var e := Entry(RoutingConnector(SIGNALS[k]), Table(Carrying(ps, SIGNALS[k]), SIGNALS[k]));
    FlatHolds(SIGNALS, ConnectorEntries(ps), k, e);
    EntryDefined(Forwarding(ps).connectors, e);
  }

  lemma EntryResolves(ps: seq<Pipeline>, k: nat)
    requires k < |SIGNALS|
    ensures ServiceResolves(Forwarding(ps), EntryService(ps, SIGNALS[k]))
  {
    hide FlatMap, Carrying, Table, Defined;
    OtlpDefined();
    SharedProcessors(ps);
    if Idle(ps, SIGNALS[k]) {
      assert Exporters(ps)[0] == DEBUG[0];
      EntryDefined(Exporters(ps), DEBUG[0]);
    } else {
      ConnectorDefined(ps, k);
    }
  }

  lemma CustomerResolves(ps: seq<Pipeline>, i: nat, k: nat)
    requires AllNamed(ps) && DistinctKeys(ps) && i < |ps| && k < |SIGNALS| && SIGNALS[k] in ps[i].graph.signals
    ensures ServiceResolves(Forwarding(ps), CustomerService(ps[i], SIGNALS[k]))
  {
    hide Defined, NodeIDs, Idle, AllNamed, DistinctKeys, Hosts, Forwarding;
    ForwardingHosts(ps, i);
    PartsDefined(Forwarding(ps), ps[i]);
    IdleIffUncarried(ps, SIGNALS[k]);
    assert Carried(ps, SIGNALS[k]);
    ConnectorDefined(ps, k);
  }

  lemma ForwardingServicesResolve(ps: seq<Pipeline>, e: Entry<Service>)
    requires AllNamed(ps) && DistinctKeys(ps) && e in Forwarding(ps).pipelines
    ensures ServiceResolves(Forwarding(ps), e.value)
  {
    hide FlatMap, Idle, ServiceResolves, AllNamed, DistinctKeys, NodeIDs;
    if e in FlatMap(SIGNALS, EntryPipelines(ps)) {
      var k := FlatMember(SIGNALS, EntryPipelines(ps), e);
      EntryResolves(ps, k);
    } else {
      var i := FlatMember(ps, CustomerPipelines(), e);
      var k := FlatMember(SIGNALS, ServiceFor(ps[i]), e);
      CustomerResolves(ps, i, k);
    }
  }

  lemma TargetsResolve(ps: seq<Pipeline>, k: nat, client: string, target: string)
    requires AllNamed(ps) && k < |SIGNALS| && target in FlatMap(Carrying(ps, SIGNALS[k]), TargetOf(SIGNALS[k], client))
    ensures TargetResolves(Forwarding(ps), RoutingConnector(SIGNALS[k]), target)
  {
    hide FlatMap, Idle, AllNamed, Carrying, PipelineID, NodeIDs;
    var j := FlatMember(Carrying(ps, SIGNALS[k]), TargetOf(SIGNALS[k], client), target);
    var i := CarryingMember(ps, SIGNALS[k], Carrying(ps, SIGNALS[k])[j]);
    var e := Entry(PipelineID(ps[i], SIGNALS[k]), CustomerService(ps[i], SIGNALS[k]));
    FlatHolds(SIGNALS, ServiceFor(ps[i]), k, e);
    FlatHolds(ps, CustomerPipelines(), i, e);
    assert e in Forwarding(ps).pipelines;
  }

  lemma ForwardingTablesResolve(ps: seq<Pipeline>, e: Entry<seq<Route>>)
    requires AllNamed(ps) && e in Forwarding(ps).connectors
    ensures TableResolves(Forwarding(ps), e.key, e.value)
  {
    hide FlatMap, AllNamed, Carrying, TargetResolves, Clients;
    var k := FlatMember(SIGNALS, ConnectorEntries(ps), e);
    forall i, j | 0 <= i < |e.value| && 0 <= j < |e.value[i].targets|
      ensures TargetResolves(Forwarding(ps), e.key, e.value[i].targets[j])
    {
      TargetsResolve(ps, k, e.value[i].client, e.value[i].targets[j]);
    }
  }

  /** Every receiver, processor, exporter, connector and target the forwarding config mentions is defined in it. */
  lemma ForwardingResolves(ps: seq<Pipeline>)
    requires AllNamed(ps) && DistinctKeys(ps)
    ensures Resolves(Forwarding(ps))
  {
    hide Forwarding, ServiceResolves, TableResolves, AllNamed, DistinctKeys;
    var cfg := Forwarding(ps);
    forall i | 0 <= i < |cfg.pipelines| ensures ServiceResolves(cfg, cfg.pipelines[i].value) {
      ForwardingServicesResolve(ps, cfg.pipelines[i]);
    }
    forall i | 0 <= i < |cfg.connectors| ensures TableResolves(cfg, cfg.connectors[i].key, cfg.connectors[i].value) {
      ForwardingTablesResolve(ps, cfg.connectors[i]);
    }
  }

  // ---------------------------------------------------------------- edge

  lemma EdgeServiceResolves(ps: seq<Pipeline>, i: nat)
    requires AllNamed(ps) && DistinctKeys(ps) && i < |ps|
    ensures ServiceResolves(Edge(ps), EdgeService(ps[i]))
  {
    hide Defined, NodeIDs, AllNamed, DistinctKeys, Hosts, Processors;
    OtlpDefined();
    SharedProcessors(ps);
    EdgeHosts(ps, i);
    PartsDefined(Edge(ps), ps[i]);
    Joined(Processors(ps), ENTRY_PROCESSORS, NodeIDs(ps[i], ps[i].graph.processors));
  }

  lemma DrainingResolves()
    ensures ServiceResolves(Edge([]), Service(["otlp"], ENTRY_PROCESSORS, ["debug"]))
  {
    hide Defined, Processors;
    OtlpDefined();
    SharedProcessors([]);
    assert Edge([]).exporters[0] == DEBUG[0];
    EntryDefined(Edge([]).exporters, DEBUG[0]);
  }

  /** Every receiver, processor and exporter an edge config mentions is defined in it. */
  lemma EdgeResolves(ps: seq<Pipeline>)
    requires AllNamed(ps) && DistinctKeys(ps)
    ensures Resolves(Edge(ps))
  {
    hide FlatMap, ServiceResolves, AllNamed, DistinctKeys, NodeIDs;
    var cfg := Edge(ps);
    forall j | 0 <= j < |cfg.pipelines| ensures ServiceResolves(cfg, cfg.pipelines[j].value) {
      var e := cfg.pipelines[j];
      if e in FlatMap(ps, EdgePipelines()) {
        var i := FlatMember(ps, EdgePipelines(), e);
        var k := FlatMember(SIGNALS, EdgeServiceFor(ps[i]), e);
        EdgeServiceResolves(ps, i);
      } else {
        var k := FlatMember(SIGNALS, Draining(), e);
        DrainingResolves();
      }
    }
  }
}
