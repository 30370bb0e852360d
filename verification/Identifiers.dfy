/** Every ID of a rendered configuration is defined once. */
module Identifiers {
  import opened Wrappers
  import opened Json
  import opened Graph
  import opened Naming
  import opened Collector
  import opened Render

  /** Slash-free types, and no two nodes of one type with one suffix. */
  predicate NodesNamed(ns: seq<Node>) {
    && (forall i :: 0 <= i < |ns| ==> ns[i].component != "" && '/' !in ns[i].component)
    && forall i, j :: 0 <= i < j < |ns| && ns[i].component == ns[j].component ==>
         NodeSuffix(ns[i], i) != NodeSuffix(ns[j], j)
  }

  predicate SignalsListed(signals: seq<string>) {
    && (forall i :: 0 <= i < |signals| ==> signals[i] in SIGNALS)
    && forall i, j :: 0 <= i < j < |signals| ==> signals[i] != signals[j]
  }

  predicate WellNamed(p: Pipeline) {
    && '_' !in p.customer && '_' !in p.slug && SignalsListed(p.graph.signals)
    && NodesNamed(p.graph.processors) && NodesNamed(p.graph.exporters)
  }

  predicate AllNamed(ps: seq<Pipeline>) { forall i :: 0 <= i < |ps| ==> WellNamed(ps[i]) }

  lemma KeysAreSlugs(ps: seq<Pipeline>, i: nat, j: nat)
    requires AllNamed(ps) && DistinctKeys(ps) && i < j < |ps|
    ensures ps[i].customer != ps[j].customer || ps[i].slug != ps[j].slug
  {
    hide PipelineKey;
    assert Key(ps[i]) != Key(ps[j]);
  }

  // ---------------------------------------------------------------- components

  lemma NodesUnique(p: Pipeline, ns: seq<Node>)
    requires '_' !in p.customer && '_' !in p.slug && NodesNamed(ns)
    ensures UniqueKeys(NodeEntries(p, ns))
  {
    hide ComponentID, NodeSuffix;
    forall i, j | 0 <= i < j < |ns|
      ensures ComponentID(ns[i], i, p.customer, p.slug) != ComponentID(ns[j], j, p.customer, p.slug)
    {
      if ComponentID(ns[i], i, p.customer, p.slug) == ComponentID(ns[j], j, p.customer, p.slug) {
        ComponentIDInjective(ns[i], i, p.customer, p.slug, ns[j], j, p.customer, p.slug);
      }
    }
  }

  lemma NodesApart(p: Pipeline, ns: seq<Node>, q: Pipeline, ms: seq<Node>)
    requires '_' !in p.customer && '_' !in p.slug && '_' !in q.customer && '_' !in q.slug && NodesNamed(ns)
    requires NodesNamed(ms)
    requires p.customer != q.customer || p.slug != q.slug
    ensures Apart(NodeEntries(p, ns), NodeEntries(q, ms))
  {
    hide ComponentID, NodeSuffix;
    forall i, j | 0 <= i < |ns| && 0 <= j < |ms|
      ensures ComponentID(ns[i], i, p.customer, p.slug) != ComponentID(ms[j], j, q.customer, q.slug)
    {
      if ComponentID(ns[i], i, p.customer, p.slug) == ComponentID(ms[j], j, q.customer, q.slug) {
        ComponentIDInjective(ns[i], i, p.customer, p.slug, ms[j], j, q.customer, q.slug);
      }
    }
  }

  lemma SlashInside(n: Node, i: nat, c: string, p: string)
    ensures '/' in ComponentID(n, i, c, p)
  {
    ComponentIDShape(n, i, c, p);
    assert ComponentID(n, i, c, p)[|n.component|] == '/';
  }

  predicate NoSlashes<V>(es: seq<Entry<V>>) { forall i :: 0 <= i < |es| ==> '/' !in es[i].key }

  lemma SharedApart(es: seq<Entry<Json>>, p: Pipeline, ns: seq<Node>)
    requires NoSlashes(es)
    ensures Apart(es, NodeEntries(p, ns))
  {
    hide ComponentID;
    forall i | 0 <= i < |ns| ensures '/' in NodeEntries(p, ns)[i].key {
      SlashInside(ns[i], i, p.customer, p.slug);
    }
  }

  lemma ApartSwaps<V>(a: seq<Entry<V>>, b: seq<Entry<V>>)
    requires Apart(a, b)
    ensures Apart(b, a)
  {
  }

  /** Shared entries and the nodes `f` picks from each pipeline have unique keys. */
  lemma ComponentsUnique(shared: seq<Entry<Json>>, ps: seq<Pipeline>, kind: Kind)
    requires AllNamed(ps) && DistinctKeys(ps) && NoSlashes(shared) && UniqueKeys(shared)
    ensures UniqueKeys(shared + FlatMap(ps, if kind == Processor then ProcessorEntries() else ExporterEntries()))
  {
    hide NodeEntries, NodesNamed, DistinctKeys;
    var f := if kind == Processor then ProcessorEntries() else ExporterEntries();
    forall i | 0 <= i < |ps| ensures UniqueKeys(f(ps[i])) && Apart(f(ps[i]), shared) {
      var ns := if kind == Processor then ps[i].graph.processors else ps[i].graph.exporters;
      NodesUnique(ps[i], ns);
      SharedApart(shared, ps[i], ns);
      ApartSwaps(shared, NodeEntries(ps[i], ns));
    }
    forall i, j | 0 <= i < j < |ps| ensures Apart(f(ps[i]), f(ps[j])) {
      KeysAreSlugs(ps, i, j);
      NodesApart(ps[i], if kind == Processor then ps[i].graph.processors else ps[i].graph.exporters,
                 ps[j], if kind == Processor then ps[j].graph.processors else ps[j].graph.exporters);
    }
    hide UniqueKeys, Apart;
    UniqueFlat(ps, f);
    ApartFlat(ps, f, shared);
    ApartSwaps(FlatMap(ps, f), shared);
    UniqueConcat(shared, FlatMap(ps, f));
  }

  // ---------------------------------------------------------------- connectors and pipelines

  lemma SignalsDiffer()
    ensures |SIGNALS| == 3 && forall i, j :: 0 <= i < j < |SIGNALS| ==> SIGNALS[i] != SIGNALS[j]
    ensures forall i :: 0 <= i < |SIGNALS| ==> '/' !in SIGNALS[i] && |SIGNALS[i]| > 0 && SIGNALS[i][0] != '_'
  {
    assert SIGNALS[0][0] == 'l' && SIGNALS[1][0] == 't' && SIGNALS[2][0] == 'm';
  }

  lemma ConnectorsUnique(ps: seq<Pipeline>)
    ensures UniqueKeys(FlatMap(SIGNALS, ConnectorEntries(ps)))
  {
    hide Carrying, Table;
    SignalsDiffer();
    var f := ConnectorEntries(ps);
    forall i, j | 0 <= i < j < |SIGNALS| ensures Apart(f(SIGNALS[i]), f(SIGNALS[j])) {
      assert RoutingConnector(SIGNALS[i])[|"routing/tenants_"|..] == SIGNALS[i];
      assert RoutingConnector(SIGNALS[j])[|"routing/tenants_"|..] == SIGNALS[j];
    }
    hide UniqueKeys, Apart;
    forall i | 0 <= i < |SIGNALS| ensures UniqueKeys(f(SIGNALS[i])) {
      OneKey(f(SIGNALS[i]));
    }
    UniqueFlat(SIGNALS, f);
  }

  lemma OneKey<V>(es: seq<Entry<V>>)
    requires |es| <= 1
    ensures UniqueKeys(es)
  {
  }

  /** Pipeline entries are keyed by one signal each. */
  lemma ServicesApart(p: Pipeline, q: Pipeline, s: string, t: string, f: string -> seq<Entry<Service>>,
                      g: string -> seq<Entry<Service>>)
    requires '/' !in s && '/' !in t && '_' !in p.customer && '_' !in q.customer
    requires s != t || p.customer != q.customer || p.slug != q.slug
    requires |f(s)| <= 1 && (|f(s)| == 1 ==> f(s)[0].key == PipelineID(p, s))
    requires |g(t)| <= 1 && (|g(t)| == 1 ==> g(t)[0].key == PipelineID(q, t))
    ensures Apart(f(s), g(t))
  {
    hide CollectorPipelineID;
    if PipelineID(p, s) == PipelineID(q, t) {
      PipelineIDInjective(s, p.customer, p.slug, t, q.customer, q.slug);
    }
  }

  lemma OnePipelineUnique(p: Pipeline, f: string -> seq<Entry<Service>>)
    requires '_' !in p.customer
    requires forall s :: |f(s)| <= 1 && (|f(s)| == 1 ==> f(s)[0].key == PipelineID(p, s))
    ensures UniqueKeys(FlatMap(SIGNALS, f))
  {
    hide CollectorPipelineID;
    SignalsDiffer();
    forall i, j | 0 <= i < j < |SIGNALS| ensures Apart(f(SIGNALS[i]), f(SIGNALS[j])) {
      ServicesApart(p, p, SIGNALS[i], SIGNALS[j], f, f);
    }
    forall i | 0 <= i < |SIGNALS| ensures UniqueKeys(f(SIGNALS[i])) {
      OneKey(f(SIGNALS[i]));
    }
    UniqueFlat(SIGNALS, f);
  }

  lemma TwoPipelinesApart(p: Pipeline, f: string -> seq<Entry<Service>>, q: Pipeline, g: string -> seq<Entry<Service>>)
    requires '_' !in p.customer && '_' !in q.customer && (p.customer != q.customer || p.slug != q.slug)
    requires forall s :: |f(s)| <= 1 && (|f(s)| == 1 ==> f(s)[0].key == PipelineID(p, s))
    requires forall s :: |g(s)| <= 1 && (|g(s)| == 1 ==> g(s)[0].key == PipelineID(q, s))
    ensures Apart(FlatMap(SIGNALS, f), FlatMap(SIGNALS, g))
  {
    hide CollectorPipelineID;
    SignalsDiffer();
    forall i | 0 <= i < |SIGNALS| ensures Apart(f(SIGNALS[i]), FlatMap(SIGNALS, g)) {
      forall j | 0 <= j < |SIGNALS| ensures Apart(g(SIGNALS[j]), f(SIGNALS[i])) {
        ServicesApart(q, p, SIGNALS[j], SIGNALS[i], g, f);
      }
      ApartFlat(SIGNALS, g, f(SIGNALS[i]));
      ApartSwaps(FlatMap(SIGNALS, g), f(SIGNALS[i]));
    }
    ApartFlat(SIGNALS, f, FlatMap(SIGNALS, g));
  }

  /** One entry per signal at most, keyed by the pipeline's ID for it. */
  ghost predicate PerSignal(p: Pipeline, f: string -> seq<Entry<Service>>) {
    forall s :: |f(s)| <= 1 && (|f(s)| == 1 ==> f(s)[0].key == PipelineID(p, s))
  }

  /** One entry per signal, keyed as an entry pipeline. */
  ghost predicate Entries(h: string -> seq<Entry<Service>>) { forall s :: |h(s)| == 1 && h(s)[0].key == s + "/in" }

  lemma EntryKeysDiffer(s: string, t: string)
    requires '/' !in s && '/' !in t && s != t
    ensures s + "/in" != t + "/in"
  {
    if s + "/in" == t + "/in" {
      assert s + "/in" == s + ['/'] + "in" && t + "/in" == t + ['/'] + "in";
      SplitsAtFirst(s, "in", t, "in", '/');
    }
  }

  lemma EntryIsNoPipeline(s: string, p: Pipeline, t: string)
    requires '/' !in s && '/' !in t
    ensures s + "/in" != PipelineID(p, t)
  {
    assert PipelineKey(p.customer, p.slug)[|p.customer|] == '_';
    if s + "/in" == PipelineID(p, t) {
      assert s + "/in" == s + ['/'] + "in" && PipelineID(p, t) == t + ['/'] + PipelineKey(p.customer, p.slug);
      SplitsAtFirst(s, "in", t, PipelineKey(p.customer, p.slug), '/');
    }
  }

  lemma EntriesUnique(h: string -> seq<Entry<Service>>)
    requires Entries(h)
    ensures UniqueKeys(FlatMap(SIGNALS, h))
  {
    SignalsDiffer();
    forall i, j | 0 <= i < j < |SIGNALS| ensures Apart(h(SIGNALS[i]), h(SIGNALS[j])) {
      EntryKeysDiffer(SIGNALS[i], SIGNALS[j]);
    }
    forall i | 0 <= i < |SIGNALS| ensures UniqueKeys(h(SIGNALS[i])) {
      OneKey(h(SIGNALS[i]));
    }
    UniqueFlat(SIGNALS, h);
  }

  lemma EntriesApart(h: string -> seq<Entry<Service>>, p: Pipeline, f: string -> seq<Entry<Service>>)
    requires Entries(h) && PerSignal(p, f)
    ensures Apart(FlatMap(SIGNALS, f), FlatMap(SIGNALS, h))
  {
    SignalsDiffer();
    hide PipelineID;
    forall i | 0 <= i < |SIGNALS| ensures Apart(f(SIGNALS[i]), FlatMap(SIGNALS, h)) {
      forall j | 0 <= j < |SIGNALS| ensures Apart(h(SIGNALS[j]), f(SIGNALS[i])) {
        EntryIsNoPipeline(SIGNALS[j], p, SIGNALS[i]);
      }
      ApartFlat(SIGNALS, h, f(SIGNALS[i]));
      ApartSwaps(FlatMap(SIGNALS, h), f(SIGNALS[i]));
    }
    ApartFlat(SIGNALS, f, FlatMap(SIGNALS, h));
  }

  /** Entry pipelines, if any, and the services of each pipeline have unique keys. */
  lemma ServicesUnique(ps: seq<Pipeline>, front: seq<Entry<Service>>, h: string -> seq<Entry<Service>>,
                       f: Pipeline -> seq<Entry<Service>>, per: Pipeline -> string -> seq<Entry<Service>>)
    requires AllNamed(ps) && DistinctKeys(ps) && Entries(h) && (front == [] || front == FlatMap(SIGNALS, h))
    requires forall p :: f(p) == FlatMap(SIGNALS, per(p)) && PerSignal(p, per(p))
    ensures UniqueKeys(front + FlatMap(ps, f))
  {
    hide PipelineID, DistinctKeys;
    forall i | 0 <= i < |ps| ensures UniqueKeys(f(ps[i])) && Apart(f(ps[i]), front) {
      OnePipelineUnique(ps[i], per(ps[i]));
      EntriesApart(h, ps[i], per(ps[i]));
    }
    forall i, j | 0 <= i < j < |ps| ensures Apart(f(ps[i]), f(ps[j])) {
      KeysAreSlugs(ps, i, j);
      TwoPipelinesApart(ps[i], per(ps[i]), ps[j], per(ps[j]));
    }
    EntriesUnique(h);
    OneKey<Service>([]);
    hide UniqueKeys, Apart;
    UniqueFlat(ps, f);
    ApartFlat(ps, f, front);
    ApartSwaps(FlatMap(ps, f), front);
    UniqueConcat(front, FlatMap(ps, f));
  }

  predicate DefinedOnce(cfg: Config) {
    && UniqueKeys(cfg.receivers) && UniqueKeys(cfg.processors) && UniqueKeys(cfg.connectors)
    && UniqueKeys(cfg.exporters) && UniqueKeys(cfg.pipelines)
  }

  function ForwardingServices(): Pipeline -> string -> seq<Entry<Service>> { (p: Pipeline) => ServiceFor(p) }

  function EdgeServices(): Pipeline -> string -> seq<Entry<Service>> { (p: Pipeline) => EdgeServiceFor(p) }

  /** Every ID of the forwarding config is defined once. */
  lemma ForwardingDefinedOnce(ps: seq<Pipeline>)
    requires AllNamed(ps) && DistinctKeys(ps)
    ensures DefinedOnce(Forwarding(ps))
  {
    hide AllNamed, DistinctKeys, FlatMap, Idle;
    ComponentsUnique(DEFAULTS, ps, Processor);
    ComponentsUnique(DEBUG, ps, Exporter);
    ComponentsUnique([], ps, Exporter);
    ConnectorsUnique(ps);
    ServicesUnique(ps, FlatMap(SIGNALS, EntryPipelines(ps)), EntryPipelines(ps), CustomerPipelines(),
        ForwardingServices());
  }

  /** Every ID of an edge config is defined once. */
  lemma EdgeDefinedOnce(ps: seq<Pipeline>)
    requires AllNamed(ps) && DistinctKeys(ps)
    ensures DefinedOnce(Edge(ps))
  {
    hide AllNamed, DistinctKeys, FlatMap;
    ComponentsUnique(DEFAULTS, ps, Processor);
    ComponentsUnique(DEBUG, ps, Exporter);
    ComponentsUnique([], ps, Exporter);
    var front := if ps == [] then FlatMap(SIGNALS, Draining()) else [];
    ServicesUnique(ps, front, Draining(), EdgePipelines(), EdgeServices());
  }
}
