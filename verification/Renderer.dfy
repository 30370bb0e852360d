/** The renderers as the program runs them: a sort, maps filled by loops, and sections appended entry by entry. */
module Renderer {
  import opened Wrappers
  import opened Json
  import opened Graph
  import opened Naming
  import opened Collector
  import opened Render
  import opened Determinism

  /** Any sort will do: the order is by customer slug, then pipeline slug. */
  method SortPipelines(ps: seq<Pipeline>) returns (sorted: seq<Pipeline>)
    ensures multiset(sorted) == multiset(ps) && InOrder(sorted)
  {
    sorted := [];
    for i := 0 to |ps|
      invariant multiset(sorted) == multiset(ps[..i]) && InOrder(sorted)
    {
      InsertKeeps(sorted, ps[i]);
      InsertBag(sorted, ps[i]);
      assert ps[..i + 1] == ps[..i] + [ps[i]];
      sorted := Insert(sorted, ps[i]);
    }
    assert ps[..|ps|] == ps;
  }

  method CheckKeys(ps: seq<Pipeline>) returns (distinct: bool)
    ensures distinct <==> DistinctKeys(ps)
  {
    hide Key;
    var seen: set<string> := {};
    for i := 0 to |ps|
      invariant seen == set j | 0 <= j < i :: Key(ps[j])
      invariant forall a, b :: 0 <= a < b < i ==> Key(ps[a]) != Key(ps[b])
    {
      var key := Key(ps[i]);
      if key in seen {
        return false;
      }
      seen := seen + {key};
    }
    return true;
  }

  lemma FlatGrows<A, B>(xs: seq<A>, i: nat, f: A -> seq<B>)
    requires i < |xs|
    ensures FlatMap(xs[..i + 1], f) == FlatMap(xs[..i], f) + f(xs[i])
  {
    assert xs[..i + 1][..i] == xs[..i];
  }

  lemma WholeSeq<A>(xs: seq<A>)
    ensures xs[..|xs|] == xs
  {
  }

  type Carriers = map<string, seq<Pipeline>>

  function At(m: Carriers, signal: string): seq<Pipeline> { if signal in m then m[signal] else [] }

  function Listed(signal: string, p: Pipeline): string -> seq<Pipeline> {
    (s: string) => if s == signal then [p] else []
  }

  lemma ListedIsOccurrence(signal: string, p: Pipeline)
    ensures FlatMap(p.graph.signals, Listed(signal, p)) == Occurrences(signal)(p)
  {
    FlatSame(p.graph.signals, Listed(signal, p), s => if s == signal then [p] else []);
  }

  lemma ListedGrows(before: Carriers, after: Carriers, start: seq<Pipeline>, p: Pipeline, i: nat, s: string)
    requires i < |p.graph.signals|
    requires after == before[p.graph.signals[i] := At(before, p.graph.signals[i]) + [p]]
    requires At(before, s) == start + FlatMap(p.graph.signals[..i], Listed(s, p))
    ensures At(after, s) == start + FlatMap(p.graph.signals[..i + 1], Listed(s, p))
  {
    hide FlatMap;
    FlatGrows(p.graph.signals, i, Listed(s, p));
    assert At(after, s) == At(before, s) + Listed(s, p)(p.graph.signals[i]);
  }

  /** signalsWith: per signal, the pipelines listing it. */
  method AddSignals(m: Carriers, p: Pipeline) returns (r: Carriers)
    ensures forall s :: At(r, s) == At(m, s) + Occurrences(s)(p)
  {
    r := m;
    var signals := p.graph.signals;
    for i := 0 to |signals|
      invariant forall s :: At(r, s) == At(m, s) + FlatMap(signals[..i], Listed(s, p))
    {
      hide FlatMap, At, Listed;
      ghost var before := r;
      var sig := signals[i];
      r := r[sig := At(r, sig) + [p]];
      forall s ensures At(r, s) == At(m, s) + FlatMap(signals[..i + 1], Listed(s, p)) {
        ListedGrows(before, r, At(m, s), p, i, s);
      }
    }
    hide FlatMap, At, Listed, Occurrences;
    WholeSeq(signals);
    forall s ensures At(r, s) == At(m, s) + Occurrences(s)(p) {
      ListedIsOccurrence(s, p);
    }
  }

  method SignalsWith(ps: seq<Pipeline>) returns (m: Carriers)
    ensures forall s :: At(m, s) == Carrying(ps, s)
  {
    m := map[];
    for i := 0 to |ps|
      invariant forall s :: At(m, s) == FlatMap(ps[..i], Occurrences(s))
    {
      hide FlatMap, Occurrences;
      m := AddSignals(m, ps[i]);
      forall s ensures At(m, s) == FlatMap(ps[..i + 1], Occurrences(s)) {
        FlatGrows(ps, i, Occurrences(s));
      }
    }
    WholeSeq(ps);
  }

  method AppendNodes(entries: seq<Entry<Json>>, p: Pipeline, ns: seq<Node>) returns (r: seq<Entry<Json>>)
    ensures r == entries + NodeEntries(p, ns)
  {
    hide ComponentID;
    r := entries;
    for i := 0 to |ns|
      invariant r == entries + NodeEntries(p, ns)[..i]
    {
      r := r + [Entry(ComponentID(ns[i], i, p.customer, p.slug), NodeConfig(ns[i]))];
    }
  }

  method ProcessorSection(ps: seq<Pipeline>) returns (r: seq<Entry<Json>>)
    ensures r == Processors(ps)
  {
    r := [Entry("memory_limiter", MEMORY_LIMITER), Entry("batch", BATCH)];
    assert r == DEFAULTS + [];
    for i := 0 to |ps|
      invariant r == DEFAULTS + FlatMap(ps[..i], ProcessorEntries())
    {
      hide FlatMap, NodeEntries;
      FlatGrows(ps, i, ProcessorEntries());
      r := AppendNodes(r, ps[i], ps[i].graph.processors);
    }
    WholeSeq(ps);
  }

  method ExporterSection(front: seq<Entry<Json>>, ps: seq<Pipeline>) returns (r: seq<Entry<Json>>)
    ensures r == front + FlatMap(ps, ExporterEntries())
  {
    hide FlatMap, NodeEntries;
    r := front;
    FlatNothing(ps[..0], ExporterEntries());
    for i := 0 to |ps|
      invariant r == front + FlatMap(ps[..i], ExporterEntries())
    {
      FlatGrows(ps, i, ExporterEntries());
      r := AppendNodes(r, ps[i], ps[i].graph.exporters);
    }
    WholeSeq(ps);
  }

  method CollectIDs(p: Pipeline, ns: seq<Node>) returns (ids: seq<string>)
    ensures ids == NodeIDs(p, ns)
  {
    hide ComponentID;
    ids := [];
    for i := 0 to |ns|
      invariant ids == NodeIDs(p, ns)[..i]
    {
      ids := ids + [ComponentID(ns[i], i, p.customer, p.slug)];
    }
  }

  // ---------------------------------------------------------------- routing tables

  type Targets = map<string, seq<string>>

  ghost predicate Grouped(ps: seq<Pipeline>, signal: string, byClient: Targets, order: seq<string>) {
    && order == Clients(ps) && (forall c :: c in byClient <==> c in order)
    && forall c :: c in byClient ==> byClient[c] == FlatMap(ps, TargetOf(signal, c))
  }

  lemma {:induction false} NotAClient(ps: seq<Pipeline>, signal: string, client: string)
    requires client !in Clients(ps)
    ensures FlatMap(ps, TargetOf(signal, client)) == []
  {
    hide PipelineID;
    if ps == [] {
    } else {
      NotAClient(ps[..|ps| - 1], signal, client);
    }
  }

  lemma GroupGrows(ps: seq<Pipeline>, signal: string, byClient: Targets, order: seq<string>, p: Pipeline)
    requires Grouped(ps, signal, byClient, order)
    ensures var had := if p.client in byClient then byClient[p.client] else [];
            Grouped(ps + [p], signal, byClient[p.client := had + [PipelineID(p, signal)]],
                    if p.client in byClient then order else order + [p.client])
  {
    var qs := ps + [p];
    assert qs[..|qs| - 1] == ps;
    hide PipelineID;
    forall c ensures FlatMap(qs, TargetOf(signal, c)) == FlatMap(ps, TargetOf(signal, c)) + TargetOf(signal, c)(p) {
    }
    if p.client !in byClient {
      NotAClient(ps, signal, p.client);
    }
    hide FlatMap;
  }

  method RoutingTable(routed: seq<Pipeline>, signal: string) returns (table: seq<Route>)
    ensures table == Table(routed, signal)
  {
    hide FlatMap, PipelineID;
    var byClient: Targets, order: seq<string> := map[], [];
    for i := 0 to |routed|
      invariant Grouped(routed[..i], signal, byClient, order)
    {
      hide Grouped;
      GroupGrows(routed[..i], signal, byClient, order, routed[i]);
      assert routed[..i + 1] == routed[..i] + [routed[i]];
      var p := routed[i];
      if p.client !in byClient {
        order := order + [p.client];
        byClient := byClient[p.client := []];
      }
      byClient := byClient[p.client := byClient[p.client] + [PipelineID(p, signal)]];
    }
    WholeSeq(routed);
    table := [];
    for i := 0 to |order|
      invariant table == Table(routed, signal)[..i]
    {
      table := table + [Route(order[i], byClient[order[i]])];
    }
  }

  method ConnectorSection(ps: seq<Pipeline>, m: Carriers) returns (r: seq<Entry<seq<Route>>>)
    requires forall s :: At(m, s) == Carrying(ps, s)
    ensures r == FlatMap(SIGNALS, ConnectorEntries(ps))
  {
    r := [];
    for i := 0 to |SIGNALS|
      invariant r == FlatMap(SIGNALS[..i], ConnectorEntries(ps))
    {
      hide FlatMap, Carrying, Table;
      FlatGrows(SIGNALS, i, ConnectorEntries(ps));
      var routed := At(m, SIGNALS[i]);
      if |routed| == 0 {
        continue;
      }
      var table := RoutingTable(routed, SIGNALS[i]);
      r := r + [Entry(RoutingConnector(SIGNALS[i]), table)];
    }
    WholeSeq(SIGNALS);
  }

  method NeedsDebug(ps: seq<Pipeline>, m: Carriers) returns (r: seq<Entry<Json>>)
    requires forall s :: At(m, s) == Carrying(ps, s)
    ensures r == DebugSink(ps)
  {
    hide Carrying;
    var need := false;
    for i := 0 to |SIGNALS|
      invariant need <==> exists j :: 0 <= j < i && Idle(ps, SIGNALS[j])
    {
      if |At(m, SIGNALS[i])| == 0 {
        assert Idle(ps, SIGNALS[i]);
        need := true;
      }
    }
    r := if need then [Entry("debug", JObj(map[]))] else [];
  }

  // ---------------------------------------------------------------- service pipelines

  method EntrySection(ps: seq<Pipeline>, m: Carriers) returns (r: seq<Entry<Service>>)
    requires forall s :: At(m, s) == Carrying(ps, s)
    ensures r == FlatMap(SIGNALS, EntryPipelines(ps))
  {
    r := [];
    for i := 0 to |SIGNALS|
      invariant r == FlatMap(SIGNALS[..i], EntryPipelines(ps))
    {
      hide FlatMap, Carrying;
      FlatGrows(SIGNALS, i, EntryPipelines(ps));
      var sink := "debug";
      if |At(m, SIGNALS[i])| > 0 {
        sink := RoutingConnector(SIGNALS[i]);
      }
      r := r + [Entry(SIGNALS[i] + "/in", Service(["otlp"], ["memory_limiter", "batch"], [sink]))];
    }
    WholeSeq(SIGNALS);
  }

  method HasSignal(g: Graph, signal: string) returns (found: bool)
    ensures found <==> signal in g.signals
  {
    for i := 0 to |g.signals|
      invariant signal !in g.signals[..i]
    {
      if g.signals[i] == signal {
        return true;
      }
    }
    return false;
  }

  method AppendServices(front: seq<Entry<Service>>, p: Pipeline) returns (r: seq<Entry<Service>>)
    ensures r == front + CustomerPipelines()(p)
  {
    r := front;
    for i := 0 to |SIGNALS|
      invariant r == front + FlatMap(SIGNALS[..i], ServiceFor(p))
    {
      hide FlatMap, NodeIDs, PipelineID;
      FlatGrows(SIGNALS, i, ServiceFor(p));
      var carries := HasSignal(p.graph, SIGNALS[i]);
      if !carries {
        continue;
      }
      var processors := CollectIDs(p, p.graph.processors);
      var exporters := CollectIDs(p, p.graph.exporters);
      r := r + [Entry(PipelineID(p, SIGNALS[i]), Service([RoutingConnector(SIGNALS[i])], processors, exporters))];
    }
    WholeSeq(SIGNALS);
  }

  method ServiceSection(front: seq<Entry<Service>>, ps: seq<Pipeline>) returns (r: seq<Entry<Service>>)
    ensures r == front + FlatMap(ps, CustomerPipelines())
  {
    hide FlatMap, CustomerPipelines;
    r := front;
    FlatNothing(ps[..0], CustomerPipelines());
    for i := 0 to |ps|
      invariant r == front + FlatMap(ps[..i], CustomerPipelines())
    {
      FlatGrows(ps, i, CustomerPipelines());
      r := AppendServices(r, ps[i]);
    }
    WholeSeq(ps);
  }

  /** Renders the forwarding config, refusing pipelines that share a key. */
  method RenderForwardingConfig(pipelines: seq<Pipeline>) returns (r: Result<Config>)
    ensures r == RenderForwarding(pipelines)
  {
    hide FlatMap, Carrying, DistinctKeys, Sort, InOrder, RenderForwarding, RenderEdge, DebugSink;
    var ps := SortPipelines(pipelines);
    AnySortWill(pipelines, ps);
    var distinct := CheckKeys(ps);
    if !distinct {
      return Err;
    }
    var m := SignalsWith(ps);
    var processors := ProcessorSection(ps);
    var connectors := ConnectorSection(ps, m);
    var sink := NeedsDebug(ps, m);
    var exporters := ExporterSection(sink, ps);
    var entries := EntrySection(ps, m);
    var services := ServiceSection(entries, ps);
    return Ok(Config(RECEIVERS, processors, connectors, exporters, services));
  }

  /** Renders what is stored with each version of one pipeline. */
  method RenderFragment(p: Pipeline) returns (r: Config)
    ensures r == Fragment(p)
  {
    hide NodeEntries, CustomerPipelines;
    var processors := AppendNodes([], p, p.graph.processors);
    var exporters := AppendNodes([], p, p.graph.exporters);
    var services := AppendServices([], p);
    return Config([], processors, [], exporters, services);
  }

  // ---------------------------------------------------------------- edge

  method AppendEdgeServices(front: seq<Entry<Service>>, p: Pipeline) returns (r: seq<Entry<Service>>)
    ensures r == front + EdgePipelines()(p)
  {
    r := front;
    for i := 0 to |SIGNALS|
      invariant r == front + FlatMap(SIGNALS[..i], EdgeServiceFor(p))
    {
      hide FlatMap, NodeIDs, PipelineID;
      FlatGrows(SIGNALS, i, EdgeServiceFor(p));
      var carries := HasSignal(p.graph, SIGNALS[i]);
      if !carries {
        continue;
      }
      var processors := CollectIDs(p, p.graph.processors);
      var exporters := CollectIDs(p, p.graph.exporters);
      r := r + [Entry(PipelineID(p, SIGNALS[i]),
          Service(["otlp"], ["memory_limiter", "batch"] + processors, exporters))];
    }
    WholeSeq(SIGNALS);
  }

  method EdgeServiceSection(front: seq<Entry<Service>>, ps: seq<Pipeline>) returns (r: seq<Entry<Service>>)
    ensures r == front + FlatMap(ps, EdgePipelines())
  {
    hide FlatMap, EdgePipelines;
    r := front;
    FlatNothing(ps[..0], EdgePipelines());
    for i := 0 to |ps|
      invariant r == front + FlatMap(ps[..i], EdgePipelines())
    {
      FlatGrows(ps, i, EdgePipelines());
      r := AppendEdgeServices(r, ps[i]);
    }
    WholeSeq(ps);
  }

  method DrainSection() returns (r: seq<Entry<Service>>)
    ensures r == FlatMap(SIGNALS, Draining())
  {
    r := [];
    for i := 0 to |SIGNALS|
      invariant r == FlatMap(SIGNALS[..i], Draining())
    {
      hide FlatMap;
      FlatGrows(SIGNALS, i, Draining());
      r := r + [Entry(SIGNALS[i] + "/in", Service(["otlp"], ["memory_limiter", "batch"], ["debug"]))];
    }
    WholeSeq(SIGNALS);
  }

  /** Renders the config of one customer's edge agents, refusing pipelines that share a key. */
  method RenderEdgeConfig(pipelines: seq<Pipeline>) returns (r: Result<Config>)
    ensures r == RenderEdge(pipelines)
  {
    hide FlatMap, DistinctKeys, Sort, InOrder, RenderForwarding, RenderEdge;
    var ps := SortPipelines(pipelines);
    AnySortWill(pipelines, ps);
    var distinct := CheckKeys(ps);
    if !distinct {
      return Err;
    }
    var processors := ProcessorSection(ps);
    var sink, front := [], [];
    if |ps| == 0 {
      sink := [Entry("debug", JObj(map[]))];
      front := DrainSection();
    }
    var exporters := ExporterSection(sink, ps);
    var services := EdgeServiceSection(front, ps);
    return Ok(Config(RECEIVERS, processors, [], exporters, services));
  }

  /** Renders what is stored with each version of one edge pipeline. */
  method RenderEdgeFragment(p: Pipeline) returns (r: Config)
    ensures r == EdgeFragment(p)
  {
    hide NodeEntries, EdgePipelines;
    var processors := AppendNodes([], p, p.graph.processors);
    var exporters := AppendNodes([], p, p.graph.exporters);
    var services := AppendEdgeServices([], p);
    return Config([], processors, [], exporters, services);
  }
}
