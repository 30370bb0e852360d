/** Rendering customer pipelines into collector configurations. */
module Render {
  import opened Wrappers
  import opened Json
  import opened Graph
  import opened Naming
  import opened Collector

  /** One active customer pipeline. */
  datatype Pipeline = Pipeline(customer: string, client: string, slug: string, graph: Graph)

  const SIGNALS: seq<string> := ["logs", "traces", "metrics"]

  function RoutingConnector(signal: string): string { "routing/tenants_" + signal }

  function NodeConfig(n: Node): Json { JObj(if n.config.Some? then n.config.value else map[]) }

  // ---------------------------------------------------------------- parts of one pipeline

  function NodeIDs(p: Pipeline, ns: seq<Node>): seq<string> {
    seq(|ns|, i requires 0 <= i < |ns| => ComponentID(ns[i], i, p.customer, p.slug))
  }

  function NodeEntries(p: Pipeline, ns: seq<Node>): seq<Entry<Json>> {
    seq(|ns|, i requires 0 <= i < |ns| => Entry(ComponentID(ns[i], i, p.customer, p.slug), NodeConfig(ns[i])))
  }

  function PipelineID(p: Pipeline, signal: string): string { CollectorPipelineID(signal, p.customer, p.slug) }

  // ---------------------------------------------------------------- forwarding

  function ProcessorEntries(): Pipeline -> seq<Entry<Json>> { (p: Pipeline) => NodeEntries(p, p.graph.processors) }

  function ExporterEntries(): Pipeline -> seq<Entry<Json>> { (p: Pipeline) => NodeEntries(p, p.graph.exporters) }

  /** Once for every time its graph lists the signal. */
  function Occurrences(signal: string): Pipeline -> seq<Pipeline> {
    (p: Pipeline) => FlatMap(p.graph.signals, s => if s == signal then [p] else [])
  }

  function Carrying(ps: seq<Pipeline>, signal: string): seq<Pipeline> { FlatMap(ps, Occurrences(signal)) }

  /** The client IDs of pipelines in order of first appearance. */
  function Clients(ps: seq<Pipeline>): seq<string> {
    if ps == [] then []
    else
      var before, c := Clients(ps[..|ps| - 1]), ps[|ps| - 1].client;
      if c in before then before else before + [c]
  }

  function TargetOf(signal: string, client: string): Pipeline -> seq<string> {
    (p: Pipeline) => if p.client == client then [PipelineID(p, signal)] else []
  }

  function Table(routed: seq<Pipeline>, signal: string): seq<Route> {
    seq(|Clients(routed)|, i requires 0 <= i < |Clients(routed)| =>
      Route(Clients(routed)[i], FlatMap(routed, TargetOf(signal, Clients(routed)[i]))))
  }

  function ConnectorEntries(ps: seq<Pipeline>): string -> seq<Entry<seq<Route>>> {
    sig => if Carrying(ps, sig) == [] then [] else [Entry(RoutingConnector(sig), Table(Carrying(ps, sig), sig))]
  }

  const RECEIVERS: seq<Entry<Json>> := [Entry("otlp", JObj(map[
    "protocols" := JObj(map[
      "grpc" := JObj(map["endpoint" := JStr("0.0.0.0:4317")]),
      "http" := JObj(map["endpoint" := JStr("0.0.0.0:4318")])])]))]

  const MEMORY_LIMITER: Json := JObj(map[
    "check_interval" := JStr("1s"), "limit_percentage" := JNum("80"), "spike_limit_percentage" := JNum("20")])

  const BATCH: Json := JObj(map["send_batch_size" := JNum("8192"), "timeout" := JStr("5s")])

  const DEFAULTS: seq<Entry<Json>> := [Entry("memory_limiter", MEMORY_LIMITER), Entry("batch", BATCH)]

  const ENTRY_PROCESSORS: seq<string> := ["memory_limiter", "batch"]

  const DEBUG: seq<Entry<Json>> := [Entry("debug", JObj(map[]))]

  function Processors(ps: seq<Pipeline>): seq<Entry<Json>> { DEFAULTS + FlatMap(ps, ProcessorEntries()) }

  predicate Idle(ps: seq<Pipeline>, signal: string) { Carrying(ps, signal) == [] }

  /** Needed as soon as one signal has no pipeline. */
  function DebugSink(ps: seq<Pipeline>): seq<Entry<Json>> {
    if exists i :: 0 <= i < |SIGNALS| && Idle(ps, SIGNALS[i]) then DEBUG else []
  }

  function Exporters(ps: seq<Pipeline>): seq<Entry<Json>> { DebugSink(ps) + FlatMap(ps, ExporterEntries()) }

  function EntryService(ps: seq<Pipeline>, signal: string): Service {
    Service(["otlp"], ENTRY_PROCESSORS, [if Idle(ps, signal) then "debug" else RoutingConnector(signal)])
  }

  function EntryPipelines(ps: seq<Pipeline>): string -> seq<Entry<Service>> {
    sig => [Entry(sig + "/in", EntryService(ps, sig))]
  }

  function CustomerService(p: Pipeline, signal: string): Service {
    Service([RoutingConnector(signal)], NodeIDs(p, p.graph.processors), NodeIDs(p, p.graph.exporters))
  }

  function ServiceFor(p: Pipeline): string -> seq<Entry<Service>> {
    sig => if sig in p.graph.signals then [Entry(PipelineID(p, sig), CustomerService(p, sig))] else []
  }

  function CustomerPipelines(): Pipeline -> seq<Entry<Service>> { (p: Pipeline) => FlatMap(SIGNALS, ServiceFor(p)) }

  function Forwarding(ps: seq<Pipeline>): Config {
    Config(
      RECEIVERS,
      Processors(ps),
      FlatMap(SIGNALS, ConnectorEntries(ps)),
      Exporters(ps),
      FlatMap(SIGNALS, EntryPipelines(ps)) + FlatMap(ps, CustomerPipelines()))
  }

  function Fragment(p: Pipeline): Config {
    Config([], NodeEntries(p, p.graph.processors), [], NodeEntries(p, p.graph.exporters), CustomerPipelines()(p))
  }

  // ---------------------------------------------------------------- edge

  function EdgeService(p: Pipeline): Service {
    Service(["otlp"], ENTRY_PROCESSORS + NodeIDs(p, p.graph.processors), NodeIDs(p, p.graph.exporters))
  }

  function EdgeServiceFor(p: Pipeline): string -> seq<Entry<Service>> {
    sig => if sig in p.graph.signals then [Entry(PipelineID(p, sig), EdgeService(p))] else []
  }

  function EdgePipelines(): Pipeline -> seq<Entry<Service>> { (p: Pipeline) => FlatMap(SIGNALS, EdgeServiceFor(p)) }

  function Draining(): string -> seq<Entry<Service>> {
    sig => [Entry(sig + "/in", Service(["otlp"], ENTRY_PROCESSORS, ["debug"]))]
  }

  function Edge(ps: seq<Pipeline>): Config {
    Config(
      RECEIVERS,
      Processors(ps),
      [],
      (if ps == [] then DEBUG else []) + FlatMap(ps, ExporterEntries()),
      (if ps == [] then FlatMap(SIGNALS, Draining()) else []) + FlatMap(ps, EdgePipelines()))
  }

  function EdgeFragment(p: Pipeline): Config {
    Config([], NodeEntries(p, p.graph.processors), [], NodeEntries(p, p.graph.exporters), EdgePipelines()(p))
  }

  // ---------------------------------------------------------------- order and duplicates

  /** Strings in byte order. */
  predicate Less(a: string, b: string) {
    b != [] && (a == [] || a[0] < b[0] || (a[0] == b[0] && Less(a[1..], b[1..])))
  }

  predicate Before(p: Pipeline, q: Pipeline) {
    if p.customer != q.customer then Less(p.customer, q.customer) else Less(p.slug, q.slug)
  }

  /** What a sort leaves behind: nothing stands after something it belongs before. */
  predicate InOrder(ps: seq<Pipeline>) { forall i, j :: 0 <= i < j < |ps| ==> !Before(ps[j], ps[i]) }

  function Insert(ps: seq<Pipeline>, p: Pipeline): seq<Pipeline> {
    if ps != [] && Before(p, ps[|ps| - 1]) then Insert(ps[..|ps| - 1], p) + [ps[|ps| - 1]] else ps + [p]
  }

  function Sort(ps: seq<Pipeline>): seq<Pipeline> {
    if ps == [] then [] else Insert(Sort(ps[..|ps| - 1]), ps[|ps| - 1])
  }

  function Key(p: Pipeline): string { PipelineKey(p.customer, p.slug) }

  predicate DistinctKeys(ps: seq<Pipeline>) { forall i, j :: 0 <= i < j < |ps| ==> Key(ps[i]) != Key(ps[j]) }

  function RenderForwarding(ps: seq<Pipeline>): Result<Config> {
    if DistinctKeys(Sort(ps)) then Ok(Forwarding(Sort(ps))) else Err
  }

  function RenderEdge(ps: seq<Pipeline>): Result<Config> {
    if DistinctKeys(Sort(ps)) then Ok(Edge(Sort(ps))) else Err
  }
}
