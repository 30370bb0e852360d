/** Structural validation: no issues exactly for well-formed graphs, and well-formed graphs can be rendered. */
module Validate {
  import opened Wrappers
  import opened Json
  import opened Graph
  import opened Slug
  import opened Naming
  import opened Collector
  import opened Render
  import opened Identifiers
  import opened Compiler
  import opened EdgeCompiler
  import opened References
  import opened Determinism

  datatype Issue =
    | NoSignals
    | UnknownSignal(i: nat)
    | DuplicateSignal(i: nat)
    | NoExporters
    | BadName(kind: Kind, i: nat)
    | UnknownType(kind: Kind, i: nat)
    | DuplicateNode(kind: Kind, i: nat, prev: nat)
    | BadConfig(kind: Kind, i: nat)

  /** Component types are nonempty and hold no slash. */
  predicate PlainTypes(cat: Catalog) { forall c :: c in cat ==> c.1 != "" && '/' !in c.1 }

  predicate NameOk(n: Node) { n.name.Some? && n.name.value != "" ==> ValidNodeName(n.name.value) }

  /** The config, an absent one counting as empty, is what the component's schema allows. */
  predicate Conforms(cat: Catalog, kind: Kind, n: Node)
    requires (kind, n.component) in cat
  {
    cat[(kind, n.component)].conforms(if n.config.Some? then n.config.value else map[])
  }

  predicate NodeOk(cat: Catalog, kind: Kind, n: Node) {
    NameOk(n) && (kind, n.component) in cat && Conforms(cat, kind, n)
  }

  predicate SameInstance(ns: seq<Node>, i: nat, j: nat)
    requires i < |ns| && j < |ns|
  {
    ns[i].component == ns[j].component && NodeSuffix(ns[i], i) == NodeSuffix(ns[j], j)
  }

  predicate NodesOk(cat: Catalog, kind: Kind, ns: seq<Node>) {
    && (forall i :: 0 <= i < |ns| ==> NodeOk(cat, kind, ns[i]))
    && forall i, j :: 0 <= i < j < |ns| ==> !SameInstance(ns, i, j)
  }

  /** Known, distinct signals; at least one exporter; known components with conforming configs and distinct IDs. */
  predicate WellFormed(cat: Catalog, g: Graph) {
    && g.signals != [] && SignalsListed(g.signals) && g.exporters != []
    && NodesOk(cat, Processor, g.processors) && NodesOk(cat, Exporter, g.exporters)
  }

  lemma InstanceByID(ns: seq<Node>, i: nat, j: nat)
    requires i < |ns| && j < |ns| && '/' !in ns[i].component && '/' !in ns[j].component
    ensures ComponentID(ns[i], i, "c", "p") == ComponentID(ns[j], j, "c", "p") <==> SameInstance(ns, i, j)
  {
    hide NodeSuffix;
    if ComponentID(ns[i], i, "c", "p") == ComponentID(ns[j], j, "c", "p") {
      ComponentIDInjective(ns[i], i, "c", "p", ns[j], j, "c", "p");
    }
  }

  predicate KnownNode(cat: Catalog, kind: Kind, n: Node) { (kind, n.component) in cat }

  /** Node `i` is a second instance of the known node `prev`, and of none in between. */
  predicate Repeats(cat: Catalog, kind: Kind, ns: seq<Node>, prev: nat, i: nat)
    requires prev < i < |ns|
  {
    && KnownNode(cat, kind, ns[i]) && KnownNode(cat, kind, ns[prev]) && SameInstance(ns, prev, i)
    && forall m :: prev < m < i ==> !(KnownNode(cat, kind, ns[m]) && SameInstance(ns, m, i))
  }

  /** What is wrong with node `i`. */
  predicate NodeIssue(cat: Catalog, kind: Kind, ns: seq<Node>, i: nat, x: Issue)
    requires i < |ns|
  {
    || (x == BadName(kind, i) && !NameOk(ns[i]))
    || (x == UnknownType(kind, i) && !KnownNode(cat, kind, ns[i]))
    || (x == BadConfig(kind, i) && KnownNode(cat, kind, ns[i]) && !Conforms(cat, kind, ns[i]))
    || (x.DuplicateNode? && x == DuplicateNode(kind, i, x.prev) && x.prev < i && Repeats(cat, kind, ns, x.prev, i))
  }

  predicate NodeIssues(cat: Catalog, kind: Kind, ns: seq<Node>, n: nat, x: Issue)
    requires n <= |ns|
  {
    exists i :: 0 <= i < n && NodeIssue(cat, kind, ns, i, x)
  }

  /** `seen` holds the last index of every ID among the first `n` known nodes. */
  ghost predicate Indexed(cat: Catalog, kind: Kind, ns: seq<Node>, n: nat, seen: map<string, nat>)
    requires n <= |ns|
  {
    && (forall i :: 0 <= i < n && KnownNode(cat, kind, ns[i]) ==>
          ComponentID(ns[i], i, "c", "p") in seen && i <= seen[ComponentID(ns[i], i, "c", "p")])
    && forall id :: id in seen ==>
         seen[id] < n && KnownNode(cat, kind, ns[seen[id]]) && ComponentID(ns[seen[id]], seen[id], "c", "p") == id
  }

  lemma RepeatSeen(cat: Catalog, kind: Kind, ns: seq<Node>, n: nat, seen: map<string, nat>)
    requires PlainTypes(cat) && n < |ns| && Indexed(cat, kind, ns, n, seen) && KnownNode(cat, kind, ns[n])
    ensures var id := ComponentID(ns[n], n, "c", "p");
            && (id in seen ==> Repeats(cat, kind, ns, seen[id], n))
            && forall m :: 0 <= m < n && Repeats(cat, kind, ns, m, n) ==> id in seen && seen[id] == m
  {
    hide ComponentID, NodeSuffix, SameInstance;
    var id := ComponentID(ns[n], n, "c", "p");
    forall m | 0 <= m < n && KnownNode(cat, kind, ns[m])
      ensures ComponentID(ns[m], m, "c", "p") == id <==> SameInstance(ns, m, n)
    {
      InstanceByID(ns, m, n);
    }
  }

  lemma IndexGrows(cat: Catalog, kind: Kind, ns: seq<Node>, n: nat, seen: map<string, nat>)
    requires n < |ns| && Indexed(cat, kind, ns, n, seen)
    ensures KnownNode(cat, kind, ns[n]) ==> Indexed(cat, kind, ns, n + 1, seen[ComponentID(ns[n], n, "c", "p") := n])
    ensures !KnownNode(cat, kind, ns[n]) ==> Indexed(cat, kind, ns, n + 1, seen)
  {
    hide ComponentID;
  }

  lemma IssuesGrow(cat: Catalog, kind: Kind, ns: seq<Node>, n: nat, x: Issue)
    requires n < |ns|
    ensures NodeIssues(cat, kind, ns, n + 1, x) <==> NodeIssues(cat, kind, ns, n, x) || NodeIssue(cat, kind, ns, n, x)
  {
    hide NodeIssue;
  }

  /** The issues found are exactly those that node names, types, configs and repetitions give rise to. */
  method ValidateNodes(cat: Catalog, kind: Kind, ns: seq<Node>) returns (issues: seq<Issue>)
    requires PlainTypes(cat)
    ensures forall x :: x in issues <==> NodeIssues(cat, kind, ns, |ns|, x)
    ensures issues == [] <==> NodesOk(cat, kind, ns)
  {
    hide ComponentID, PlainTypes, NodesOk, NodeIssues;
    issues := [];
    var seen: map<string, nat> := map[];
    assert forall x :: !NodeIssues(cat, kind, ns, 0, x) by {
      NoIssuesYet(cat, kind, ns);
    }
    for i := 0 to |ns|
      invariant Indexed(cat, kind, ns, i, seen)
      invariant forall x :: x in issues <==> NodeIssues(cat, kind, ns, i, x)
    {
      hide Indexed;
      var n := ns[i];
      ghost var before := issues;
      IndexGrows(cat, kind, ns, i, seen);
      if n.name.Some? && n.name.value != "" && !ValidNodeName(n.name.value) {
        issues := issues + [BadName(kind, i)];
      }
      if (kind, n.component) !in cat {
        issues := issues + [UnknownType(kind, i)];
      } else {
        RepeatSeen(cat, kind, ns, i, seen);
        var id := ComponentID(n, i, "c", "p");
        if id in seen {
          issues := issues + [DuplicateNode(kind, i, seen[id])];
        }
        seen := seen[id := i];
        if !cat[(kind, n.component)].conforms(if n.config.Some? then n.config.value else map[]) {
          issues := issues + [BadConfig(kind, i)];
        }
      }
      forall x ensures x in issues <==> NodeIssues(cat, kind, ns, i + 1, x) {
        IssuesGrow(cat, kind, ns, i, x);
        assert x in issues <==> x in before || NodeIssue(cat, kind, ns, i, x);
      }
    }
    NoIssuesIffOk(cat, kind, ns);
    if issues != [] {
      assert issues[0] in issues;
    }
  }

  lemma NoIssuesYet(cat: Catalog, kind: Kind, ns: seq<Node>)
    ensures forall x :: !NodeIssues(cat, kind, ns, 0, x)
  {
  }

  /** Nodes are fine exactly when nothing is wrong with any of them. */
  lemma NoIssuesIffOk(cat: Catalog, kind: Kind, ns: seq<Node>)
    ensures (forall x :: !NodeIssues(cat, kind, ns, |ns|, x)) <==> NodesOk(cat, kind, ns)
  {
    hide SameInstance, NameOk, Conforms;
    if NodesOk(cat, kind, ns) {
      forall x, i | 0 <= i < |ns| ensures !NodeIssue(cat, kind, ns, i, x) {
        assert NodeOk(cat, kind, ns[i]);
      }
    }
    if forall x :: !NodeIssues(cat, kind, ns, |ns|, x) {
      forall i | 0 <= i < |ns| ensures NodeOk(cat, kind, ns[i]) {
        forall x ensures !NodeIssue(cat, kind, ns, i, x) {
          assert !NodeIssues(cat, kind, ns, |ns|, x);
        }
        assert !NodeIssue(cat, kind, ns, i, BadName(kind, i)) && !NodeIssue(cat, kind, ns, i, UnknownType(kind, i))
            && !NodeIssue(cat, kind, ns, i, BadConfig(kind, i));
      }
      forall i, j | 0 <= i < j < |ns| ensures !SameInstance(ns, i, j) {
        if SameInstance(ns, i, j) {
          RepeatIsIssue(cat, kind, ns, i, j);
          assert false;
        }
      }
    }
  }

  lemma RepeatIsIssue(cat: Catalog, kind: Kind, ns: seq<Node>, i: nat, j: nat)
    requires i < j < |ns| && SameInstance(ns, i, j) && forall m :: 0 <= m < |ns| ==> KnownNode(cat, kind, ns[m])
    ensures exists x :: NodeIssues(cat, kind, ns, |ns|, x)
  {
    var prev := LastRepeat(cat, kind, ns, i, j);
    assert NodeIssue(cat, kind, ns, j, DuplicateNode(kind, j, prev));
    assert NodeIssues(cat, kind, ns, |ns|, DuplicateNode(kind, j, prev));
  }

  lemma {:induction false} LastRepeat(cat: Catalog, kind: Kind, ns: seq<Node>, i: nat, j: nat) returns (prev: nat)
    requires i < j < |ns| && SameInstance(ns, i, j) && forall m :: 0 <= m < |ns| ==> KnownNode(cat, kind, ns[m])
    ensures prev < j && Repeats(cat, kind, ns, prev, j)
    decreases j - i
  {
    hide SameInstance;
    if m :| i < m < j && SameInstance(ns, m, j) {
      prev := LastRepeat(cat, kind, ns, m, j);
    } else {
      prev := i;
    }
  }

  /** What is wrong with the first `n` signals, or with there being none. */
  predicate SignalIssue(signals: seq<string>, n: nat, x: Issue)
    requires n <= |signals|
  {
    match x
    case NoSignals => signals == []
    case UnknownSignal(i) => i < n && signals[i] !in SIGNALS
    case DuplicateSignal(i) => i < n && signals[i] in SIGNALS && exists j :: 0 <= j < i && signals[j] == signals[i]
    case _ => false
  }

  method ValidateSignals(signals: seq<string>) returns (issues: seq<Issue>)
    ensures forall x :: x in issues <==> SignalIssue(signals, |signals|, x)
    ensures issues == [] <==> signals != [] && SignalsListed(signals)
  {
    issues := [];
    if |signals| == 0 {
      issues := issues + [NoSignals];
    }
    var seen: set<string> := {};
    for i := 0 to |signals|
      invariant seen == set j | 0 <= j < i :: signals[j]
      invariant forall x :: x in issues <==> SignalIssue(signals, i, x)
    {
      ghost var before := issues;
      if signals[i] !in SIGNALS {
        issues := issues + [UnknownSignal(i)];
      } else if signals[i] in seen {
        issues := issues + [DuplicateSignal(i)];
      }
      seen := seen + {signals[i]};
      forall x ensures x in issues <==> SignalIssue(signals, i + 1, x) {
        assert x in issues <==> x in before || (x == UnknownSignal(i) && signals[i] !in SIGNALS)
                                || (x == DuplicateSignal(i) && SignalIssue(signals, i + 1, x));
      }
    }
    SignalsFine(signals);
    if issues != [] {
      assert issues[0] in issues;
    }
  }

  lemma SignalsFine(signals: seq<string>)
    ensures (forall x :: !SignalIssue(signals, |signals|, x)) <==> signals != [] && SignalsListed(signals)
  {
    if forall x :: !SignalIssue(signals, |signals|, x) {
      assert !SignalIssue(signals, |signals|, NoSignals);
      forall i | 0 <= i < |signals| ensures signals[i] in SIGNALS {
        assert !SignalIssue(signals, |signals|, UnknownSignal(i));
      }
      forall i, j | 0 <= i < j < |signals| ensures signals[i] != signals[j] {
        assert !SignalIssue(signals, |signals|, DuplicateSignal(j));
      }
    }
  }

  /** What is wrong with a graph. */
  predicate GraphIssue(cat: Catalog, g: Graph, x: Issue) {
    || SignalIssue(g.signals, |g.signals|, x) || (x == NoExporters && g.exporters == [])
    || NodeIssues(cat, Processor, g.processors, |g.processors|, x)
    || NodeIssues(cat, Exporter, g.exporters, |g.exporters|, x)
  }

  /** The issues reported are exactly those a graph has, and none exactly for well-formed graphs. */
  method ValidateStructural(cat: Catalog, g: Graph) returns (issues: seq<Issue>)
    requires PlainTypes(cat)
    ensures forall x :: x in issues <==> GraphIssue(cat, g, x)
    ensures issues == [] <==> WellFormed(cat, g)
  {
    hide NodesOk, SignalsListed, PlainTypes, NodeIssues, SignalIssue;
    var signals := ValidateSignals(g.signals);
    var none := if |g.exporters| == 0 then [NoExporters] else [];
    var processors := ValidateNodes(cat, Processor, g.processors);
    var exporters := ValidateNodes(cat, Exporter, g.exporters);
    issues := signals + none + processors + exporters;
    assert forall x :: x in issues <==> x in signals || x in none || x in processors || x in exporters;
  }

  // ---------------------------------------------------------------- valid pipelines

  /** A pipeline as the service admits it: slugs of the slug form, and a graph without issues. */
  predicate ValidPipeline(cat: Catalog, p: Pipeline) {
    ValidSlug(p.customer) && ValidSlug(p.slug) && WellFormed(cat, p.graph)
  }

  lemma NodesOkAreNamed(cat: Catalog, kind: Kind, ns: seq<Node>)
    requires PlainTypes(cat) && NodesOk(cat, kind, ns)
    ensures NodesNamed(ns)
  {
    hide NodeSuffix;
    forall i | 0 <= i < |ns| ensures ns[i].component != "" && '/' !in ns[i].component {
      assert NodeOk(cat, kind, ns[i]);
    }
    forall i, j | 0 <= i < j < |ns| && ns[i].component == ns[j].component
      ensures NodeSuffix(ns[i], i) != NodeSuffix(ns[j], j)
    {
      assert !SameInstance(ns, i, j);
    }
  }

  /** What validation and slug derivation ensure is what the naming scheme needs. */
  lemma ValidIsNamed(cat: Catalog, p: Pipeline)
    requires PlainTypes(cat) && ValidPipeline(cat, p)
    ensures WellNamed(p)
  {
    hide NodesOk, NodesNamed, SignalsListed, ValidSlug;
    NoUnderscore(p.customer);
    NoUnderscore(p.slug);
    NodesOkAreNamed(cat, Processor, p.graph.processors);
    NodesOkAreNamed(cat, Exporter, p.graph.exporters);
  }

  /**
   For every list of valid pipelines with distinct keys, the rendered configs define every ID once, resolve
   every reference and mean the pipelines, at the forwarding tier and at the edge.
   */
  lemma ValidPipelinesCompile(cat: Catalog, ps: seq<Pipeline>, k: nat, tenant: string)
    requires PlainTypes(cat) && DistinctKeys(ps) && k < |SIGNALS|
    requires forall i :: 0 <= i < |ps| ==> ValidPipeline(cat, ps[i])
    ensures RenderForwarding(ps).Ok? && DefinedOnce(RenderForwarding(ps).value) && Resolves(RenderForwarding(ps).value)
    ensures Interpret(RenderForwarding(ps).value, SIGNALS[k], tenant) == Meaning(Sort(ps), SIGNALS[k], tenant)
    ensures RenderEdge(ps).Ok? && DefinedOnce(RenderEdge(ps).value) && Resolves(RenderEdge(ps).value)
    ensures Interpret(RenderEdge(ps).value, SIGNALS[k], tenant) == EdgeMeaning(Sort(ps), SIGNALS[k])
  {
    hide DistinctKeys, Sort, Forwarding, Edge, Interpret, Meaning, EdgeMeaning, WellNamed, ValidPipeline, DefinedOnce;
    hide PlainTypes, Resolves;
    forall i | 0 <= i < |ps| ensures WellNamed(ps[i]) {
      ValidIsNamed(cat, ps[i]);
    }
    RenderedMeans(ps, k, tenant);
    NamedAnyOrder(ps);
    RefusedExactly(ps);
    ForwardingDefinedOnce(Sort(ps));
    EdgeDefinedOnce(Sort(ps));
    ForwardingResolves(Sort(ps));
    EdgeResolves(Sort(ps));
  }
}
