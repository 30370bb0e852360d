/** Component and pipeline IDs, and the label pattern that attributes exporters to a pipeline. */
module Naming {
  import opened Wrappers
  import opened Json
  import opened Graph

  function PipelineKey(customer: string, pipeline: string): string { customer + "__" + pipeline }

  function CollectorPipelineID(signal: string, customer: string, pipeline: string): string {
    signal + "/" + PipelineKey(customer, pipeline)
  }

  function NodeSuffix(n: Node, i: nat): string {
    if n.name.Some? && n.name.value != "" then n.name.value else Itoa(i)
  }

  function ComponentID(n: Node, i: nat, customer: string, pipeline: string): string {
    n.component + "/" + PipelineKey(customer, pipeline) + "__" + NodeSuffix(n, i)
  }

  function IndexOf(s: string, c: char): Option<nat> {
    if s == [] then None
    else if s[0] == c then Some(0)
    else if IndexOf(s[1..], c).Some? then Some(IndexOf(s[1..], c).value + 1) else None
  }

  /** The part of a component ID before its first slash. */
  function ComponentType(id: string): string {
    if IndexOf(id, '/').Some? && IndexOf(id, '/').value <= |id| then id[..IndexOf(id, '/').value] else id
  }

  /** The label pattern: a slash-free nonempty type, a slash, the key, two underscores and anything. */
  predicate Matches(customer: string, pipeline: string, tag: string) {
    exists i :: 0 < i < |tag| && tag[i] == '/' && '/' !in tag[..i]
        && PipelineKey(customer, pipeline) + "__" <= tag[i + 1..]
  }

  // ---------------------------------------------------------------- splitting

  /** Texts without `c` before their first `c` are told apart by it. */
  lemma {:induction false} SplitsAtFirst(a: string, x: string, b: string, y: string, c: char)
    requires c !in a && c !in b && a + [c] + x == b + [c] + y
    ensures a == b && x == y
    decreases |a|
  {
    var s := a + [c] + x;
    assert s[0] == (if a == [] then c else a[0]) && s[0] == (if b == [] then c else b[0]);
    if a == [] {
      assert s[1..] == x && s[1..] == y;
    } else {
      assert s[1..] == a[1..] + [c] + x && s[1..] == b[1..] + [c] + y;
      SplitsAtFirst(a[1..], x, b[1..], y, c);
      assert a == [a[0]] + a[1..] && b == [b[0]] + b[1..];
    }
  }

  lemma {:induction false} IndexOfFirst(a: string, x: string, c: char)
    requires c !in a
    ensures IndexOf(a + [c] + x, c) == Some(|a|)
    decreases |a|
  {
    var s := a + [c] + x;
    if a == [] {
    } else {
      assert s[0] == a[0];
      assert s[1..] == a[1..] + [c] + x;
      IndexOfFirst(a[1..], x, c);
    }
  }

  // ---------------------------------------------------------------- injectivity

  lemma KeyInjective(c1: string, p1: string, c2: string, p2: string)
    requires '_' !in c1 && '_' !in c2 && PipelineKey(c1, p1) == PipelineKey(c2, p2)
    ensures c1 == c2 && p1 == p2
  {
    assert PipelineKey(c1, p1) == c1 + ['_'] + ("_" + p1) && PipelineKey(c2, p2) == c2 + ['_'] + ("_" + p2);
    SplitsAtFirst(c1, "_" + p1, c2, "_" + p2, '_');
    assert ("_" + p1)[1..] == p1 && ("_" + p2)[1..] == p2;
  }

  /** A pipeline ID determines its signal, customer and pipeline. */
  lemma PipelineIDInjective(s1: string, c1: string, p1: string, s2: string, c2: string, p2: string)
    requires '/' !in s1 && '/' !in s2 && '_' !in c1 && '_' !in c2
    requires CollectorPipelineID(s1, c1, p1) == CollectorPipelineID(s2, c2, p2)
    ensures s1 == s2 && c1 == c2 && p1 == p2
  {
    hide PipelineKey;
    assert CollectorPipelineID(s1, c1, p1) == s1 + ['/'] + PipelineKey(c1, p1);
    assert CollectorPipelineID(s2, c2, p2) == s2 + ['/'] + PipelineKey(c2, p2);
    SplitsAtFirst(s1, PipelineKey(c1, p1), s2, PipelineKey(c2, p2), '/');
    KeyInjective(c1, p1, c2, p2);
  }

  lemma KeyAndSuffix(c1: string, p1: string, x1: string, c2: string, p2: string, x2: string)
    requires '_' !in c1 && '_' !in p1 && '_' !in c2 && '_' !in p2
    requires PipelineKey(c1, p1) + "__" + x1 == PipelineKey(c2, p2) + "__" + x2
    ensures c1 == c2 && p1 == p2 && x1 == x2
  {
    var r1, r2 := p1 + "__" + x1, p2 + "__" + x2;
    assert PipelineKey(c1, p1) + "__" + x1 == PipelineKey(c1, r1)
        && PipelineKey(c2, p2) + "__" + x2 == PipelineKey(c2, r2);
    KeyInjective(c1, r1, c2, r2);
    assert r1 == PipelineKey(p1, x1) && r2 == PipelineKey(p2, x2);
    KeyInjective(p1, x1, p2, x2);
  }

  function Suffixed(customer: string, pipeline: string, suffix: string): string {
    PipelineKey(customer, pipeline) + "__" + suffix
  }

  lemma ComponentIDShape(n: Node, i: nat, c: string, p: string)
    ensures ComponentID(n, i, c, p) == n.component + ['/'] + Suffixed(c, p, NodeSuffix(n, i))
  {
  }

  /** A component ID determines its type, customer, pipeline and suffix. */
  lemma ComponentIDInjective(n1: Node, i1: nat, c1: string, p1: string, n2: Node, i2: nat, c2: string, p2: string)
    requires '/' !in n1.component && '/' !in n2.component && '_' !in c1 && '_' !in p1 && '_' !in c2 && '_' !in p2
    requires ComponentID(n1, i1, c1, p1) == ComponentID(n2, i2, c2, p2)
    ensures n1.component == n2.component && c1 == c2 && p1 == p2 && NodeSuffix(n1, i1) == NodeSuffix(n2, i2)
  {
    ComponentIDShape(n1, i1, c1, p1);
    ComponentIDShape(n2, i2, c2, p2);
    hide ComponentID, NodeSuffix, PipelineKey;
    SplitsAtFirst(n1.component, Suffixed(c1, p1, NodeSuffix(n1, i1)), n2.component,
        Suffixed(c2, p2, NodeSuffix(n2, i2)), '/');
    KeyAndSuffix(c1, p1, NodeSuffix(n1, i1), c2, p2, NodeSuffix(n2, i2));
  }

  predicate Named(n: Node) { n.name.Some? && n.name.value != "" }

  /**
   When two nodes of a pipeline have one ID: of the same type, under the same name, or both unnamed at the same
   position; so a named node keeps its ID wherever it is moved.
   */
  lemma SameIDExactly(n1: Node, i1: nat, n2: Node, i2: nat, c: string, p: string)
    requires '/' !in n1.component && '/' !in n2.component && '_' !in c && '_' !in p && Named(n1) == Named(n2)
    ensures ComponentID(n1, i1, c, p) == ComponentID(n2, i2, c, p)
       <==> n1.component == n2.component && if Named(n1) then n1.name == n2.name else i1 == i2
  {
    if ComponentID(n1, i1, c, p) == ComponentID(n2, i2, c, p) {
      ComponentIDInjective(n1, i1, c, p, n2, i2, c, p);
      if !Named(n1) {
        ItoaInjective(i1, i2);
      }
    }
  }

  /** The type is read back from a component ID. */
  lemma TypeReadsBack(n: Node, i: nat, c: string, p: string)
    requires '/' !in n.component
    ensures ComponentType(ComponentID(n, i, c, p)) == n.component
  {
    ComponentIDShape(n, i, c, p);
    IndexOfFirst(n.component, Suffixed(c, p, NodeSuffix(n, i)), '/');
  }

  lemma SignalReadsBack(signal: string, c: string, p: string)
    requires '/' !in signal
    ensures ComponentType(CollectorPipelineID(signal, c, p)) == signal
  {
    assert CollectorPipelineID(signal, c, p) == signal + ['/'] + PipelineKey(c, p);
    IndexOfFirst(signal, PipelineKey(c, p), '/');
  }

  /** The label pattern of a pipeline matches the IDs of its own components and of no other pipeline's. */
  lemma LabelMatchesOnePipeline(n: Node, i: nat, c: string, p: string, c': string, p': string)
    requires n.component != "" && '/' !in n.component && '_' !in c && '_' !in p && '_' !in c' && '_' !in p'
    ensures Matches(c', p', ComponentID(n, i, c, p)) <==> c == c' && p == p'
  {
    var id, rest := ComponentID(n, i, c, p), Suffixed(c, p, NodeSuffix(n, i));
    ComponentIDShape(n, i, c, p);
    hide ComponentID, NodeSuffix, PipelineKey;
    var k := |n.component|;
    assert id[..k] == n.component && id[k] == '/' && id[k + 1..] == rest;
    if Matches(c', p', id) {
      var j :| 0 < j < |id| && id[j] == '/' && '/' !in id[..j] && PipelineKey(c', p') + "__" <= id[j + 1..];
      var tail := id[j + 1..];
      assert id == id[..j] + ['/'] + tail;
      SplitsAtFirst(id[..j], tail, n.component, rest, '/');
      var x := tail[|PipelineKey(c', p') + "__"|..];
      assert tail == PipelineKey(c', p') + "__" + x;
      KeyAndSuffix(c', p', x, c, p, NodeSuffix(n, i));
    }
    if c == c' && p == p' {
      assert PipelineKey(c', p') + "__" <= id[k + 1..];
    }
  }

  // ---------------------------------------------------------------- node names

  predicate NameChar(c: char) { 'a' <= c <= 'z' || '0' <= c <= '9' || c == '-' }

  predicate ValidNodeName(name: string) {
    1 <= |name| <= 64 && name[0] != '-' && forall i :: 0 <= i < |name| ==> NameChar(name[i])
  }
}
