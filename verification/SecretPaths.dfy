/** When path texts tell leaves apart: field names without "." and "[". */
module SecretPaths {
  import opened Wrappers
  import opened Json
  import opened Graph
  import opened Secrets
  import opened GraphSecrets

  predicate Delimiter(c: char) { c == '.' || c == '[' }

  predicate PlainName(s: string) { forall i :: 0 <= i < |s| ==> !Delimiter(s[i]) }

  predicate PlainSegment(s: Segment) {
    match s
    case Root(section, _) => false
    case Field(key) => PlainName(key)
    case Item(_) => true
  }

  predicate PlainPath(p: Path) {
    && |p| > 0 && p[0].Root? && PlainName(p[0].section)
    && forall i :: 1 <= i < |p| ==> PlainSegment(p[i])
  }

  lemma PlainAfter(s: string, a: string, x: string)
    requires s == a + x && |x| > 0 && PlainName(x[1..])
    ensures forall i :: |a| < i < |s| ==> !Delimiter(s[i])
  {
    forall i | |a| < i < |s| ensures !Delimiter(s[i]) {
      assert s[i] == x[1..][i - |a| - 1];
    }
  }

  /** A text splits before its last delimiter in one way only. */
  lemma SplitsOnce(a: string, x: string, b: string, y: string)
    requires a + x == b + y && |x| > 0 && |y| > 0 && Delimiter(x[0]) && Delimiter(y[0]) && PlainName(x[1..])
    requires PlainName(y[1..])
    ensures a == b && x == y
  {
    var s := a + x;
    PlainAfter(s, a, x);
    PlainAfter(s, b, y);
    assert s[|a|] == x[0] && s[|b|] == y[0];
    assert a == s[..|a|] && b == s[..|b|] && x == s[|a|..] && y == s[|b|..];
  }

  lemma SegmentShape(s: Segment)
    requires PlainSegment(s)
    ensures |SegmentText(s)| > 0 && Delimiter(SegmentText(s)[0]) && PlainName(SegmentText(s)[1..])
  {
    if s.Item? {
      var t := SegmentText(s);
      assert t[1..] == Itoa(s.index) + "]";
    }
  }

  lemma SegmentInjective(s: Segment, t: Segment)
    requires PlainSegment(s) && PlainSegment(t) && SegmentText(s) == SegmentText(t)
    ensures s == t
  {
    assert SegmentText(s)[0] == (if s.Field? then '.' else '[') && SegmentText(t)[0] == (if t.Field? then '.' else '[');
    if s.Field? && t.Field? {
      assert SegmentText(s)[1..] == s.key && SegmentText(t)[1..] == t.key;
    } else if s.Item? && t.Item? {
      var x := SegmentText(s);
      assert x[1..|x| - 1] == Itoa(s.index) && x[1..|x| - 1] == Itoa(t.index);
      ItoaInjective(s.index, t.index);
    }
  }

  lemma RootShape(r: Segment)
    requires r.Root?
    ensures SegmentText(r) == r.section + SegmentText(Item(r.index)) + ".config" && PathText([r]) == SegmentText(r)
  {
    assert [r][..0] == [];
  }

  lemma RootInjective(r: Segment, t: Segment)
    requires r.Root? && t.Root? && PlainName(r.section) && PlainName(t.section) && SegmentText(r) == SegmentText(t)
    ensures r == t
  {
    RootShape(r);
    RootShape(t);
    SplitsOnce(r.section + SegmentText(Item(r.index)), ".config", t.section + SegmentText(Item(t.index)), ".config");
    SegmentShape(Item(r.index));
    SegmentShape(Item(t.index));
    SplitsOnce(r.section, SegmentText(Item(r.index)), t.section, SegmentText(Item(t.index)));
    SegmentInjective(Item(r.index), Item(t.index));
  }

  function Delimiters(s: string): nat {
    if s == [] then 0 else Delimiters(s[..|s| - 1]) + if Delimiter(s[|s| - 1]) then 1 else 0
  }

  lemma {:induction false} DelimitersJoin(a: string, b: string)
    ensures Delimiters(a + b) == Delimiters(a) + Delimiters(b)
    decreases |b|
  {
    if b == [] {
      assert a + b == a;
    } else {
      assert (a + b)[..|a + b| - 1] == a + b[..|b| - 1];
      DelimitersJoin(a, b[..|b| - 1]);
    }
  }

  lemma {:induction false} PlainHasNone(s: string)
    requires PlainName(s)
    ensures Delimiters(s) == 0
  {
    if s == [] {
    } else {
      PlainHasNone(s[..|s| - 1]);
    }
  }

  lemma SegmentHasOne(x: string)
    requires |x| > 0 && Delimiter(x[0]) && PlainName(x[1..])
    ensures Delimiters(x) == 1
  {
    assert x == x[..1] + x[1..];
    DelimitersJoin(x[..1], x[1..]);
    PlainHasNone(x[1..]);
    assert x[..1][..0] == [];
  }

  lemma RootHasTwo(r: Segment)
    requires r.Root? && PlainName(r.section)
    ensures Delimiters(SegmentText(r)) == 2
  {
    RootShape(r);
    SegmentShape(Item(r.index));
    hide SegmentText;
    DelimitersJoin(r.section + SegmentText(Item(r.index)), ".config");
    DelimitersJoin(r.section, SegmentText(Item(r.index)));
    PlainHasNone(r.section);
    SegmentHasOne(SegmentText(Item(r.index)));
    SegmentHasOne(".config");
  }

  lemma {:induction false} PathDelimiters(p: Path)
    requires PlainPath(p)
    ensures Delimiters(PathText(p)) == |p| + 1
    decreases |p|
  {
    hide SegmentText;
    if |p| == 1 {
      assert p == [p[0]];
      RootShape(p[0]);
      RootHasTwo(p[0]);
    } else {
      PathDelimiters(p[..|p| - 1]);
      SegmentShape(p[|p| - 1]);
      SegmentHasOne(SegmentText(p[|p| - 1]));
      DelimitersJoin(PathText(p[..|p| - 1]), SegmentText(p[|p| - 1]));
    }
  }

  lemma {:induction false} SameLengthInjective(p: Path, q: Path)
    requires PlainPath(p) && PlainPath(q) && |p| == |q| && PathText(p) == PathText(q)
    ensures p == q
    decreases |p|
  {
    hide SegmentText;
    if |p| == 1 {
      assert p == [p[0]] && q == [q[0]];
      RootShape(p[0]);
      RootShape(q[0]);
      RootInjective(p[0], q[0]);
    } else {
      var a, s, b, t := p[..|p| - 1], p[|p| - 1], q[..|q| - 1], q[|q| - 1];
      SegmentShape(s);
      SegmentShape(t);
      SplitsOnce(PathText(a), SegmentText(s), PathText(b), SegmentText(t));
      SegmentInjective(s, t);
      SameLengthInjective(a, b);
      assert p == a + [s] && q == b + [t];
    }
  }

  /** Paths of plain names with the same text are the same path. */
  lemma PathTextInjective(p: Path, q: Path)
    requires PlainPath(p) && PlainPath(q) && PathText(p) == PathText(q)
    ensures p == q
  {
    PathDelimiters(p);
    PathDelimiters(q);
    SameLengthInjective(p, q);
  }

  lemma TextOfLonger(p: Path, s: Segment)
    ensures PathText(p + [s]) == PathText(p) + SegmentText(s)
  {
    assert (p + [s])[..|p|] == p;
  }

  /** Field names with a "." can give two leaves one path text. */
  lemma DottedNamesCollide(p: Path, a: string, b: string)
    ensures PathText(p + [Field(a + "." + b)]) == PathText(p + [Field(a)] + [Field(b)])
  {
    hide PathText;
    TextOfLonger(p, Field(a + "." + b));
    TextOfLonger(p, Field(a));
    TextOfLonger(p + [Field(a)], Field(b));
    assert PathText(p) + ("." + (a + "." + b)) == (PathText(p) + ("." + a)) + ("." + b);
  }

  // ---------------------------------------------------------------- one leaf per path

  lemma {:induction false} LeafBelow(v: Json, schema: Schema, path: Path, l: Leaf)
    requires l in Leaves(v, schema, path)
    ensures |path| <= |l.path| && l.path[..|path|] == path
    decreases v
  {
    if !IsPassword(schema.value) {
      var s :| s in Segments(v, schema.value)
          && l in Leaves(At(v, schema.value, s), SchemaAt(schema.value, s), path + [s]);
      LeafBelow(At(v, schema.value, s), SchemaAt(schema.value, s), path + [s], l);
      assert l.path[..|path|] == l.path[..|path| + 1][..|path|];
    }
  }

  lemma {:induction false} OneLeafPerPath(v: Json, schema: Schema, path: Path, l: Leaf, m: Leaf)
    requires l in Leaves(v, schema, path) && m in Leaves(v, schema, path) && l.path == m.path
    ensures l == m
    decreases v
  {
    if !IsPassword(schema.value) {
      var sc := schema.value;
      var s :| s in Segments(v, sc) && l in Leaves(At(v, sc, s), SchemaAt(sc, s), path + [s]);
      var t :| t in Segments(v, sc) && m in Leaves(At(v, sc, t), SchemaAt(sc, t), path + [t]);
      LeafBelow(At(v, sc, s), SchemaAt(sc, s), path + [s], l);
      LeafBelow(At(v, sc, t), SchemaAt(sc, t), path + [t], m);
      assert (path + [s])[|path|] == (path + [t])[|path|];
      OneLeafPerPath(At(v, sc, s), SchemaAt(sc, s), path + [s], l, m);
    }
  }

  lemma NodeOf(cat: Catalog, g: Graph, l: Leaf) returns (kind: Kind, i: nat)
    requires l in GraphLeaves(cat, g)
    ensures var ns := if kind == Processor then g.processors else g.exporters;
            i < |ns| && l in NodeLeaves(cat, kind, i, ns[i]) && |l.path| > 0 && l.path[0] == Root(SectionName(kind), i)
  {
    hide Leaves;
    kind := if l in SectionLeaves(cat, Processor, g.processors) then Processor else Exporter;
    var ns := if kind == Processor then g.processors else g.exporters;
    i :| 0 <= i < |ns| && l in NodeLeaves(cat, kind, i, ns[i]);
    LeafBelow(JObj(ns[i].config.value), NodeSchema(cat, kind, ns[i]), [Root(SectionName(kind), i)], l);
    assert l.path[..1][0] == l.path[0];
  }

  lemma GraphLeafPerPath(cat: Catalog, g: Graph, l: Leaf, m: Leaf)
    requires l in GraphLeaves(cat, g) && m in GraphLeaves(cat, g) && l.path == m.path
    ensures l == m
  {
    hide GraphLeaves, Leaves;
    var kind, i := NodeOf(cat, g, l);
    var kind', j := NodeOf(cat, g, m);
    assert kind == kind' by {
      assert SectionName(Processor)[0] != SectionName(Exporter)[0];
    }
    var ns := if kind == Processor then g.processors else g.exporters;
    OneLeafPerPath(JObj(ns[i].config.value), NodeSchema(cat, kind, ns[i]), [Root(SectionName(kind), i)], l, m);
  }

  /** With plain field names, a graph whose password leaves are all markers or null can be resubmitted. */
  lemma PlainNamesResubmit(cat: Catalog, g: Graph, b: Base64)
    requires forall l :: l in GraphLeaves(cat, g) ==>
               PlainPath(l.path) && (l.value == JNull || EncValue(b, l.value).Some?)
    ensures Resubmittable(b, GraphLeaves(cat, g))
  {
    hide GraphLeaves, EncValue, PathText, PlainPath;
    var leaves := GraphLeaves(cat, g);
    forall l, m | l in leaves && m in leaves && PathText(m.path) == PathText(l.path) ensures m.value == l.value {
      PathTextInjective(m.path, l.path);
      GraphLeafPerPath(cat, g, l, m);
    }
  }
}
