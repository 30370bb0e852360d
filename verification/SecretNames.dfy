/** Schemas of the catalog's shape: path texts tell secrets apart whatever the headers are called. */
module SecretNames {
  import opened Wrappers
  import opened Json
  import opened Graph
  import opened Secrets
  import opened GraphSecrets
  import opened SecretPaths

  // ---------------------------------------------------------------- schemas

  /** A password may lie below the schema. */
  predicate HoldsSecret(schema: Json)
    decreases schema
  {
    && schema.JObj?
    && (|| IsPassword(schema.fields)
        || ("items" in schema.fields && HoldsSecret(schema.fields["items"]))
        || ("additionalProperties" in schema.fields && HoldsSecret(schema.fields["additionalProperties"]))
        || ("properties" in schema.fields && schema.fields["properties"].JObj?
            && exists k ::
                 k in schema.fields["properties"].fields && HoldsSecret(schema.fields["properties"].fields[k])))
  }

  /** Every value of the object is a password, under a key the user is free to choose. */
  predicate FreeKeys(schema: map<string, Json>) {
    && ObjectAt(schema, "properties") == None
    && ObjectAt(schema, "additionalProperties").Some? && IsPassword(ObjectAt(schema, "additionalProperties").value)
  }

  /**
   The shape of the catalog's schemas: properties that lead to a password have plain names, and additional
   properties lead to one only by being one, in an object without listed properties.
   */
  predicate CatalogShape(schema: Json)
    decreases schema
  {
    schema.JObj? ==>
      || IsPassword(schema.fields)
      || (&& ("items" in schema.fields ==> CatalogShape(schema.fields["items"]))
          && ("additionalProperties" in schema.fields && HoldsSecret(schema.fields["additionalProperties"])
             ==> FreeKeys(schema.fields))
          && ("properties" in schema.fields && schema.fields["properties"].JObj? ==>
                forall k :: k in schema.fields["properties"].fields ==>
                  var sub := schema.fields["properties"].fields[k];
                  CatalogShape(sub) && (HoldsSecret(sub) ==> PlainName(k))))
  }

  function AsJson(schema: Schema): Json { if schema.Some? then JObj(schema.value) else JNull }

  lemma {:induction false} NoSecretNoLeaf(v: Json, schema: Schema, path: Path)
    requires !HoldsSecret(AsJson(schema))
    ensures Leaves(v, schema, path) == {}
    decreases v
  {
    if schema == None {
    } else {
      forall s | s in Segments(v, schema.value)
        ensures Leaves(At(v, schema.value, s), SchemaAt(schema.value, s), path + [s]) == {}
      {
        SubschemaHolds(schema.value, s);
        NoSecretNoLeaf(At(v, schema.value, s), SchemaAt(schema.value, s), path + [s]);
      }
    }
  }

  lemma SubschemaHolds(schema: map<string, Json>, s: Segment)
    ensures HoldsSecret(AsJson(SchemaAt(schema, s))) ==> HoldsSecret(JObj(schema))
  {
  }

  /**
   Below a schema of the shape that is no free-key object, secrets lie under plain segments, and the shape goes
   on.
   */
  lemma ShapeBelow(v: Json, schema: map<string, Json>, s: Segment)
    requires CatalogShape(JObj(schema)) && !IsPassword(schema) && s in Segments(v, schema)
    requires !(v.JObj? && FreeKeys(schema)) && HoldsSecret(AsJson(SchemaAt(schema, s)))
    ensures PlainSegment(s) && CatalogShape(AsJson(SchemaAt(schema, s)))
  {
  }

  // ---------------------------------------------------------------- texts

  lemma Regroup(a: string, b: string, c: string)
    ensures (a + b) + c == a + (b + c)
  {
  }

  lemma {:induction false} TextConcat(p: Path, q: Path)
    ensures PathText(p + q) == PathText(p) + PathText(q)
    decreases |q|
  {
    hide SegmentText;
    if q == [] {
      assert p + q == p;
    } else {
      var front, last := q[..|q| - 1], q[|q| - 1];
      assert q == front + [last] && p + q == (p + front) + [last];
      TextConcat(p, front);
      TextOfLonger(p + front, last);
      TextOfLonger(front, last);
      hide PathText;
      Regroup(PathText(p), PathText(front), SegmentText(last));
    }
  }

  /** Nothing, or something that starts with a delimiter. */
  predicate Continues(x: string) { x == "" || Delimiter(x[0]) }

  predicate Rootless(q: Path) { forall i :: 0 <= i < |q| ==> !q[i].Root? }

  lemma {:induction false} RootlessContinues(q: Path)
    requires Rootless(q)
    ensures Continues(PathText(q))
  {
    if q == [] {
    } else {
      RootlessContinues(q[..|q| - 1]);
    }
  }

  /** A segment ends where the next delimiter starts. */
  lemma FirstSplit(a: string, x: string, b: string, y: string)
    requires a + x == b + y && |a| > 0 && |b| > 0 && PlainName(a[1..]) && PlainName(b[1..]) && Continues(x)
    requires Continues(y)
    ensures a == b && x == y
  {
    var s := a + x;
    assert forall i :: 1 <= i < |a| ==> !Delimiter(s[i]) by {
      forall i | 1 <= i < |a| ensures !Delimiter(s[i]) {
        assert s[i] == a[1..][i - 1];
      }
    }
    assert forall i :: 1 <= i < |b| ==> !Delimiter(s[i]) by {
      forall i | 1 <= i < |b| ensures !Delimiter(s[i]) {
        assert s[i] == b[1..][i - 1];
      }
    }
    assert |a| < |s| ==> Delimiter(s[|a|]);
    assert |b| < |s| ==> Delimiter(s[|b|]);
    assert a == s[..|a|] && b == s[..|b|] && x == s[|a|..] && y == s[|b|..];
  }

  lemma {:induction false} LeafTail(v: Json, schema: Schema, path: Path, l: Leaf)
    requires l in Leaves(v, schema, path)
    ensures |path| <= |l.path| && l.path == path + l.path[|path|..] && Rootless(l.path[|path|..])
    decreases v
  {
    if IsPassword(schema.value) {
    } else {
      var sc := schema.value;
      var s :| s in Segments(v, sc) && l in Leaves(At(v, sc, s), SchemaAt(sc, s), path + [s]);
      LeafTail(At(v, sc, s), SchemaAt(sc, s), path + [s], l);
      var tail := l.path[|path| + 1..];
      assert l.path == path + ([s] + tail);
      assert l.path[|path|..] == [s] + tail;
    }
  }

  lemma LeafText(v: Json, schema: Schema, path: Path, l: Leaf)
    requires l in Leaves(v, schema, path)
    ensures |path| <= |l.path| && PathText(l.path) == PathText(path) + PathText(l.path[|path|..])
    ensures Continues(PathText(l.path[|path|..]))
  {
    hide Leaves, PathText;
    LeafTail(v, schema, path, l);
    TextConcat(path, l.path[|path|..]);
    RootlessContinues(l.path[|path|..]);
  }

  lemma FreeLeaf(v: Json, schema: map<string, Json>, path: Path, l: Leaf) returns (k: string)
    requires v.JObj? && FreeKeys(schema) && !IsPassword(schema) && l in Leaves(v, Some(schema), path)
    ensures k in v.fields && l == Leaf(path + [Field(k)], v.fields[k])
  {
    var s :| s in Segments(v, schema) && l in Leaves(At(v, schema, s), SchemaAt(schema, s), path + [s]);
    k := s.key;
    assert l in Leaves(v.fields[k], ObjectAt(schema, "additionalProperties"), path + [s]);
  }

  lemma SameChild(path: Path, s: Segment, x: string, t: Segment, y: string)
    requires PlainSegment(s) && PlainSegment(t) && Continues(x) && Continues(y)
    requires PathText(path + [s]) + x == PathText(path + [t]) + y
    ensures s == t
  {
    TextOfLonger(path, s);
    TextOfLonger(path, t);
    SegmentShape(s);
    SegmentShape(t);
    hide PathText, SegmentText;
    var p := PathText(path);
    Regroup(p, SegmentText(s), x);
    Regroup(p, SegmentText(t), y);
    DropFront(p, SegmentText(s) + x, SegmentText(t) + y);
    FirstSplit(SegmentText(s), x, SegmentText(t), y);
    SegmentInjective(s, t);
  }

  lemma DropFront(p: string, x: string, y: string)
    requires p + x == p + y
    ensures x == y
  {
    assert x == (p + x)[|p|..] && y == (p + y)[|p|..];
  }

  lemma FreeTextsTellApart(v: Json, schema: map<string, Json>, path: Path, l: Leaf, m: Leaf)
    requires v.JObj? && FreeKeys(schema) && !IsPassword(schema)
    requires l in Leaves(v, Some(schema), path) && m in Leaves(v, Some(schema), path)
    requires PathText(l.path) == PathText(m.path)
    ensures l == m
  {
    hide Leaves;
    var j := FreeLeaf(v, schema, path, l);
    var k := FreeLeaf(v, schema, path, m);
    TextOfLonger(path, Field(j));
    TextOfLonger(path, Field(k));
    hide PathText;
    DropFront(PathText(path), "." + j, "." + k);
    DropFront(".", j, k);
  }

  lemma ChildOf(v: Json, schema: map<string, Json>, path: Path, l: Leaf) returns (s: Segment)
    requires CatalogShape(JObj(schema)) && !IsPassword(schema) && !(v.JObj? && FreeKeys(schema))
    requires l in Leaves(v, Some(schema), path)
    ensures s in Segments(v, schema) && l in Leaves(At(v, schema, s), SchemaAt(schema, s), path + [s])
    ensures PlainSegment(s) && CatalogShape(AsJson(SchemaAt(schema, s)))
    ensures |path| < |l.path| && PathText(l.path) == PathText(path + [s]) + PathText(l.path[|path| + 1..])
    ensures Continues(PathText(l.path[|path| + 1..]))
  {
    s :| s in Segments(v, schema) && l in Leaves(At(v, schema, s), SchemaAt(schema, s), path + [s]);
    hide Leaves, PathText, CatalogShape;
    ChildShape(v, schema, path, s, l);
    LeafText(At(v, schema, s), SchemaAt(schema, s), path + [s], l);
  }

  /** In a value under a schema of the catalog's shape, leaves with one path text are one leaf. */
  lemma {:induction false} TextsTellApart(v: Json, schema: Schema, path: Path, l: Leaf, m: Leaf)
    requires CatalogShape(AsJson(schema)) && l in Leaves(v, schema, path) && m in Leaves(v, schema, path)
    requires PathText(l.path) == PathText(m.path)
    ensures l == m
    decreases v
  {
    var sc := schema.value;
    if IsPassword(sc) {
    } else if v.JObj? && FreeKeys(sc) {
      hide Leaves, PathText, CatalogShape, FreeKeys;
      FreeTextsTellApart(v, sc, path, l, m);
    } else {
      hide Leaves, PathText, CatalogShape, FreeKeys, Segments;
      var s := ChildOf(v, sc, path, l);
      var t := ChildOf(v, sc, path, m);
      SameChild(path, s, PathText(l.path[|path| + 1..]), t, PathText(m.path[|path| + 1..]));
      TextsTellApart(At(v, sc, s), SchemaAt(sc, s), path + [s], l, m);
    }
  }

  lemma ChildShape(v: Json, schema: map<string, Json>, path: Path, s: Segment, l: Leaf)
    requires CatalogShape(JObj(schema)) && !IsPassword(schema) && s in Segments(v, schema)
    requires !(v.JObj? && FreeKeys(schema))
    requires l in Leaves(At(v, schema, s), SchemaAt(schema, s), path + [s])
    ensures PlainSegment(s) && CatalogShape(AsJson(SchemaAt(schema, s)))
  {
    hide Leaves, CatalogShape;
    if !HoldsSecret(AsJson(SchemaAt(schema, s))) {
      NoSecretNoLeaf(At(v, schema, s), SchemaAt(schema, s), path + [s]);
    }
    ShapeBelow(v, schema, s);
  }

  // ---------------------------------------------------------------- graphs

  /** Every component's schema has the shape. */
  predicate CatalogShaped(cat: Catalog) { forall c :: c in cat ==> CatalogShape(JObj(cat[c].schema)) }

  lemma RootRegroup(section: string, item: string, x: string)
    ensures (section + item + ".config") + x == section + (item + (".config" + x))
  {
    Regroup(section + item, ".config", x);
    Regroup(section, item, ".config" + x);
  }

  lemma RootsDiffer(r: Segment, x: string, t: Segment, y: string)
    requires r.Root? && t.Root? && PlainName(r.section) && PlainName(t.section) && r.section != "" && t.section != ""
    requires SegmentText(r) + x == SegmentText(t) + y && Continues(x) && Continues(y)
    ensures r == t && x == y
  {
    RootShape(r);
    RootShape(t);
    var i, j := SegmentText(Item(r.index)), SegmentText(Item(t.index));
    SegmentShape(Item(r.index));
    SegmentShape(Item(t.index));
    hide SegmentText;
    RootRegroup(r.section, i, x);
    RootRegroup(t.section, j, y);
    FirstSplit(r.section, i + (".config" + x), t.section, j + (".config" + y));
    FirstSplit(i, ".config" + x, j, ".config" + y);
    FirstSplit(".config", x, ".config", y);
    SegmentInjective(Item(r.index), Item(t.index));
  }

  lemma NodeLeafText(cat: Catalog, kind: Kind, i: nat, n: Node, l: Leaf)
    requires l in NodeLeaves(cat, kind, i, n)
    ensures |l.path| > 0 && PathText(l.path) == SegmentText(Root(SectionName(kind), i)) + PathText(l.path[1..])
    ensures Continues(PathText(l.path[1..]))
  {
    LeafText(JObj(n.config.value), NodeSchema(cat, kind, n), [Root(SectionName(kind), i)], l);
    RootShape(Root(SectionName(kind), i));
  }

  /** Under a catalog of the shape, path texts tell a graph's secrets apart, whatever the user's keys are. */
  lemma GraphTextsTellApart(cat: Catalog, g: Graph, l: Leaf, m: Leaf)
    requires CatalogShaped(cat) && l in GraphLeaves(cat, g) && m in GraphLeaves(cat, g)
    requires PathText(l.path) == PathText(m.path)
    ensures l == m
  {
    hide GraphLeaves, Leaves, CatalogShape;
    var kind, i := NodeOf(cat, g, l);
    var kind', j := NodeOf(cat, g, m);
    var ns := if kind == Processor then g.processors else g.exporters;
    var ms := if kind' == Processor then g.processors else g.exporters;
    SameNode(cat, kind, i, ns[i], l, kind', j, ms[j], m);
    hide PathText;
    TextsTellApart(JObj(ns[i].config.value), NodeSchema(cat, kind, ns[i]), [Root(SectionName(kind), i)], l, m);
  }

  lemma SameNode(cat: Catalog, kind: Kind, i: nat, n: Node, l: Leaf, kind': Kind, j: nat, n': Node, m: Leaf)
    requires l in NodeLeaves(cat, kind, i, n) && m in NodeLeaves(cat, kind', j, n')
    requires PathText(l.path) == PathText(m.path)
    ensures kind == kind' && i == j
  {
    hide NodeLeaves;
    NodeLeafText(cat, kind, i, n, l);
    NodeLeafText(cat, kind', j, n', m);
    SectionsNamed(kind, kind');
    hide PathText, SegmentText, SectionName, PlainName, Continues;
    RootsDiffer(Root(SectionName(kind), i), PathText(l.path[1..]), Root(SectionName(kind'), j), PathText(m.path[1..]));
  }

  lemma SectionsNamed(kind: Kind, kind': Kind)
    ensures PlainName(SectionName(kind)) && SectionName(kind) != "" && PlainName(SectionName(kind'))
    ensures SectionName(kind') != ""
    ensures SectionName(kind) == SectionName(kind') ==> kind == kind'
  {
    assert SectionName(Processor)[0] == 'p' && SectionName(Exporter)[0] == 'e';
  }

  /** So every graph whose secrets are markers or null can be re-submitted. */
  lemma CatalogGraphsResubmit(cat: Catalog, g: Graph, b: Base64)
    requires CatalogShaped(cat)
    requires forall l :: l in GraphLeaves(cat, g) ==> l.value == JNull || EncValue(b, l.value).Some?
    ensures Resubmittable(b, GraphLeaves(cat, g))
  {
    hide GraphLeaves, EncValue, PathText, CatalogShaped;
    var leaves := GraphLeaves(cat, g);
    forall l, m | l in leaves && m in leaves && PathText(m.path) == PathText(l.path) ensures m.value == l.value {
      GraphTextsTellApart(cat, g, l, m);
    }
  }
}
