/** The schema-directed walk over password fields: encrypting, redacting and decrypting a graph. */
module Secrets {
  import opened Wrappers
  import opened Json
  import opened Graph
  import opened Crypto

  const SENTINEL: string := "__otel_fleet_redacted__"
  const ENC_KEY: string := "$enc"

  // ---------------------------------------------------------------- paths and schemas

  datatype Segment = Root(section: string, index: nat) | Field(key: string) | Item(index: nat)
  type Path = seq<Segment>

  function SegmentText(s: Segment): string {
    match s
    case Root(section, index) => section + "[" + Itoa(index) + "].config"
    case Field(key) => "." + key
    case Item(index) => "[" + Itoa(index) + "]"
  }

  /** The joined text of a path, by which a stored secret is found again. */
  function PathText(p: Path): string {
    if p == [] then "" else PathText(p[..|p| - 1]) + SegmentText(p[|p| - 1])
  }

  type Schema = Option<map<string, Json>>

  function ObjectAt(schema: map<string, Json>, key: string): Schema {
    if key in schema && schema[key].JObj? then Some(schema[key].fields) else None
  }

  predicate IsPassword(schema: map<string, Json>) { "format" in schema && schema["format"] == JStr("password") }

  function FieldSchema(schema: map<string, Json>, key: string): Schema {
    var props := ObjectAt(schema, "properties");
    var sub := if props.Some? then ObjectAt(props.value, key) else None;
    if sub.Some? then sub else ObjectAt(schema, "additionalProperties")
  }

  // ---------------------------------------------------------------- children

  /** The places below a container that the walk visits. */
  function Segments(v: Json, schema: map<string, Json>): set<Segment> {
    match v
    case JObj(m) => set k | k in m :: Field(k)
    case JArr(xs) => if ObjectAt(schema, "items") == None then {} else set i | 0 <= i < |xs| :: Item(i)
    case _ => {}
  }

  function At(v: Json, schema: map<string, Json>, s: Segment): (r: Json)
    requires s in Segments(v, schema)
    ensures v decreases to r
  {
    match v
    case JObj(m) => m[s.key]
    case JArr(xs) => xs[s.index]
  }

  function SchemaAt(schema: map<string, Json>, s: Segment): Schema {
    if s.Field? then FieldSchema(schema, s.key) else ObjectAt(schema, "items")
  }

  /** The container with its children replaced. */
  function Rebuild(v: Json, schema: map<string, Json>, parts: map<Segment, Json>): Json
    requires parts.Keys == Segments(v, schema)
  {
    match v
    case JObj(m) => JObj(map k | k in m :: assert Field(k) in Segments(v, schema); parts[Field(k)])
    case JArr(xs) =>
      if ObjectAt(schema, "items") == None then v
      else JArr(seq(|xs|, i requires 0 <= i < |xs| => assert Item(i) in Segments(v, schema); parts[Item(i)]))
    case _ => v
  }

  lemma RebuiltSegments(v: Json, schema: map<string, Json>, parts: map<Segment, Json>)
    requires parts.Keys == Segments(v, schema)
    ensures Segments(Rebuild(v, schema, parts), schema) == Segments(v, schema)
  {
    var w := Rebuild(v, schema, parts);
    if v.JObj? {
      assert w.fields.Keys == v.fields.Keys;
    }
  }

  lemma RebuiltAt(v: Json, schema: map<string, Json>, parts: map<Segment, Json>, s: Segment)
    requires parts.Keys == Segments(v, schema) && s in parts
    ensures s in Segments(Rebuild(v, schema, parts), schema) && At(Rebuild(v, schema, parts), schema, s) == parts[s]
  {
    RebuiltSegments(v, schema, parts);
  }

  lemma RebuiltTwice(v: Json, schema: map<string, Json>, parts: map<Segment, Json>, again: map<Segment, Json>)
    requires parts.Keys == again.Keys == Segments(v, schema)
    ensures again.Keys == Segments(Rebuild(v, schema, parts), schema)
    ensures Rebuild(Rebuild(v, schema, parts), schema, again) == Rebuild(v, schema, again)
  {
    RebuiltSegments(v, schema, parts);
  }

  lemma RebuiltSame(v: Json, schema: map<string, Json>, parts: map<Segment, Json>)
    requires parts.Keys == Segments(v, schema) && forall s :: s in parts ==> parts[s] == At(v, schema, s)
    ensures Rebuild(v, schema, parts) == v
  {
    if v.JObj? {
      forall k | k in v.fields ensures Rebuild(v, schema, parts).fields[k] == v.fields[k] {
        assert Field(k) in parts;
      }
    } else if v.JArr? && ObjectAt(schema, "items").Some? {
      forall i | 0 <= i < |v.items| ensures Rebuild(v, schema, parts).items[i] == v.items[i] {
        assert Item(i) in parts;
      }
    }
  }

  // ---------------------------------------------------------------- the walk

  type LeafFn = (Path, Json) -> Result<Json>

  /** Replace every password leaf by what `f` makes of it, failing when `f` fails on one. */
  function Transform(v: Json, schema: Schema, path: Path, f: LeafFn): Result<Json>
    decreases v, 2
  {
    if schema == None then Ok(v)
    else if IsPassword(schema.value) then f(path, v)
    else if forall s :: s in Segments(v, schema.value) ==> Below(v, schema.value, path, f, s).Ok?
    then Ok(Rebuild(v, schema.value, Parts(v, schema.value, path, f)))
    else Err
  }

  function Below(v: Json, schema: map<string, Json>, path: Path, f: LeafFn, s: Segment): Result<Json>
    requires s in Segments(v, schema)
    decreases v, 0
  {
    Transform(At(v, schema, s), SchemaAt(schema, s), path + [s], f)
  }

  function Parts(v: Json, schema: map<string, Json>, path: Path, f: LeafFn): map<Segment, Json>
    requires forall s :: s in Segments(v, schema) ==> Below(v, schema, path, f, s).Ok?
    decreases v, 1
  {
    map s | s in Segments(v, schema) :: Below(v, schema, path, f, s).value
  }

  datatype Leaf = Leaf(path: Path, value: Json)

  /** The password leaves of a value. */
  function Leaves(v: Json, schema: Schema, path: Path): set<Leaf>
    decreases v
  {
    if schema == None then {}
    else if IsPassword(schema.value) then {Leaf(path, v)}
    else
      var sc := schema.value;
      set s, l | s in Segments(v, sc) && l in Leaves(At(v, sc, s), SchemaAt(sc, s), path + [s]) :: l
  }

  predicate OkOn(f: LeafFn, leaves: set<Leaf>) { forall l :: l in leaves ==> f(l.path, l.value).Ok? }

  /** The walk fails exactly when some leaf does. */
  lemma {:induction false} FailsByLeaf(v: Json, schema: Schema, path: Path, f: LeafFn)
    ensures Transform(v, schema, path, f).Ok? <==> OkOn(f, Leaves(v, schema, path))
    decreases v
  {
    if schema.Some? && !IsPassword(schema.value) {
      forall s | s in Segments(v, schema.value)
        ensures Below(v, schema.value, path, f, s).Ok?
                <==> OkOn(f, Leaves(At(v, schema.value, s), SchemaAt(schema.value, s), path + [s]))
      {
        FailsByLeaf(At(v, schema.value, s), SchemaAt(schema.value, s), path + [s], f);
      }
    }
  }

  predicate AgreeOn(f: LeafFn, g: LeafFn, leaves: set<Leaf>) {
    forall l :: l in leaves ==> f(l.path, l.value) == g(l.path, l.value)
  }

  /** The walk depends on `f` only at the leaves. */
  lemma {:induction false} OnlyLeavesMatter(v: Json, schema: Schema, path: Path, f: LeafFn, g: LeafFn)
    requires AgreeOn(f, g, Leaves(v, schema, path))
    ensures Transform(v, schema, path, f) == Transform(v, schema, path, g)
    decreases v
  {
    if schema.Some? && !IsPassword(schema.value) {
      forall s | s in Segments(v, schema.value)
        ensures Below(v, schema.value, path, f, s) == Below(v, schema.value, path, g, s)
      {
        OnlyLeavesMatter(At(v, schema.value, s), SchemaAt(schema.value, s), path + [s], f, g);
      }
      if Transform(v, schema, path, f).Ok? {
        assert Parts(v, schema.value, path, f) == Parts(v, schema.value, path, g);
      }
    }
  }

  function Keep(): LeafFn { (p, x) => Ok(x) }

  lemma {:induction false} KeepIsIdentity(v: Json, schema: Schema, path: Path)
    ensures Transform(v, schema, path, Keep()) == Ok(v)
    decreases v
  {
    if schema.Some? && !IsPassword(schema.value) {
      forall s | s in Segments(v, schema.value)
        ensures Below(v, schema.value, path, Keep(), s) == Ok(At(v, schema.value, s))
      {
        KeepIsIdentity(At(v, schema.value, s), SchemaAt(schema.value, s), path + [s]);
      }
      RebuiltSame(v, schema.value, Parts(v, schema.value, path, Keep()));
    }
  }

  /** First `f`, then `g`. */
  function Then(f: LeafFn, g: LeafFn): LeafFn {
    (p, x) => if f(p, x).Ok? then g(p, f(p, x).value) else Err
  }

  /** Two walks one after the other are one walk. */
  lemma {:induction false} WalksFuse(v: Json, schema: Schema, path: Path, f: LeafFn, g: LeafFn)
    requires Transform(v, schema, path, f).Ok?
    ensures Transform(Transform(v, schema, path, f).value, schema, path, g) == Transform(v, schema, path, Then(f, g))
    decreases v
  {
    if schema.Some? && !IsPassword(schema.value) {
      var parts := Parts(v, schema.value, path, f);
      var w := Rebuild(v, schema.value, parts);
      RebuiltSegments(v, schema.value, parts);
      forall s | s in Segments(v, schema.value)
        ensures Below(w, schema.value, path, g, s) == Below(v, schema.value, path, Then(f, g), s)
      {
        RebuiltAt(v, schema.value, parts, s);
        WalksFuse(At(v, schema.value, s), SchemaAt(schema.value, s), path + [s], f, g);
      }
      if Transform(w, schema, path, g).Ok? {
        assert Parts(w, schema.value, path, g) == Parts(v, schema.value, path, Then(f, g));
        RebuiltTwice(v, schema.value, parts, Parts(w, schema.value, path, g));
      }
    }
  }

  function Mapped(leaves: set<Leaf>, f: LeafFn): set<Leaf>
    requires OkOn(f, leaves)
  {
    set l | l in leaves :: Leaf(l.path, f(l.path, l.value).value)
  }

  /** The leaves of a transformed value are the transformed leaves, at the same paths. */
  lemma {:induction false} LeavesTransformed(v: Json, schema: Schema, path: Path, f: LeafFn)
    requires Transform(v, schema, path, f).Ok?
    ensures OkOn(f, Leaves(v, schema, path))
    ensures Leaves(Transform(v, schema, path, f).value, schema, path) == Mapped(Leaves(v, schema, path), f)
    decreases v
  {
    FailsByLeaf(v, schema, path, f);
    if schema.Some? && !IsPassword(schema.value) {
      var sc := schema.value;
      var parts := Parts(v, sc, path, f);
      var w := Rebuild(v, sc, parts);
      RebuiltSegments(v, sc, parts);
      forall s | s in Segments(v, sc)
        ensures OkOn(f, Leaves(At(v, sc, s), SchemaAt(sc, s), path + [s]))
        ensures Leaves(At(w, sc, s), SchemaAt(sc, s), path + [s])
                == Mapped(Leaves(At(v, sc, s), SchemaAt(sc, s), path + [s]), f)
      {
        RebuiltAt(v, sc, parts, s);
        LeavesTransformed(At(v, sc, s), SchemaAt(sc, s), path + [s], f);
      }
      LeavesGathered(v, w, schema, path, f);
    }
  }

  lemma LeavesGathered(v: Json, w: Json, schema: Schema, path: Path, f: LeafFn)
    requires schema.Some? && !IsPassword(schema.value) && Segments(w, schema.value) == Segments(v, schema.value)
    requires forall s :: s in Segments(v, schema.value) ==>
               OkOn(f, Leaves(At(v, schema.value, s), SchemaAt(schema.value, s), path + [s]))
    requires forall s :: s in Segments(v, schema.value) ==>
      Leaves(At(w, schema.value, s), SchemaAt(schema.value, s), path + [s])
      == Mapped(Leaves(At(v, schema.value, s), SchemaAt(schema.value, s), path + [s]), f)
    requires OkOn(f, Leaves(v, schema, path))
    ensures Leaves(w, schema, path) == Mapped(Leaves(v, schema, path), f)
  {
    var sc := schema.value;
    forall l | l in Leaves(w, schema, path) ensures l in Mapped(Leaves(v, schema, path), f) {
      var s :| s in Segments(w, sc) && l in Leaves(At(w, sc, s), SchemaAt(sc, s), path + [s]);
      assert l in Mapped(Leaves(At(v, sc, s), SchemaAt(sc, s), path + [s]), f);
    }
    forall l | l in Leaves(v, schema, path) ensures Leaf(l.path, f(l.path, l.value).value) in Leaves(w, schema, path) {
      var s :| s in Segments(v, sc) && l in Leaves(At(v, sc, s), SchemaAt(sc, s), path + [s]);
      assert Leaf(l.path, f(l.path, l.value).value) in Leaves(At(w, sc, s), SchemaAt(sc, s), path + [s]);
    }
  }

  // ---------------------------------------------------------------- the walk over a graph

  /** No component's config is itself a password. */
  predicate PlainRoots(cat: Catalog) { forall c :: c in cat ==> !IsPassword(cat[c].schema) }

  function SectionName(kind: Kind): string { if kind == Processor then "processors" else "exporters" }

  /** Nodes of unknown type, or without a config, are not walked. */
  function NodeSchema(cat: Catalog, kind: Kind, n: Node): Schema {
    if (kind, n.component) in cat && n.config.Some? then Some(cat[(kind, n.component)].schema) else None
  }

  function NodeOut(cat: Catalog, kind: Kind, i: nat, n: Node, f: LeafFn): Result<Node> {
    if NodeSchema(cat, kind, n) == None then Ok(n)
    else
      var r := Transform(JObj(n.config.value), NodeSchema(cat, kind, n), [Root(SectionName(kind), i)], f);
      if r.Err? then Err else Ok(n.(config := if r.value.JObj? then Some(r.value.fields) else None))
  }

  function NodeLeaves(cat: Catalog, kind: Kind, i: nat, n: Node): set<Leaf> {
    if NodeSchema(cat, kind, n) == None then {}
    else Leaves(JObj(n.config.value), NodeSchema(cat, kind, n), [Root(SectionName(kind), i)])
  }

  function SectionOut(cat: Catalog, kind: Kind, ns: seq<Node>, f: LeafFn): (r: Result<seq<Node>>)
    ensures r.Ok? <==> forall i :: 0 <= i < |ns| ==> NodeOut(cat, kind, i, ns[i], f).Ok?
    ensures r.Ok? ==> |r.value| == |ns|
    ensures r.Ok? ==> forall i :: 0 <= i < |ns| ==> r.value[i] == NodeOut(cat, kind, i, ns[i], f).value
  {
    if forall i :: 0 <= i < |ns| ==> NodeOut(cat, kind, i, ns[i], f).Ok?
    then Ok(seq(|ns|, i requires 0 <= i < |ns| => NodeOut(cat, kind, i, ns[i], f).value))
    else Err
  }

  function SectionLeaves(cat: Catalog, kind: Kind, ns: seq<Node>): set<Leaf> {
    set i, l | 0 <= i < |ns| && l in NodeLeaves(cat, kind, i, ns[i]) :: l
  }

  function GraphOut(cat: Catalog, g: Graph, f: LeafFn): Result<Graph> {
    var ps, es := SectionOut(cat, Processor, g.processors, f), SectionOut(cat, Exporter, g.exporters, f);
    if ps.Ok? && es.Ok? then Ok(g.(processors := ps.value, exporters := es.value)) else Err
  }

  /** Every password leaf of a graph. */
  function GraphLeaves(cat: Catalog, g: Graph): set<Leaf> {
    SectionLeaves(cat, Processor, g.processors) + SectionLeaves(cat, Exporter, g.exporters)
  }

  lemma RootStaysObject(m: map<string, Json>, schema: map<string, Json>, path: Path, f: LeafFn)
    requires !IsPassword(schema) && Transform(JObj(m), Some(schema), path, f).Ok?
    ensures Transform(JObj(m), Some(schema), path, f).value.JObj?
  {
  }

  lemma SectionFails(cat: Catalog, kind: Kind, ns: seq<Node>, f: LeafFn)
    ensures SectionOut(cat, kind, ns, f).Ok? <==> OkOn(f, SectionLeaves(cat, kind, ns))
  {
    hide Transform, Leaves;
    forall i | 0 <= i < |ns|
      ensures NodeOut(cat, kind, i, ns[i], f).Ok? <==> OkOn(f, NodeLeaves(cat, kind, i, ns[i]))
    {
      if NodeSchema(cat, kind, ns[i]).Some? {
        FailsByLeaf(JObj(ns[i].config.value), NodeSchema(cat, kind, ns[i]), [Root(SectionName(kind), i)], f);
      }
    }
    hide NodeOut, NodeLeaves;
  }

  lemma GraphFails(cat: Catalog, g: Graph, f: LeafFn)
    ensures GraphOut(cat, g, f).Ok? <==> OkOn(f, GraphLeaves(cat, g))
  {
    hide SectionOut, SectionLeaves;
    SectionFails(cat, Processor, g.processors, f);
    SectionFails(cat, Exporter, g.exporters, f);
  }

  lemma SectionAgree(cat: Catalog, kind: Kind, ns: seq<Node>, f: LeafFn, h: LeafFn)
    requires AgreeOn(f, h, SectionLeaves(cat, kind, ns))
    ensures SectionOut(cat, kind, ns, f) == SectionOut(cat, kind, ns, h)
  {
    hide Transform, Leaves;
    forall i | 0 <= i < |ns| ensures NodeOut(cat, kind, i, ns[i], f) == NodeOut(cat, kind, i, ns[i], h) {
      assert forall l :: l in NodeLeaves(cat, kind, i, ns[i]) ==> l in SectionLeaves(cat, kind, ns);
      if NodeSchema(cat, kind, ns[i]).Some? {
        OnlyLeavesMatter(JObj(ns[i].config.value), NodeSchema(cat, kind, ns[i]), [Root(SectionName(kind), i)], f, h);
      }
    }
    hide NodeOut;
    if SectionOut(cat, kind, ns, f).Ok? {
      assert SectionOut(cat, kind, ns, f).value == SectionOut(cat, kind, ns, h).value;
    }
  }

  /** What a walk makes of a graph depends on `f` only at the graph's leaves. */
  lemma GraphAgree(cat: Catalog, g: Graph, f: LeafFn, h: LeafFn)
    requires AgreeOn(f, h, GraphLeaves(cat, g))
    ensures GraphOut(cat, g, f) == GraphOut(cat, g, h)
  {
    hide SectionOut, SectionLeaves;
    SectionAgree(cat, Processor, g.processors, f, h);
    SectionAgree(cat, Exporter, g.exporters, f, h);
  }

  lemma SectionKeep(cat: Catalog, kind: Kind, ns: seq<Node>)
    ensures SectionOut(cat, kind, ns, Keep()) == Ok(ns)
  {
    hide Transform;
    forall i | 0 <= i < |ns| ensures NodeOut(cat, kind, i, ns[i], Keep()) == Ok(ns[i]) {
      if NodeSchema(cat, kind, ns[i]).Some? {
        KeepIsIdentity(JObj(ns[i].config.value), NodeSchema(cat, kind, ns[i]), [Root(SectionName(kind), i)]);
      }
    }
    hide NodeOut;
    assert SectionOut(cat, kind, ns, Keep()).value == ns;
  }

  lemma GraphKeep(cat: Catalog, g: Graph)
    ensures GraphOut(cat, g, Keep()) == Ok(g)
  {
    hide SectionOut;
    SectionKeep(cat, Processor, g.processors);
    SectionKeep(cat, Exporter, g.exporters);
  }

  lemma NodeFuse(cat: Catalog, kind: Kind, i: nat, n: Node, f: LeafFn, h: LeafFn)
    requires PlainRoots(cat) && NodeOut(cat, kind, i, n, f).Ok?
    ensures NodeOut(cat, kind, i, NodeOut(cat, kind, i, n, f).value, h) == NodeOut(cat, kind, i, n, Then(f, h))
  {
    if NodeSchema(cat, kind, n).Some? {
      var schema, path := NodeSchema(cat, kind, n), [Root(SectionName(kind), i)];
      RootStaysObject(n.config.value, schema.value, path, f);
      hide Transform;
      WalksFuse(JObj(n.config.value), schema, path, f, h);
    }
  }

  lemma SectionFuse(cat: Catalog, kind: Kind, ns: seq<Node>, f: LeafFn, h: LeafFn)
    requires PlainRoots(cat) && SectionOut(cat, kind, ns, f).Ok?
    ensures SectionOut(cat, kind, SectionOut(cat, kind, ns, f).value, h) == SectionOut(cat, kind, ns, Then(f, h))
  {
    hide NodeOut;
    var ms := SectionOut(cat, kind, ns, f).value;
    forall i | 0 <= i < |ns| ensures NodeOut(cat, kind, i, ms[i], h) == NodeOut(cat, kind, i, ns[i], Then(f, h)) {
      NodeFuse(cat, kind, i, ns[i], f, h);
    }
    if SectionOut(cat, kind, ms, h).Ok? {
      assert SectionOut(cat, kind, ms, h).value == SectionOut(cat, kind, ns, Then(f, h)).value;
    }
  }

  lemma GraphFuse(cat: Catalog, g: Graph, f: LeafFn, h: LeafFn)
    requires PlainRoots(cat) && GraphOut(cat, g, f).Ok?
    ensures GraphOut(cat, GraphOut(cat, g, f).value, h) == GraphOut(cat, g, Then(f, h))
  {
    hide SectionOut;
    SectionFuse(cat, Processor, g.processors, f, h);
    SectionFuse(cat, Exporter, g.exporters, f, h);
  }

  lemma {:induction false} FixedLeaves(v: Json, schema: Schema, path: Path, f: LeafFn)
    requires Transform(v, schema, path, f) == Ok(v)
    ensures AgreeOn(f, Keep(), Leaves(v, schema, path))
    decreases v
  {
    if schema.Some? && !IsPassword(schema.value) {
      var sc := schema.value;
      var parts := Parts(v, sc, path, f);
      forall s | s in Segments(v, sc)
        ensures AgreeOn(f, Keep(), Leaves(At(v, sc, s), SchemaAt(sc, s), path + [s]))
      {
        RebuiltAt(v, sc, parts, s);
        FixedLeaves(At(v, sc, s), SchemaAt(sc, s), path + [s], f);
      }
    }
  }

  lemma SectionFixed(cat: Catalog, kind: Kind, ns: seq<Node>, f: LeafFn)
    requires PlainRoots(cat) && SectionOut(cat, kind, ns, f) == Ok(ns)
    ensures AgreeOn(f, Keep(), SectionLeaves(cat, kind, ns))
  {
    forall i | 0 <= i < |ns| ensures AgreeOn(f, Keep(), NodeLeaves(cat, kind, i, ns[i])) {
      if NodeSchema(cat, kind, ns[i]).Some? {
        var schema, path := NodeSchema(cat, kind, ns[i]), [Root(SectionName(kind), i)];
        assert NodeOut(cat, kind, i, ns[i], f) == Ok(ns[i]);
        RootStaysObject(ns[i].config.value, schema.value, path, f);
        FixedLeaves(JObj(ns[i].config.value), schema, path, f);
      }
    }
  }

  /** A walk that gives a graph back changes none of its leaves. */
  lemma GraphFixed(cat: Catalog, g: Graph, f: LeafFn)
    requires PlainRoots(cat) && GraphOut(cat, g, f) == Ok(g)
    ensures AgreeOn(f, Keep(), GraphLeaves(cat, g))
  {
    hide SectionOut, SectionLeaves;
    SectionFixed(cat, Processor, g.processors, f);
    SectionFixed(cat, Exporter, g.exporters, f);
  }

  lemma NodeLeavesTransformed(cat: Catalog, kind: Kind, i: nat, n: Node, f: LeafFn)
    requires PlainRoots(cat) && NodeOut(cat, kind, i, n, f).Ok?
    ensures OkOn(f, NodeLeaves(cat, kind, i, n))
    ensures NodeLeaves(cat, kind, i, NodeOut(cat, kind, i, n, f).value) == Mapped(NodeLeaves(cat, kind, i, n), f)
  {
    if NodeSchema(cat, kind, n).Some? {
      var schema, path := NodeSchema(cat, kind, n), [Root(SectionName(kind), i)];
      RootStaysObject(n.config.value, schema.value, path, f);
      hide Transform, Leaves;
      LeavesTransformed(JObj(n.config.value), schema, path, f);
    }
  }

  lemma SectionLeavesTransformed(cat: Catalog, kind: Kind, ns: seq<Node>, f: LeafFn)
    requires PlainRoots(cat) && SectionOut(cat, kind, ns, f).Ok?
    ensures OkOn(f, SectionLeaves(cat, kind, ns))
    ensures SectionLeaves(cat, kind, SectionOut(cat, kind, ns, f).value) == Mapped(SectionLeaves(cat, kind, ns), f)
  {
    hide NodeOut, NodeLeaves;
    SectionFails(cat, kind, ns, f);
    var ms := SectionOut(cat, kind, ns, f).value;
    forall i | 0 <= i < |ns|
      ensures OkOn(f, NodeLeaves(cat, kind, i, ns[i]))
      ensures NodeLeaves(cat, kind, i, ms[i]) == Mapped(NodeLeaves(cat, kind, i, ns[i]), f)
    {
      NodeLeavesTransformed(cat, kind, i, ns[i], f);
    }
    forall l | l in SectionLeaves(cat, kind, ms) ensures l in Mapped(SectionLeaves(cat, kind, ns), f) {
      var i :| 0 <= i < |ms| && l in NodeLeaves(cat, kind, i, ms[i]);
      assert l in Mapped(NodeLeaves(cat, kind, i, ns[i]), f);
    }
    forall l | l in SectionLeaves(cat, kind, ns)
      ensures Leaf(l.path, f(l.path, l.value).value) in SectionLeaves(cat, kind, ms)
    {
      var i :| 0 <= i < |ns| && l in NodeLeaves(cat, kind, i, ns[i]);
      assert Leaf(l.path, f(l.path, l.value).value) in NodeLeaves(cat, kind, i, ms[i]);
    }
  }

  /** The leaves of a transformed graph are the transformed leaves, at the same paths. */
  lemma GraphLeavesTransformed(cat: Catalog, g: Graph, f: LeafFn)
    requires PlainRoots(cat) && GraphOut(cat, g, f).Ok?
    ensures OkOn(f, GraphLeaves(cat, g))
    ensures GraphLeaves(cat, GraphOut(cat, g, f).value) == Mapped(GraphLeaves(cat, g), f)
  {
    hide SectionOut, SectionLeaves;
    SectionLeavesTransformed(cat, Processor, g.processors, f);
    SectionLeavesTransformed(cat, Exporter, g.exporters, f);
  }
}
