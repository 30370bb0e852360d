/** The walks as the program runs them: recursion and loops that fill the index and collect the issues. */
module SecretWalks {
  import opened Wrappers
  import opened Json
  import opened Graph
  import opened Crypto
  import opened Secrets
  import opened GraphSecrets

  lemma RebuiltObject(v: Json, schema: map<string, Json>, path: Path, f: LeafFn, out: map<string, Json>)
    requires v.JObj? && !IsPassword(schema) && out.Keys == v.fields.Keys
    requires forall k :: k in out ==>
               Field(k) in Segments(v, schema) && Below(v, schema, path, f, Field(k)) == Ok(out[k])
    ensures Transform(v, Some(schema), path, f) == Ok(JObj(out))
  {
    hide Below;
    assert Rebuild(v, schema, Parts(v, schema, path, f)).fields == out;
  }

  lemma RebuiltArray(v: Json, schema: map<string, Json>, path: Path, f: LeafFn, out: seq<Json>)
    requires v.JArr? && !IsPassword(schema) && ObjectAt(schema, "items").Some? && |out| == |v.items|
    requires forall i :: 0 <= i < |out| ==>
               Item(i) in Segments(v, schema) && Below(v, schema, path, f, Item(i)) == Ok(out[i])
    ensures Transform(v, Some(schema), path, f) == Ok(JArr(out))
  {
    hide Below;
    assert Rebuild(v, schema, Parts(v, schema, path, f)).items == out;
  }

  lemma NothingBelow(v: Json, schema: map<string, Json>, path: Path, f: LeafFn)
    requires !IsPassword(schema) && Segments(v, schema) == {} && !v.JObj?
    requires (v.JArr? ==> ObjectAt(schema, "items") == None)
    ensures Transform(v, Some(schema), path, f) == Ok(v)
  {
  }

  method TransformSecrets(v: Json, schema: Schema, path: Path, f: LeafFn) returns (r: Result<Json>)
    ensures r == Transform(v, schema, path, f)
    decreases v
  {
    if schema == None {
      return Ok(v);
    }
    if IsPassword(schema.value) {
      return f(path, v);
    }
    var sc := schema.value;
    match v
    case JObj(m) =>
      var out: map<string, Json> := map[];
      var todo := m.Keys;
      while todo != {}
        invariant todo <= m.Keys && out.Keys == m.Keys - todo
        invariant forall k :: k in out ==> Field(k) in Segments(v, sc) && Below(v, sc, path, f, Field(k)) == Ok(out[k])
        decreases todo
      {
        hide Transform, FieldSchema;
        var k :| k in todo;
        todo := todo - {k};
        var nv := TransformSecrets(m[k], FieldSchema(sc, k), path + [Field(k)], f);
        assert Field(k) in Segments(v, sc) && Below(v, sc, path, f, Field(k)) == nv;
        if nv.Err? {
          assert Transform(v, schema, path, f) == Err by { ErrBelow(v, sc, path, f, Field(k)); }
          return Err;
        }
        out := out[k := nv.value];
      }
      RebuiltObject(v, sc, path, f, out);
      return Ok(JObj(out));
    case JArr(xs) =>
      var items := ObjectAt(sc, "items");
      if items == None {
        NothingBelow(v, sc, path, f);
        return Ok(v);
      }
      var out: seq<Json> := [];
      for i := 0 to |xs|
        invariant |out| == i
        invariant forall j :: 0 <= j < i ==> Item(j) in Segments(v, sc) && Below(v, sc, path, f, Item(j)) == Ok(out[j])
      {
        hide Transform, FieldSchema;
        var nv := TransformSecrets(xs[i], items, path + [Item(i)], f);
        assert Item(i) in Segments(v, sc) && Below(v, sc, path, f, Item(i)) == nv;
        if nv.Err? {
          assert Transform(v, schema, path, f) == Err by { ErrBelow(v, sc, path, f, Item(i)); }
          return Err;
        }
        out := out + [nv.value];
      }
      RebuiltArray(v, sc, path, f, out);
      return Ok(JArr(out));
    case _ =>
      NothingBelow(v, sc, path, f);
      return Ok(v);
  }

  lemma ErrBelow(v: Json, schema: map<string, Json>, path: Path, f: LeafFn, s: Segment)
    requires !IsPassword(schema) && s in Segments(v, schema) && Below(v, schema, path, f, s) == Err
    ensures Transform(v, Some(schema), path, f) == Err
  {
  }

  method TransformNodes(cat: Catalog, kind: Kind, ns: seq<Node>, f: LeafFn) returns (r: Result<seq<Node>>)
    ensures r == SectionOut(cat, kind, ns, f)
  {
    var nodes := ns;
    for i := 0 to |ns|
      invariant |nodes| == |ns|
      invariant forall j :: 0 <= j < i ==> NodeOut(cat, kind, j, ns[j], f) == Ok(nodes[j])
      invariant forall j :: i <= j < |ns| ==> nodes[j] == ns[j]
    {
      var n := ns[i];
      if (kind, n.component) in cat && n.config.Some? {
        var cfg := TransformSecrets(JObj(n.config.value), Some(cat[(kind, n.component)].schema),
            [Root(SectionName(kind), i)], f);
        if cfg.Err? {
          assert NodeOut(cat, kind, i, ns[i], f).Err?;
          return Err;
        }
        nodes := nodes[i := n.(config := if cfg.value.JObj? then Some(cfg.value.fields) else None)];
      }
    }
    assert SectionOut(cat, kind, ns, f).value == nodes;
    return Ok(nodes);
  }

  method TransformGraphSecrets(cat: Catalog, g: Graph, f: LeafFn) returns (r: Result<Graph>)
    ensures r == GraphOut(cat, g, f)
  {
    var out := g;
    var processors := TransformNodes(cat, Processor, g.processors, f);
    if processors.Err? {
      return Err;
    }
    out := out.(processors := processors.value);
    var exporters := TransformNodes(cat, Exporter, g.exporters, f);
    if exporters.Err? {
      return Err;
    }
    return Ok(out.(exporters := exporters.value));
  }

  // ---------------------------------------------------------------- filling the index

  /** `idx` is `before` with leaves written over it, each path text keeping some leaf written there. */
  ghost predicate Recorded(before: Index, idx: Index, leaves: set<Leaf>) {
    && (forall t :: t in before ==> t in idx)
    && (forall l :: l in leaves ==> PathText(l.path) in idx)
    && (forall t :: t in idx ==> (t in before && idx[t] == before[t]) || Wrote(idx, leaves, t))
  }

  ghost predicate Wrote(idx: Index, leaves: set<Leaf>, t: string) {
    t in idx && exists l :: l in leaves && PathText(l.path) == t && l.value == idx[t]
  }

  lemma RecordedTwice(a: Index, b: Index, c: Index, first: set<Leaf>, second: set<Leaf>)
    requires Recorded(a, b, first) && Recorded(b, c, second)
    ensures Recorded(a, c, first + second)
  {
    hide PathText;
    forall t | t in c ensures (t in a && c[t] == a[t]) || Wrote(c, first + second, t) {
      if Wrote(c, second, t) {
        var l :| l in second && PathText(l.path) == t && l.value == c[t];
        assert l in first + second;
      } else if Wrote(b, first, t) {
        var l :| l in first && PathText(l.path) == t && l.value == b[t];
        assert l in first + second;
      }
    }
  }

  function LeavesAt(v: Json, schema: map<string, Json>, path: Path, s: Segment): set<Leaf>
    requires s in Segments(v, schema)
  {
    Leaves(At(v, schema, s), SchemaAt(schema, s), path + [s])
  }

  function LeavesOf(v: Json, schema: map<string, Json>, path: Path, done: set<Segment>): set<Leaf>
    requires done <= Segments(v, schema)
  {
    set s, l | s in done && l in LeavesAt(v, schema, path, s) :: l
  }

  lemma OneMoreSegment(v: Json, schema: map<string, Json>, path: Path, done: set<Segment>, s: Segment)
    requires done <= Segments(v, schema) && s in Segments(v, schema)
    ensures LeavesOf(v, schema, path, done + {s}) == LeavesOf(v, schema, path, done) + LeavesAt(v, schema, path, s)
  {
    hide LeavesAt, Segments;
  }

  lemma AllSegments(v: Json, schema: map<string, Json>, path: Path)
    requires !IsPassword(schema)
    ensures LeavesOf(v, schema, path, Segments(v, schema)) == Leaves(v, Some(schema), path)
  {
    forall l | l in LeavesOf(v, schema, path, Segments(v, schema)) ensures l in Leaves(v, Some(schema), path) {
      var s :| s in Segments(v, schema) && l in LeavesAt(v, schema, path, s);
    }
    forall l | l in Leaves(v, Some(schema), path) ensures l in LeavesOf(v, schema, path, Segments(v, schema)) {
      var s :| s in Segments(v, schema) && l in Leaves(At(v, schema, s), SchemaAt(schema, s), path + [s]);
      assert l in LeavesAt(v, schema, path, s);
    }
  }

  method RecordSecrets(v: Json, schema: Schema, path: Path, before: Index) returns (idx: Index)
    ensures Recorded(before, idx, Leaves(v, schema, path))
    decreases v
  {
    idx := before;
    if schema == None {
      return;
    }
    if IsPassword(schema.value) {
      idx := idx[PathText(path) := v];
      return;
    }
    var sc := schema.value;
    var todo := Segments(v, sc);
    while todo != {}
      invariant todo <= Segments(v, sc)
      invariant Recorded(before, idx, LeavesOf(v, sc, path, Segments(v, sc) - todo))
      decreases todo
    {
      hide Recorded, Leaves, Segments, LeavesOf;
      var s :| s in todo;
      ghost var done := Segments(v, sc) - todo;
      ghost var mid := idx;
      todo := todo - {s};
      idx := RecordSecrets(At(v, sc, s), SchemaAt(sc, s), path + [s], idx);
      RecordedTwice(before, mid, idx, LeavesOf(v, sc, path, done), LeavesAt(v, sc, path, s));
      OneMoreSegment(v, sc, path, done, s);
      assert done + {s} == Segments(v, sc) - todo;
    }
    assert Segments(v, sc) - {} == Segments(v, sc);
    AllSegments(v, sc, path);
  }

  function LeavesUpTo(cat: Catalog, kind: Kind, ns: seq<Node>, n: nat): set<Leaf>
    requires n <= |ns|
  {
    set i, l | 0 <= i < n && l in NodeLeaves(cat, kind, i, ns[i]) :: l
  }

  lemma OneMoreNode(cat: Catalog, kind: Kind, ns: seq<Node>, n: nat)
    requires n < |ns|
    ensures LeavesUpTo(cat, kind, ns, n + 1) == LeavesUpTo(cat, kind, ns, n) + NodeLeaves(cat, kind, n, ns[n])
  {
    hide NodeLeaves;
  }

  method RecordNodes(cat: Catalog, kind: Kind, ns: seq<Node>, before: Index) returns (idx: Index)
    ensures Recorded(before, idx, SectionLeaves(cat, kind, ns))
  {
    idx := before;
    for i := 0 to |ns|
      invariant Recorded(before, idx, LeavesUpTo(cat, kind, ns, i))
    {
      hide Recorded, Leaves, LeavesUpTo;
      OneMoreNode(cat, kind, ns, i);
      ghost var mid := idx;
      var n := ns[i];
      if (kind, n.component) in cat && n.config.Some? {
        idx := RecordSecrets(JObj(n.config.value), Some(cat[(kind, n.component)].schema),
            [Root(SectionName(kind), i)], idx);
        RecordedTwice(before, mid, idx, LeavesUpTo(cat, kind, ns, i), NodeLeaves(cat, kind, i, n));
      } else {
        assert LeavesUpTo(cat, kind, ns, i) + NodeLeaves(cat, kind, i, n) == LeavesUpTo(cat, kind, ns, i);
      }
    }
  }

  function PrevLeaves(cat: Catalog, prev: Option<Graph>): set<Leaf> {
    if prev == None then {} else GraphLeaves(cat, prev.value)
  }

  lemma IndexOfRecorded(idx: Index, leaves: set<Leaf>)
    requires Recorded(map[], idx, leaves)
    ensures IsIndex(idx, leaves)
  {
    hide PathText;
    assert forall t :: t in idx ==> Wrote(idx, leaves, t);
  }

  /** Index the secret fields of the previous version by path text. */
  method IndexPrevious(cat: Catalog, prev: Option<Graph>) returns (idx: Index)
    ensures IsIndex(idx, PrevLeaves(cat, prev))
  {
    idx := map[];
    if prev.Some? {
      hide SectionLeaves, IsIndex, Recorded;
      var one := RecordNodes(cat, Processor, prev.value.processors, map[]);
      idx := RecordNodes(cat, Exporter, prev.value.exporters, one);
      RecordedTwice(map[], one, idx, SectionLeaves(cat, Processor, prev.value.processors),
          SectionLeaves(cat, Exporter, prev.value.exporters));
      IndexOfRecorded(idx, PrevLeaves(cat, prev));
    }
  }

  // ---------------------------------------------------------------- sealing, with issues on the side

  /** A flagged leaf stays as it is and raises an issue. */
  function SealOrFlag(v: Vault, idx: Index, nonces: Nonces): LeafFn {
    (p, x) => match Seal(v, idx, nonces(p), p, x)
      case Keeps(y) => Ok(y)
      case Flags(_) => Ok(x)
      case Fails => Err
  }

  method SealOne(v: Vault, idx: Index, nonces: Nonces, path: Path, x: Json) returns (r: Result<Json>,
                 issues: set<Issue>)
    ensures r == SealOrFlag(v, idx, nonces)(path, x) && issues == Issues(v, idx, nonces, {Leaf(path, x)})
  {
    ghost var out := Seal(v, idx, nonces(path), path, x);
    assert Leaf(path, x) in {Leaf(path, x)};
    issues := {};
    if EncValue(v.b64, x).Some? {
      return Ok(x), issues;
    }
    if !x.JStr? {
      return Ok(x), issues;
    }
    var text := x.text;
    if text == SENTINEL {
      if PathText(path) !in idx {
        assert out == Flags(NothingStored);
        return Ok(x), {Issue(path, NothingStored)};
      }
      var stored := idx[PathText(path)];
      if EncValue(v.b64, stored).Some? {
        return Ok(stored), issues;
      }
      text := if stored.JStr? then stored.text else "";
    }
    if v.cipher == None {
      assert out == Flags(NoMasterKey);
      return Ok(x), {Issue(path, NoMasterKey)};
    }
    var nonce := nonces(path);
    if nonce == None {
      return Err, issues;
    }
    return Ok(NewEncValue(v.b64, Encrypt(v.cipher, nonce.value, text).value)), issues;
  }

  lemma IssuesJoin(v: Vault, idx: Index, nonces: Nonces, a: set<Leaf>, b: set<Leaf>)
    ensures Issues(v, idx, nonces, a + b) == Issues(v, idx, nonces, a) + Issues(v, idx, nonces, b)
  {
    hide Seal;
  }

  lemma NoLeavesNoIssues(v: Vault, idx: Index, nonces: Nonces)
    ensures Issues(v, idx, nonces, {}) == {}
  {
  }

  /** The walk of one value, collecting its issues when no leaf fails. */
  method SealSecrets(x: Json, schema: Schema, path: Path, v: Vault, idx: Index,
                     nonces: Nonces) returns (r: Result<Json>, issues: set<Issue>)
    ensures r == Transform(x, schema, path, SealOrFlag(v, idx, nonces))
    ensures r.Ok? ==> issues == Issues(v, idx, nonces, Leaves(x, schema, path))
    decreases x
  {
    issues := {};
    NoLeavesNoIssues(v, idx, nonces);
    if schema == None {
      return Ok(x), issues;
    }
    if IsPassword(schema.value) {
      hide Issues, SealOrFlag;
      r, issues := SealOne(v, idx, nonces, path, x);
      return;
    }
    hide Transform, Issues, SealOrFlag, Leaves, Seal;
    var sc := schema.value;
    ghost var f := SealOrFlag(v, idx, nonces);
    var todo := Segments(x, sc);
    var parts: map<Segment, Json> := map[];
    assert LeavesOf(x, sc, path, {}) == {};
    assert Segments(x, sc) - todo == {};
    while todo != {}
      invariant todo <= Segments(x, sc) && parts.Keys == Segments(x, sc) - todo
      invariant forall s :: s in parts ==> Below(x, sc, path, f, s) == Ok(parts[s])
      invariant issues == Issues(v, idx, nonces, LeavesOf(x, sc, path, Segments(x, sc) - todo))
      decreases todo
    {
      hide Segments, LeavesOf;
      var s :| s in todo;
      ghost var done := Segments(x, sc) - todo;
      todo := todo - {s};
      var nv, more := SealSecrets(At(x, sc, s), SchemaAt(sc, s), path + [s], v, idx, nonces);
      assert Below(x, sc, path, f, s) == nv;
      if nv.Err? {
        ErrBelow(x, sc, path, f, s);
        return Err, issues;
      }
      parts := parts[s := nv.value];
      IssuesJoin(v, idx, nonces, LeavesOf(x, sc, path, done), LeavesAt(x, sc, path, s));
      OneMoreSegment(x, sc, path, done, s);
      assert done + {s} == Segments(x, sc) - todo;
      issues := issues + more;
    }
    assert Segments(x, sc) - {} == Segments(x, sc);
    AllSegments(x, sc, path);
    RebuiltParts(x, sc, path, f, parts);
    return Ok(Rebuild(x, sc, parts)), issues;
  }

  lemma RebuiltParts(v: Json, schema: map<string, Json>, path: Path, f: LeafFn, parts: map<Segment, Json>)
    requires !IsPassword(schema) && parts.Keys == Segments(v, schema)
    requires forall s :: s in parts ==> Below(v, schema, path, f, s) == Ok(parts[s])
    ensures Transform(v, Some(schema), path, f) == Ok(Rebuild(v, schema, parts))
  {
    hide Below, Segments, Rebuild;
    assert Parts(v, schema, path, f) == parts;
  }

  method SealNodes(cat: Catalog, kind: Kind, ns: seq<Node>, v: Vault, idx: Index, nonces: Nonces)
    returns (r: Result<seq<Node>>, issues: set<Issue>)
    ensures r == SectionOut(cat, kind, ns, SealOrFlag(v, idx, nonces))
    ensures r.Ok? ==> issues == Issues(v, idx, nonces, SectionLeaves(cat, kind, ns))
  {
    hide Transform, Issues, SealOrFlag, Leaves;
    var nodes := ns;
    issues := {};
    NoLeavesNoIssues(v, idx, nonces);
    assert LeavesUpTo(cat, kind, ns, 0) == {};
    ghost var f := SealOrFlag(v, idx, nonces);
    for i := 0 to |ns|
      invariant |nodes| == |ns|
      invariant forall j :: 0 <= j < i ==> NodeOut(cat, kind, j, ns[j], f) == Ok(nodes[j])
      invariant forall j :: i <= j < |ns| ==> nodes[j] == ns[j]
      invariant issues == Issues(v, idx, nonces, LeavesUpTo(cat, kind, ns, i))
    {
      hide LeavesUpTo;
      var n := ns[i];
      OneMoreNode(cat, kind, ns, i);
      IssuesJoin(v, idx, nonces, LeavesUpTo(cat, kind, ns, i), NodeLeaves(cat, kind, i, n));
      if (kind, n.component) in cat && n.config.Some? {
        var cfg, more := SealSecrets(JObj(n.config.value), Some(cat[(kind, n.component)].schema),
            [Root(SectionName(kind), i)], v, idx, nonces);
        if cfg.Err? {
          assert NodeOut(cat, kind, i, ns[i], f).Err?;
          return Err, issues;
        }
        nodes := nodes[i := n.(config := if cfg.value.JObj? then Some(cfg.value.fields) else None)];
        issues := issues + more;
      }
    }
    assert SectionOut(cat, kind, ns, f).value == nodes;
    assert LeavesUpTo(cat, kind, ns, |ns|) == SectionLeaves(cat, kind, ns);
    return Ok(nodes), issues;
  }

  lemma FlaggedOrStored(cat: Catalog, g: Graph, v: Vault, idx: Index, nonces: Nonces)
    ensures var r := GraphOut(cat, g, SealOrFlag(v, idx, nonces));
            var issues := Issues(v, idx, nonces, GraphLeaves(cat, g));
            EncryptGraph(cat, g, v, idx, nonces)
            == if r.Err? then Failed else if issues != {} then Rejected(issues) else Stored(r.value)
  {
    hide GraphOut, GraphLeaves, Seal;
    var f, leaves := SealOrFlag(v, idx, nonces), GraphLeaves(cat, g);
    GraphFails(cat, g, f);
    forall l | l in leaves ensures f(l.path, l.value).Err? <==> Seal(v, idx, nonces(l.path), l.path, l.value).Fails? {
    }
    forall l | l in leaves && Seal(v, idx, nonces(l.path), l.path, l.value).Flags?
      ensures Issue(l.path, Seal(v, idx, nonces(l.path), l.path, l.value).problem) in Issues(v, idx, nonces, leaves)
    {
    }
    if GraphOut(cat, g, f).Ok? && Issues(v, idx, nonces, leaves) == {} {
      GraphAgree(cat, g, f, SealLeaf(v, idx, nonces));
    }
  }

  /** Stores, rejects or fails as specified, for some index the previous version can give. */
  method EncryptGraphSecrets(cat: Catalog, g: Graph, v: Vault, prev: Option<Graph>,
                             nonces: Nonces) returns (r: Encryption)
    ensures exists idx :: IsIndex(idx, PrevLeaves(cat, prev)) && r == EncryptGraph(cat, g, v, idx, nonces)
  {
    hide Issues, SealOrFlag, SectionOut, SectionLeaves, IsIndex, EncryptGraph;
    var stored := IndexPrevious(cat, prev);
    FlaggedOrStored(cat, g, v, stored, nonces);
    var processors, issues := SealNodes(cat, Processor, g.processors, v, stored, nonces);
    if processors.Err? {
      return Failed;
    }
    var exporters, more := SealNodes(cat, Exporter, g.exporters, v, stored, nonces);
    if exporters.Err? {
      return Failed;
    }
    issues := issues + more;
    IssuesJoin(v, stored, nonces, SectionLeaves(cat, Processor, g.processors),
        SectionLeaves(cat, Exporter, g.exporters));
    if issues != {} {
      return Rejected(issues);
    }
    return Stored(g.(processors := processors.value, exporters := exporters.value));
  }
}
