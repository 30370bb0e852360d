/** Where the secrets of a graph are, read off the configs and the catalog's schemas alone. */
module SecretPlaces {
  import opened Wrappers
  import opened Json
  import opened Graph
  import opened Secrets

  /** The schema object kept under a key. */
  function Member(schema: Json, key: string): Json {
    if schema.JObj? && key in schema.fields && schema.fields[key].JObj? then schema.fields[key] else JNull
  }

  /** The schema of a property: its own, else that of additional properties. */
  function PropertySchema(schema: Json, key: string): Json {
    var own := Member(Member(schema, "properties"), key);
    if own.JObj? then own else Member(schema, "additionalProperties")
  }

  predicate MarksPassword(schema: Json) {
    schema.JObj? && "format" in schema.fields && schema.fields["format"] == JStr("password")
  }

  /**
   The segments lead from the value to the password `secret`: through object fields and array items the schema
   describes, past no other password, to a place marked as one.
   */
  predicate LeadsTo(v: Json, schema: Json, segments: seq<Segment>, secret: Json)
    decreases |segments|
  {
    if segments == [] then MarksPassword(schema) && secret == v
    else
      && schema.JObj? && !MarksPassword(schema)
      && match segments[0]
         case Root(_, _) => false
         case Field(key) =>
           v.JObj? && key in v.fields && LeadsTo(v.fields[key], PropertySchema(schema, key), segments[1..], secret)
         case Item(i) =>
           v.JArr? && i < |v.items| && LeadsTo(v.items[i], Member(schema, "items"), segments[1..], secret)
  }

  function SchemaJson(schema: Schema): Json { if schema.Some? then JObj(schema.value) else JNull }

  lemma MemberIs(schema: map<string, Json>, key: string)
    ensures Member(JObj(schema), key) == SchemaJson(ObjectAt(schema, key))
  {
  }

  lemma PropertyIs(schema: map<string, Json>, key: string)
    ensures PropertySchema(JObj(schema), key) == SchemaJson(FieldSchema(schema, key))
  {
    MemberIs(schema, "properties");
    MemberIs(schema, "additionalProperties");
    if ObjectAt(schema, "properties").Some? {
      MemberIs(ObjectAt(schema, "properties").value, key);
    }
  }

  /** One step of a path is one segment of the walk. */
  lemma StepIs(v: Json, schema: map<string, Json>, segments: seq<Segment>, secret: Json)
    requires segments != [] && !IsPassword(schema)
    ensures LeadsTo(v, JObj(schema), segments, secret)
       <==> segments[0] in Segments(v, schema)
            && LeadsTo(At(v, schema, segments[0]), SchemaJson(SchemaAt(schema, segments[0])), segments[1..], secret)
  {
    MemberIs(schema, "items");
    match segments[0]
    case Root(_, _) =>
    case Field(key) => PropertyIs(schema, key);
    case Item(i) =>
      if ObjectAt(schema, "items") == None && v.JArr? && i < |v.items| {
        NowhereWithoutSchema(v.items[i], segments[1..], secret);
      }
  }

  lemma NowhereWithoutSchema(v: Json, segments: seq<Segment>, secret: Json)
    ensures !LeadsTo(v, JNull, segments, secret)
  {
  }

  /** A leaf lies below the path it was reached by. */
  predicate Extends(l: Leaf, path: Path) { |path| <= |l.path| && l.path[..|path|] == path }

  lemma {:induction false} LeavesExactly(v: Json, schema: Schema, path: Path, l: Leaf)
    ensures l in Leaves(v, schema, path)
       <==> Extends(l, path) && LeadsTo(v, SchemaJson(schema), l.path[|path|..], l.value)
    decreases v
  {
    hide Segments, At, SchemaAt, FieldSchema, ObjectAt, PropertySchema, Member;
    if schema == None {
      if Extends(l, path) {
        NowhereWithoutSchema(v, l.path[|path|..], l.value);
      }
    } else if IsPassword(schema.value) {
      if Extends(l, path) && l.path[|path|..] == [] {
        assert l.path == path;
      }
    } else {
      LeavesBelow(v, schema.value, path, l);
    }
  }

  lemma {:induction false} LeavesBelow(v: Json, schema: map<string, Json>, path: Path, l: Leaf)
    requires !IsPassword(schema)
    ensures l in Leaves(v, Some(schema), path)
       <==> Extends(l, path) && LeadsTo(v, JObj(schema), l.path[|path|..], l.value)
    decreases v, 0
  {
    hide LeadsTo;
    forall s | s in Segments(v, schema)
      ensures l in Leaves(At(v, schema, s), SchemaAt(schema, s), path + [s])
         <==> Extends(l, path + [s])
              && LeadsTo(At(v, schema, s), SchemaJson(SchemaAt(schema, s)), l.path[|path + [s]|..], l.value)
    {
      LeavesExactly(At(v, schema, s), SchemaAt(schema, s), path + [s], l);
    }
    if Extends(l, path) {
      var rest := l.path[|path|..];
      if rest == [] {
        NoEmptyPath(v, schema, l);
      } else {
        var s := rest[0];
        StepIs(v, schema, rest, l.value);
        assert Extends(l, path + [s]) && l.path[|path + [s]|..] == rest[1..];
      }
    }
    forall s | Extends(l, path + [s]) ensures Extends(l, path) && l.path[|path|..] != [] && l.path[|path|] == s {
      assert l.path[..|path|] == (path + [s])[..|path|];
      assert l.path[..|path| + 1][|path|] == s;
    }
  }

  lemma NoEmptyPath(v: Json, schema: map<string, Json>, l: Leaf)
    requires !IsPassword(schema)
    ensures !LeadsTo(v, JObj(schema), [], l.value)
  {
  }

  // ---------------------------------------------------------------- the secrets of a graph

  /** The node is of a known type, has a config, and the segments lead to the secret in it. */
  predicate NodeHolds(cat: Catalog, kind: Kind, n: Node, segments: seq<Segment>, secret: Json) {
    && (kind, n.component) in cat && n.config.Some?
    && LeadsTo(JObj(n.config.value), JObj(cat[(kind, n.component)].schema), segments, secret)
  }

  predicate GraphHolds(cat: Catalog, g: Graph, l: Leaf) {
    && l.path != [] && l.path[0].Root?
    && var i, segments := l.path[0].index, l.path[1..];
       || (l.path[0].section == "processors" && i < |g.processors|
           && NodeHolds(cat, Processor, g.processors[i], segments, l.value))
       || (l.path[0].section == "exporters" && i < |g.exporters|
           && NodeHolds(cat, Exporter, g.exporters[i], segments, l.value))
  }

  lemma NodeLeavesExactly(cat: Catalog, kind: Kind, i: nat, n: Node, l: Leaf)
    ensures l in NodeLeaves(cat, kind, i, n)
       <==> l.path != [] && l.path[0] == Root(SectionName(kind), i) && NodeHolds(cat, kind, n, l.path[1..], l.value)
  {
    hide Leaves, LeadsTo, SectionName;
    var root := [Root(SectionName(kind), i)];
    if NodeSchema(cat, kind, n).Some? {
      LeavesExactly(JObj(n.config.value), NodeSchema(cat, kind, n), root, l);
      if l.path != [] && l.path[0] == root[0] {
        assert l.path[..1] == root;
      }
      if Extends(l, root) {
        assert l.path[..1][0] == root[0];
      }
    }
  }

  lemma SectionLeavesExactly(cat: Catalog, kind: Kind, ns: seq<Node>, l: Leaf)
    ensures l in SectionLeaves(cat, kind, ns)
       <==> l.path != [] && l.path[0].Root? && l.path[0].section == SectionName(kind) && l.path[0].index < |ns|
            && NodeHolds(cat, kind, ns[l.path[0].index], l.path[1..], l.value)
  {
    hide NodeLeaves, NodeHolds, SectionName;
    forall i | 0 <= i < |ns|
      ensures l in NodeLeaves(cat, kind, i, ns[i])
         <==> l.path != [] && l.path[0] == Root(SectionName(kind), i)
              && NodeHolds(cat, kind, ns[i], l.path[1..], l.value)
    {
      NodeLeavesExactly(cat, kind, i, ns[i], l);
    }
  }

  /**
   The password leaves every walk visits are exactly the places of the graph's configs that the catalog's schemas
   mark as passwords.
   */
  lemma GraphLeavesExactly(cat: Catalog, g: Graph, l: Leaf)
    ensures l in GraphLeaves(cat, g) <==> GraphHolds(cat, g, l)
  {
    hide SectionLeaves, NodeHolds;
    SectionLeavesExactly(cat, Processor, g.processors, l);
    SectionLeavesExactly(cat, Exporter, g.exporters, l);
  }
}
