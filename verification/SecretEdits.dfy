/** Secrets follow the position of their node: when an edit keeps them, and graphs where it does not. */
module SecretEdits {
  import opened Wrappers
  import opened Json
  import opened Graph
  import opened Crypto
  import opened Secrets
  import opened GraphSecrets
  import opened SecretWalks
  import opened SecretPaths

  // ---------------------------------------------------------------- nodes that move

  /** The stored form of node `n`, submitted redacted at position `i`. */
  function Resubmitted(cat: Catalog, kind: Kind, i: nat, n: Node, v: Vault, idx: Index, nonces: Nonces): Result<Node> {
    NodeOut(cat, kind, i, n, Then(RedactLeaf(), SealLeaf(v, idx, nonces)))
  }

  /** The previous version holds, at this path, the leaf's own marker. */
  predicate StoredThere(b: Base64, idx: Index, l: Leaf) {
    l.value != JNull ==> EncValue(b, l.value).Some? && PathText(l.path) in idx && idx[PathText(l.path)] == l.value
  }

  /** Redacting a node and storing it are one walk, so this is what storing the redacted node gives. */
  lemma ResubmittedIsStored(cat: Catalog, kind: Kind, i: nat, n: Node, v: Vault, idx: Index, nonces: Nonces)
    requires PlainRoots(cat)
    ensures var redacted := NodeOut(cat, kind, i, n, RedactLeaf());
            redacted.Ok?
            && Resubmitted(cat, kind, i, n, v, idx, nonces)
               == NodeOut(cat, kind, i, redacted.value, SealLeaf(v, idx, nonces))
  {
    RedactsNode(cat, kind, i, n);
    NodeFuse(cat, kind, i, n, RedactLeaf(), SealLeaf(v, idx, nonces));
  }

  lemma RedactsNode(cat: Catalog, kind: Kind, i: nat, n: Node)
    ensures NodeOut(cat, kind, i, n, RedactLeaf()).Ok?
  {
    hide Transform, Leaves;
    if NodeSchema(cat, kind, n).Some? {
      FailsByLeaf(JObj(n.config.value), NodeSchema(cat, kind, n), [Root(SectionName(kind), i)], RedactLeaf());
    }
  }

  lemma NodeFixed(cat: Catalog, kind: Kind, i: nat, n: Node, f: LeafFn)
    requires PlainRoots(cat)
    ensures NodeOut(cat, kind, i, n, f) == Ok(n) <==> AgreeOn(f, Keep(), NodeLeaves(cat, kind, i, n))
  {
    if NodeSchema(cat, kind, n).Some? {
      var config, schema, path := JObj(n.config.value), NodeSchema(cat, kind, n), [Root(SectionName(kind), i)];
      if Transform(config, schema, path, f).Ok? {
        RootStaysObject(n.config.value, schema.value, path, f);
      }
      hide Transform, Leaves;
      if AgreeOn(f, Keep(), NodeLeaves(cat, kind, i, n)) {
        OnlyLeavesMatter(config, schema, path, f, Keep());
        KeepIsIdentity(config, schema, path);
      }
      if NodeOut(cat, kind, i, n, f) == Ok(n) {
        FixedLeaves(config, schema, path, f);
      }
    }
  }

  lemma LeafKeptExactly(v: Vault, idx: Index, nonces: Nonces, l: Leaf)
    ensures StoredThere(v.b64, idx, l) ==>
              Then(RedactLeaf(), SealLeaf(v, idx, nonces))(l.path, l.value) == Ok(l.value)
    ensures Then(RedactLeaf(), SealLeaf(v, idx, nonces))(l.path, l.value) == Ok(l.value)
            && (v.cipher == None || nonces(l.path) == None) ==>
              StoredThere(v.b64, idx, l)
  {
    var f := Then(RedactLeaf(), SealLeaf(v, idx, nonces));
    if StoredThere(v.b64, idx, l) {
      hide PathText, EncValue;
      ResealsLeaf(v, idx, nonces, l);
    }
    if f(l.path, l.value) == Ok(l.value) && l.value != JNull && (v.cipher == None || nonces(l.path) == None) {
      hide PathText;
      assert SealLeaf(v, idx, nonces)(l.path, JStr(SENTINEL)).Ok?;
      assert PathText(l.path) in idx;
      UnsealedOnlyIfStored(v, idx, nonces, l);
    }
  }

  lemma KeptByDraw(cat: Catalog, kind: Kind, i: nat, n: Node, v: Vault, idx: Index, nonces: Nonces)
    requires PlainRoots(cat)
    ensures (forall l :: l in NodeLeaves(cat, kind, i, n) ==> StoredThere(v.b64, idx, l)) ==>
              Resubmitted(cat, kind, i, n, v, idx, nonces) == Ok(n)
    ensures Resubmitted(cat, kind, i, n, v, idx, nonces) == Ok(n)
            && (v.cipher == None || forall p :: nonces(p) == None) ==>
              forall l :: l in NodeLeaves(cat, kind, i, n) ==> StoredThere(v.b64, idx, l)
  {
    hide NodeOut, NodeLeaves, StoredThere, Then, SealLeaf, RedactLeaf;
    var f := Then(RedactLeaf(), SealLeaf(v, idx, nonces));
    NodeFixed(cat, kind, i, n, f);
    forall l | l in NodeLeaves(cat, kind, i, n)
      ensures StoredThere(v.b64, idx, l) ==> f(l.path, l.value) == Keep()(l.path, l.value)
      ensures f(l.path, l.value) == Keep()(l.path, l.value) && (v.cipher == None || nonces(l.path) == None) ==>
                StoredThere(v.b64, idx, l)
    {
      LeafKeptExactly(v, idx, nonces, l);
    }
  }

  /**
   A node submitted redacted at a position keeps its own secrets, whatever nonces are drawn, exactly when the
   previous version stored those very secrets at that position: moved there from another position it does not,
   unless the secrets are equal.
   */
  lemma KeepsSecretsExactly(cat: Catalog, kind: Kind, i: nat, n: Node, v: Vault, idx: Index)
    requires PlainRoots(cat)
    ensures (forall nonces: Nonces :: Resubmitted(cat, kind, i, n, v, idx, nonces) == Ok(n))
       <==> forall l :: l in NodeLeaves(cat, kind, i, n) ==> StoredThere(v.b64, idx, l)
  {
    hide Resubmitted, NodeLeaves, StoredThere;
    forall nonces: Nonces
      ensures (forall l :: l in NodeLeaves(cat, kind, i, n) ==> StoredThere(v.b64, idx, l)) ==>
                Resubmitted(cat, kind, i, n, v, idx, nonces) == Ok(n)
    {
      KeptByDraw(cat, kind, i, n, v, idx, nonces);
    }
    KeptByDraw(cat, kind, i, n, v, idx, NoNonces());
    assert forall p :: NoNonces()(p) == None;
  }

  // ---------------------------------------------------------------- a credential that changes hands

  const SECRET: map<string, Json> := map["format" := JStr("password")]
  const PROPERTIES: map<string, Json> := map["token" := JObj(SECRET)]
  const TOKEN_SCHEMA: map<string, Json> := map["properties" := JObj(PROPERTIES)]

  function TokenCatalog(): Catalog { map[(Exporter, "x") := Component(TOKEN_SCHEMA, c => true)] }

  function TokenConfig(endpoint: string, token: Json): map<string, Json> {
    map["endpoint" := JStr(endpoint), "token" := token]
  }

  function TokenNode(endpoint: string, token: Json): Node { Node("x", None, Some(TokenConfig(endpoint, token))) }

  function TokenPath(i: nat): Path { [Root("exporters", i), Field("token")] }

  lemma TokenSchemas()
    ensures !IsPassword(TOKEN_SCHEMA) && FieldSchema(TOKEN_SCHEMA, "endpoint") == None
    ensures FieldSchema(TOKEN_SCHEMA, "token") == Some(SECRET) && IsPassword(SECRET)
  {
    assert "endpoint" != "token";
  }

  lemma TokenOut(i: nat, endpoint: string, token: Json, f: LeafFn)
    requires f(TokenPath(i), token).Ok?
    ensures NodeOut(TokenCatalog(), Exporter, i, TokenNode(endpoint, token), f)
            == Ok(TokenNode(endpoint, f(TokenPath(i), token).value))
  {
    TokenSchemas();
    var v, path := JObj(TokenConfig(endpoint, token)), [Root("exporters", i)];
    var out := TokenConfig(endpoint, f(TokenPath(i), token).value);
    assert path + [Field("token")] == TokenPath(i);
    assert Field("endpoint") in Segments(v, TOKEN_SCHEMA) && Field("token") in Segments(v, TOKEN_SCHEMA);
    assert Below(v, TOKEN_SCHEMA, path, f, Field("endpoint")) == Ok(JStr(endpoint));
    assert Below(v, TOKEN_SCHEMA, path, f, Field("token")) == f(TokenPath(i), token);
    hide Below, FieldSchema, Segments;
    RebuiltObject(v, TOKEN_SCHEMA, path, f, out);
  }

  function Tokens(a: Node, b: Node): Graph { Graph([], [], [a, b]) }

  lemma TokensOut(e0: string, t0: Json, e1: string, t1: Json, f: LeafFn)
    requires f(TokenPath(0), t0).Ok? && f(TokenPath(1), t1).Ok?
    ensures GraphOut(TokenCatalog(), Tokens(TokenNode(e0, t0), TokenNode(e1, t1)), f)
            == Ok(Tokens(TokenNode(e0, f(TokenPath(0), t0).value), TokenNode(e1, f(TokenPath(1), t1).value)))
  {
    TokenOut(0, e0, t0, f);
    TokenOut(1, e1, t1, f);
    hide NodeOut, TokenCatalog, TokenNode;
    var cat, ns := TokenCatalog(), [TokenNode(e0, t0), TokenNode(e1, t1)];
    var ms := [TokenNode(e0, f(TokenPath(0), t0).value), TokenNode(e1, f(TokenPath(1), t1).value)];
    assert SectionOut(cat, Exporter, ns, f).value == ms;
    assert SectionOut(cat, Processor, [], f).value == [];
  }

  /**
   Two exporters that swap places take over each other's credential: submitted redacted in the other order, each
   endpoint is stored with the token the other one had.
   */
  lemma SwappedExportersSwapTokens(e0: string, t0: Json, e1: string, t1: Json, v: Vault, idx: Index, nonces: Nonces)
    requires EncValue(v.b64, t0).Some? && EncValue(v.b64, t1).Some?
    requires PathText(TokenPath(0)) in idx && idx[PathText(TokenPath(0))] == t0
    requires PathText(TokenPath(1)) in idx && idx[PathText(TokenPath(1))] == t1
    ensures var swapped := Redact(TokenCatalog(), Tokens(TokenNode(e1, t1), TokenNode(e0, t0)));
            EncryptGraph(TokenCatalog(), swapped, v, idx, nonces)
                == Stored(Tokens(TokenNode(e1, t0), TokenNode(e0, t1)))
  {
    var cat, g := TokenCatalog(), Tokens(TokenNode(e1, t1), TokenNode(e0, t0));
    var seal := SealLeaf(v, idx, nonces);
    var f := Then(RedactLeaf(), seal);
    assert PlainRoots(cat) by {
      TokenSchemas();
    }
    assert t0 != JNull && t1 != JNull;
    SentinelSeals(v, idx, nonces(TokenPath(0)), TokenPath(0), t0);
    SentinelSeals(v, idx, nonces(TokenPath(1)), TokenPath(1), t1);
    hide Seal, PathText, EncValue;
    assert f(TokenPath(0), t1) == Ok(t0) && f(TokenPath(1), t0) == Ok(t1);
    hide Then, SealLeaf, RedactLeaf, GraphOut, EncryptGraph, TokenCatalog, TokenNode;
    TokensOut(e1, t1, e0, t0, f);
    RedactOk(cat, g);
    GraphFuse(cat, g, RedactLeaf(), seal);
    StoredExactly(cat, Redact(cat, g), v, idx, nonces);
  }

  // ---------------------------------------------------------------- field names that collide

  const INNER: map<string, Json> := map["properties" := JObj(map["b" := JObj(SECRET)])]
  const DOTTED_PROPERTIES: map<string, Json> := map["a" := JObj(INNER), "a.b" := JObj(SECRET)]
  const DOTTED_SCHEMA: map<string, Json> := map["properties" := JObj(DOTTED_PROPERTIES)]

  function DottedCatalog(): Catalog { map[(Exporter, "x") := Component(DOTTED_SCHEMA, c => true)] }

  function DottedConfig(x: Json, y: Json): map<string, Json> { map["a" := JObj(map["b" := x]), "a.b" := y] }

  function DottedGraph(x: Json, y: Json): Graph { Graph([], [], [Node("x", None, Some(DottedConfig(x, y)))]) }

  const HOME: Path := [Root("exporters", 0)]

  lemma DottedSchemas()
    ensures !IsPassword(DOTTED_SCHEMA) && !IsPassword(INNER) && IsPassword(SECRET)
    ensures FieldSchema(DOTTED_SCHEMA, "a") == Some(INNER) && FieldSchema(DOTTED_SCHEMA, "a.b") == Some(SECRET)
    ensures FieldSchema(INNER, "b") == Some(SECRET)
  {
    assert |"a"| != |"a.b"|;
  }

  lemma DottedLeaf(v: Json, schema: map<string, Json>, path: Path, s: Segment, l: Leaf)
    requires !IsPassword(schema) && s in Segments(v, schema)
    requires l in Leaves(At(v, schema, s), SchemaAt(schema, s), path + [s])
    ensures l in Leaves(v, Some(schema), path)
  {
  }

  lemma DottedLeaves(x: Json, y: Json)
    ensures var leaves := GraphLeaves(DottedCatalog(), DottedGraph(x, y));
            Leaf(HOME + [Field("a")] + [Field("b")], x) in leaves && Leaf(HOME + [Field("a.b")], y) in leaves
  {
    DottedSchemas();
    var v, w := JObj(DottedConfig(x, y)), JObj(map["b" := x]);
    var l, m := Leaf(HOME + [Field("a")] + [Field("b")], x), Leaf(HOME + [Field("a.b")], y);
    assert |"a"| != |"a.b"|;
    assert Field("b") in Segments(w, INNER) && Field("a") in Segments(v, DOTTED_SCHEMA)
        && Field("a.b") in Segments(v, DOTTED_SCHEMA);
    DottedLeaf(w, INNER, HOME + [Field("a")], Field("b"), l);
    DottedLeaf(v, DOTTED_SCHEMA, HOME, Field("a"), l);
    DottedLeaf(v, DOTTED_SCHEMA, HOME, Field("a.b"), m);
    hide Leaves;
    var n := DottedGraph(x, y).exporters[0];
    assert l in NodeLeaves(DottedCatalog(), Exporter, 0, n) && m in NodeLeaves(DottedCatalog(), Exporter, 0, n);
  }

  /**
   A catalog with a property "a.b" beside a property "a" that holds a "b" would break the round trip: for any two
   different markers there, some way of filling the index does not store the graph back, whatever nonces are drawn.
   */
  lemma DottedGraphFails(v: Vault, x: Json, y: Json) returns (idx: Index)
    requires EncValue(v.b64, x).Some? && EncValue(v.b64, y).Some? && x != y
    ensures IsIndex(idx, GraphLeaves(DottedCatalog(), DottedGraph(x, y)))
    ensures forall nonces: Nonces ::
              EncryptGraph(DottedCatalog(), Redact(DottedCatalog(), DottedGraph(x, y)), v, idx, nonces)
                  != Stored(DottedGraph(x, y))
  {
    DottedRoots();
    DottedLeaves(x, y);
    DottedNamesCollide(HOME, "a", "b");
    assert "a" + "." + "b" == "a.b";
    assert x != JNull && y != JNull;
    hide GraphLeaves, PathText, DottedCatalog, DottedGraph, PlainRoots, IsIndex, EncryptGraph, Redact, EncValue;
    var l, m := Leaf(HOME + [Field("a")] + [Field("b")], x), Leaf(HOME + [Field("a.b")], y);
    idx := CollidingLeaves(DottedCatalog(), DottedGraph(x, y), v, l, m);
  }

  lemma DottedRoots()
    ensures PlainRoots(DottedCatalog())
  {
    DottedSchemas();
  }

  /** Two different markers at one path text: filled with the second, the index does not give the first back. */
  lemma CollidingLeaves(cat: Catalog, g: Graph, v: Vault, l: Leaf, m: Leaf) returns (idx: Index)
    requires PlainRoots(cat) && l in GraphLeaves(cat, g) && m in GraphLeaves(cat, g)
    requires PathText(l.path) == PathText(m.path) && l.value != m.value
    requires l.value != JNull && EncValue(v.b64, m.value).Some?
    ensures IsIndex(idx, GraphLeaves(cat, g))
    ensures forall nonces: Nonces :: EncryptGraph(cat, Redact(cat, g), v, idx, nonces) != Stored(g)
  {
    hide GraphLeaves, PathText, IsIndex, EncryptGraph, Redact, PlainRoots;
    idx := IndexWith(GraphLeaves(cat, g), m);
    forall nonces: Nonces
      ensures EncryptGraph(cat, Redact(cat, g), v, idx, nonces) != Stored(g)
    {
      SentinelSeals(v, idx, nonces(l.path), l.path, m.value);
      hide Seal, EncValue;
      assert Then(RedactLeaf(), SealLeaf(v, idx, nonces))(l.path, l.value) == Ok(m.value);
      if EncryptGraph(cat, Redact(cat, g), v, idx, nonces) == Stored(g) {
        StoredBackFixes(cat, g, v, idx, nonces);
        assert false;
      }
    }
  }
}
