/** What the redacted form of a graph shows: everything but the password values, and which of those are null. */
module Redaction {
  import opened Wrappers
  import opened Json
  import opened Graph
  import opened Secrets
  import opened GraphSecrets
  import opened SecretPaths

  /** The places of the null password leaves. */
  function NullPaths(leaves: set<Leaf>): set<Path> { set l | l in leaves && l.value == JNull :: l.path }

  function ShowLeaf(nulls: set<Path>): LeafFn { (p, x) => Ok(if p in nulls then JNull else JStr(SENTINEL)) }

  lemma NullsFound(cat: Catalog, g: Graph, l: Leaf)
    requires l in GraphLeaves(cat, g)
    ensures l.path in NullPaths(GraphLeaves(cat, g)) <==> l.value == JNull
  {
    hide GraphLeaves;
    if l.path in NullPaths(GraphLeaves(cat, g)) {
      var m :| m in GraphLeaves(cat, g) && m.value == JNull && m.path == l.path;
      GraphLeafPerPath(cat, g, l, m);
    }
  }

  /** The redacted form can be made from the mask and the null places alone. */
  lemma RedactionOfMask(cat: Catalog, g: Graph)
    requires PlainRoots(cat)
    ensures Mask(cat, g).Ok?
    ensures GraphOut(cat, Mask(cat, g).value, ShowLeaf(NullPaths(GraphLeaves(cat, g)))) == Ok(Redact(cat, g))
  {
    hide GraphOut, GraphLeaves, NullPaths;
    var leaves := GraphLeaves(cat, g);
    var show := ShowLeaf(NullPaths(leaves));
    GraphFails(cat, g, BlankLeaf());
    GraphFuse(cat, g, BlankLeaf(), show);
    forall l | l in leaves ensures Then(BlankLeaf(), show)(l.path, l.value) == RedactLeaf()(l.path, l.value) {
      NullsFound(cat, g, l);
    }
    GraphAgree(cat, g, Then(BlankLeaf(), show), RedactLeaf());
    RedactOk(cat, g);
  }

  /** And shows both of them. */
  lemma RedactionShows(cat: Catalog, g: Graph)
    requires PlainRoots(cat)
    ensures Mask(cat, Redact(cat, g)) == Mask(cat, g)
    ensures NullPaths(GraphLeaves(cat, Redact(cat, g))) == NullPaths(GraphLeaves(cat, g))
  {
    hide GraphOut, GraphLeaves;
    RedactOk(cat, g);
    OutsideLeavesKept(cat, g, RedactLeaf());
    GraphLeavesTransformed(cat, g, RedactLeaf());
    var leaves, shown := GraphLeaves(cat, g), GraphLeaves(cat, Redact(cat, g));
    forall p | p in NullPaths(leaves) ensures p in NullPaths(shown) {
      var l :| l in leaves && l.value == JNull && l.path == p;
      assert Leaf(l.path, RedactLeaf()(l.path, l.value).value) in shown;
    }
  }

  /** Redaction hides the values of password leaves and nothing else: not the rest of the graph, nor which are null. */
  lemma RedactionIsBlind(cat: Catalog, g: Graph, h: Graph)
    requires PlainRoots(cat)
    ensures Redact(cat, g) == Redact(cat, h)
       <==> Mask(cat, g) == Mask(cat, h) && NullPaths(GraphLeaves(cat, g)) == NullPaths(GraphLeaves(cat, h))
  {
    hide GraphOut, GraphLeaves, Redact, Mask, NullPaths, ShowLeaf;
    RedactionOfMask(cat, g);
    RedactionOfMask(cat, h);
    RedactionShows(cat, g);
    RedactionShows(cat, h);
  }

  /** Two submissions are stored with the same redacted form exactly when they differ only in password values. */
  lemma StoredFormsAgree(cat: Catalog, g: Graph, h: Graph, v: Vault, i: Index, j: Index, m: Nonces, n: Nonces)
    requires PlainRoots(cat)
    requires EncryptGraph(cat, g, v, i, m).Stored? && EncryptGraph(cat, h, v, j, n).Stored?
    ensures Redact(cat, EncryptGraph(cat, g, v, i, m).graph) == Redact(cat, EncryptGraph(cat, h, v, j, n).graph)
       <==> Mask(cat, g) == Mask(cat, h) && NullPaths(GraphLeaves(cat, g)) == NullPaths(GraphLeaves(cat, h))
  {
    hide Redact, Mask, EncryptGraph, GraphLeaves, NullPaths;
    RedactedAsSubmitted(cat, g, v, i, m);
    RedactedAsSubmitted(cat, h, v, j, n);
    RedactionIsBlind(cat, g, h);
  }
}
