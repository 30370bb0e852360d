/** Preparing a version for storage: encrypt, validate the plaintext, and render the redacted fragment. */
module Prepare {
  import opened Wrappers
  import opened Json
  import opened Graph
  import opened Crypto
  import S = Secrets
  import GS = GraphSecrets
  import SN = SecretNames
  import SW = SecretWalks
  import RD = Redaction
  import opened Naming
  import opened Collector
  import R = Render
  import D = Determinism
  import E = EdgeCompiler
  import RR = Renderer
  import V = Validate

  /** Who the pipeline belongs to and which tier it is for. */
  datatype Identity = Identity(customer: string, client: string, slug: string, edge: bool)

  /** `rendered` is the persisted fragment; the config hash is a function of it. */
  datatype Version = Version(graph: Graph, rendered: Config)

  datatype Prepared = Ready(version: Version) | Invalid | Broken

  function PipelineFor(id: Identity, g: Graph): R.Pipeline { R.Pipeline(id.customer, id.client, id.slug, g) }

  function FragmentFor(id: Identity, g: Graph): Config {
    if id.edge then R.EdgeFragment(PipelineFor(id, g)) else R.Fragment(PipelineFor(id, g))
  }

  method RenderFragmentFor(id: Identity, g: Graph) returns (r: Config)
    ensures r == FragmentFor(id, g)
  {
    hide R.Fragment, R.EdgeFragment;
    if id.edge {
      r := RR.RenderEdgeFragment(PipelineFor(id, g));
    } else {
      r := RR.RenderFragment(PipelineFor(id, g));
    }
  }

  function FullFor(id: Identity, ps: seq<R.Pipeline>): Result<Config> {
    if id.edge then R.RenderEdge(ps) else R.RenderForwarding(ps)
  }

  method RenderFullFor(id: Identity, ps: seq<R.Pipeline>) returns (r: Result<Config>)
    ensures r == FullFor(id, ps)
  {
    hide R.RenderForwarding, R.RenderEdge;
    if id.edge {
      r := RR.RenderEdgeConfig(ps);
    } else {
      r := RR.RenderForwardingConfig(ps);
    }
  }

  /** The plaintext graph is well-formed and its full config renders and passes the collector's own validation. */
  predicate Passes(cat: Catalog, id: Identity, plain: Graph, others: seq<R.Pipeline>, accepts: Config -> bool) {
    && V.WellFormed(cat, plain)
    && FullFor(id, others + [PipelineFor(id, plain)]).Ok?
       && accepts(FullFor(id, others + [PipelineFor(id, plain)]).value)
  }

  /** The outcome once the secrets are sealed. */
  function Outcome(cat: Catalog, id: Identity, sealed: GS.Encryption, v: GS.Vault, others: seq<R.Pipeline>,
                   accepts: Config -> bool): Prepared {
    match sealed
    case Failed => Broken
    case Rejected(_) => Invalid
    case Stored(graph) =>
      var plain := GS.DecryptGraph(cat, graph, v);
      if plain.Err? then Broken
      else if !Passes(cat, id, plain.value, others, accepts) then Invalid
      else Ready(Version(graph, FragmentFor(id, GS.Redact(cat, graph))))
  }

  /** `others` are the other active pipelines; `accepts` is the verdict of the collector's own validation. */
  method PrepareVersion(cat: Catalog, id: Identity, g: Graph, v: GS.Vault, prev: Option<Graph>, nonces: GS.Nonces,
                        others: seq<R.Pipeline>, accepts: Config -> bool) returns (r: Prepared)
    requires V.PlainTypes(cat)
    ensures exists idx :: GS.IsIndex(idx, SW.PrevLeaves(cat, prev))
                          && r == Outcome(cat, id, GS.EncryptGraph(cat, g, v, idx, nonces), v, others, accepts)
  {
    hide GS.IsIndex, GS.EncryptGraph, GS.Redact, GS.DecryptGraph, V.WellFormed, FragmentFor, FullFor, V.PlainTypes;
    var sealed := SW.EncryptGraphSecrets(cat, g, v, prev, nonces);
    ghost var idx :| GS.IsIndex(idx, SW.PrevLeaves(cat, prev)) && sealed == GS.EncryptGraph(cat, g, v, idx, nonces);
    if sealed.Failed? {
      return Broken;
    }
    if sealed.Rejected? {
      return Invalid;
    }
    var stored := sealed.graph;
    var plain := Decrypted(cat, stored, v);
    if plain.Err? {
      return Broken;
    }
    var issues := V.ValidateStructural(cat, plain.value);
    if issues != [] {
      return Invalid;
    }
    var full := RenderFullFor(id, others + [PipelineFor(id, plain.value)]);
    if full.Err? || !accepts(full.value) {
      return Invalid;
    }
    var redacted := Redacted(cat, stored);
    var fragment := RenderFragmentFor(id, redacted);
    return Ready(Version(stored, fragment));
  }

  lemma PassesMeans(cat: Catalog, id: Identity, plain: Graph, others: seq<R.Pipeline>, accepts: Config -> bool)
    requires Passes(cat, id, plain, others, accepts)
    ensures V.WellFormed(cat, plain) && R.DistinctKeys(others + [PipelineFor(id, plain)])
  {
    hide R.DistinctKeys, R.RenderForwarding, R.RenderEdge;
    D.RefusedExactly(others + [PipelineFor(id, plain)]);
  }

  /**
   A plaintext passes exactly when it is well-formed, its key is not taken, and the collector accepts the config of
   all active pipelines with it, of the tier the pipeline is for.
   */
  lemma PassesExactly(cat: Catalog, id: Identity, plain: Graph, others: seq<R.Pipeline>, accepts: Config -> bool)
    ensures var ps := others + [R.Pipeline(id.customer, id.client, id.slug, plain)];
            Passes(cat, id, plain, others, accepts)
            <==> && V.WellFormed(cat, plain) && R.DistinctKeys(ps)
                 && accepts(if id.edge then R.Edge(R.Sort(ps)) else R.Forwarding(R.Sort(ps)))
  {
    hide R.DistinctKeys, R.Edge, R.Forwarding, R.Sort, V.WellFormed;
    D.RefusedExactly(others + [PipelineFor(id, plain)]);
  }

  /** The fragment of a graph defines its nodes with their own settings, in the tier the pipeline is for. */
  lemma FragmentExactly(id: Identity, g: Graph)
    ensures var f, p := FragmentFor(id, g), R.Pipeline(id.customer, id.client, id.slug, g);
            && E.HoldsNodes(f.processors, p, g.processors) && E.HoldsNodes(f.exporters, p, g.exporters)
            && f.receivers == [] && f.connectors == []
            && f.pipelines == (if id.edge then R.EdgePipelines()(p) else R.CustomerPipelines()(p))
  {
    hide E.HoldsNodes;
    E.FragmentsHoldNodes(PipelineFor(id, g));
  }

  /**
   A version is ready exactly when the edit can be stored, what was stored decrypts, and the plaintext passes;
   then it is the encrypted graph with the fragment of the redacted submission, and the plaintext is well-formed
   under a key of its own.
   */
  lemma ReadyExactly(cat: Catalog, id: Identity, g: Graph, v: GS.Vault, idx: GS.Index, nonces: GS.Nonces,
                     others: seq<R.Pipeline>, accepts: Config -> bool)
    requires S.PlainRoots(cat)
    ensures var sealed := GS.EncryptGraph(cat, g, v, idx, nonces);
            var r := Outcome(cat, id, sealed, v, others, accepts);
            && (r.Ready? <==> sealed.Stored? && GS.DecryptGraph(cat, sealed.graph, v).Ok?
                              && Passes(cat, id, GS.DecryptGraph(cat, sealed.graph, v).value, others, accepts))
            && (r.Broken? <==> sealed.Failed? || (sealed.Stored? && GS.DecryptGraph(cat, sealed.graph, v).Err?))
            && (r.Ready? ==>
                  && r.version == Version(sealed.graph, FragmentFor(id, GS.Redact(cat, g)))
                  && V.WellFormed(cat, GS.DecryptGraph(cat, sealed.graph, v).value)
                  && R.DistinctKeys(others + [PipelineFor(id, GS.DecryptGraph(cat, sealed.graph, v).value)]))
  {
    var sealed := GS.EncryptGraph(cat, g, v, idx, nonces);
    hide GS.EncryptGraph, GS.Redact, GS.DecryptGraph, V.WellFormed, R.DistinctKeys, FragmentFor, Passes;
    if sealed.Stored? {
      GS.RedactedAsSubmitted(cat, g, v, idx, nonces);
      var plain := GS.DecryptGraph(cat, sealed.graph, v);
      if plain.Ok? && Passes(cat, id, plain.value, others, accepts) {
        PassesMeans(cat, id, plain.value, others, accepts);
      }
    }
  }

  /** With a master key, a plaintext submission never breaks: it is ready exactly when the submission itself passes. */
  lemma PlaintextIsReady(cat: Catalog, id: Identity, g: Graph, v: GS.Vault, idx: GS.Index, nonces: GS.Nonces,
                         others: seq<R.Pipeline>, accepts: Config -> bool)
    requires S.PlainRoots(cat) && GS.SoundVault(v) && v.cipher.Some?
    requires forall p :: nonces(p).Some? && GS.NonceOk(nonces(p))
    requires GS.Plaintext(v.b64, S.GraphLeaves(cat, g))
    ensures var r := Outcome(cat, id, GS.EncryptGraph(cat, g, v, idx, nonces), v, others, accepts);
            !r.Broken? && (r.Ready? <==> Passes(cat, id, g, others, accepts))
  {
    hide GS.EncryptGraph, GS.Redact, GS.DecryptGraph, FragmentFor, Passes, GS.SoundVault, GS.Plaintext, S.GraphLeaves;
    GS.PlaintextRoundTrip(cat, g, v, idx, nonces);
  }

  method Decrypted(cat: Catalog, g: Graph, v: GS.Vault) returns (r: Result<Graph>)
    ensures r == GS.DecryptGraph(cat, g, v)
  {
    r := SW.TransformGraphSecrets(cat, g, GS.OpenLeaf(v));
  }

  method Redacted(cat: Catalog, g: Graph) returns (r: Graph)
    ensures r == GS.Redact(cat, g)
  {
    hide S.GraphOut;
    GS.RedactOk(cat, g);
    var out := SW.TransformGraphSecrets(cat, g, GS.RedactLeaf());
    r := out.value;
  }

  /**
   The persisted fragment, and so the config hash, is the same for any two submissions that differ only in
   password values.
   */
  lemma FragmentIsBlind(cat: Catalog, id: Identity, g: Graph, h: Graph)
    requires S.PlainRoots(cat) && GS.Mask(cat, g) == GS.Mask(cat, h)
    requires RD.NullPaths(S.GraphLeaves(cat, g)) == RD.NullPaths(S.GraphLeaves(cat, h))
    ensures FragmentFor(id, GS.Redact(cat, g)) == FragmentFor(id, GS.Redact(cat, h))
  {
    hide S.GraphLeaves, GS.Mask, GS.Redact, FragmentFor, RD.NullPaths;
    RD.RedactionIsBlind(cat, g, h);
  }

  // ---------------------------------------------------------------- preparing a version again

  /** What an edit prepares. */
  function PreparedFrom(cat: Catalog, id: Identity, g: Graph, v: GS.Vault, idx: GS.Index, nonces: GS.Nonces,
                        others: seq<R.Pipeline>, accepts: Config -> bool): Prepared {
    Outcome(cat, id, GS.EncryptGraph(cat, g, v, idx, nonces), v, others, accepts)
  }

  lemma SameSealing(cat: Catalog, id: Identity, version: Version, sealed: GS.Encryption, v: GS.Vault,
                    others: seq<R.Pipeline>, accepts: Config -> bool)
    requires Outcome(cat, id, GS.Stored(version.graph), v, others, accepts) == Ready(version)
    ensures Outcome(cat, id, sealed, v, others, accepts) == Ready(version) <==> sealed == GS.Stored(version.graph)
  {
    hide GS.DecryptGraph, Passes, FragmentFor, GS.Redact;
  }

  /**
   A ready version, prepared again from its redacted form against itself, is ready with the very same version,
   whatever the index and the nonces, exactly when its secrets can be resubmitted.
   */
  lemma PreparedAgainExactly(cat: Catalog, id: Identity, version: Version, v: GS.Vault, others: seq<R.Pipeline>,
                             accepts: Config -> bool)
    requires S.PlainRoots(cat) && Outcome(cat, id, GS.Stored(version.graph), v, others, accepts) == Ready(version)
    ensures (forall idx: GS.Index, nonces: GS.Nonces :: GS.IsIndex(idx, S.GraphLeaves(cat, version.graph)) ==>
               PreparedFrom(cat, id, GS.Redact(cat, version.graph), v, idx, nonces, others, accepts) == Ready(version))
            <==> GS.Resubmittable(v.b64, S.GraphLeaves(cat, version.graph))
  {
    hide GS.EncryptGraph, GS.Redact, S.GraphLeaves, GS.IsIndex, GS.Resubmittable, Outcome;
    GS.EditRoundTripExactly(cat, version.graph, v);
    var redacted := GS.Redact(cat, version.graph);
    forall idx: GS.Index, nonces: GS.Nonces
      ensures PreparedFrom(cat, id, redacted, v, idx, nonces, others, accepts) == Ready(version)
         <==> GS.EncryptGraph(cat, redacted, v, idx, nonces) == GS.Stored(version.graph)
    {
      SameSealing(cat, id, version, GS.EncryptGraph(cat, redacted, v, idx, nonces), v, others, accepts);
    }
  }

  /** A password leaf a user may submit: a string, a marker kept from before, or null. */
  predicate SecretValue(b: GS.Base64, x: Json) { x == JNull || x.JStr? || GS.EncValue(b, x).Some? }

  lemma SealsToMarker(v: GS.Vault, idx: GS.Index, nonce: Option<Bytes>, path: S.Path, x: Json)
    requires GS.Faithful(v.b64) && SecretValue(v.b64, x) && GS.Seal(v, idx, nonce, path, x).Keeps?
    ensures var y := GS.Seal(v, idx, nonce, path, x).value; y == JNull || GS.EncValue(v.b64, y).Some?
  {
    hide S.PathText;
    if v.cipher.Some? && nonce.Some? {
      var t := S.PathText(path);
      var text := if !x.JStr? then "" else if x.text != S.SENTINEL then x.text
                  else if t in idx && idx[t].JStr? then idx[t].text else "";
      GS.MarkerReads(v.b64, Encrypt(v.cipher, nonce.value, text).value);
    }
  }

  /** Stored from such a submission, every password leaf is a marker or null. */
  lemma StoredAsMarkers(cat: Catalog, g: Graph, v: GS.Vault, idx: GS.Index, nonces: GS.Nonces)
    requires S.PlainRoots(cat) && GS.Faithful(v.b64) && GS.EncryptGraph(cat, g, v, idx, nonces).Stored?
    requires forall l :: l in S.GraphLeaves(cat, g) ==> SecretValue(v.b64, l.value)
    ensures forall l :: l in S.GraphLeaves(cat, GS.EncryptGraph(cat, g, v, idx, nonces).graph) ==>
              l.value == JNull || GS.EncValue(v.b64, l.value).Some?
  {
    hide S.GraphOut, S.GraphLeaves, GS.EncryptGraph, SecretValue, GS.EncValue, GS.Faithful;
    var f := GS.SealLeaf(v, idx, nonces);
    GS.StoredExactly(cat, g, v, idx, nonces);
    S.GraphLeavesTransformed(cat, g, f);
    forall l | l in S.GraphLeaves(cat, g)
      ensures f(l.path, l.value).Ok?
              && (f(l.path, l.value).value == JNull || GS.EncValue(v.b64, f(l.path, l.value).value).Some?)
    {
      hide GS.Seal;
      assert f(l.path, l.value).Ok?;
      SealsToMarker(v, idx, nonces(l.path), l.path, l.value);
    }
  }

  /**
   Under a catalog of the built-in shape, a version made ready from string secrets is stable: prepared again from
   its redacted form against itself, it is ready with the same graph and the same fragment.
   */
  lemma PreparedAgain(cat: Catalog, id: Identity, g: Graph, v: GS.Vault, idx: GS.Index, nonces: GS.Nonces,
                      others: seq<R.Pipeline>, accepts: Config -> bool, idx': GS.Index, nonces': GS.Nonces)
    requires S.PlainRoots(cat) && SN.CatalogShaped(cat) && GS.Faithful(v.b64)
    requires forall l :: l in S.GraphLeaves(cat, g) ==> SecretValue(v.b64, l.value)
    requires PreparedFrom(cat, id, g, v, idx, nonces, others, accepts).Ready?
    requires var stored := PreparedFrom(cat, id, g, v, idx, nonces, others, accepts).version.graph;
             GS.IsIndex(idx', S.GraphLeaves(cat, stored))
    ensures var r := PreparedFrom(cat, id, g, v, idx, nonces, others, accepts);
            PreparedFrom(cat, id, GS.Redact(cat, r.version.graph), v, idx', nonces', others, accepts) == r
  {
    hide GS.EncryptGraph, GS.Redact, S.GraphLeaves, GS.IsIndex, GS.DecryptGraph, Passes, FragmentFor, SN.CatalogShaped,
         GS.Faithful;
    var stored := PreparedFrom(cat, id, g, v, idx, nonces, others, accepts).version.graph;
    StoredAsMarkers(cat, g, v, idx, nonces);
    SN.CatalogGraphsResubmit(cat, stored, v.b64);
    GS.EditRoundTrip(cat, stored, v, idx', nonces');
  }
}
