/** Storing, showing and using the secrets of a graph. */
module GraphSecrets {
  import opened Wrappers
  import opened Json
  import opened Graph
  import opened Crypto
  import opened Secrets

  datatype Base64 = Base64(enc: Bytes -> string, dec: string -> Option<Bytes>)

  ghost predicate Faithful(b: Base64) { forall x :: b.dec(b.enc(x)) == Some(x) }

  /** A missing cipher is an unset master key. */
  datatype Vault = Vault(b64: Base64, cipher: Option<Cipher>)

  // ---------------------------------------------------------------- encrypted markers

  function EncValue(b: Base64, v: Json): Option<Bytes> {
    if v.JObj? && |v.fields| == 1 && ENC_KEY in v.fields && v.fields[ENC_KEY].JStr?
    then b.dec(v.fields[ENC_KEY].text) else None
  }

  function NewEncValue(b: Base64, sealed: Bytes): Json { JObj(map[ENC_KEY := JStr(b.enc(sealed))]) }

  lemma MarkerReads(b: Base64, sealed: Bytes)
    requires Faithful(b)
    ensures EncValue(b, NewEncValue(b, sealed)) == Some(sealed)
  {
  }

  // ---------------------------------------------------------------- redacting and decrypting

  function RedactLeaf(): LeafFn { (p, x) => Ok(if x == JNull then JNull else JStr(SENTINEL)) }

  function Redact(cat: Catalog, g: Graph): Graph {
    var r := GraphOut(cat, g, RedactLeaf());
    if r.Ok? then r.value else Graph([], [], [])
  }

  function OpenValue(v: Vault, x: Json): Result<Json> {
    if EncValue(v.b64, x) == None then Ok(x)
    else
      var text := Decrypt(v.cipher, EncValue(v.b64, x).value);
      if text.Some? then Ok(JStr(text.value)) else Err
  }

  function OpenLeaf(v: Vault): LeafFn { (p, x) => OpenValue(v, x) }

  function DecryptGraph(cat: Catalog, g: Graph, v: Vault): Result<Graph> { GraphOut(cat, g, OpenLeaf(v)) }

  // ---------------------------------------------------------------- encrypting

  type Index = map<string, Json>

  /** What filling an index with the leaves can leave in it: at each path text, some leaf's value. */
  ghost predicate IsIndex(idx: Index, leaves: set<Leaf>) {
    && (forall l :: l in leaves ==> PathText(l.path) in idx)
    && (forall t :: t in idx ==> exists l :: l in leaves && PathText(l.path) == t && l.value == idx[t])
  }

  /** The random nonce drawn for a leaf; absent when the random source fails. */
  type Nonces = Path -> Option<Bytes>

  datatype Problem = NothingStored | NoMasterKey
  datatype Issue = Issue(path: Path, problem: Problem)
  datatype Sealing = Keeps(value: Json) | Flags(problem: Problem) | Fails

  function SealText(v: Vault, nonce: Option<Bytes>, text: string): Sealing {
    if v.cipher == None then Flags(NoMasterKey)
    else if nonce == None then Fails
    else Keeps(NewEncValue(v.b64, Encrypt(v.cipher, nonce.value, text).value))
  }

  function Seal(v: Vault, idx: Index, nonce: Option<Bytes>, path: Path, x: Json): Sealing {
    if EncValue(v.b64, x).Some? || !x.JStr? then Keeps(x)
    else if x.text != SENTINEL then SealText(v, nonce, x.text)
    else if PathText(path) !in idx then Flags(NothingStored)
    else
      var stored := idx[PathText(path)];
      if EncValue(v.b64, stored).Some? then Keeps(stored)
      else SealText(v, nonce, if stored.JStr? then stored.text else "")
  }

  function SealLeaf(v: Vault, idx: Index, nonces: Nonces): LeafFn {
    (p, x) => if Seal(v, idx, nonces(p), p, x).Keeps? then Ok(Seal(v, idx, nonces(p), p, x).value) else Err
  }

  datatype Encryption = Stored(graph: Graph) | Rejected(issues: set<Issue>) | Failed

  function Issues(v: Vault, idx: Index, nonces: Nonces, leaves: set<Leaf>): set<Issue> {
    set l | l in leaves && Seal(v, idx, nonces(l.path), l.path, l.value).Flags?
      :: Issue(l.path, Seal(v, idx, nonces(l.path), l.path, l.value).problem)
  }

  function EncryptGraph(cat: Catalog, g: Graph, v: Vault, idx: Index, nonces: Nonces): Encryption {
    var leaves := GraphLeaves(cat, g);
    if exists l :: l in leaves && Seal(v, idx, nonces(l.path), l.path, l.value).Fails? then Failed
    else if Issues(v, idx, nonces, leaves) != {} then Rejected(Issues(v, idx, nonces, leaves))
    else
      var r := GraphOut(cat, g, SealLeaf(v, idx, nonces));
      if r.Ok? then Stored(r.value) else Failed
  }

  /** A graph is stored exactly when every leaf is kept, and then it is the walk's result. */
  lemma StoredExactly(cat: Catalog, g: Graph, v: Vault, idx: Index, nonces: Nonces)
    ensures var r := GraphOut(cat, g, SealLeaf(v, idx, nonces));
            EncryptGraph(cat, g, v, idx, nonces).Stored? == r.Ok?
                && (r.Ok? ==> EncryptGraph(cat, g, v, idx, nonces) == Stored(r.value))
  {
    hide GraphOut, GraphLeaves, Seal;
    GraphFails(cat, g, SealLeaf(v, idx, nonces));
    var leaves := GraphLeaves(cat, g);
    forall l | l in leaves && Seal(v, idx, nonces(l.path), l.path, l.value).Flags?
      ensures Issue(l.path, Seal(v, idx, nonces(l.path), l.path, l.value).problem) in Issues(v, idx, nonces, leaves)
    {
    }
  }

  // ---------------------------------------------------------------- the edit round trip

  lemma RedactOk(cat: Catalog, g: Graph)
    ensures GraphOut(cat, g, RedactLeaf()) == Ok(Redact(cat, g))
  {
    hide GraphOut, GraphLeaves;
    GraphFails(cat, g, RedactLeaf());
  }

  predicate OnlyValue(leaves: set<Leaf>, l: Leaf) {
    forall m :: m in leaves && PathText(m.path) == PathText(l.path) ==> m.value == l.value
  }

  /** Every non-null leaf is an encrypted marker, and the only value at its path text. */
  predicate Resubmittable(b: Base64, leaves: set<Leaf>) {
    forall l :: l in leaves && l.value != JNull ==> EncValue(b, l.value).Some? && OnlyValue(leaves, l)
  }

  lemma IndexedValue(leaves: set<Leaf>, idx: Index, l: Leaf)
    requires IsIndex(idx, leaves) && l in leaves && OnlyValue(leaves, l)
    ensures PathText(l.path) in idx && idx[PathText(l.path)] == l.value
  {
    hide PathText;
    var m :| m in leaves && PathText(m.path) == PathText(l.path) && m.value == idx[PathText(l.path)];
  }

  lemma SentinelSeals(v: Vault, idx: Index, nonce: Option<Bytes>, path: Path, x: Json)
    requires PathText(path) in idx && idx[PathText(path)] == x && EncValue(v.b64, x).Some?
    ensures Seal(v, idx, nonce, path, JStr(SENTINEL)) == Keeps(x)
  {
    hide PathText;
  }

  lemma ResealsLeaf(v: Vault, idx: Index, nonces: Nonces, l: Leaf)
    requires l.value != JNull
             ==> PathText(l.path) in idx && idx[PathText(l.path)] == l.value && EncValue(v.b64, l.value).Some?
    ensures Then(RedactLeaf(), SealLeaf(v, idx, nonces))(l.path, l.value) == Ok(l.value)
  {
    if l.value != JNull {
      hide PathText, EncValue, Seal;
      SentinelSeals(v, idx, nonces(l.path), l.path, l.value);
    } else {
      hide PathText;
    }
  }

  lemma ResealsTo(v: Vault, leaves: set<Leaf>, idx: Index, nonces: Nonces)
    requires IsIndex(idx, leaves) && Resubmittable(v.b64, leaves)
    ensures AgreeOn(Then(RedactLeaf(), SealLeaf(v, idx, nonces)), Keep(), leaves)
  {
    hide PathText, EncValue, IsIndex, SealLeaf, Then, RedactLeaf, OnlyValue;
    forall l | l in leaves ensures Then(RedactLeaf(), SealLeaf(v, idx, nonces))(l.path, l.value) == Ok(l.value) {
      if l.value != JNull {
        IndexedValue(leaves, idx, l);
      }
      ResealsLeaf(v, idx, nonces, l);
    }
  }

  /**
   Submitting the redacted form of a stored graph against itself stores the same graph again, with no issue
   and nothing encrypted, whether or not there is a master key.
   */
  lemma EditRoundTrip(cat: Catalog, g: Graph, v: Vault, idx: Index, nonces: Nonces)
    requires PlainRoots(cat) && IsIndex(idx, GraphLeaves(cat, g)) && Resubmittable(v.b64, GraphLeaves(cat, g))
    ensures EncryptGraph(cat, Redact(cat, g), v, idx, nonces) == Stored(g)
  {
    hide GraphOut, GraphLeaves, EncryptGraph;
    RedactOk(cat, g);
    var f := SealLeaf(v, idx, nonces);
    GraphFuse(cat, g, RedactLeaf(), f);
    ResealsTo(v, GraphLeaves(cat, g), idx, nonces);
    GraphAgree(cat, g, Then(RedactLeaf(), f), Keep());
    GraphKeep(cat, g);
    StoredExactly(cat, Redact(cat, g), v, idx, nonces);
  }

  ghost function PickLeaf(leaves: set<Leaf>, t: string): (l: Leaf)
    requires exists m :: m in leaves && PathText(m.path) == t
    ensures l in leaves && PathText(l.path) == t
  {
    var l :| l in leaves && PathText(l.path) == t;
    l
  }

  /** Any leaf can be the one an index ends up with. */
  lemma IndexWith(leaves: set<Leaf>, l: Leaf) returns (idx: Index)
    requires l in leaves
    ensures IsIndex(idx, leaves) && PathText(l.path) in idx && idx[PathText(l.path)] == l.value
  {
    var texts := set m | m in leaves :: PathText(m.path);
    idx := map t | t in texts :: if t == PathText(l.path) then l.value else PickLeaf(leaves, t).value;
    assert PathText(l.path) in texts;
    forall t | t in idx ensures exists m :: m in leaves && PathText(m.path) == t && m.value == idx[t] {
      var m := if t == PathText(l.path) then l else PickLeaf(leaves, t);
      assert m in leaves && PathText(m.path) == t && m.value == idx[t];
    }
  }

  lemma StoredBackFixes(cat: Catalog, g: Graph, v: Vault, idx: Index, nonces: Nonces)
    requires PlainRoots(cat) && EncryptGraph(cat, Redact(cat, g), v, idx, nonces) == Stored(g)
    ensures AgreeOn(Then(RedactLeaf(), SealLeaf(v, idx, nonces)), Keep(), GraphLeaves(cat, g))
  {
    hide GraphOut, GraphLeaves, EncryptGraph;
    RedactOk(cat, g);
    StoredExactly(cat, Redact(cat, g), v, idx, nonces);
    GraphFuse(cat, g, RedactLeaf(), SealLeaf(v, idx, nonces));
    GraphFixed(cat, g, Then(RedactLeaf(), SealLeaf(v, idx, nonces)));
  }

  /** A random source that fails at every leaf. */
  function NoNonces(): Nonces { p => None }

  /**
   The round trip holds, for every way the index may be filled and every draw of nonces, exactly for resubmittable
   graphs.
   */
  lemma EditRoundTripExactly(cat: Catalog, g: Graph, v: Vault)
    requires PlainRoots(cat)
    ensures (forall idx: Index, nonces: Nonces :: IsIndex(idx, GraphLeaves(cat, g)) ==>
               EncryptGraph(cat, Redact(cat, g), v, idx, nonces) == Stored(g))
            <==> Resubmittable(v.b64, GraphLeaves(cat, g))
  {
    hide GraphOut, GraphLeaves, EncryptGraph;
    var leaves := GraphLeaves(cat, g);
    if forall idx: Index, nonces: Nonces :: IsIndex(idx, leaves) ==>
         EncryptGraph(cat, Redact(cat, g), v, idx, nonces) == Stored(g)
    {
      forall l, m | l in leaves && l.value != JNull && m in leaves && PathText(m.path) == PathText(l.path)
        ensures EncValue(v.b64, m.value).Some? && m.value == l.value
      {
        hide IsIndex, PathText;
        var idx := IndexWith(leaves, m);
        StoredBackFixes(cat, g, v, idx, NoNonces());
        UnsealedOnlyIfStored(v, idx, NoNonces(), l);
      }
    }
    if Resubmittable(v.b64, leaves) {
      hide IsIndex, Resubmittable;
      forall idx: Index, nonces: Nonces | IsIndex(idx, leaves)
        ensures EncryptGraph(cat, Redact(cat, g), v, idx, nonces) == Stored(g)
      {
        EditRoundTrip(cat, g, v, idx, nonces);
      }
    }
  }

  lemma UnsealedOnlyIfStored(v: Vault, idx: Index, nonces: Nonces, l: Leaf)
    requires PathText(l.path) in idx && l.value != JNull && (v.cipher == None || nonces(l.path) == None)
    requires Then(RedactLeaf(), SealLeaf(v, idx, nonces))(l.path, l.value) == Ok(l.value)
    ensures idx[PathText(l.path)] == l.value && EncValue(v.b64, l.value).Some?
  {
    hide PathText, EncValue;
    assert Seal(v, idx, nonces(l.path), l.path, JStr(SENTINEL)) == Keeps(l.value);
    assert EncValue(v.b64, JStr(SENTINEL)) == None by { NotMarker(v.b64, SENTINEL); }
  }

  lemma NotMarker(b: Base64, text: string)
    ensures EncValue(b, JStr(text)) == None
  {
  }

  // ---------------------------------------------------------------- what a stored edit means

  predicate NonceOk(nonce: Option<Bytes>) { nonce.Some? ==> |nonce.value| == NONCE_SIZE }

  ghost predicate SoundVault(v: Vault) { Faithful(v.b64) && (v.cipher.Some? ==> Sound(v.cipher.value)) }

  /** The plaintext a leaf of an edit stands for, given what was stored before. */
  function Meant(v: Vault, idx: Index, path: Path, x: Json): Result<Json> {
    if x != JStr(SENTINEL) || PathText(path) !in idx then OpenValue(v, x)
    else
      var stored := idx[PathText(path)];
      if EncValue(v.b64, stored).Some? then OpenValue(v, stored) else Ok(JStr(if stored.JStr? then stored.text else ""))
  }

  function MeantLeaf(v: Vault, idx: Index): LeafFn { (p, x) => Meant(v, idx, p, x) }

  lemma SealedTextOpens(v: Vault, nonce: Option<Bytes>, text: string)
    requires SoundVault(v) && NonceOk(nonce) && SealText(v, nonce, text).Keeps?
    ensures OpenValue(v, SealText(v, nonce, text).value) == Ok(JStr(text))
  {
    hide Opens, Encrypt, Decrypt;
    DecryptsOwn(v.cipher.value, nonce.value, text);
    MarkerReads(v.b64, Encrypt(v.cipher, nonce.value, text).value);
  }

  lemma SealedLeafOpens(v: Vault, idx: Index, nonce: Option<Bytes>, path: Path, x: Json)
    requires SoundVault(v) && NonceOk(nonce) && Seal(v, idx, nonce, path, x).Keeps?
    ensures OpenValue(v, Seal(v, idx, nonce, path, x).value) == Meant(v, idx, path, x)
  {
    hide PathText, SealText, SoundVault, Encrypt, Decrypt;
    if x.JStr? {
      NotMarker(v.b64, x.text);
      var text := if x.text != SENTINEL then x.text
                  else if PathText(path) in idx && idx[PathText(path)].JStr? then idx[PathText(path)].text else "";
      if SealText(v, nonce, text).Keeps? {
        SealedTextOpens(v, nonce, text);
      }
    }
  }

  /**
   Storing an edit and decrypting it again is editing the plaintext: a sentinel leaf becomes the plaintext
   stored at its path, a marker what it decrypts to, and every other leaf stays.
   */
  lemma StoredEditMeans(cat: Catalog, g: Graph, v: Vault, idx: Index, nonces: Nonces)
    requires PlainRoots(cat) && SoundVault(v) && forall p :: NonceOk(nonces(p))
    requires EncryptGraph(cat, g, v, idx, nonces).Stored?
    ensures DecryptGraph(cat, EncryptGraph(cat, g, v, idx, nonces).graph, v) == GraphOut(cat, g, MeantLeaf(v, idx))
  {
    hide GraphOut, GraphLeaves, EncryptGraph, SoundVault;
    var f := SealLeaf(v, idx, nonces);
    StoredExactly(cat, g, v, idx, nonces);
    GraphFuse(cat, g, f, OpenLeaf(v));
    GraphFails(cat, g, f);
    forall l | l in GraphLeaves(cat, g)
      ensures Then(f, OpenLeaf(v))(l.path, l.value) == MeantLeaf(v, idx)(l.path, l.value)
    {
      hide Seal, Meant, OpenValue;
      assert f(l.path, l.value).Ok?;
      SealedLeafOpens(v, idx, nonces(l.path), l.path, l.value);
    }
    GraphAgree(cat, g, Then(f, OpenLeaf(v)), MeantLeaf(v, idx));
  }

  /** No leaf is a sentinel or an encrypted marker. */
  predicate Plaintext(b: Base64, leaves: set<Leaf>) {
    forall l :: l in leaves ==> l.value != JStr(SENTINEL) && EncValue(b, l.value) == None
  }

  lemma PlaintextSeals(v: Vault, idx: Index, nonces: Nonces, l: Leaf)
    requires v.cipher.Some? && nonces(l.path).Some? && l.value != JStr(SENTINEL) && EncValue(v.b64, l.value) == None
    ensures SealLeaf(v, idx, nonces)(l.path, l.value).Ok? && Meant(v, idx, l.path, l.value) == Ok(l.value)
  {
    hide PathText, EncValue, Encrypt;
  }

  /** With a master key and a working random source, a plaintext graph is always stored, and decrypts to itself. */
  lemma PlaintextRoundTrip(cat: Catalog, g: Graph, v: Vault, idx: Index, nonces: Nonces)
    requires PlainRoots(cat) && SoundVault(v) && v.cipher.Some? && forall p :: nonces(p).Some? && NonceOk(nonces(p))
    requires Plaintext(v.b64, GraphLeaves(cat, g))
    ensures EncryptGraph(cat, g, v, idx, nonces).Stored?
    ensures DecryptGraph(cat, EncryptGraph(cat, g, v, idx, nonces).graph, v) == Ok(g)
  {
    hide GraphOut, GraphLeaves, EncryptGraph, SoundVault, DecryptGraph, SealLeaf, Meant;
    forall l | l in GraphLeaves(cat, g)
      ensures SealLeaf(v, idx, nonces)(l.path, l.value).Ok? && Meant(v, idx, l.path, l.value) == Ok(l.value)
    {
      PlaintextSeals(v, idx, nonces, l);
    }
    GraphFails(cat, g, SealLeaf(v, idx, nonces));
    StoredExactly(cat, g, v, idx, nonces);
    StoredEditMeans(cat, g, v, idx, nonces);
    GraphAgree(cat, g, MeantLeaf(v, idx), Keep());
    GraphKeep(cat, g);
  }

  // ---------------------------------------------------------------- what walks keep and redaction hides

  function BlankLeaf(): LeafFn { (p, x) => Ok(JNull) }

  /** Everything of a graph but its password leaves. */
  function Mask(cat: Catalog, g: Graph): Result<Graph> { GraphOut(cat, g, BlankLeaf()) }

  /** No walk changes anything outside the password leaves. */
  lemma OutsideLeavesKept(cat: Catalog, g: Graph, f: LeafFn)
    requires PlainRoots(cat) && GraphOut(cat, g, f).Ok?
    ensures Mask(cat, GraphOut(cat, g, f).value) == Mask(cat, g)
  {
    hide GraphOut, GraphLeaves;
    GraphFuse(cat, g, f, BlankLeaf());
    GraphFails(cat, g, f);
    GraphAgree(cat, g, Then(f, BlankLeaf()), BlankLeaf());
  }

  /** A redacted graph holds no secret: each password leaf is null or the sentinel. */
  lemma RedactionHides(cat: Catalog, g: Graph)
    requires PlainRoots(cat)
    ensures forall l :: l in GraphLeaves(cat, Redact(cat, g)) ==> l.value == JNull || l.value == JStr(SENTINEL)
  {
    hide GraphOut, GraphLeaves;
    RedactOk(cat, g);
    GraphLeavesTransformed(cat, g, RedactLeaf());
  }

  lemma SealKeepsPresence(v: Vault, idx: Index, nonce: Option<Bytes>, path: Path, x: Json)
    requires Seal(v, idx, nonce, path, x).Keeps?
    ensures Seal(v, idx, nonce, path, x).value == JNull <==> x == JNull
  {
    hide PathText, Encrypt;
  }

  /** The redacted form of what is stored is the redacted form of what was submitted. */
  lemma RedactedAsSubmitted(cat: Catalog, g: Graph, v: Vault, idx: Index, nonces: Nonces)
    requires PlainRoots(cat) && EncryptGraph(cat, g, v, idx, nonces).Stored?
    ensures Redact(cat, EncryptGraph(cat, g, v, idx, nonces).graph) == Redact(cat, g)
  {
    hide GraphOut, GraphLeaves, EncryptGraph;
    var f := SealLeaf(v, idx, nonces);
    StoredExactly(cat, g, v, idx, nonces);
    GraphFuse(cat, g, f, RedactLeaf());
    GraphFails(cat, g, f);
    forall l | l in GraphLeaves(cat, g)
      ensures Then(f, RedactLeaf())(l.path, l.value) == RedactLeaf()(l.path, l.value)
    {
      hide Seal;
      assert f(l.path, l.value).Ok?;
      SealKeepsPresence(v, idx, nonces(l.path), l.path, l.value);
    }
    GraphAgree(cat, g, Then(f, RedactLeaf()), RedactLeaf());
  }
}
