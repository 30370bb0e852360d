/** Which edits of secrets are refused and why, and what is stored at each leaf of the others. */
module SecretIssues {
  import opened Wrappers
  import opened Json
  import opened Graph
  import opened Crypto
  import opened Secrets
  import opened GraphSecrets

  // ---------------------------------------------------------------- markers

  /** A value is an encrypted marker exactly when it is an object of the one field "$enc" whose text decodes. */
  lemma MarkerExactly(b: Base64, x: Json, sealed: Bytes)
    ensures EncValue(b, x) == Some(sealed)
       <==> x.JObj? && exists text :: x.fields == map["$enc" := JStr(text)] && b.dec(text) == Some(sealed)
  {
    if EncValue(b, x) == Some(sealed) {
      var text := x.fields["$enc"].text;
      var rest := x.fields.Keys - {"$enc"};
      assert x.fields.Keys == rest + {"$enc"};
      assert |rest| == |x.fields.Keys| - 1 == |x.fields| - 1;
      assert x.fields == map["$enc" := JStr(text)];
    }
  }

  // ---------------------------------------------------------------- leaves of an edit

  /** A sentinel with nothing stored at its path. */
  predicate Orphan(idx: Index, l: Leaf) { l.value == JStr(SENTINEL) && PathText(l.path) !in idx }

  /** A sentinel over an encrypted marker, which is kept as it is. */
  predicate Carried(b: Base64, idx: Index, l: Leaf) {
    l.value == JStr(SENTINEL) && PathText(l.path) in idx && EncValue(b, idx[PathText(l.path)]).Some?
  }

  /** A string that has to be encrypted: one submitted, or one stored before there was a key. */
  predicate NeedsKey(b: Base64, idx: Index, l: Leaf) { l.value.JStr? && !Orphan(idx, l) && !Carried(b, idx, l) }

  /** The text to encrypt; a stored value that is no string counts as empty. */
  function TextOf(idx: Index, l: Leaf): string
    requires l.value.JStr? && !Orphan(idx, l)
  {
    if l.value.text != SENTINEL then l.value.text
    else match idx[PathText(l.path)] case JStr(text) => text case _ => ""
  }

  // ---------------------------------------------------------------- the outcome of an edit

  predicate HasOrphan(idx: Index, leaves: set<Leaf>) { exists l :: l in leaves && Orphan(idx, l) }

  predicate HasToEncrypt(b: Base64, idx: Index, leaves: set<Leaf>) { exists l :: l in leaves && NeedsKey(b, idx, l) }

  /** The random source fails at a leaf that has to be encrypted. */
  predicate DrawFails(b: Base64, idx: Index, nonces: Nonces, leaves: set<Leaf>) {
    exists l :: l in leaves && NeedsKey(b, idx, l) && nonces(l.path) == None
  }

  lemma SealsAs(v: Vault, idx: Index, nonce: Option<Bytes>, l: Leaf)
    ensures var s := Seal(v, idx, nonce, l.path, l.value);
            && (s == Flags(NothingStored) <==> Orphan(idx, l))
            && (s == Flags(NoMasterKey) <==> v.cipher == None && NeedsKey(v.b64, idx, l))
            && (s.Fails? <==> v.cipher.Some? && nonce == None && NeedsKey(v.b64, idx, l))
  {
    hide PathText;
    if l.value.JStr? {
      NotMarker(v.b64, l.value.text);
    }
  }

  /** The problem is raised at exactly the orphans, or at exactly the leaves to encrypt without a key. */
  lemma IssuesExactly(v: Vault, idx: Index, nonces: Nonces, leaves: set<Leaf>, path: Path)
    ensures Issue(path, NothingStored) in Issues(v, idx, nonces, leaves)
       <==> exists l :: l in leaves && l.path == path && Orphan(idx, l)
    ensures Issue(path, NoMasterKey) in Issues(v, idx, nonces, leaves)
       <==> v.cipher == None && exists l :: l in leaves && l.path == path && NeedsKey(v.b64, idx, l)
  {
    hide Seal, Orphan, NeedsKey;
    forall l | l in leaves
      ensures Seal(v, idx, nonces(l.path), l.path, l.value) == Flags(NothingStored) <==> Orphan(idx, l)
      ensures Seal(v, idx, nonces(l.path), l.path, l.value) == Flags(NoMasterKey)
         <==> v.cipher == None && NeedsKey(v.b64, idx, l)
    {
      SealsAs(v, idx, nonces(l.path), l);
    }
    forall l | l in leaves && Seal(v, idx, nonces(l.path), l.path, l.value).Flags?
      ensures Issue(l.path, Seal(v, idx, nonces(l.path), l.path, l.value).problem) in Issues(v, idx, nonces, leaves)
    {
    }
  }

  /**
   An edit fails exactly when a nonce cannot be drawn for a leaf to encrypt, is otherwise rejected exactly when a
   sentinel has nothing stored or a leaf has to be encrypted without a key, and is stored in all other cases.
   */
  lemma OutcomeExactly(cat: Catalog, g: Graph, v: Vault, idx: Index, nonces: Nonces)
    ensures var leaves, r := GraphLeaves(cat, g), EncryptGraph(cat, g, v, idx, nonces);
            && (r.Failed? <==> v.cipher.Some? && DrawFails(v.b64, idx, nonces, leaves))
            && (r.Rejected? <==> !r.Failed? && (HasOrphan(idx, leaves)
                                                || (v.cipher == None && HasToEncrypt(v.b64, idx, leaves))))
            && (r.Rejected? ==> r.issues == Issues(v, idx, nonces, leaves))
  {
    var leaves := GraphLeaves(cat, g);
    hide GraphOut, GraphLeaves, Seal, HasOrphan, HasToEncrypt, DrawFails;
    GraphFails(cat, g, SealLeaf(v, idx, nonces));
    forall l | l in leaves && Seal(v, idx, nonces(l.path), l.path, l.value).Flags?
      ensures Issue(l.path, Seal(v, idx, nonces(l.path), l.path, l.value).problem) in Issues(v, idx, nonces, leaves)
    {
    }
    SomeIssue(v, idx, nonces, leaves);
    SomeFailure(v, idx, nonces, leaves);
  }

  lemma SomeIssue(v: Vault, idx: Index, nonces: Nonces, leaves: set<Leaf>)
    ensures Issues(v, idx, nonces, leaves) != {}
       <==> HasOrphan(idx, leaves) || (v.cipher == None && HasToEncrypt(v.b64, idx, leaves))
  {
    hide Seal, Orphan, NeedsKey;
    if Issues(v, idx, nonces, leaves) != {} {
      var l :| l in leaves && Seal(v, idx, nonces(l.path), l.path, l.value).Flags?;
      SealsAs(v, idx, nonces(l.path), l);
      match Seal(v, idx, nonces(l.path), l.path, l.value).problem
      case NothingStored => assert Orphan(idx, l);
      case NoMasterKey => assert NeedsKey(v.b64, idx, l);
    }
    if HasOrphan(idx, leaves) || (v.cipher == None && HasToEncrypt(v.b64, idx, leaves)) {
      var l :| l in leaves && (Orphan(idx, l) || (v.cipher == None && NeedsKey(v.b64, idx, l)));
      SealsAs(v, idx, nonces(l.path), l);
      assert Issue(l.path, Seal(v, idx, nonces(l.path), l.path, l.value).problem) in Issues(v, idx, nonces, leaves);
    }
  }

  lemma SomeFailure(v: Vault, idx: Index, nonces: Nonces, leaves: set<Leaf>)
    ensures (exists l :: l in leaves && Seal(v, idx, nonces(l.path), l.path, l.value).Fails?)
       <==> v.cipher.Some? && DrawFails(v.b64, idx, nonces, leaves)
  {
    hide Seal, Orphan, NeedsKey;
    forall l | l in leaves
      ensures Seal(v, idx, nonces(l.path), l.path, l.value).Fails?
         <==> v.cipher.Some? && nonces(l.path) == None && NeedsKey(v.b64, idx, l)
    {
      SealsAs(v, idx, nonces(l.path), l);
    }
  }

  // ---------------------------------------------------------------- what is stored

  /** `y` is an encrypted marker that decrypts to the text. */
  predicate Hides(v: Vault, y: Json, text: string) {
    EncValue(v.b64, y).Some? && Decrypt(v.cipher, EncValue(v.b64, y).value) == Some(text)
  }

  /** What storing the leaf has to leave in its place. */
  predicate StandsFor(v: Vault, idx: Index, l: Leaf, y: Json) {
    if Carried(v.b64, idx, l) then y == idx[PathText(l.path)]
    else if l.value.JStr? then !Orphan(idx, l) && Hides(v, y, TextOf(idx, l))
    else y == l.value
  }

  lemma SealStandsFor(v: Vault, idx: Index, nonce: Option<Bytes>, l: Leaf)
    requires SoundVault(v) && NonceOk(nonce) && Seal(v, idx, nonce, l.path, l.value).Keeps?
    ensures StandsFor(v, idx, l, Seal(v, idx, nonce, l.path, l.value).value)
  {
    SealsAs(v, idx, nonce, l);
    hide PathText, SoundVault, Encrypt, Decrypt;
    if l.value.JStr? {
      NotMarker(v.b64, l.value.text);
      if !Carried(v.b64, idx, l) {
        assert Seal(v, idx, nonce, l.path, l.value) == SealText(v, nonce, TextOf(idx, l));
        SealedTextHides(v, nonce, TextOf(idx, l));
      }
    }
  }

  lemma SealedTextHides(v: Vault, nonce: Option<Bytes>, text: string)
    requires SoundVault(v) && NonceOk(nonce) && SealText(v, nonce, text).Keeps?
    ensures Hides(v, SealText(v, nonce, text).value, text)
  {
    hide Opens, Encrypt, Decrypt;
    DecryptsOwn(v.cipher.value, nonce.value, text);
    MarkerReads(v.b64, Encrypt(v.cipher, nonce.value, text).value);
  }

  /**
   Where a stored edit had a sentinel it has the marker stored before, where it had another string a marker that
   decrypts to it, and all else is as submitted; no stored leaf is the sentinel.
   */
  lemma StoredLeaves(cat: Catalog, g: Graph, v: Vault, idx: Index, nonces: Nonces, l: Leaf) returns (y: Json)
    requires PlainRoots(cat) && SoundVault(v) && forall p :: NonceOk(nonces(p))
    requires EncryptGraph(cat, g, v, idx, nonces).Stored? && l in GraphLeaves(cat, g)
    ensures Leaf(l.path, y) in GraphLeaves(cat, EncryptGraph(cat, g, v, idx, nonces).graph)
    ensures StandsFor(v, idx, l, y) && y != JStr(SENTINEL)
  {
    hide GraphOut, GraphLeaves, EncryptGraph, SoundVault, StandsFor, Seal;
    var f := SealLeaf(v, idx, nonces);
    StoredExactly(cat, g, v, idx, nonces);
    GraphLeavesTransformed(cat, g, f);
    assert f(l.path, l.value).Ok?;
    SealStandsFor(v, idx, nonces(l.path), l);
    y := f(l.path, l.value).value;
    StandsForNoSentinel(v, idx, l, y);
  }

  lemma StandsForNoSentinel(v: Vault, idx: Index, l: Leaf, y: Json)
    requires StandsFor(v, idx, l, y)
    ensures y != JStr(SENTINEL)
  {
    NotMarker(v.b64, SENTINEL);
    hide PathText, Decrypt;
  }

  // ---------------------------------------------------------------- decrypting

  /** The leaf opens: it is no marker, or one that decrypts. */
  predicate Readable(v: Vault, l: Leaf) {
    EncValue(v.b64, l.value).Some? ==> Decrypt(v.cipher, EncValue(v.b64, l.value).value).Some?
  }

  /** What decrypting leaves in the place of a leaf: the text of a marker, and anything else as it is. */
  function Opened(v: Vault, l: Leaf): Json
    requires Readable(v, l)
  {
    match EncValue(v.b64, l.value)
    case Some(sealed) => JStr(Decrypt(v.cipher, sealed).value)
    case None => l.value
  }

  /** A graph decrypts exactly when every marker does, and then each leaf holds its text. */
  lemma DecryptGraphExactly(cat: Catalog, g: Graph, v: Vault)
    requires PlainRoots(cat)
    ensures DecryptGraph(cat, g, v).Ok? <==> forall l :: l in GraphLeaves(cat, g) ==> Readable(v, l)
    ensures DecryptGraph(cat, g, v).Ok? ==>
              forall l :: l in GraphLeaves(cat, g) ==>
                Readable(v, l) && Leaf(l.path, Opened(v, l)) in GraphLeaves(cat, DecryptGraph(cat, g, v).value)
  {
    hide GraphOut, GraphLeaves, EncValue, Decrypt;
    var f := OpenLeaf(v);
    GraphFails(cat, g, f);
    if GraphOut(cat, g, f).Ok? {
      GraphLeavesTransformed(cat, g, f);
      forall l | l in GraphLeaves(cat, g)
        ensures Readable(v, l) && Leaf(l.path, Opened(v, l)) in GraphLeaves(cat, GraphOut(cat, g, f).value)
      {
        assert f(l.path, l.value) == Ok(Opened(v, l));
      }
    }
  }
}
