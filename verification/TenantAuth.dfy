/**
 The ingest authenticator: verdicts of the control plane, cached by the digest
 of the presented key.  Clock readings and durations are nanoseconds.
 */
module TenantAuth {
  import opened Wrappers
  import opened KeyCache

  const SECOND: int := 1_000_000_000

  datatype Config = Config(ttl: int, negativeTTL: int, maxEntries: int, staleIfError: int)

  datatype Identity = Identity(clientID: string, customerID: string, rateLimit: int)

  /** A positive entry carries an identity; `staleUntil` matters only for those. */
  datatype Entry = Positive(data: Identity, freshUntil: int, staleUntil: int) | Negative(freshUntil: int)

  datatype Request = NoKey | WithKey(digest: string)

  /** What the control plane answers if asked. */
  datatype Reply = Failed | Invalid | Valid(data: Identity, cacheTtlSeconds: nat)

  datatype Source = FromCache | FromReply | StaleOnError
  datatype Outcome = Accepted(data: Identity, source: Source) | MissingKey | InvalidKey | Unavailable

  datatype Call = Call(request: Request, now: int, reply: Reply)

  type Slots = seq<Slot<Entry>>

  /** Config.Validate. */
  predicate Validated(c: Config) {
    c.ttl > 0 && c.negativeTTL > 0 && c.maxEntries > 0 && c.staleIfError >= 0
  }

  function EffectiveTTL(c: Config, cacheTtlSeconds: nat): (t: int)
    ensures t <= c.ttl && (cacheTtlSeconds > 0 ==> t <= cacheTtlSeconds * SECOND)
    ensures t == c.ttl || (cacheTtlSeconds > 0 && t == cacheTtlSeconds * SECOND)
  {
    if cacheTtlSeconds > 0 && cacheTtlSeconds * SECOND < c.ttl then cacheTtlSeconds * SECOND else c.ttl
  }

  /** The entry cached for a verdict of a call begun at `now`. */
  function EntryOf(c: Config, reply: Reply, now: int): Entry
    requires !reply.Failed?
  {
    match reply
    case Invalid => Negative(now + c.negativeTTL)
    case Valid(data, s) => Positive(data, now + EffectiveTTL(c, s), now + c.staleIfError)
  }

  predicate Fresh(s: Slots, digest: string, now: int) {
    var e := Lookup(s, digest);
    e.Some? && now < e.value.freshUntil
  }

  /** What happens once no fresh entry decided; `e` is the entry found, if any. */
  function Decide(c: Config, seen: Slots, digest: string, now: int, reply: Reply, e: Option<Entry>): (Slots, Outcome) {
    match reply
    case Failed =>
      (Touch(seen, digest),
       if e.Some? && e.value.Positive? && now < e.value.staleUntil
       then Accepted(e.value.data, StaleOnError) else Unavailable)
    case Invalid => (Insert(seen, digest, EntryOf(c, reply, now), c.maxEntries), InvalidKey)
    case Valid(data, _) => (Insert(seen, digest, EntryOf(c, reply, now), c.maxEntries), Accepted(data, FromReply))
  }

  function Step(c: Config, s: Slots, call: Call): (Slots, Outcome) {
    match call.request
    case NoKey => (s, MissingKey)
    case WithKey(digest) =>
      var e := Lookup(s, digest);
      var seen := Touch(s, digest);
      if Fresh(s, digest, call.now) then
        (seen, if e.value.Positive? then Accepted(e.value.data, FromCache) else InvalidKey)
      else Decide(c, seen, digest, call.now, call.reply, e)
  }

  class Authenticator {
    const config: Config
    const cache: Cache<Entry>

    ghost predicate Ready()
      reads cache, cache.ll
    {
      cache.Valid() && cache.maxEntries == config.maxEntries
    }

    constructor (config: Config)
      ensures Ready() && cache.recency == [] && this.config == config && fresh(cache)
    {
      this.config := config;
      cache := new Cache(config.maxEntries);
    }

    /** `reply` is what ValidateAPIKey returns; it is looked at only when the cache does not decide. */
    method Authenticate(request: Request, now: int, reply: Reply) returns (outcome: Outcome)
      requires Ready()
      modifies cache`ll, cache`items, cache`recency, cache.ll
      ensures Ready()
      ensures (cache.recency, outcome) == Step(config, old(cache.recency), Call(request, now, reply))
      ensures forall x :: x in cache.ll ==> x in old(cache.ll) || fresh(x)
    {
      hide Touch, Insert, Lookup;
      if request.NoKey? {
        return MissingKey;
      }
      var e := cache.Get(request.digest);
      if e.Some? && now < e.value.freshUntil {
        return if e.value.Negative? then InvalidKey else Accepted(e.value.data, FromCache);
      }
      TouchKeepsEntry(old(cache.recency), request.digest);
      outcome := AskControlPlane(request.digest, now, reply, e);
    }

    /** The part of Authenticate after the fresh-entry check. */
    method AskControlPlane(digest: string, now: int, reply: Reply, ghost e: Option<Entry>) returns (outcome: Outcome)
      requires Ready() && Lookup(cache.recency, digest) == e
      modifies cache`ll, cache`items, cache`recency, cache.ll
      ensures Ready()
      ensures (cache.recency, outcome) == Decide(config, old(cache.recency), digest, now, reply, e)
      ensures forall x :: x in cache.ll ==> x in old(cache.ll) || fresh(x)
    {
      hide Touch, Insert, Lookup, Indexed;
      if reply.Failed? {
        var e := cache.Get(digest);
        return if e.Some? && e.value.Positive? && now < e.value.staleUntil
               then Accepted(e.value.data, StaleOnError) else Unavailable;
      }
      if reply.Invalid? {
        cache.Put(digest, Negative(now + config.negativeTTL));
        return InvalidKey;
      }
      var ttl := config.ttl;
      if reply.cacheTtlSeconds > 0 {
        var serverTTL := reply.cacheTtlSeconds * SECOND;
        if serverTTL < ttl {
          ttl := serverTTL;
        }
      }
      cache.Put(digest, Positive(reply.data, now + ttl, now + config.staleIfError));
      return Accepted(reply.data, FromReply);
    }
  }

  lemma TouchKeepsEntry(s: Slots, digest: string)
    ensures Lookup(Touch(s, digest), digest) == Lookup(s, digest)
  {}

  // ---------------------------------------------------------------- runs

  function After(c: Config, calls: seq<Call>): Slots
    decreases |calls|
  {
    if calls == [] then []
    else Step(c, After(c, calls[..|calls| - 1]), calls[|calls| - 1]).0
  }

  function OutcomeAt(c: Config, calls: seq<Call>, i: nat): Outcome
    requires i < |calls|
  {
    Step(c, After(c, calls[..i]), calls[i]).1
  }

  /** Call `i` asked the control plane about the digest and got a verdict. */
  predicate VerdictAt(c: Config, calls: seq<Call>, digest: string, i: nat)
    requires i < |calls|
  {
    calls[i].request == WithKey(digest) && !calls[i].reply.Failed? && !Fresh(After(c, calls[..i]), digest, calls[i].now)
  }

  /** `j` is the last call up to and including `i` with a verdict on the digest. */
  predicate LatestVerdict(c: Config, calls: seq<Call>, digest: string, j: nat, i: nat)
    requires i < |calls|
  {
    j <= i && VerdictAt(c, calls, digest, j) && forall k :: j < k <= i ==> !VerdictAt(c, calls, digest, k)
  }

  /** The slot holds what call `j` stored, and no later call has a verdict on its digest. */
  predicate Backs(c: Config, calls: seq<Call>, slot: Slot<Entry>, j: nat) {
    && j < |calls| && LatestVerdict(c, calls, slot.key, j, |calls| - 1)
    && slot.entry == EntryOf(c, calls[j].reply, calls[j].now)
  }

  /** Every cached entry is the one stored for the latest verdict on its digest. */
  ghost predicate Justified(c: Config, calls: seq<Call>, s: Slots) {
    forall x :: x in s ==> exists j :: Backs(c, calls, x, j)
  }

  lemma PrefixVerdicts(c: Config, calls: seq<Call>, digest: string, n: nat, i: nat)
    requires i < n <= |calls|
    ensures VerdictAt(c, calls[..n], digest, i) == VerdictAt(c, calls, digest, i)
  {
    assert calls[..n][..i] == calls[..i];
  }

  /** Where the slots of the next state come from: earlier slots, or the verdict just received. */
  lemma StepOrigins(c: Config, s: Slots, call: Call, slot: Slot<Entry>)
    requires slot in Step(c, s, call).0
    ensures if call.request == WithKey(slot.key) && !call.reply.Failed? && !Fresh(s, slot.key, call.now)
            then slot.entry == EntryOf(c, call.reply, call.now) || slot in s
            else slot in s
  {
    if call.request.WithKey? {
      TouchOrigins(s, call.request.digest);
      TouchOrigins(Touch(s, call.request.digest), call.request.digest);
      if !call.reply.Failed? {
        InsertOrigins(Touch(s, call.request.digest), call.request.digest, EntryOf(c, call.reply, call.now),
            c.maxEntries);
      }
    }
  }

  lemma TouchOrigins(s: Slots, digest: string)
    ensures forall x :: x in Touch(s, digest) ==> x in s
  {}

  lemma InsertOrigins(s: Slots, digest: string, entry: Entry, max: int)
    ensures forall x :: x in Insert(s, digest, entry, max) ==> x == Slot(digest, entry) || x in s
  {}

  /** A verdict leaves no older slot for its digest. */
  lemma VerdictReplaces(c: Config, s: Slots, call: Call, slot: Slot<Entry>)
    requires Distinct(s) && slot in Step(c, s, call).0
    requires call.request == WithKey(slot.key) && !call.reply.Failed? && !Fresh(s, slot.key, call.now)
    ensures slot.entry == EntryOf(c, call.reply, call.now)
  {
    hide Touch, Insert;
    var entry := EntryOf(c, call.reply, call.now);
    OperationsKeepDistinct(s, slot.key, entry, c.maxEntries);
    InsertReplaces(Touch(s, slot.key), slot.key, entry, c.maxEntries);
  }

  lemma InsertReplaces(s: Slots, digest: string, entry: Entry, max: int)
    requires Distinct(s)
    ensures forall x :: x in Insert(s, digest, entry, max) && x.key == digest ==> x.entry == entry
  {
    hide Moved;
  }

  lemma StepKeepsDistinct(c: Config, s: Slots, call: Call)
    requires Distinct(s)
    ensures Distinct(Step(c, s, call).0)
  {
    hide Touch, Insert, Distinct;
    if call.request.WithKey? {
      var d := call.request.digest;
      OperationsKeepDistinct(s, d, Negative(0), c.maxEntries);
      OperationsKeepDistinct(Touch(s, d), d, if call.reply.Failed?
          then Negative(0) else EntryOf(c, call.reply, call.now), c.maxEntries);
    }
  }

  lemma StillLatest(c: Config, calls: seq<Call>, digest: string, j: nat, n: nat)
    requires j < n < |calls| && LatestVerdict(c, calls[..n], digest, j, n - 1) && !VerdictAt(c, calls, digest, n)
    ensures LatestVerdict(c, calls, digest, j, n)
  {
    hide VerdictAt;
    forall k | 0 <= k < n ensures VerdictAt(c, calls[..n], digest, k) == VerdictAt(c, calls, digest, k) {
      PrefixVerdicts(c, calls, digest, n, k);
    }
  }

  lemma SlotJustified(c: Config, calls: seq<Call>, slot: Slot<Entry>) returns (j: nat)
    requires calls != [] && slot in After(c, calls)
    requires var before := calls[..|calls| - 1]; Distinct(After(c, before)) && Justified(c, before, After(c, before))
    ensures Backs(c, calls, slot, j)
  {
    hide Step;
    var n := |calls| - 1;
    var before := calls[..n];
    if VerdictAt(c, calls, slot.key, n) {
      VerdictReplaces(c, After(c, before), calls[n], slot);
      j := n;
    } else {
      StepOrigins(c, After(c, before), calls[n], slot);
      j :| Backs(c, before, slot, j);
      StillLatest(c, calls, slot.key, j, n);
    }
  }

  lemma {:induction false} CacheJustified(c: Config, calls: seq<Call>)
    ensures Distinct(After(c, calls)) && Justified(c, calls, After(c, calls))
    decreases |calls|
  {
    if calls == [] {
    } else {
      hide Step, Backs;
      var before := calls[..|calls| - 1];
      CacheJustified(c, before);
      StepKeepsDistinct(c, After(c, before), calls[|calls| - 1]);
      forall x | x in After(c, calls) ensures exists j :: Backs(c, calls, x, j) {
        var j := SlotJustified(c, calls, x);
      }
    }
  }

  /**
   Every acceptance rests on the latest verdict on that digest: it was positive, it
   named the attached identity, and it is recent enough for the way it was served.
   */
  lemma BoundedStaleness(c: Config, calls: seq<Call>, i: nat) returns (j: nat)
    requires i < |calls| && OutcomeAt(c, calls, i).Accepted?
    ensures calls[i].request.WithKey? && LatestVerdict(c, calls, calls[i].request.digest, j, i)
    ensures calls[j].reply.Valid? && calls[j].reply.data == OutcomeAt(c, calls, i).data
    ensures match OutcomeAt(c, calls, i).source
            case FromReply => j == i
            case FromCache => j < i && calls[i].now - calls[j].now < EffectiveTTL(c, calls[j].reply.cacheTtlSeconds)
            case StaleOnError => j < i && calls[i].now - calls[j].now < c.staleIfError && calls[i].reply.Failed?
  {
    if OutcomeAt(c, calls, i).source == FromReply {
      j := i;
    } else {
      var digest := calls[i].request.digest;
      var slot;
      slot, j := ServedSlot(c, calls[..i], digest);
      StillLatest(c, calls, digest, j, i);
    }
  }

  lemma ServedSlot(c: Config, calls: seq<Call>, digest: string) returns (slot: Slot<Entry>, j: nat)
    requires Lookup(After(c, calls), digest).Some?
    ensures slot.key == digest && Lookup(After(c, calls), digest) == Some(slot.entry) && Backs(c, calls, slot, j)
  {
    hide Backs;
    var s := After(c, calls);
    CacheJustified(c, calls);
    slot := s[Find(s, digest)];
    assert slot in s;
    j :| Backs(c, calls, slot, j);
  }

  /** A key is never served longer than the two configured windows after its verdict. */
  lemma StalenessUnderConfig(c: Config, calls: seq<Call>, i: nat) returns (j: nat)
    requires Validated(c) && i < |calls| && OutcomeAt(c, calls, i).Accepted?
    ensures j <= i && VerdictAt(c, calls, calls[i].request.digest, j) && calls[j].reply.Valid?
    ensures calls[i].now - calls[j].now < (if c.ttl >= c.staleIfError then c.ttl else c.staleIfError)
  {
    j := BoundedStaleness(c, calls, i);
  }

  /** After a negative verdict a digest is accepted again only through a newer verdict. */
  lemma RevocationHolds(c: Config, calls: seq<Call>, digest: string, r: nat, i: nat)
    requires r <= i < |calls| && calls[i].request == WithKey(digest)
    requires VerdictAt(c, calls, digest, r) && calls[r].reply.Invalid?
    requires forall k :: r < k <= i ==> !VerdictAt(c, calls, digest, k)
    ensures !OutcomeAt(c, calls, i).Accepted?
  {
    if OutcomeAt(c, calls, i).Accepted? {
      var j := BoundedStaleness(c, calls, i);
    }
  }
}
