/** When a cached verdict is served: what each request is answered, as long as its key has not been evicted. */
module TenantServing {
  import opened Wrappers
  import opened KeyCache
  import opened TenantAuth

  // ---------------------------------------------------------------- a slot that is not evicted

  /** The digest's slot holds the entry, and only keys of `others` are more recent. */
  predicate Kept(s: Slots, digest: string, e: Entry, others: set<string>) {
    && Find(s, digest) < |s| && s[Find(s, digest)].entry == e
    && forall p :: 0 <= p < Find(s, digest) ==> s[p].key in others
  }

  lemma {:induction false} DistinctKeysFit(s: Slots, n: nat, others: set<string>)
    requires n <= |s| && Distinct(s) && forall p :: 0 <= p < n ==> s[p].key in others
    ensures n <= |others|
    decreases n
  {
    if n == 0 {
    } else {
      var last := s[n - 1].key;
      DistinctKeysFit(s, n - 1, others - {last});
    }
  }

  lemma MovedKeeps(s: Slots, digest: string, e: Entry, others: set<string>, i: nat)
    requires Distinct(s) && Kept(s, digest, e, others) && i < |s|
    ensures var more := if s[i].key == digest then others else others + {s[i].key};
            Kept(Moved(s, i), digest, e, more)
  {
    var at, r := Find(s, digest), Moved(s, i);
    var to := if i == at then 0 else if i > at then at + 1 else at;
    assert r[to] == s[at];
    forall p | 0 <= p < to ensures r[p].key != digest {
    }
    FindAt(r, digest, to);
  }

  lemma TouchKeeps(s: Slots, digest: string, e: Entry, others: set<string>, key: string)
    requires Distinct(s) && Kept(s, digest, e, others)
    ensures Kept(Touch(s, key), digest, e, if key == digest then others else others + {key})
  {
    var i := Find(s, key);
    if i < |s| {
      hide Moved, Kept;
      MovedKeeps(s, digest, e, others, i);
    }
  }

  lemma InsertKeeps(s: Slots, digest: string, e: Entry, others: set<string>, key: string, entry: Entry, max: int)
    requires Distinct(s) && Kept(s, digest, e, others) && key != digest && |others + {key}| < max
    ensures Kept(Insert(s, key, entry, max), digest, e, others + {key})
  {
    var i := Find(s, key);
    if i < |s| {
      var w := s[i := Slot(key, entry)];
      FindAt(w, digest, Find(s, digest));
      assert Kept(w, digest, e, others);
      hide Moved, Kept;
      MovedKeeps(w, digest, e, others, i);
    } else {
      PushKeeps(s, digest, e, others, key, entry, max);
    }
  }

  lemma PushKeeps(s: Slots, digest: string, e: Entry, others: set<string>, key: string, entry: Entry, max: int)
    requires Distinct(s) && Kept(s, digest, e, others) && Find(s, key) == |s| && key != digest
    requires |others + {key}| < max
    ensures Kept(Trim([Slot(key, entry)] + s, max), digest, e, others + {key})
  {
    var all, at := [Slot(key, entry)] + s, Find(s, digest) + 1;
    forall p | 0 <= p < at ensures all[p].key in others + {key} && all[p].key != digest {
      assert p > 0 ==> all[p] == s[p - 1];
    }
    assert Distinct(all);
    DistinctKeysFit(all, at, others + {key});
    FindAt(Trim(all, max), digest, at);
  }

  // ---------------------------------------------------------------- over a run

  /** The digests other than this one that a request carries. */
  function OtherDigests(calls: seq<Call>, digest: string): set<string> {
    set k | k in calls && k.request.WithKey? && k.request.digest != digest :: k.request.digest
  }

  lemma StepKeeps(c: Config, s: Slots, call: Call, digest: string, e: Entry, others: set<string>)
    requires Distinct(s) && Kept(s, digest, e, others)
    requires call.request.WithKey? && call.request.digest != digest ==> |others + {call.request.digest}| < c.maxEntries
    requires call.request == WithKey(digest) ==> call.reply.Failed? || Fresh(s, digest, call.now)
    ensures Kept(Step(c, s, call).0, digest, e,
                 if call.request.WithKey? && call.request.digest != digest then others + {call.request.digest}
                 else others)
  {
    if call.request.WithKey? {
      var k := call.request.digest;
      var more := if k == digest then others else others + {k};
      hide Touch, Insert, Kept, Find;
      TouchKeeps(s, digest, e, others, k);
      OperationsKeepDistinct(s, k, e, c.maxEntries);
      TouchKeeps(Touch(s, k), digest, e, more, k);
      assert more + {k} == if k == digest then more + {k} else more;
      if k != digest && !call.reply.Failed? {
        InsertKeeps(Touch(s, k), digest, e, more, k, EntryOf(c, call.reply, call.now), c.maxEntries);
      }
    }
  }

  lemma VerdictKept(c: Config, s: Slots, call: Call, digest: string)
    requires Distinct(s) && c.maxEntries > 0
    requires call.request == WithKey(digest) && !call.reply.Failed? && !Fresh(s, digest, call.now)
    ensures Kept(Step(c, s, call).0, digest, EntryOf(c, call.reply, call.now), {})
  {
    hide Fresh, EffectiveTTL;
  }

  /** Fewer other digests than the cache holds were used between the two calls. */
  predicate NotEvicted(c: Config, calls: seq<Call>, digest: string, j: nat, i: nat)
    requires j < i <= |calls|
  {
    |OtherDigests(calls[j + 1..i], digest)| < c.maxEntries
  }

  lemma OthersGrow(calls: seq<Call>, digest: string, j: nat, i: nat)
    requires j < i < |calls|
    ensures var others, k := OtherDigests(calls[j + 1..i], digest), calls[i];
            OtherDigests(calls[j + 1..i + 1], digest)
            == if k.request.WithKey? && k.request.digest != digest then others + {k.request.digest} else others
  {
    var before, now := calls[j + 1..i], calls[j + 1..i + 1];
    assert now == before + [calls[i]];
    assert forall k :: k in now <==> k in before || k == calls[i];
  }

  lemma AfterLast(c: Config, calls: seq<Call>, n: nat)
    requires n < |calls|
    ensures After(c, calls[..n + 1]) == Step(c, After(c, calls[..n]), calls[n]).0
  {
    assert calls[..n + 1][..n] == calls[..n];
  }

  lemma {:induction false} FewerFit(a: set<string>, b: set<string>)
    requires a <= b
    ensures |a| <= |b|
  {
    if a == {} {
    } else {
      var x :| x in a;
      FewerFit(a - {x}, b - {x});
    }
  }

  /** A verdict's slot is still there, with what the verdict stored, until enough other digests were used. */
  lemma {:induction false} SlotSurvives(c: Config, calls: seq<Call>, digest: string, j: nat, i: nat)
    requires j < i <= |calls| && LatestVerdict(c, calls, digest, j, i - 1) && NotEvicted(c, calls, digest, j, i)
    ensures Kept(After(c, calls[..i]), digest, EntryOf(c, calls[j].reply, calls[j].now),
                 OtherDigests(calls[j + 1..i], digest))
    decreases i
  {
    hide Kept, Step, After;
    var n := i - 1;
    var s := After(c, calls[..n]);
    CacheJustified(c, calls[..n]);
    AfterLast(c, calls, n);
    if n == j {
      VerdictKept(c, s, calls[j], digest);
      assert OtherDigests(calls[j + 1..i], digest) == {};
    } else {
      OthersGrow(calls, digest, j, n);
      FewerFit(OtherDigests(calls[j + 1..n], digest), OtherDigests(calls[j + 1..i], digest));
      SlotSurvives(c, calls, digest, j, n);
      assert !VerdictAt(c, calls, digest, n);
      StepKeeps(c, s, calls[n], digest, EntryOf(c, calls[j].reply, calls[j].now),
                OtherDigests(calls[j + 1..n], digest));
    }
  }

  // ---------------------------------------------------------------- what is answered

  /** The answer when the control plane is asked and nothing cached can stand in for it. */
  function Answer(reply: Reply): Outcome {
    match reply
    case Failed => Unavailable
    case Invalid => InvalidKey
    case Valid(data, _) => Accepted(data, FromReply)
  }

  /** The answer given a verdict of this age: from the cache while fresh, else from the control plane. */
  function AnswerAfter(c: Config, verdict: Reply, age: int, reply: Reply): Outcome
    requires !verdict.Failed?
  {
    match verdict
    case Valid(data, seconds) =>
      if age < c.ttl && (seconds > 0 ==> age < seconds * SECOND) then Accepted(data, FromCache)
      else if reply.Failed? && age < c.staleIfError then Accepted(data, StaleOnError)
      else Answer(reply)
    case Invalid => if age < c.negativeTTL then InvalidKey else Answer(reply)
  }

  /**
   Over every run: while its slot is not evicted, a key is answered from the latest verdict on it. A positive one is
   served until its time to live ends, and through control-plane failures until the stale window ends; a negative
   one refuses the key until its own ends; after that the control plane decides.
   */
  lemma VerdictIsServed(c: Config, calls: seq<Call>, digest: string, j: nat, i: nat)
    requires j < i < |calls| && calls[i].request == WithKey(digest)
    requires LatestVerdict(c, calls, digest, j, i - 1) && NotEvicted(c, calls, digest, j, i)
    ensures OutcomeAt(c, calls, i) == AnswerAfter(c, calls[j].reply, calls[i].now - calls[j].now, calls[i].reply)
  {
    SlotSurvives(c, calls, digest, j, i);
    hide After, Touch, Insert, LatestVerdict, NotEvicted, OtherDigests;
    assert Lookup(After(c, calls[..i]), digest) == Some(EntryOf(c, calls[j].reply, calls[j].now));
  }

  /** Without an earlier verdict on its key, a request is answered by the control plane alone. */
  lemma UnknownKeyIsAsked(c: Config, calls: seq<Call>, digest: string, i: nat)
    requires i < |calls| && calls[i].request == WithKey(digest)
    requires forall k :: 0 <= k < i ==> !VerdictAt(c, calls, digest, k)
    ensures OutcomeAt(c, calls, i) == Answer(calls[i].reply)
  {
    if Lookup(After(c, calls[..i]), digest).Some? {
      var slot, j := ServedSlot(c, calls[..i], digest);
      PrefixVerdicts(c, calls, digest, i, j);
      assert false;
    }
    hide After, Touch, Insert, VerdictAt;
  }

  /** A request without a key is refused as such, and no other is. */
  lemma MissingKeyExactly(c: Config, calls: seq<Call>, i: nat)
    requires i < |calls|
    ensures OutcomeAt(c, calls, i) == MissingKey <==> calls[i].request == NoKey
    ensures calls[i].request == NoKey ==> After(c, calls[..i + 1]) == After(c, calls[..i])
  {
    AfterLast(c, calls, i);
    hide After, Touch, Insert;
  }
}
