/** Which of a key's transitions are sent over a run of passes, and when what is sent alternates. */
module AlertDelivery {
  import opened Wrappers
  import opened Alerting

  /** The notices sent over a run, from an empty firing map. */
  function Sent(inhibit: bool, passes: seq<Pass>): seq<Notice> {
    if passes == [] then []
    else
      var before := passes[..|passes| - 1];
      var r := PassResult(Transitions(before).0, passes[|passes| - 1]);
      Sent(inhibit, before) + Dispatched(r.pending, inhibit, r.criticals)
  }

  /** A transition of one key: a firing or a resolve, sent or withheld. */
  datatype Mark = Mark(firing: bool, sent: bool)

  function MarksOf(ns: seq<Notice>, inhibit: bool, criticals: set<Scope>, k: Key): seq<Mark> {
    if ns == [] then []
    else
      var rest, n := MarksOf(ns[..|ns| - 1], inhibit, criticals, k), ns[|ns| - 1];
      if n.key == k then rest + [Mark(n.firing, Delivered(n, inhibit, criticals))] else rest
  }

  /** The key's transitions over a run, in order. */
  function Ledger(inhibit: bool, passes: seq<Pass>, k: Key): seq<Mark> {
    if passes == [] then []
    else
      var before := passes[..|passes| - 1];
      var r := PassResult(Transitions(before).0, passes[|passes| - 1]);
      Ledger(inhibit, before, k) + MarksOf(r.pending, inhibit, r.criticals, k)
  }

  function AllFlags(ms: seq<Mark>): seq<bool> { seq(|ms|, i requires 0 <= i < |ms| => ms[i].firing) }

  function SentFlags(ms: seq<Mark>): seq<bool> {
    if ms == [] then []
    else
      var rest, m := SentFlags(ms[..|ms| - 1]), ms[|ms| - 1];
      if m.sent then rest + [m.firing] else rest
  }

  function Withheld(ms: seq<Mark>): nat {
    if ms == [] then 0 else Withheld(ms[..|ms| - 1]) + if ms[|ms| - 1].sent then 0 else 1
  }

  // ---------------------------------------------------------------- the ledger and the notices

  lemma {:induction false} FlagsConcat(a: seq<Notice>, b: seq<Notice>, k: Key)
    ensures Flags(a + b, k) == Flags(a, k) + Flags(b, k)
  {
    if b == [] {
      assert a + b == a;
    } else {
      assert (a + b)[..|a + b| - 1] == a + b[..|b| - 1];
      FlagsConcat(a, b[..|b| - 1], k);
    }
  }

  lemma {:induction false} SentFlagsConcat(a: seq<Mark>, b: seq<Mark>)
    ensures SentFlags(a + b) == SentFlags(a) + SentFlags(b)
  {
    if b == [] {
      assert a + b == a;
    } else {
      assert (a + b)[..|a + b| - 1] == a + b[..|b| - 1];
      SentFlagsConcat(a, b[..|b| - 1]);
    }
  }

  lemma AllFlagsConcat(a: seq<Mark>, b: seq<Mark>)
    ensures AllFlags(a + b) == AllFlags(a) + AllFlags(b)
  {
  }

  lemma {:induction false} MarksMatch(ns: seq<Notice>, inhibit: bool, criticals: set<Scope>, k: Key)
    ensures var ms := MarksOf(ns, inhibit, criticals, k);
            AllFlags(ms) == Flags(ns, k) && SentFlags(ms) == Flags(Dispatched(ns, inhibit, criticals), k)
  {
    if ns == [] {
    } else {
      var before, n := ns[..|ns| - 1], ns[|ns| - 1];
      MarksMatch(before, inhibit, criticals, k);
      hide Delivered;
      if n.key == k {
        SentFlagsConcat(MarksOf(before, inhibit, criticals, k), [Mark(n.firing, Delivered(n, inhibit, criticals))]);
      }
      FlagsAppend(Dispatched(before, inhibit, criticals), n, k);
    }
  }

  /** The ledger holds the flags of all the key's transitions, and those of its sent notices. */
  lemma {:induction false} LedgerMatches(inhibit: bool, passes: seq<Pass>, k: Key)
    ensures var ms := Ledger(inhibit, passes, k);
            AllFlags(ms) == Flags(Transitions(passes).1, k) && SentFlags(ms) == Flags(Sent(inhibit, passes), k)
  {
    if passes == [] {
    } else {
      var before := passes[..|passes| - 1];
      var (firing, ns) := Transitions(before);
      LedgerMatches(inhibit, before, k);
      hide PassResult, Flags, SentFlags, AllFlags, MarksOf, Dispatched;
      var r := PassResult(firing, passes[|passes| - 1]);
      MarksMatch(r.pending, inhibit, r.criticals, k);
      AllFlagsConcat(Ledger(inhibit, before, k), MarksOf(r.pending, inhibit, r.criticals, k));
      FlagsConcat(ns, r.pending, k);
      FlagsConcat(Sent(inhibit, before), Dispatched(r.pending, inhibit, r.criticals), k);
      SentFlagsConcat(Ledger(inhibit, before, k), MarksOf(r.pending, inhibit, r.criticals, k));
    }
  }

  // ---------------------------------------------------------------- when what is sent alternates

  /** Before every transition sent, an even number was withheld. */
  predicate Paired(ms: seq<Mark>) { forall i :: 0 <= i < |ms| && ms[i].sent ==> Withheld(ms[..i]) % 2 == 0 }

  lemma {:induction false} SentCount(ms: seq<Mark>)
    ensures |SentFlags(ms)| == |ms| - Withheld(ms)
  {
    if ms == [] {
    } else {
      SentCount(ms[..|ms| - 1]);
    }
  }

  lemma AlternatesGrows(flags: seq<bool>, b: bool)
    ensures Alternates(flags + [b]) <==> Alternates(flags) && b == (|flags| % 2 == 0)
  {
    if Alternates(flags + [b]) {
      forall i | 0 <= i < |flags| ensures flags[i] == (i % 2 == 0) {
        assert (flags + [b])[i] == flags[i];
      }
      assert (flags + [b])[|flags|] == b;
    }
  }

  lemma PairedGrows(ms: seq<Mark>, m: Mark)
    ensures Paired(ms + [m]) <==> Paired(ms) && (m.sent ==> Withheld(ms) % 2 == 0)
  {
    forall i | 0 <= i <= |ms| ensures (ms + [m])[..i] == ms[..i] {
    }
    assert ms[..|ms|] == ms && (ms + [m])[|ms|] == m;
    if Paired(ms + [m]) {
      forall i | 0 <= i < |ms| && ms[i].sent ensures Withheld(ms[..i]) % 2 == 0 {
        assert (ms + [m])[i] == ms[i];
      }
    }
  }

  lemma {:induction false} SentAlternateMarks(ms: seq<Mark>)
    requires Alternates(AllFlags(ms))
    ensures Alternates(SentFlags(ms)) <==> Paired(ms)
  {
    if ms == [] {
    } else {
      var before, m := ms[..|ms| - 1], ms[|ms| - 1];
      assert before + [m] == ms && AllFlags(ms) == AllFlags(before) + [m.firing] && |AllFlags(before)| == |before|;
      hide Alternates, Paired, AllFlags, Withheld;
      AlternatesGrows(AllFlags(before), m.firing);
      SentAlternateMarks(before);
      SentCount(before);
      PairedGrows(before, m);
      AlternatesGrows(SentFlags(before), m.firing);
      SameParity(|before|, Withheld(before));
    }
  }

  lemma SameParity(n: nat, w: nat)
    requires w <= n
    ensures n % 2 == (n - w) % 2 <==> w % 2 == 0
  {
  }

  /**
   Over any run of passes, the notices sent for a key alternate, firing first, exactly when its withheld
   transitions come in pairs: an even number of them before every notice sent.
   */
  lemma SentAlternateExactly(inhibit: bool, passes: seq<Pass>, k: Key)
    ensures Alternates(Flags(Sent(inhibit, passes), k)) <==> Paired(Ledger(inhibit, passes, k))
  {
    TransitionsAlternate(passes, k);
    LedgerMatches(inhibit, passes, k);
    SentAlternateMarks(Ledger(inhibit, passes, k));
  }

  // ---------------------------------------------------------------- keys whose rule always has channels

  predicate OnlyFiringsWithheld(ms: seq<Mark>) { forall i :: 0 <= i < |ms| && !ms[i].sent ==> ms[i].firing }

  lemma {:induction false} NoneWithheld(ms: seq<Mark>)
    requires forall i :: 0 <= i < |ms| ==> ms[i].sent
    ensures Withheld(ms) == 0
  {
    if ms == [] {
    } else {
      NoneWithheld(ms[..|ms| - 1]);
    }
  }

  lemma {:induction false} PairedSendsAll(ms: seq<Mark>, n: nat)
    requires Alternates(AllFlags(ms)) && OnlyFiringsWithheld(ms) && Paired(ms) && n < |ms|
    ensures forall i :: 0 <= i < n ==> ms[i].sent
    decreases n
  {
    if n == 0 {
    } else {
      PairedSendsAll(ms, n - 1);
      NoneWithheld(ms[..n - 1]);
      assert ms[..n][..n - 1] == ms[..n - 1];
      assert AllFlags(ms)[n - 1] == ms[n - 1].firing && AllFlags(ms)[n] == ms[n].firing;
    }
  }

  lemma LastMayBeWithheld(ms: seq<Mark>)
    requires Alternates(AllFlags(ms)) && OnlyFiringsWithheld(ms)
    ensures Paired(ms) <==> forall i :: 0 <= i < |ms| - 1 ==> ms[i].sent
  {
    if Paired(ms) && ms != [] {
      PairedSendsAll(ms, |ms| - 1);
    }
    if forall i :: 0 <= i < |ms| - 1 ==> ms[i].sent {
      forall i | 0 <= i < |ms| ensures Withheld(ms[..i]) == 0 {
        NoneWithheld(ms[..i]);
      }
    }
  }

  /** Every transition of the key has a channel to go to. */
  predicate Heard(ns: seq<Notice>, k: Key) { forall n :: n in ns && n.key == k ==> n.channels != [] }

  lemma {:induction false} HeardMarks(ns: seq<Notice>, inhibit: bool, criticals: set<Scope>, k: Key)
    requires Heard(ns, k)
    ensures OnlyFiringsWithheld(MarksOf(ns, inhibit, criticals, k))
    ensures !inhibit ==> forall m :: m in MarksOf(ns, inhibit, criticals, k) ==> m.sent
  {
    if ns == [] {
    } else {
      HeardMarks(ns[..|ns| - 1], inhibit, criticals, k);
    }
  }

  lemma {:induction false} HeardLedger(inhibit: bool, passes: seq<Pass>, k: Key)
    requires Heard(Transitions(passes).1, k)
    ensures OnlyFiringsWithheld(Ledger(inhibit, passes, k))
    ensures !inhibit ==> forall m :: m in Ledger(inhibit, passes, k) ==> m.sent
  {
    if passes == [] {
    } else {
      var before := passes[..|passes| - 1];
      var (firing, ns) := Transitions(before);
      hide PassResult;
      var r := PassResult(firing, passes[|passes| - 1]);
      assert forall n :: n in ns ==> n in ns + r.pending;
      assert forall n :: n in r.pending ==> n in ns + r.pending;
      HeardLedger(inhibit, before, k);
      HeardMarks(r.pending, inhibit, r.criticals, k);
    }
  }

  /**
   For a key whose transitions all have channels, what is sent alternates exactly when no firing but possibly the
   last transition is withheld: an inhibited firing that resolves is followed by a resolve nobody was told about.
   */
  lemma HeardAlternateExactly(inhibit: bool, passes: seq<Pass>, k: Key)
    requires Heard(Transitions(passes).1, k)
    ensures var ms := Ledger(inhibit, passes, k);
            && (Alternates(Flags(Sent(inhibit, passes), k)) <==> forall i :: 0 <= i < |ms| - 1 ==> ms[i].sent)
            && (!inhibit ==> Alternates(Flags(Sent(inhibit, passes), k)))
  {
    hide Ledger, Sent, Flags, Heard;
    TransitionsAlternate(passes, k);
    LedgerMatches(inhibit, passes, k);
    HeardLedger(inhibit, passes, k);
    SentAlternateExactly(inhibit, passes, k);
    LastMayBeWithheld(Ledger(inhibit, passes, k));
  }
}
