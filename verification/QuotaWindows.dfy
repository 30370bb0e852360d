/** Exactly which calls the quota admits: those that fit every window of their tenant's calls; and when a retry fits. */
module QuotaWindows {
  import opened Wrappers
  import opened TenantQuota

  // ---------------------------------------------------------------- one tenant's calls

  /** The tenant's last call before `i`, or -1. */
  function Prev(run: seq<Take>, tenant: string, i: nat): (m: int)
    requires i <= |run|
    ensures -1 <= m < i && (m >= 0 ==> run[m].tenant == tenant)
    ensures forall k :: m < k < i ==> run[k].tenant != tenant
  {
    if i == 0 then -1 else if run[i - 1].tenant == tenant then i - 1 else Prev(run, tenant, i - 1)
  }

  function Full(burst: real, e: Take): real { Earned(e.limit as real, burst) }

  /** What call `m` took, given the answers. */
  function Taken(run: seq<Take>, answers: seq<Verdict>, m: nat): real
    requires m < |run| && |answers| == |run|
  {
    if answers[m].Allowed? then run[m].n as real else 0.0
  }

  /**
   What a window that starts at call `k` leaves for call `i` of the same tenant: a full bucket at `k`, less what the
   tenant's calls in between took, plus what its limits earned between them.
   */
  function Left(burst: real, run: seq<Take>, answers: seq<Verdict>, k: nat, i: nat): real
    requires k <= i < |run| && |answers| == |run| && run[k].tenant == run[i].tenant
    decreases i
  {
    var m := Prev(run, run[i].tenant, i);
    if m < k then Full(burst, run[k])
    else
      Left(burst, run, answers, k, m) - Taken(run, answers, m)
      + Earned(run[m].limit as real, run[i].now - run[m].now)
  }

  // ---------------------------------------------------------------- the bucket behind a call

  predicate Positive(run: seq<Take>) { forall e :: e in run ==> e.limit > 0 }

  function Before(burst: real, run: seq<Take>, i: nat): State
    requires Positive(run) && i <= |run|
  {
    StateAfter(Empty(burst), run[..i], false)
  }

  function Have(burst: real, run: seq<Take>, i: nat): real
    requires Positive(run) && i < |run|
  {
    Available(Before(burst, run, i), run[i])
  }

  lemma {:induction false} StateAfterConcat(s: State, a: seq<Take>, e: Take, collect: bool)
    requires Positive(a) && e.limit > 0
    ensures Positive(a + [e]) && StateAfter(s, a + [e], collect) == Step(StateAfter(s, a, collect), e, collect).0
    decreases |a|
  {
    hide Step;
    if a == [] {
      assert a + [e] == [e] && [e][1..] == [];
    } else {
      assert (a + [e])[0] == a[0] && (a + [e])[1..] == a[1..] + [e];
      StateAfterConcat(Step(s, a[0], collect).0, a[1..], e, collect);
    }
  }

  lemma AnswerAt(burst: real, run: seq<Take>, i: nat)
    requires Positive(run) && i < |run|
    ensures |Answers(Empty(burst), run, false)| == |run|
    ensures Answers(Empty(burst), run, false)[i] == Step(Before(burst, run, i), run[i], false).1
    ensures Before(burst, run, i + 1) == Step(Before(burst, run, i), run[i], false).0
  {
    hide Step;
    assert run == run[..i] + run[i..] && run[..i + 1] == run[..i] + [run[i]];
    AnswersLength(Empty(burst), run, false);
    AnswersLength(Empty(burst), run[..i], false);
    AnswersConcat(Empty(burst), run[..i], run[i..], false);
    StateAfterConcat(Empty(burst), run[..i], run[i], false);
    assert run[i..][0] == run[i];
  }

  lemma {:induction false} BucketBehind(burst: real, run: seq<Take>, tenant: string, i: nat)
    requires Positive(run) && i <= |run|
    ensures |Answers(Empty(burst), run, false)| == |run|
    ensures var s, m := Before(burst, run, i), Prev(run, tenant, i);
            && s.burst == burst && (tenant in s.buckets <==> m >= 0)
            && (m >= 0 ==>
                  var b := s.buckets[tenant];
                  && b.tokens == Have(burst, run, m) - Taken(run, Answers(Empty(burst), run, false), m)
                  && b.rate == run[m].limit as real && b.lastSeen == run[m].now)
    decreases i
  {
    AnswersLength(Empty(burst), run, false);
    if i == 0 {
    } else {
      BucketBehind(burst, run, tenant, i - 1);
      AnswerAt(burst, run, i - 1);
      hide Available, Answers, StateAfter, RetryHint;
    }
  }

  lemma HaveFollows(burst: real, run: seq<Take>, i: nat)
    requires Positive(run) && i < |run| && ClockOrdered(run)
    ensures |Answers(Empty(burst), run, false)| == |run|
    ensures var m := Prev(run, run[i].tenant, i);
            Have(burst, run, i)
            == if m < 0 then Full(burst, run[i])
               else Min(Full(burst, run[i]),
                        Have(burst, run, m) - Taken(run, Answers(Empty(burst), run, false), m)
                        + Earned(run[m].limit as real, run[i].now - run[m].now))
  {
    hide *;
    BucketBehind(burst, run, run[i].tenant, i);
    PrevEarlier(run, run[i].tenant, i);
    Refilled(Before(burst, run, i), run[i]);
    HaveIs(burst, run, i);
  }

  lemma PrevEarlier(run: seq<Take>, tenant: string, i: nat)
    requires i < |run| && ClockOrdered(run)
    ensures var m := Prev(run, tenant, i); m >= 0 ==> run[m].now <= run[i].now
  {
  }

  lemma HaveIs(burst: real, run: seq<Take>, i: nat)
    requires Positive(run) && i < |run|
    ensures Have(burst, run, i) == Available(Before(burst, run, i), run[i])
  {
  }

  lemma Refilled(s: State, e: Take)
    requires e.tenant in s.buckets ==> s.buckets[e.tenant].lastSeen <= e.now
    ensures Available(s, e)
            == if e.tenant !in s.buckets then Full(s.burst, e)
               else
                 var b := s.buckets[e.tenant];
                 Min(Full(s.burst, e), b.tokens + Earned(b.rate, e.now - b.lastSeen))
  {
    if e.tenant in s.buckets && e.now == s.buckets[e.tenant].lastSeen {
      assert Earned(s.buckets[e.tenant].rate, 0.0) == 0.0;
    }
  }

  // ---------------------------------------------------------------- which calls are admitted

  /** What a call has is the least that any window ending with it leaves. */
  lemma {:induction false} HaveIsLeast(burst: real, run: seq<Take>, i: nat) returns (best: nat)
    requires Positive(run) && i < |run| && ClockOrdered(run)
    ensures |Answers(Empty(burst), run, false)| == |run|
    ensures forall k :: 0 <= k <= i && run[k].tenant == run[i].tenant ==>
              Have(burst, run, i) <= Left(burst, run, Answers(Empty(burst), run, false), k, i)
    ensures best <= i && run[best].tenant == run[i].tenant
    ensures Have(burst, run, i) == Left(burst, run, Answers(Empty(burst), run, false), best, i)
    decreases i
  {
    hide Earned, Answers, Have, Taken;
    HaveFollows(burst, run, i);
    var m := Prev(run, run[i].tenant, i);
    best := i;
    if m >= 0 {
      var before := HaveIsLeast(burst, run, m);
      if Have(burst, run, i) != Full(burst, run[i]) {
        best := before;
      }
    }
  }

  /** The call fits every window of its tenant's calls that ends with it. */
  predicate FitsEveryWindow(burst: real, run: seq<Take>, answers: seq<Verdict>, i: nat)
    requires i < |run| && |answers| == |run|
  {
    forall k :: 0 <= k <= i && run[k].tenant == run[i].tenant ==>
      run[i].n as real <= Left(burst, run, answers, k, i)
  }

  lemma AllowedIffHave(burst: real, run: seq<Take>, i: nat)
    requires Positive(run) && i < |run|
    ensures |Answers(Empty(burst), run, false)| == |run|
    ensures Answers(Empty(burst), run, false)[i]
            == if run[i].n as real <= Have(burst, run, i) then Allowed
               else Rejected(RetryHint(run[i].n as real - Have(burst, run, i), run[i].limit as real))
  {
    AnswerAt(burst, run, i);
    hide Earned, Answers, StateAfter, Available;
  }

  /**
   In every run whose idle gaps refill, a call is admitted exactly when no window of its tenant's calls would then
   let through more than a full bucket at the window's first limit plus what the limits earned since.
   */
  lemma AdmittedExactly(burst: real, run: seq<Take>, i: nat)
    requires burst > 0.0 && Positive(run) && ClockOrdered(run) && i < |run| && GapsRefill(burst, map[], run)
    ensures var answers := Answers(Empty(burst), run, true);
            |answers| == |run| && (answers[i].Allowed? <==> FitsEveryWindow(burst, run, answers, i))
  {
    hide Earned, Answers, Have, GapsRefill, Left;
    SweepsInvisible(burst, run);
    AllowedIffHave(burst, run, i);
    var best := HaveIsLeast(burst, run, i);
  }

  // ---------------------------------------------------------------- a steady limit

  /** Items of the tenant admitted by the calls from `k` up to, not including, `i`. */
  function AdmittedSince(run: seq<Take>, answers: seq<Verdict>, tenant: string, k: nat, i: nat): real
    requires k <= i <= |run| && |answers| == |run|
    decreases i
  {
    if i == k then 0.0
    else
      AdmittedSince(run, answers, tenant, k, i - 1)
      + if run[i - 1].tenant == tenant then Taken(run, answers, i - 1) else 0.0
  }

  lemma {:induction false} NothingBetween(run: seq<Take>, answers: seq<Verdict>, tenant: string, k: nat, i: nat)
    requires k <= i <= |run| && |answers| == |run|
    ensures var m := Prev(run, tenant, i);
            AdmittedSince(run, answers, tenant, k, i)
            == if m < k then 0.0 else AdmittedSince(run, answers, tenant, k, m) + Taken(run, answers, m)
    decreases i
  {
    if i == k || run[i - 1].tenant == tenant {
    } else {
      NothingBetween(run, answers, tenant, k, i - 1);
    }
  }

  lemma {:induction false} SteadyLeft(burst: real, run: seq<Take>, answers: seq<Verdict>, limit: int, k: nat, i: nat)
    requires k <= i < |run| && |answers| == |run| && run[k].tenant == run[i].tenant
    requires forall e :: e in run && e.tenant == run[i].tenant ==> e.limit == limit
    ensures Left(burst, run, answers, k, i)
            == Earned(limit as real, burst + (run[i].now - run[k].now))
               - AdmittedSince(run, answers, run[i].tenant, k, i)
    decreases i
  {
    NothingBetween(run, answers, run[i].tenant, k, i);
    var m := Prev(run, run[i].tenant, i);
    if m < k {
      assert k == i;
    } else {
      assert run[m] in run;
      SteadyLeft(burst, run, answers, limit, k, m);
      EarnedAdd(limit as real, burst + (run[m].now - run[k].now), run[i].now - run[m].now);
      assert burst + (run[m].now - run[k].now) + (run[i].now - run[m].now) == burst + (run[i].now - run[k].now);
      hide Earned, AdmittedSince, Taken;
    }
  }

  /**
   With one limit for the tenant, a call is admitted exactly when every window that ends with it stays within the
   limit times the burst plus the window's length: the quota turns away nothing the window bound would allow.
   */
  lemma SteadyAdmittedExactly(burst: real, run: seq<Take>, limit: int, i: nat)
    requires 0.0 < burst <= IDLE_TIMEOUT && Positive(run) && ClockOrdered(run) && LimitsNeverRise(map[], run)
    requires i < |run| && forall e :: e in run && e.tenant == run[i].tenant ==> e.limit == limit
    ensures var answers, t := Answers(Empty(burst), run, true), run[i].tenant;
            && |answers| == |run|
            && (answers[i].Allowed? <==>
                  forall k :: 0 <= k <= i && run[k].tenant == t ==>
                    AdmittedSince(run, answers, t, k, i) + run[i].n as real
                    <= Earned(limit as real, burst + (run[i].now - run[k].now)))
  {
    hide Earned, Answers, LimitsNeverRise, GapsRefill, Left, AdmittedSince, ClockOrdered;
    SteadyLimitsRefill(burst, map[], run);
    AdmittedExactly(burst, run, i);
    var answers := Answers(Empty(burst), run, true);
    forall k | 0 <= k <= i && run[k].tenant == run[i].tenant
      ensures Left(burst, run, answers, k, i)
              == Earned(limit as real, burst + (run[i].now - run[k].now))
                 - AdmittedSince(run, answers, run[i].tenant, k, i)
    {
      SteadyLeft(burst, run, answers, limit, k, i);
    }
  }

  // ---------------------------------------------------------------- when a retry fits

  const NANOS: real := 1000000000.0

  /** Seconds until the bucket has refilled the call's deficit. */
  function Wait(burst: real, run: seq<Take>, i: nat): real
    requires Positive(run) && i < |run|
  {
    (run[i].n as real - Have(burst, run, i)) / run[i].limit as real
  }

  lemma EarnsBy(rate: real, need: real, dt: real)
    requires rate > 0.0
    ensures need <= Earned(rate, dt) <==> need / rate <= dt
  {
    assert need / rate * rate == need;
    if need / rate <= dt {
      assert need / rate * rate <= dt * rate;
    } else {
      assert need / rate * rate > dt * rate;
    }
  }

  /** The tenant's next call `j` is the rejected call `i` again. */
  predicate Retries(run: seq<Take>, i: nat, j: nat)
    requires i < j < |run|
  {
    && run[j].tenant == run[i].tenant && run[j].limit == run[i].limit && run[j].n == run[i].n
    && Prev(run, run[i].tenant, j) == i
  }

  lemma RetryHave(burst: real, run: seq<Take>, i: nat, j: nat)
    requires Positive(run) && ClockOrdered(run) && i < j < |run| && Retries(run, i, j)
    requires run[i].n as real > Have(burst, run, i)
    ensures run[j].n as real <= Have(burst, run, j)
       <==> run[i].n as real <= Full(burst, run[i]) && Wait(burst, run, i) <= run[j].now - run[i].now
  {
    AllowedIffHave(burst, run, i);
    HaveFollows(burst, run, j);
    hide Earned, Answers, Have, Prev, ClockOrdered;
    EarnsBy(run[i].limit as real, run[i].n as real - Have(burst, run, i), run[j].now - run[i].now);
  }

  /**
   A rejected call made again by its tenant is admitted exactly when it fits a full bucket at all and the time
   waited covers its deficit; so waiting out a hint below the maximum is enough, and waiting less than one above
   the minimum is not.
   */
  lemma RetryExactly(burst: real, run: seq<Take>, i: nat, j: nat)
    requires burst > 0.0 && Positive(run) && ClockOrdered(run) && GapsRefill(burst, map[], run)
    requires i < j < |run| && Retries(run, i, j)
    requires |Answers(Empty(burst), run, true)| == |run| && Answers(Empty(burst), run, true)[i].Rejected?
    ensures var answers, waited := Answers(Empty(burst), run, true), run[j].now - run[i].now;
            var hint, fits := answers[i].retryAfter, run[i].n as real <= Full(burst, run[i]);
            && (answers[j].Allowed? <==> fits && Wait(burst, run, i) <= waited)
            && (fits && hint < MAX_RETRY && (hint + 1) as real <= waited * NANOS ==> answers[j].Allowed?)
            && (hint > MIN_RETRY && waited * NANOS < hint as real ==> answers[j].Rejected?)
  {
    hide Earned, Answers, Have, GapsRefill, ClockOrdered, Prev;
    SweepsInvisible(burst, run);
    AllowedIffHave(burst, run, i);
    AllowedIffHave(burst, run, j);
    RetryHave(burst, run, i, j);
    HintCovers(run[i].n as real - Have(burst, run, i), run[i].limit as real, run[j].now - run[i].now);
  }

  lemma HintCovers(deficit: real, rate: real, waited: real)
    requires rate > 0.0
    ensures var hint := RetryHint(deficit, rate);
            && (hint < MAX_RETRY && (hint + 1) as real <= waited * NANOS ==> deficit / rate <= waited)
            && (hint > MIN_RETRY && waited * NANOS < hint as real ==> deficit / rate > waited)
  {
    var wait, hint := deficit / rate, RetryHint(deficit, rate);
    hide RetryHint;
    assert wait <= waited <==> wait * NANOS <= waited * NANOS;
  }
}
