/**
 The per-tenant token buckets of the tenantquota processor.  Tokens, rates and
 clock readings (seconds) are reals.
 */
module TenantQuota {
  import opened Wrappers

  const IDLE_TIMEOUT: real := 600.0
  const GC_INTERVAL: real := 600.0
  const MIN_RETRY: int := 100_000_000
  const MAX_RETRY: int := 30_000_000_000

  datatype Bucket = Bucket(tokens: real, capacity: real, rate: real, lastSeen: real)

  /** The registry's value; `lastGC` is None until the first sweep (Go's zero time). */
  datatype State = State(burst: real, buckets: map<string, Bucket>, lastGC: Option<real>)

  datatype Take = Take(tenant: string, limit: int, n: nat, now: real)

  /** `retryAfter` is in nanoseconds. */
  datatype Verdict = Allowed | Rejected(retryAfter: int)

  function Min(a: real, b: real): real { if a <= b then a else b }

  // ---------------------------------------------------------------- one call

  /** Tokens earned in `dt` seconds at `rate` tokens per second. */
  function Earned(rate: real, dt: real): real { rate * dt }

  predicate GcDue(lastGC: Option<real>, now: real) {
    lastGC.None? || now - lastGC.value >= GC_INTERVAL
  }

  function Sweep(buckets: map<string, Bucket>, now: real): map<string, Bucket> {
    map t | t in buckets && now - buckets[t].lastSeen < IDLE_TIMEOUT :: buckets[t]
  }

  function AfterGc(s: State, now: real, collect: bool): State {
    if collect && GcDue(s.lastGC, now) then s.(lastGC := Some(now), buckets := Sweep(s.buckets, now)) else s
  }

  /** Tokens the call can spend: an unknown tenant starts full, a known one is refilled and clamped. */
  function Available(s: State, e: Take): real {
    var capacity := Earned(e.limit as real, s.burst);
    if e.tenant !in s.buckets then capacity
    else
      var b := s.buckets[e.tenant];
      Min(capacity, if e.now > b.lastSeen then b.tokens + Earned(b.rate, e.now - b.lastSeen) else b.tokens)
  }

  /** The delay for a deficit: whole nanoseconds, between 100ms and 30s. */
  function RetryHint(deficit: real, rate: real): (d: int)
    requires rate > 0.0
    ensures MIN_RETRY <= d <= MAX_RETRY
    ensures deficit / rate * 1000000000.0 < (MIN_RETRY + 1) as real ==> d == MIN_RETRY
    ensures deficit / rate * 1000000000.0 >= MAX_RETRY as real ==> d == MAX_RETRY
    ensures (MIN_RETRY + 1) as real <= deficit / rate * 1000000000.0 < MAX_RETRY as real ==>
              d as real <= deficit / rate * 1000000000.0 < (d + 1) as real
  {
    var d := (deficit / rate * 1000000000.0).Floor;
    if d < MIN_RETRY then MIN_RETRY else if d > MAX_RETRY then MAX_RETRY else d
  }

  /** One take on the registry; `collect` is false for the registry that never deletes a bucket. */
  function Step(s0: State, e: Take, collect: bool): (State, Verdict)
    requires e.limit > 0
  {
    var s := AfterGc(s0, e.now, collect);
    var rate := e.limit as real;
    var have := Available(s, e);
    var ok := e.n as real <= have;
    var left := if ok then have - e.n as real else have;
    (s.(buckets := s.buckets[e.tenant := Bucket(left, Earned(rate, s.burst), rate, e.now)]),
     if ok then Allowed else Rejected(RetryHint(e.n as real - have, rate)))
  }

  class Registry {
    const burst: real
    var buckets: map<string, Bucket>
    var lastGC: Option<real>

    ghost function Value(): State
      reads this
    {
      State(burst, buckets, lastGC)
    }

    constructor (burst: real)
      ensures Value() == Empty(burst)
    {
      this.burst, buckets, lastGC := burst, map[], None;
    }

    method MaybeGC(now: real)
      modifies this
      ensures Value() == AfterGc(old(Value()), now, true)
    {
      if lastGC.Some? && now - lastGC.value < GC_INTERVAL {
        return;
      }
      lastGC := Some(now);
      var todo := buckets.Keys;
      while todo != {}
        invariant lastGC == Some(now)
        invariant todo <= old(buckets).Keys
        invariant buckets == map t | t in old(buckets)
                    && (t in todo || now - old(buckets)[t].lastSeen < IDLE_TIMEOUT) :: old(buckets)[t]
        decreases todo
      {
        var t :| t in todo;
        todo := todo - {t};
        if now - buckets[t].lastSeen >= IDLE_TIMEOUT {
          buckets := buckets - {t};
        }
      }
    }

    method TakeTokens(tenant: string, limit: int, n: nat, now: real) returns (allowed: bool, retryAfter: int)
      requires limit > 0
      modifies this
      ensures (Value(), if allowed then Allowed else Rejected(retryAfter))
           == Step(old(Value()), Take(tenant, limit, n, now), true)
      ensures allowed ==> retryAfter == 0
    {
      var rate := limit as real;
      var capacity := rate * burst;
      MaybeGC(now);
      ghost var swept, e := Value(), Take(tenant, limit, n, now);
      if tenant !in buckets {
        buckets := buckets[tenant := Bucket(capacity, capacity, rate, now)];
      }
      var b := buckets[tenant];
      var dt := now - b.lastSeen;
      if dt > 0.0 {
        b := b.(tokens := b.tokens + dt * b.rate);
      }
      b := b.(rate := rate, capacity := capacity);
      if b.tokens > capacity {
        b := b.(tokens := capacity);
      }
      b := b.(lastSeen := now);
      assert b == Bucket(Available(swept, e), capacity, rate, now);
      if n as real <= b.tokens {
        buckets := buckets[tenant := b.(tokens := b.tokens - n as real)];
        assert buckets == swept.buckets[tenant := Bucket(Available(swept, e) - n as real, capacity, rate, now)];
        return true, 0;
      }
      buckets := buckets[tenant := b];
      assert buckets == swept.buckets[tenant := Bucket(Available(swept, e), capacity, rate, now)];
      return false, RetryHint(n as real - b.tokens, rate);
    }

    /** The processor's gate: no tenant, no limit or an empty batch passes without touching the registry. */
    method Admit(tenant: string, limit: int, n: nat, now: real) returns (pass: bool, retryAfter: int)
      modifies this
      ensures tenant == "" || limit <= 0 || n == 0 ==> pass && Value() == old(Value())
      ensures tenant != "" && limit > 0 && n > 0 ==>
                (Value(), if pass then Allowed else Rejected(retryAfter))
                == Step(old(Value()), Take(tenant, limit, n, now), true)
    {
      if tenant == "" || limit <= 0 || n == 0 {
        return true, 0;
      }
      pass, retryAfter := TakeTokens(tenant, limit, n, now);
    }
  }

  // ---------------------------------------------------------------- runs

  function Empty(burst: real): State { State(burst, map[], None) }

  function Answers(s: State, run: seq<Take>, collect: bool): seq<Verdict>
    requires forall e :: e in run ==> e.limit > 0
    decreases |run|
  {
    if run == [] then []
    else
      var (s', v) := Step(s, run[0], collect);
      [v] + Answers(s', run[1..], collect)
  }

  predicate ClockOrdered(run: seq<Take>) {
    forall i, j :: 0 <= i < j < |run| ==> run[i].now <= run[j].now
  }

  /** Items of `tenant` admitted at clock readings in [from, to]. */
  function Admitted(run: seq<Take>, answers: seq<Verdict>, tenant: string, from: real, to: real): int
    requires |answers| == |run|
  {
    if run == [] then 0
    else
      (if run[0].tenant == tenant && answers[0].Allowed? && from <= run[0].now <= to then run[0].n else 0)
      + Admitted(run[1..], answers[1..], tenant, from, to)
  }

  lemma {:induction false} AnswersLength(s: State, run: seq<Take>, collect: bool)
    requires forall e :: e in run ==> e.limit > 0
    ensures |Answers(s, run, collect)| == |run|
    decreases |run|
  {
    if run == [] {
    } else {
      AnswersLength(Step(s, run[0], collect).0, run[1..], collect);
    }
  }

  // ---------------------------------------------------------------- the window bound

  lemma EarnedNonNegative(rate: real, dt: real)
    requires rate >= 0.0 && dt >= 0.0
    ensures Earned(rate, dt) >= 0.0
  {}

  lemma EarnedMono(rate: real, rate': real, dt: real, dt': real)
    requires 0.0 <= rate <= rate' && 0.0 <= dt <= dt'
    ensures 0.0 <= Earned(rate, dt) <= Earned(rate', dt')
  {
    assert rate * dt <= rate' * dt <= rate' * dt';
  }

  lemma EarnedAdd(rate: real, dt: real, dt': real)
    ensures Earned(rate, dt) + Earned(rate, dt') == Earned(rate, dt + dt')
  {}

  /** What is known of a tenant's bucket at clock `now` when its limit never exceeded `top`. */
  predicate Bounded(s: State, tenant: string, top: real, now: real) {
    tenant in s.buckets ==>
      var b := s.buckets[tenant];
      0.0 <= b.tokens && 0.0 < b.rate <= top && b.lastSeen <= now
  }

  /** An upper bound on the tokens the tenant can have at clock `now`. */
  function Potential(s: State, tenant: string, top: real, now: real): real {
    if tenant !in s.buckets then Earned(top, s.burst)
    else Min(Earned(top, s.burst), s.buckets[tenant].tokens + Earned(top, now - s.buckets[tenant].lastSeen))
  }

  lemma GcKeepsPotential(s: State, tenant: string, top: real, now: real)
    requires 0.0 < s.burst <= IDLE_TIMEOUT && top > 0.0 && Bounded(s, tenant, top, now)
    ensures Potential(AfterGc(s, now, true), tenant, top, now) == Potential(s, tenant, top, now)
    ensures Bounded(AfterGc(s, now, true), tenant, top, now)
  {
    hide Earned;
    if tenant in s.buckets && tenant !in AfterGc(s, now, true).buckets {
      EarnedMono(top, top, s.burst, now - s.buckets[tenant].lastSeen);
    }
  }

  lemma PotentialGrows(s: State, tenant: string, top: real, now: real, later: real)
    requires 0.0 < s.burst && top > 0.0 && now <= later && Bounded(s, tenant, top, now)
    ensures 0.0 <= Potential(s, tenant, top, now)
    ensures Potential(s, tenant, top, later) <= Potential(s, tenant, top, now) + Earned(top, later - now)
  {
    hide Earned;
    EarnedNonNegative(top, s.burst);
    EarnedNonNegative(top, later - now);
    if tenant in s.buckets {
      var b := s.buckets[tenant];
      EarnedNonNegative(top, now - b.lastSeen);
      EarnedAdd(top, later - now, now - b.lastSeen);
      assert later - now + (now - b.lastSeen) == later - b.lastSeen;
    }
  }

  lemma AvailableAtMostPotential(s: State, e: Take, top: real)
    requires 0.0 < s.burst && 0 < e.limit && e.limit as real <= top && Bounded(s, e.tenant, top, e.now)
    ensures 0.0 <= Available(s, e) <= Potential(s, e.tenant, top, e.now)
  {
    hide Earned;
    EarnedMono(e.limit as real, top, s.burst, s.burst);
    if e.tenant in s.buckets {
      var b := s.buckets[e.tenant];
      EarnedMono(b.rate, top, e.now - b.lastSeen, e.now - b.lastSeen);
    }
  }

  /** What the answer to `e` lets through for the tenant. */
  function Spent(e: Take, v: Verdict, tenant: string): real {
    if e.tenant == tenant && v.Allowed? then e.n as real else 0.0
  }

  /** A call spends only potential that was there or that the clock added. */
  lemma StepSpendsPotential(s: State, e: Take, tenant: string, top: real, now: real)
    requires 0.0 < s.burst <= IDLE_TIMEOUT && e.limit > 0 && top > 0.0 && now <= e.now
    requires e.tenant == tenant ==> e.limit as real <= top
    requires Bounded(s, tenant, top, now)
    ensures var (s', v) := Step(s, e, true);
            && s'.burst == s.burst
            && Bounded(s', tenant, top, e.now)
            && Potential(s', tenant, top, e.now) + Spent(e, v, tenant)
               <= Potential(s, tenant, top, now) + Earned(top, e.now - now)
  {
    hide Earned, Available;
    PotentialGrows(s, tenant, top, now, e.now);
    GcKeepsPotential(s, tenant, top, e.now);
    if e.tenant == tenant {
      AvailableAtMostPotential(AfterGc(s, e.now, true), e, top);
      assert Earned(top, 0.0) == 0.0 by { EarnedAdd(top, 0.0, 0.0); }
    }
  }

  /** The callers' side of every run: positive limits, at most `top` for the tenant, in clock order. */
  predicate Served(run: seq<Take>, tenant: string, top: real, now: real) {
    && (forall e :: e in run ==> e.limit > 0 && now <= e.now && (e.tenant == tenant ==> e.limit as real <= top))
    && ClockOrdered(run)
  }

  lemma AdmittedHead(s: State, run: seq<Take>, tenant: string, from: real, to: real)
    requires run != [] && forall e :: e in run ==> e.limit > 0
    requires |Answers(s, run, true)| == |run|
    ensures var (s', v), rest := Step(s, run[0], true), run[1..];
            && |Answers(s', rest, true)| == |rest|
            && Admitted(run, Answers(s, run, true), tenant, from, to) as real
               == (if from <= run[0].now <= to then Spent(run[0], v, tenant) else 0.0)
                  + Admitted(rest, Answers(s', rest, true), tenant, from, to) as real
  {
    hide Step;
    var s' := Step(s, run[0], true).0;
    assert Answers(s, run, true)[1..] == Answers(s', run[1..], true);
  }

  lemma {:induction false} NothingAfter(run: seq<Take>, answers: seq<Verdict>, tenant: string, from: real, to: real)
    requires |answers| == |run| && forall e :: e in run ==> e.now > to
    ensures Admitted(run, answers, tenant, from, to) == 0
  {
    if run == [] {
    } else {
      NothingAfter(run[1..], answers[1..], tenant, from, to);
    }
  }

  /** From any state, what a run admits up to `to` is covered by the potential and the time left. */
  lemma {:induction false} SuffixBound(s: State, run: seq<Take>, tenant: string, top: real, now: real, from: real,
                                       to: real)
    requires 0.0 < s.burst <= IDLE_TIMEOUT && top > 0.0 && now <= to
    requires Served(run, tenant, top, now) && Bounded(s, tenant, top, now)
    ensures |Answers(s, run, true)| == |run|
    ensures Admitted(run, Answers(s, run, true), tenant, from, to) as real
            <= Potential(s, tenant, top, now) + Earned(top, to - now)
    decreases |run|
  {
    hide Potential, Step, Earned;
    AnswersLength(s, run, true);
    if run == [] || run[0].now > to {
      NothingAfter(run, Answers(s, run, true), tenant, from, to);
      PotentialGrows(s, tenant, top, now, to);
      EarnedNonNegative(top, to - now);
    } else {
      var e := run[0];
      StepSpendsPotential(s, e, tenant, top, now);
      SuffixBound(Step(s, e, true).0, run[1..], tenant, top, e.now, from, to);
      AdmittedHead(s, run, tenant, from, to);
      EarnedAdd(top, e.now - now, to - e.now);
      assert e.now - now + (to - e.now) == to - now;
    }
  }

  lemma {:induction false} WindowFrom(s: State, run: seq<Take>, tenant: string, top: real, now: real, from: real,
                                      to: real)
    requires 0.0 < s.burst <= IDLE_TIMEOUT && top > 0.0 && from <= to
    requires Served(run, tenant, top, now) && Bounded(s, tenant, top, now)
    ensures |Answers(s, run, true)| == |run|
    ensures Admitted(run, Answers(s, run, true), tenant, from, to) as real <= Earned(top, s.burst + (to - from))
    decreases |run|
  {
    hide Step, Earned;
    AnswersLength(s, run, true);
    if run == [] || run[0].now > to {
      NothingAfter(run, Answers(s, run, true), tenant, from, to);
      EarnedNonNegative(top, s.burst + (to - from));
    } else {
      var e := run[0];
      if e.now < from {
        StepSpendsPotential(s, e, tenant, top, now);
        WindowFrom(Step(s, e, true).0, run[1..], tenant, top, e.now, from, to);
        AdmittedHead(s, run, tenant, from, to);
      } else {
        SuffixBound(s, run, tenant, top, e.now, from, to);
        EarnedMono(top, top, to - e.now, to - from);
        EarnedAdd(top, s.burst, to - from);
      }
    }
  }

  /**
   In every run over any tenants, sweeps included, the items of one tenant admitted
   within [from, to] stay under its highest limit times the burst plus the window.
   */
  lemma WindowBound(burst: real, run: seq<Take>, tenant: string, top: int, from: real, to: real)
    requires 0.0 < burst <= IDLE_TIMEOUT && top > 0 && from <= to && ClockOrdered(run)
    requires forall e :: e in run ==> e.limit > 0 && (e.tenant == tenant ==> e.limit <= top)
    ensures |Answers(Empty(burst), run, true)| == |run|
    ensures Admitted(run, Answers(Empty(burst), run, true), tenant, from, to) as real
            <= top as real * (burst + (to - from))
  {
    hide Step;
    WindowFrom(Empty(burst), run, tenant, top as real, if run == [] then from else run[0].now, from, to);
  }

  /** The condition on the burst is exact: every longer burst has a run that breaks the bound. */
  lemma WindowBoundNeedsIdleTimeout(burst: real) returns (run: seq<Take>, top: int)
    requires burst > IDLE_TIMEOUT
    ensures top > 0 && ClockOrdered(run)
    ensures forall e :: e in run ==> e.limit > 0 && (e.tenant == "t" ==> e.limit <= top)
    ensures |Answers(Empty(burst), run, true)| == |run|
    ensures Admitted(run, Answers(Empty(burst), run, true), "t", 0.0, IDLE_TIMEOUT) as real
            > top as real * (burst + (IDLE_TIMEOUT - 0.0))
  {
    hide Step;
    top := OverfullLimit(burst);
    EarnedNonNegative(top as real, burst);
    var n := (top as real * burst).Floor;
    run := [Take("t", top, n, 0.0), Take("t", top, n, IDLE_TIMEOUT)];
    TwoFullBursts(burst, top, n);
    assert run[1..][1..] == [] && run[1..][0] == run[1];
    assert Admitted(run[1..], [Allowed, Allowed][1..], "t", 0.0, IDLE_TIMEOUT) == n;
  }

  /** A limit so high that two full bursts exceed the bound over one idle timeout. */
  lemma OverfullLimit(burst: real) returns (top: int)
    requires burst > IDLE_TIMEOUT
    ensures top > 0
    ensures 2.0 * (top as real * burst - 1.0) > top as real * (burst + IDLE_TIMEOUT)
  {
    var slack := burst - IDLE_TIMEOUT;
    var q := 2.0 / slack;
    assert q * slack == 2.0 && q > 0.0;
    top := q.Floor + 1;
    assert (top as real - q) * slack > 0.0;
  }

  /** A bucket swept after exactly the idle timeout starts full again. */
  lemma TwoFullBursts(burst: real, top: int, n: nat)
    requires top > 0 && n as real <= top as real * burst
    ensures Answers(Empty(burst), [Take("t", top, n, 0.0), Take("t", top, n, IDLE_TIMEOUT)], true) == [Allowed, Allowed]
  {
    var e0, e1 := Take("t", top, n, 0.0), Take("t", top, n, IDLE_TIMEOUT);
    var (s1, v0) := Step(Empty(burst), e0, true);
    assert v0 == Allowed && AfterGc(s1, IDLE_TIMEOUT, true).buckets == map[];
    var (s2, v1) := Step(s1, e1, true);
    assert v1 == Allowed;
    assert [e0, e1][1..] == [e1] && [e1][1..] == [];
    assert Answers(s1, [e1], true) == [v1] + Answers(s2, [], true);
  }

  // ---------------------------------------------------------------- sweeps cannot be observed

  datatype Last = Last(at: real, limit: int)

  /**
   When a tenant comes back after an idle timeout or more, its old rate has had
   time to fill the bucket of its new limit.  A limit that does not rise satisfies
   this whenever the burst is at most the idle timeout.
   */
  predicate GapsRefill(burst: real, last: map<string, Last>, run: seq<Take>)
    decreases |run|
  {
    run == [] ||
    var e := run[0];
    && (e.tenant in last && e.now - last[e.tenant].at >= IDLE_TIMEOUT ==>
          Earned(e.limit as real, burst) <= Earned(last[e.tenant].limit as real, e.now - last[e.tenant].at))
    && GapsRefill(burst, last[e.tenant := Last(e.now, e.limit)], run[1..])
  }

  /** `last` records the latest call of every tenant the never-sweeping registry knows. */
  predicate Remembers(full: State, last: map<string, Last>, now: real) {
    && full.buckets.Keys == last.Keys
    && forall t :: t in last ==>
         var b := full.buckets[t];
         b.tokens >= 0.0 && b.rate == last[t].limit as real && b.lastSeen == last[t].at && last[t].at <= now
             && last[t].limit > 0
  }

  /** The sweeping registry has forgotten only tenants idle for the timeout at its last sweep. */
  predicate Lags(swept: State, full: State, now: real) {
    && swept.burst == full.burst > 0.0
    && (swept.lastGC.Some? ==> swept.lastGC.value <= now)
    && swept.buckets.Keys <= full.buckets.Keys
    && (forall t :: t in swept.buckets ==> swept.buckets[t] == full.buckets[t])
    && (forall t :: t in full.buckets && t !in swept.buckets ==> now - full.buckets[t].lastSeen >= IDLE_TIMEOUT)
  }

  lemma SweptAgrees(swept: State, full: State, last: map<string, Last>, e: Take, now: real)
    requires e.limit > 0 && now <= e.now && Lags(swept, full, now) && Remembers(full, last, now)
    requires e.tenant in last && e.now - last[e.tenant].at >= IDLE_TIMEOUT ==>
               Earned(e.limit as real, full.burst) <= Earned(last[e.tenant].limit as real, e.now - last[e.tenant].at)
    ensures Available(AfterGc(swept, e.now, true), e) == Available(full, e) >= 0.0
    ensures Lags(AfterGc(swept, e.now, true), full, e.now)
  {
    EarnedNonNegative(e.limit as real, full.burst);
    if e.tenant in full.buckets {
      var b := full.buckets[e.tenant];
      EarnedNonNegative(b.rate, e.now - b.lastSeen);
    }
  }

  lemma SweptStep(swept: State, full: State, last: map<string, Last>, e: Take)
    requires e.limit > 0 && Lags(AfterGc(swept, e.now, true), full, e.now) && Remembers(full, last, e.now)
    requires Available(AfterGc(swept, e.now, true), e) == Available(full, e) >= 0.0
    ensures var (swept', v), (full', w) := Step(swept, e, true), Step(full, e, false);
            && v == w && full'.burst == full.burst
            && Lags(swept', full', e.now) && Remembers(full', last[e.tenant := Last(e.now, e.limit)], e.now)
  {
    hide Earned, Available, RetryHint;
  }

  lemma {:induction false} SweepsInvisibleFrom(swept: State, full: State, last: map<string, Last>, run: seq<Take>,
                                               now: real)
    requires Lags(swept, full, now) && Remembers(full, last, now)
    requires ClockOrdered(run) && forall e :: e in run ==> e.limit > 0 && now <= e.now
    requires GapsRefill(full.burst, last, run)
    ensures Answers(swept, run, true) == Answers(full, run, false)
    decreases |run|
  {
    if run == [] {
    } else {
      hide Earned, Available, Step;
      var e := run[0];
      SweptAgrees(swept, full, last, e, now);
      SweptStep(swept, full, last, e);
      var (swept', v) := Step(swept, e, true);
      var (full', w) := Step(full, e, false);
      SweepsInvisibleFrom(swept', full', last[e.tenant := Last(e.now, e.limit)], run[1..], e.now);
    }
  }

  /** The registry with lazy sweeps answers every run like one that never deletes a bucket. */
  lemma SweepsInvisible(burst: real, run: seq<Take>)
    requires burst > 0.0 && ClockOrdered(run) && (forall e :: e in run ==> e.limit > 0)
    requires GapsRefill(burst, map[], run)
    ensures Answers(Empty(burst), run, true) == Answers(Empty(burst), run, false)
  {
    SweepsInvisibleFrom(Empty(burst), Empty(burst), map[], run, if run == [] then 0.0 else run[0].now);
  }

  /** No limit rises across an idle gap. */
  predicate LimitsNeverRise(last: map<string, Last>, run: seq<Take>)
    decreases |run|
  {
    run == [] ||
    var e := run[0];
    && (e.tenant in last && e.now - last[e.tenant].at >= IDLE_TIMEOUT ==> e.limit <= last[e.tenant].limit)
    && LimitsNeverRise(last[e.tenant := Last(e.now, e.limit)], run[1..])
  }

  lemma {:induction false} SteadyLimitsRefill(burst: real, last: map<string, Last>, run: seq<Take>)
    requires 0.0 < burst <= IDLE_TIMEOUT && forall e :: e in run ==> e.limit > 0
    requires LimitsNeverRise(last, run)
    ensures GapsRefill(burst, last, run)
    decreases |run|
  {
    if run == [] {
    } else {
      var e := run[0];
      if e.tenant in last && e.now - last[e.tenant].at >= IDLE_TIMEOUT {
        EarnedMono(e.limit as real, last[e.tenant].limit as real, burst, e.now - last[e.tenant].at);
      }
      SteadyLimitsRefill(burst, last[e.tenant := Last(e.now, e.limit)], run[1..]);
    }
  }

  /** The documented setting: a burst within the idle timeout and limits that do not rise across idle gaps. */
  lemma SweepsInvisibleForSteadyLimits(burst: real, run: seq<Take>)
    requires 0.0 < burst <= IDLE_TIMEOUT && ClockOrdered(run) && (forall e :: e in run ==> e.limit > 0)
    requires LimitsNeverRise(map[], run)
    ensures Answers(Empty(burst), run, true) == Answers(Empty(burst), run, false)
  {
    SteadyLimitsRefill(burst, map[], run);
    SweepsInvisible(burst, run);
  }

  /** Every idle gap of the run is `gap` long and takes the tenant from limit `was` to limit `next`. */
  predicate OnlyGap(last: map<string, Last>, run: seq<Take>, was: int, next: int, gap: real)
    decreases |run|
  {
    run == [] ||
    var e := run[0];
    && (e.tenant in last && e.now - last[e.tenant].at >= IDLE_TIMEOUT ==>
          e.now - last[e.tenant].at == gap && last[e.tenant].limit == was && e.limit == next)
    && OnlyGap(last[e.tenant := Last(e.now, e.limit)], run[1..], was, next, gap)
  }

  lemma {:induction false} OnlyGapRefills(
    burst: real, last: map<string, Last>, run: seq<Take>, was: int, next: int, gap: real)
    requires OnlyGap(last, run, was, next, gap) && Earned(next as real, burst) <= Earned(was as real, gap)
    ensures GapsRefill(burst, last, run)
    decreases |run|
  {
    hide Earned;
    if run == [] {
    } else {
      OnlyGapRefills(burst, last[run[0].tenant := Last(run[0].now, run[0].limit)], run[1..], was, next, gap);
    }
  }

  /** A first limit whose bucket holds a whole item, and the time it takes to earn back what draining leaves of one. */
  function DrainLimit(burst: real): int
    requires burst > 0.0
  {
    (1.0 / burst).Floor + 1
  }

  function Spare(limit: int, burst: real): real {
    var full := Earned(limit as real, burst);
    full - full.Floor as real
  }

  function DrainTime(burst: real): real
    requires burst > 0.0 && DrainLimit(burst) > 0
  {
    (1.0 - Spare(DrainLimit(burst), burst)) / DrainLimit(burst) as real
  }

  lemma DrainFacts(burst: real)
    requires burst > 0.0
    ensures var big := DrainLimit(burst);
            && big > 0 && Earned(big as real, burst) >= 1.0
            && 0.0 <= Spare(big, burst) < 1.0 && 0.0 < DrainTime(burst) <= 1.0
            && Spare(big, burst) + Earned(big as real, DrainTime(burst)) == 1.0
  {
    var big := DrainLimit(burst);
    assert big as real > 1.0 / burst;
    assert big as real * burst > (1.0 / burst) * burst;
    assert (1.0 / burst) * burst == 1.0;
    var spare := Spare(big, burst);
    var d := DrainTime(burst);
    assert d * big as real == 1.0 - spare;
  }

  /** The time a limit takes to fill up to a whole item. */
  function TopUpTime(limit: int, burst: real): real
    requires limit > 0
  {
    (1.0 - Spare(limit, burst)) / limit as real
  }

  lemma TopUpFacts(limit: int, burst: real)
    requires limit > 0
    ensures 0.0 < TopUpTime(limit, burst) <= 1.0
    ensures Earned(limit as real, burst) - 1.0 + Earned(limit as real, TopUpTime(limit, burst))
            == Earned(limit as real, burst).Floor as real
  {
    var w := TopUpTime(limit, burst);
    assert w * limit as real == 1.0 - Spare(limit, burst);
  }

  /** The registry has this bucket for "t". */
  predicate Holds(s: State, burst: real, tokens: real, rate: int, at: real) {
    s.burst == burst && "t" in s.buckets
    && s.buckets["t"].tokens == tokens && s.buckets["t"].rate == rate as real && s.buckets["t"].lastSeen == at
  }

  function Whole(x: real): nat { if x < 0.0 then 0 else x.Floor }

  /** Calls that empty a tenant's bucket and leave it refilling at `was`. */
  function Drain(burst: real, was: int): seq<Take>
    requires burst > 0.0 && DrainLimit(burst) > 0
  {
    var big, d := DrainLimit(burst), DrainTime(burst);
    [Take("t", big, Whole(Earned(big as real, burst)), 0.0), Take("t", big, 1, d), Take("t", was, 1, d)]
  }

  /** Then a call after the gap, and one that takes all a full bucket would hold by then. */
  function Probe(burst: real, next: int, at: real): seq<Take>
    requires next > 0
  {
    [Take("t", next, 1, at), Take("t", next, Whole(Earned(next as real, burst)), at + TopUpTime(next, burst))]
  }

  function StateAfter(s: State, run: seq<Take>, collect: bool): State
    requires forall e :: e in run ==> e.limit > 0
    decreases |run|
  {
    if run == [] then s else StateAfter(Step(s, run[0], collect).0, run[1..], collect)
  }

  lemma {:induction false} AnswersConcat(s: State, a: seq<Take>, b: seq<Take>, collect: bool)
    requires (forall e :: e in a ==> e.limit > 0) && (forall e :: e in b ==> e.limit > 0)
    ensures forall e :: e in a + b ==> e.limit > 0
    ensures Answers(s, a + b, collect) == Answers(s, a, collect) + Answers(StateAfter(s, a, collect), b, collect)
    decreases |a|
  {
    hide Step;
    if a == [] {
      assert a + b == b;
    } else {
      assert (a + b)[0] == a[0] && (a + b)[1..] == a[1..] + b;
      AnswersConcat(Step(s, a[0], collect).0, a[1..], b, collect);
    }
  }

  lemma TwoAnswers(s: State, e0: Take, e1: Take, collect: bool)
    requires e0.limit > 0 && e1.limit > 0
    ensures Answers(s, [e0, e1], collect) == [Step(s, e0, collect).1, Step(Step(s, e0, collect).0, e1, collect).1]
  {
    hide Step;
    var s' := Step(s, e0, collect).0;
    assert [e0, e1][1..] == [e1];
    assert Answers(s', [e1], collect) == [Step(s', e1, collect).1];
  }

  lemma ThreeSteps(s: State, e0: Take, e1: Take, e2: Take, collect: bool)
    requires e0.limit > 0 && e1.limit > 0 && e2.limit > 0
    ensures StateAfter(s, [e0, e1, e2], collect) == Step(Step(Step(s, e0, collect).0, e1, collect).0, e2, collect).0
  {
    hide Step;
    var s' := Step(s, e0, collect).0;
    var s'' := Step(s', e1, collect).0;
    assert [e0, e1, e2][1..] == [e1, e2] && [e1, e2][1..] == [e2];
    assert StateAfter(s'', [e2], collect) == Step(s'', e2, collect).0;
    assert StateAfter(s', [e1, e2], collect) == StateAfter(s'', [e2], collect);
  }

  /** One call of the tenant that has `have` tokens to spend. */
  lemma OneCall(s: State, e: Take, collect: bool, have: real)
    requires e.tenant == "t" && e.limit > 0 && Available(AfterGc(s, e.now, collect), e) == have
    ensures var (s', v) := Step(s, e, collect);
            && Holds(s', s.burst, if e.n as real <= have then have - e.n as real else have, e.limit, e.now)
            && (v.Allowed? <==> e.n as real <= have) && s'.lastGC == AfterGc(s, e.now, collect).lastGC
  {
    hide Earned, Available, RetryHint;
  }

  /** A registry between two sweeps keeps the bucket it has. */
  lemma KeptBetweenSweeps(s: State, e: Take, collect: bool, burst: real, tokens: real, rate: int, at: real)
    requires e.tenant == "t" && Holds(s, burst, tokens, rate, at) && at <= e.now
    requires collect ==> s.lastGC.Some? && e.now - s.lastGC.value < GC_INTERVAL
    requires tokens + Earned(rate as real, e.now - at) <= Earned(e.limit as real, burst)
    ensures Available(AfterGc(s, e.now, collect), e) == tokens + Earned(rate as real, e.now - at)
    ensures AfterGc(s, e.now, collect).lastGC == s.lastGC
  {
    if e.now == at {
      assert Earned(rate as real, e.now - at) == 0.0;
    }
  }

  lemma Drained(burst: real, was: int, collect: bool)
    requires burst > 0.0 && was > 0 && DrainLimit(burst) > 0
    ensures var s := StateAfter(Empty(burst), Drain(burst, was), collect);
            Holds(s, burst, 0.0, was, DrainTime(burst)) && (collect ==> s.lastGC == Some(0.0))
  {
    var big, d := DrainLimit(burst), DrainTime(burst);
    var run, full := Drain(burst, was), Earned(big as real, burst);
    DrainFacts(burst);
    EarnedNonNegative(was as real, burst);
    var s0 := Empty(burst);
    OneCall(s0, run[0], collect, full);
    var s1 := Step(s0, run[0], collect).0;
    hide Step, DrainLimit, DrainTime, Available;
    assert full - Whole(full) as real == Spare(big, burst);
    assert Holds(s1, burst, Spare(big, burst), big, 0.0);
    KeptBetweenSweeps(s1, run[1], collect, burst, Spare(big, burst), big, 0.0);
    OneCall(s1, run[1], collect, 1.0);
    var s2 := Step(s1, run[1], collect).0;
    assert Earned(big as real, d - d) == 0.0;
    KeptBetweenSweeps(s2, run[2], collect, burst, 0.0, big, d);
    OneCall(s2, run[2], collect, 0.0);
    ThreeSteps(s0, run[0], run[1], run[2], collect);
    assert run == [run[0], run[1], run[2]];
  }

  /** The probe's last call fits exactly when its first one found a full bucket. */
  lemma Probed(s: State, burst: real, next: int, at: real, have: real, collect: bool)
    requires next > 0 && s.burst == burst && 1.0 <= have <= Earned(next as real, burst)
    requires Available(AfterGc(s, at, collect), Probe(burst, next, at)[0]) == have
    requires collect ==> AfterGc(s, at, collect).lastGC == Some(at)
    ensures forall e :: e in Probe(burst, next, at) ==> e.limit > 0
    ensures var a := Answers(s, Probe(burst, next, at), collect);
            |a| == 2 && (a[1].Allowed? <==> have == Earned(next as real, burst))
  {
    var run, w, full := Probe(burst, next, at), TopUpTime(next, burst), Earned(next as real, burst);
    TopUpFacts(next, burst);
    hide TopUpTime;
    OneCall(s, run[0], collect, have);
    var s1 := Step(s, run[0], collect).0;
    hide Step, Available;
    KeptBetweenSweeps(s1, run[1], collect, burst, have - 1.0, next, at);
    OneCall(s1, run[1], collect, have - 1.0 + Earned(next as real, w));
    TwoAnswers(s, run[0], run[1], collect);
    assert run == [run[0], run[1]];
  }

  lemma SweptAway(s: State, burst: real, was: int, at: real, e: Take)
    requires Holds(s, burst, 0.0, was, at) && e.tenant == "t" && e.now - at >= IDLE_TIMEOUT
    requires s.lastGC == Some(0.0) && e.now >= GC_INTERVAL
    ensures Available(AfterGc(s, e.now, true), e) == Earned(e.limit as real, burst)
    ensures AfterGc(s, e.now, true).lastGC == Some(e.now)
  {
  }

  /** A run of one idle gap, from limit `was` to limit `next`. */
  function GapRun(burst: real, was: int, next: int, gap: real): seq<Take>
    requires burst > 0.0 && DrainLimit(burst) > 0 && next > 0
  {
    Drain(burst, was) + Probe(burst, next, DrainTime(burst) + gap)
  }

  predicate GapFits(before: Last, e: Take, was: int, next: int, gap: real) {
    e.now - before.at >= IDLE_TIMEOUT ==> e.now - before.at == gap && before.limit == was && e.limit == next
  }

  lemma {:induction false} OneTenantGaps(last: map<string, Last>, run: seq<Take>, was: int, next: int, gap: real)
    requires forall e :: e in run ==> e.tenant == "t"
    requires run != [] && "t" in last ==> GapFits(last["t"], run[0], was, next, gap)
    requires forall i :: 0 <= i < |run| - 1 ==> GapFits(Last(run[i].now, run[i].limit), run[i + 1], was, next, gap)
    ensures OnlyGap(last, run, was, next, gap)
    decreases |run|
  {
    if run == [] {
    } else {
      var rest := run[1..];
      forall i | 0 <= i < |rest| - 1
        ensures GapFits(Last(rest[i].now, rest[i].limit), rest[i + 1], was, next, gap)
      {
        assert rest[i] == run[i + 1] && rest[i + 1] == run[i + 2];
      }
      OneTenantGaps(last[run[0].tenant := Last(run[0].now, run[0].limit)], rest, was, next, gap);
    }
  }

  lemma GapRunShape(burst: real, was: int, next: int, gap: real)
    requires burst > 0.0 && was > 0 && next > 0 && gap >= IDLE_TIMEOUT && DrainLimit(burst) > 0
    ensures var run := GapRun(burst, was, next, gap);
            && ClockOrdered(run) && (forall e :: e in run ==> e.limit > 0) && OnlyGap(map[], run, was, next, gap)
  {
    var run, d := GapRun(burst, was, next, gap), DrainTime(burst);
    DrainFacts(burst);
    TopUpFacts(next, burst);
    hide DrainTime, DrainLimit, TopUpTime, Earned, OnlyGap;
    OneTenantGaps(map[], run, was, next, gap);
  }

  /** Where the old limit has not earned what the new one's bucket holds, the sweep shows. */
  lemma ShortRefillShowsSweep(burst: real, was: int, next: int, gap: real) returns (run: seq<Take>)
    requires burst > 0.0 && was > 0 && next > 0 && gap >= IDLE_TIMEOUT
    requires Earned(was as real, gap) < Earned(next as real, burst)
    ensures ClockOrdered(run) && (forall e :: e in run ==> e.limit > 0) && OnlyGap(map[], run, was, next, gap)
    ensures Answers(Empty(burst), run, true) != Answers(Empty(burst), run, false)
  {
    DrainFacts(burst);
    GapRunShape(burst, was, next, gap);
    run := GapRun(burst, was, next, gap);
    var at := DrainTime(burst) + gap;
    var drain, probe := Drain(burst, was), Probe(burst, next, at);
    Drained(burst, was, true);
    Drained(burst, was, false);
    var swept, full := StateAfter(Empty(burst), drain, true), StateAfter(Empty(burst), drain, false);
    SweptAway(swept, burst, was, DrainTime(burst), probe[0]);
    EarnedMono(1.0, was as real, IDLE_TIMEOUT, gap);
    assert Earned(1.0, IDLE_TIMEOUT) == IDLE_TIMEOUT;
    KeptBetweenSweeps(full, probe[0], false, burst, 0.0, was, DrainTime(burst));
    hide Earned, Available, DrainTime, DrainLimit, TopUpTime, Drain, Probe;
    Probed(swept, burst, next, at, Earned(next as real, burst), true);
    Probed(full, burst, next, at, Earned(was as real, gap), false);
    AnswersConcat(Empty(burst), drain, probe, true);
    AnswersConcat(Empty(burst), drain, probe, false);
    AnswersLength(Empty(burst), drain, true);
    AnswersLength(Empty(burst), drain, false);
    var a, b := Answers(Empty(burst), run, true), Answers(Empty(burst), run, false);
    assert a[|drain| + 1] != b[|drain| + 1];
  }

  /** The sweep is not seen in a run. */
  predicate Unseen(burst: real, run: seq<Take>)
    requires forall e :: e in run ==> e.limit > 0
  {
    Answers(Empty(burst), run, true) == Answers(Empty(burst), run, false)
  }

  /** A run of the service: the clock does not go back and every limit is positive. */
  predicate Proper(run: seq<Take>) {
    ClockOrdered(run) && forall e :: e in run ==> e.limit > 0
  }

  /**
   The sweep is unseen in every run whose idle gaps are all of one kind exactly when the old limit earns, in the
   gap, what the new limit's bucket holds.
   */
  lemma SweepInvisibleExactly(burst: real, was: int, next: int, gap: real)
    requires burst > 0.0 && was > 0 && next > 0 && gap >= IDLE_TIMEOUT
    ensures (forall run :: Proper(run) && OnlyGap(map[], run, was, next, gap) ==> Unseen(burst, run))
            <==> Earned(next as real, burst) <= Earned(was as real, gap)
  {
    hide Earned, Answers, OnlyGap;
    if Earned(next as real, burst) <= Earned(was as real, gap) {
      forall run | Proper(run) && OnlyGap(map[], run, was, next, gap)
        ensures Unseen(burst, run)
      {
        OnlyGapRefills(burst, map[], run, was, next, gap);
        SweepsInvisible(burst, run);
      }
    } else {
      var run := ShortRefillShowsSweep(burst, was, next, gap);
      assert Proper(run) && OnlyGap(map[], run, was, next, gap) && !Unseen(burst, run);
    }
  }

  lemma {:induction false} OnlyGapSteady(last: map<string, Last>, run: seq<Take>, limit: int, gap: real)
    requires OnlyGap(last, run, limit, limit, gap)
    ensures LimitsNeverRise(last, run)
    decreases |run|
  {
    if run == [] {
    } else {
      OnlyGapSteady(last[run[0].tenant := Last(run[0].now, run[0].limit)], run[1..], limit, gap);
    }
  }

  /** Where limits do not rise across idle gaps, the sweep is unseen exactly for bursts within the idle timeout. */
  lemma SteadyLimitsExactly(burst: real)
    requires burst > 0.0
    ensures (forall run :: Proper(run) && LimitsNeverRise(map[], run) ==> Unseen(burst, run)) <==> burst <= IDLE_TIMEOUT
  {
    assert Earned(1.0, burst) == burst && Earned(1.0, IDLE_TIMEOUT) == IDLE_TIMEOUT;
    hide Earned, Answers, OnlyGap, LimitsNeverRise;
    if burst <= IDLE_TIMEOUT {
      forall run | Proper(run) && LimitsNeverRise(map[], run)
        ensures Unseen(burst, run)
      {
        SweepsInvisibleForSteadyLimits(burst, run);
      }
    } else {
      var run := ShortRefillShowsSweep(burst, 1, 1, IDLE_TIMEOUT);
      OnlyGapSteady(map[], run, 1, IDLE_TIMEOUT);
      assert Proper(run) && LimitsNeverRise(map[], run) && !Unseen(burst, run);
    }
  }
}
