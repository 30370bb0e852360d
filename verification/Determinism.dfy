/** Rendering does not depend on the order of its input, and tenants do not see each other. */
module Determinism {
  import opened Wrappers
  import opened Json
  import opened Graph
  import opened Naming
  import opened Collector
  import opened Render
  import opened Identifiers
  import opened Compiler
  import opened EdgeCompiler

  // ---------------------------------------------------------------- order

  lemma {:induction false} LessTrichotomy(a: string, b: string)
    ensures a == b || Less(a, b) || Less(b, a)
    ensures !(Less(a, b) && Less(b, a)) && !Less(a, a)
    decreases |a|
  {
    if a == [] {
    } else {
      LessTrichotomy(a[1..], a[1..]);
    }
    if a != [] && b != [] && a[0] == b[0] {
      LessTrichotomy(a[1..], b[1..]);
      assert a == [a[0]] + a[1..] && b == [b[0]] + b[1..];
    }
  }

  lemma {:induction false} LessTransitive(a: string, b: string, c: string)
    requires Less(a, b) && Less(b, c)
    ensures Less(a, c)
    decreases |a|
  {
    if a != [] && a[0] == b[0] && b[0] == c[0] {
      LessTransitive(a[1..], b[1..], c[1..]);
    }
  }

  predicate SamePlace(p: Pipeline, q: Pipeline) { p.customer == q.customer && p.slug == q.slug }

  lemma BeforeTotal(p: Pipeline, q: Pipeline)
    ensures SamePlace(p, q) || Before(p, q) || Before(q, p)
    ensures !(Before(p, q) && Before(q, p))
  {
    hide Less;
    LessTrichotomy(p.customer, q.customer);
    LessTrichotomy(p.slug, q.slug);
  }

  lemma BeforeTransitive(p: Pipeline, q: Pipeline, r: Pipeline)
    requires !Before(q, p) && !Before(r, q)
    ensures !Before(r, p)
  {
    hide Less;
    BeforeTotal(p, q);
    BeforeTotal(q, r);
    BeforeTotal(p, r);
    if Less(p.customer, q.customer) && Less(q.customer, r.customer) {
      LessTransitive(p.customer, q.customer, r.customer);
    }
    LessTrichotomy(p.customer, r.customer);
    LessTrichotomy(p.customer, q.customer);
    LessTrichotomy(q.customer, r.customer);
    LessTrichotomy(p.slug, r.slug);
    if Less(p.slug, q.slug) && Less(q.slug, r.slug) {
      LessTransitive(p.slug, q.slug, r.slug);
    }
  }

  // ---------------------------------------------------------------- sorting

  lemma {:induction false} InsertBag(ps: seq<Pipeline>, p: Pipeline)
    ensures multiset(Insert(ps, p)) == multiset(ps) + multiset{p}
  {
    hide Before;
    if ps != [] && Before(p, ps[|ps| - 1]) {
      InsertBag(ps[..|ps| - 1], p);
      assert ps == ps[..|ps| - 1] + [ps[|ps| - 1]];
    }
  }

  lemma Inserted(ps: seq<Pipeline>, p: Pipeline, i: nat)
    requires i < |Insert(ps, p)|
    ensures Insert(ps, p)[i] == p || Insert(ps, p)[i] in ps
  {
    InsertBag(ps, p);
    assert Insert(ps, p)[i] in multiset(Insert(ps, p));
  }

  predicate NoneAfter(ps: seq<Pipeline>, p: Pipeline) { forall i :: 0 <= i < |ps| ==> !Before(p, ps[i]) }

  lemma OrderGrows(ps: seq<Pipeline>, p: Pipeline)
    requires InOrder(ps) && NoneAfter(ps, p)
    ensures InOrder(ps + [p])
  {
    hide Before;
  }

  lemma {:induction false} InsertKeeps(ps: seq<Pipeline>, p: Pipeline)
    requires InOrder(ps)
    ensures InOrder(Insert(ps, p))
  {
    hide Before;
    if ps == [] {
    } else {
      var front, last := ps[..|ps| - 1], ps[|ps| - 1];
      if Before(p, last) {
        InsertKeeps(front, p);
        BeforeTotal(p, last);
        forall i | 0 <= i < |Insert(front, p)| ensures !Before(last, Insert(front, p)[i]) {
          Inserted(front, p, i);
        }
        OrderGrows(Insert(front, p), last);
      } else {
        forall i | 0 <= i < |ps| ensures !Before(p, ps[i]) {
          if i < |ps| - 1 {
            BeforeTransitive(ps[i], last, p);
          }
        }
        OrderGrows(ps, p);
      }
    }
  }

  lemma {:induction false} SortSorts(ps: seq<Pipeline>)
    ensures multiset(Sort(ps)) == multiset(ps) && InOrder(Sort(ps))
  {
    if ps == [] {
    } else {
      hide InOrder, Insert;
      SortSorts(ps[..|ps| - 1]);
      InsertKeeps(Sort(ps[..|ps| - 1]), ps[|ps| - 1]);
      InsertBag(Sort(ps[..|ps| - 1]), ps[|ps| - 1]);
      assert ps == ps[..|ps| - 1] + [ps[|ps| - 1]];
    }
  }

  predicate DistinctPlaces(ps: seq<Pipeline>) { forall i, j :: 0 <= i < j < |ps| ==> !SamePlace(ps[i], ps[j]) }

  lemma Member(ps: seq<Pipeline>, qs: seq<Pipeline>, i: nat) returns (j: nat)
    requires multiset(ps) == multiset(qs) && i < |ps|
    ensures j < |qs| && qs[j] == ps[i]
  {
    assert ps[i] in multiset(qs);
    j :| 0 <= j < |qs| && qs[j] == ps[i];
  }

  lemma SameLast(ps: seq<Pipeline>, qs: seq<Pipeline>)
    requires multiset(ps) == multiset(qs) && InOrder(ps) && InOrder(qs) && DistinctPlaces(ps) && ps != [] && qs != []
    ensures ps[|ps| - 1] == qs[|qs| - 1]
  {
    hide Before;
    var a, b := ps[|ps| - 1], qs[|qs| - 1];
    var j := Member(ps, qs, |ps| - 1);
    var i := Member(qs, ps, |qs| - 1);
    BeforeTotal(a, b);
    assert i == |ps| - 1 || (!Before(a, b) && !SamePlace(b, a));
    assert j == |qs| - 1 || !Before(b, a);
  }

  lemma DropBag(ps: seq<Pipeline>)
    requires ps != []
    ensures multiset(ps[..|ps| - 1]) == multiset(ps) - multiset{ps[|ps| - 1]}
  {
    assert ps == ps[..|ps| - 1] + [ps[|ps| - 1]];
  }

  lemma DropLast(ps: seq<Pipeline>, qs: seq<Pipeline>)
    requires multiset(ps) == multiset(qs) && ps != [] && qs != [] && ps[|ps| - 1] == qs[|qs| - 1]
    ensures multiset(ps[..|ps| - 1]) == multiset(qs[..|qs| - 1])
  {
    DropBag(ps);
    DropBag(qs);
  }

  lemma SameLength(ps: seq<Pipeline>, qs: seq<Pipeline>)
    requires multiset(ps) == multiset(qs)
    ensures |ps| == |qs|
  {
    assert |multiset(ps)| == |ps| && |multiset(qs)| == |qs|;
  }

  /** There is one ordered arrangement of pipelines in distinct places. */
  lemma {:induction false} OneOrder(ps: seq<Pipeline>, qs: seq<Pipeline>)
    requires multiset(ps) == multiset(qs) && InOrder(ps) && InOrder(qs) && DistinctPlaces(ps)
    ensures ps == qs
    decreases |ps|
  {
    SameLength(ps, qs);
    hide SamePlace, Before;
    if ps == [] {
    } else {
      SameLast(ps, qs);
      DropLast(ps, qs);
      OneOrder(ps[..|ps| - 1], qs[..|qs| - 1]);
      assert ps == ps[..|ps| - 1] + [ps[|ps| - 1]] && qs == qs[..|qs| - 1] + [qs[|qs| - 1]];
    }
  }

  // ---------------------------------------------------------------- duplicate keys

  lemma KeysDistinctPlaces(ps: seq<Pipeline>)
    requires DistinctKeys(ps)
    ensures DistinctPlaces(ps)
  {
  }

  lemma {:induction false} TwoPlaces(ps: seq<Pipeline>, x: Pipeline) returns (i: nat, j: nat)
    requires multiset(ps)[x] >= 2
    ensures i < j < |ps| && ps[i] == x && ps[j] == x
  {
    var front, last := ps[..|ps| - 1], ps[|ps| - 1];
    assert ps == front + [last];
    if last == x {
      assert x in multiset(front);
      i :| 0 <= i < |front| && front[i] == x;
      j := |ps| - 1;
    } else {
      i, j := TwoPlaces(front, x);
    }
  }

  lemma TwiceInBag(ps: seq<Pipeline>, i: nat, j: nat)
    requires i < j < |ps| && ps[i] == ps[j]
    ensures multiset(ps)[ps[i]] >= 2
  {
    assert ps == ps[..j] + [ps[j]] + ps[j + 1..];
    assert ps[..j][i] == ps[i];
    assert ps[i] in multiset(ps[..j]);
  }

  /** Whether keys are distinct does not depend on order. */
  lemma DistinctAnyOrder(ps: seq<Pipeline>, qs: seq<Pipeline>)
    requires multiset(ps) == multiset(qs) && DistinctKeys(ps)
    ensures DistinctKeys(qs)
  {
    hide Key;
    forall i, j | 0 <= i < j < |qs| ensures Key(qs[i]) != Key(qs[j]) {
      if qs[i] == qs[j] {
        TwiceInBag(qs, i, j);
        var a, b := TwoPlaces(ps, qs[i]);
      } else {
        var a := Member(qs, ps, i);
        var b := Member(qs, ps, j);
        assert a != b;
      }
    }
  }

  lemma SortedAlike(ps: seq<Pipeline>, qs: seq<Pipeline>)
    requires multiset(ps) == multiset(qs)
    ensures DistinctKeys(Sort(ps)) == DistinctKeys(Sort(qs)) && (DistinctKeys(Sort(ps)) ==> Sort(ps) == Sort(qs))
  {
    hide InOrder, DistinctKeys, DistinctPlaces, Sort;
    SortSorts(ps);
    SortSorts(qs);
    if DistinctKeys(Sort(ps)) {
      DistinctAnyOrder(Sort(ps), Sort(qs));
      KeysDistinctPlaces(Sort(ps));
      OneOrder(Sort(ps), Sort(qs));
    } else if DistinctKeys(Sort(qs)) {
      DistinctAnyOrder(Sort(qs), Sort(ps));
    }
  }

  /** The rendered configs, and whether they are refused, do not depend on the order of the pipelines. */
  lemma RenderAnyOrder(ps: seq<Pipeline>, qs: seq<Pipeline>)
    requires multiset(ps) == multiset(qs)
    ensures RenderForwarding(ps) == RenderForwarding(qs) && RenderEdge(ps) == RenderEdge(qs)
  {
    hide DistinctKeys, Sort, Forwarding, Edge;
    SortedAlike(ps, qs);
  }

  /** Nor on how the sort treats equal places: any ordered arrangement renders alike. */
  lemma AnySortWill(ps: seq<Pipeline>, sorted: seq<Pipeline>)
    requires multiset(sorted) == multiset(ps) && InOrder(sorted)
    ensures RenderForwarding(ps) == (if DistinctKeys(sorted) then Ok(Forwarding(sorted)) else Err)
    ensures RenderEdge(ps) == (if DistinctKeys(sorted) then Ok(Edge(sorted)) else Err)
  {
    hide InOrder, DistinctKeys, DistinctPlaces, Sort, Forwarding, Edge;
    SortSorts(ps);
    if DistinctKeys(sorted) {
      DistinctAnyOrder(sorted, Sort(ps));
      KeysDistinctPlaces(sorted);
      OneOrder(sorted, Sort(ps));
    } else if DistinctKeys(Sort(ps)) {
      DistinctAnyOrder(Sort(ps), sorted);
    }
  }

  /** Rendering is refused exactly when two of the given pipelines share a key. */
  lemma RefusedExactly(ps: seq<Pipeline>)
    ensures RenderForwarding(ps).Ok? <==> DistinctKeys(ps)
    ensures RenderEdge(ps).Ok? <==> DistinctKeys(ps)
  {
    hide DistinctKeys, Sort, Forwarding, Edge;
    SortSorts(ps);
    if DistinctKeys(ps) {
      DistinctAnyOrder(ps, Sort(ps));
    } else if DistinctKeys(Sort(ps)) {
      DistinctAnyOrder(Sort(ps), ps);
    }
  }

  lemma NamedAnyOrder(ps: seq<Pipeline>)
    requires AllNamed(ps)
    ensures AllNamed(Sort(ps))
  {
    hide WellNamed, Sort;
    SortSorts(ps);
    forall i | 0 <= i < |Sort(ps)| ensures WellNamed(Sort(ps)[i]) {
      var j := Member(Sort(ps), ps, i);
    }
  }

  /**
   The rendered forwarding config means the sorted pipelines, for every list of well-named pipelines with
   distinct keys.
   */
  lemma RenderedMeans(ps: seq<Pipeline>, k: nat, tenant: string)
    requires AllNamed(ps) && DistinctKeys(ps) && k < |SIGNALS|
    ensures RenderForwarding(ps).Ok?
    ensures Interpret(RenderForwarding(ps).value, SIGNALS[k], tenant) == Meaning(Sort(ps), SIGNALS[k], tenant)
    ensures RenderEdge(ps).Ok?
    ensures Interpret(RenderEdge(ps).value, SIGNALS[k], tenant) == EdgeMeaning(Sort(ps), SIGNALS[k])
  {
    hide DistinctKeys, AllNamed, Sort, Forwarding, Edge, Interpret, Meaning, EdgeMeaning;
    RefusedExactly(ps);
    NamedAnyOrder(ps);
    ForwardingMeans(Sort(ps), k, tenant);
    EdgeMeans(Sort(ps), k, tenant);
  }

  // ---------------------------------------------------------------- isolation

  function OfTenant(ps: seq<Pipeline>, tenant: string): seq<Pipeline> {
    if ps == [] then []
    else
      var before, p := OfTenant(ps[..|ps| - 1], tenant), ps[|ps| - 1];
      if p.client == tenant then before + [p] else before
  }

  lemma {:induction false} OfTenantBag(ps: seq<Pipeline>, tenant: string, x: Pipeline)
    ensures multiset(OfTenant(ps, tenant))[x] == if x.client == tenant then multiset(ps)[x] else 0
  {
    if ps == [] {
    } else {
      OfTenantBag(ps[..|ps| - 1], tenant, x);
      assert ps == ps[..|ps| - 1] + [ps[|ps| - 1]];
    }
  }

  lemma {:induction false} OfTenantOrder(ps: seq<Pipeline>, tenant: string)
    requires InOrder(ps)
    ensures InOrder(OfTenant(ps, tenant))
  {
    hide Before;
    if ps == [] {
    } else {
      var front, last := ps[..|ps| - 1], ps[|ps| - 1];
      OfTenantOrder(front, tenant);
      forall i | 0 <= i < |OfTenant(front, tenant)| ensures !Before(last, OfTenant(front, tenant)[i]) {
        var x := OfTenant(front, tenant)[i];
        assert x in multiset(OfTenant(front, tenant));
        OfTenantBag(front, tenant, x);
        assert x in multiset(front);
        var j :| 0 <= j < |front| && front[j] == x;
      }
      if last.client == tenant {
        OrderGrows(OfTenant(front, tenant), last);
      }
    }
  }

  lemma {:induction false} OwnOfTenant(ps: seq<Pipeline>, signal: string, tenant: string)
    ensures FlatMap(ps, OwnFor(signal, tenant)) == FlatMap(OfTenant(ps, tenant), OwnFor(signal, tenant))
  {
    if ps == [] {
    } else {
      hide Own;
      OwnOfTenant(ps[..|ps| - 1], signal, tenant);
      var before := OfTenant(ps[..|ps| - 1], tenant);
      if ps[|ps| - 1].client == tenant {
        assert (before + [ps[|ps| - 1]])[..|before|] == before;
      }
    }
  }

  lemma {:induction false} OfTenantMember(ps: seq<Pipeline>, tenant: string, x: Pipeline)
    ensures x in OfTenant(ps, tenant) <==> x in ps && x.client == tenant
  {
    if ps == [] {
    } else {
      OfTenantMember(ps[..|ps| - 1], tenant, x);
      assert ps == ps[..|ps| - 1] + [ps[|ps| - 1]];
    }
  }

  lemma {:induction false} OfTenantDistinct(ps: seq<Pipeline>, tenant: string)
    requires DistinctKeys(ps)
    ensures DistinctKeys(OfTenant(ps, tenant))
  {
    hide Key;
    if ps == [] {
    } else {
      var front, last := ps[..|ps| - 1], ps[|ps| - 1];
      OfTenantDistinct(front, tenant);
      forall i | 0 <= i < |OfTenant(front, tenant)| ensures Key(OfTenant(front, tenant)[i]) != Key(last) {
        OfTenantMember(front, tenant, OfTenant(front, tenant)[i]);
      }
    }
  }

  lemma OwnArrangement(ps: seq<Pipeline>, tenant: string)
    requires DistinctKeys(ps)
    ensures OfTenant(Sort(ps), tenant) == Sort(OfTenant(ps, tenant))
  {
    hide InOrder, DistinctKeys, DistinctPlaces, Sort, OfTenant;
    SortSorts(ps);
    SortSorts(OfTenant(ps, tenant));
    DistinctAnyOrder(ps, Sort(ps));
    OfTenantDistinct(Sort(ps), tenant);
    KeysDistinctPlaces(OfTenant(Sort(ps), tenant));
    OfTenantOrder(Sort(ps), tenant);
    forall x ensures multiset(OfTenant(Sort(ps), tenant))[x] == multiset(OfTenant(ps, tenant))[x] {
      OfTenantBag(Sort(ps), tenant, x);
      OfTenantBag(ps, tenant, x);
    }
    assert multiset(OfTenant(Sort(ps), tenant)) == multiset(OfTenant(ps, tenant));
    OneOrder(OfTenant(Sort(ps), tenant), Sort(OfTenant(ps, tenant)));
  }

  lemma CarriedAnyOrder(ps: seq<Pipeline>, signal: string, tenant: string)
    requires Carried(OfTenant(ps, tenant), signal)
    ensures Carried(Sort(ps), signal)
  {
    hide Sort, OfTenant;
    SortSorts(ps);
    var i :| 0 <= i < |OfTenant(ps, tenant)| && signal in OfTenant(ps, tenant)[i].graph.signals;
    var x := OfTenant(ps, tenant)[i];
    OfTenantMember(ps, tenant, x);
    assert x in multiset(Sort(ps));
    var j :| 0 <= j < |Sort(ps)| && Sort(ps)[j] == x;
  }

  lemma UncarriedGivesNothing(ps: seq<Pipeline>, signal: string, tenant: string)
    requires !Carried(ps, signal)
    ensures FlatMap(ps, OwnFor(signal, tenant)) == []
  {
    hide FlatMap;
    FlatNothing(ps, OwnFor(signal, tenant));
  }

  lemma UncarriedSorted(ps: seq<Pipeline>, signal: string)
    requires !Carried(ps, signal)
    ensures !Carried(Sort(ps), signal)
  {
    hide Sort;
    SortSorts(ps);
    forall i | 0 <= i < |Sort(ps)| ensures signal !in Sort(ps)[i].graph.signals {
      var j := Member(Sort(ps), ps, i);
    }
  }

  /**
   What a tenant's data reaches is decided by the tenant's own pipelines; without any it is dropped, or drained
   if nobody has any.
   */
  lemma OwnPipelinesDecide(ps: seq<Pipeline>, k: nat, tenant: string)
    requires AllNamed(ps) && DistinctKeys(ps) && k < |SIGNALS|
    ensures RenderForwarding(ps).Ok?
    ensures var reached := Interpret(RenderForwarding(ps).value, SIGNALS[k], tenant);
            if Carried(OfTenant(ps, tenant), SIGNALS[k])
            then reached == FlatMap(Sort(OfTenant(ps, tenant)), OwnFor(SIGNALS[k], tenant))
            else reached == [] || reached == DRAINED
  {
    var sig := SIGNALS[k];
    hide DistinctKeys, AllNamed, Sort, Interpret, OfTenant, Carried, FlatMap, RenderForwarding, RenderEdge;
    RenderedMeans(ps, k, tenant);
    OwnOfTenant(Sort(ps), sig, tenant);
    OwnArrangement(ps, tenant);
    if Carried(OfTenant(ps, tenant), sig) {
      CarriedAnyOrder(ps, sig, tenant);
    } else {
      UncarriedSorted(OfTenant(ps, tenant), sig);
      UncarriedGivesNothing(Sort(OfTenant(ps, tenant)), sig, tenant);
    }
  }

  /**
   Adding, replacing or removing other customers' pipelines never changes which customer exporters a tenant's
   data reaches.
   */
  lemma TenantsIsolated(ps: seq<Pipeline>, qs: seq<Pipeline>, k: nat, tenant: string)
    requires AllNamed(ps) && DistinctKeys(ps) && AllNamed(qs) && DistinctKeys(qs) && k < |SIGNALS|
    requires multiset(OfTenant(ps, tenant)) == multiset(OfTenant(qs, tenant))
    ensures RenderForwarding(ps).Ok? && RenderForwarding(qs).Ok?
    ensures var before := Interpret(RenderForwarding(ps).value, SIGNALS[k], tenant);
            var after := Interpret(RenderForwarding(qs).value, SIGNALS[k], tenant);
            before == after || (before in {[], DRAINED} && after in {[], DRAINED})
  {
    hide DistinctKeys, AllNamed, Sort, Interpret, OfTenant, Carried, FlatMap, RenderForwarding, OwnFor;
    OwnPipelinesDecide(ps, k, tenant);
    OwnPipelinesDecide(qs, k, tenant);
    OfTenantDistinct(ps, tenant);
    SortSorts(OfTenant(ps, tenant));
    DistinctAnyOrder(OfTenant(ps, tenant), Sort(OfTenant(ps, tenant)));
    SortedAlike(OfTenant(ps, tenant), OfTenant(qs, tenant));
    CarriedAlike(OfTenant(ps, tenant), OfTenant(qs, tenant), SIGNALS[k]);
  }

  lemma CarriedAlike(ps: seq<Pipeline>, qs: seq<Pipeline>, signal: string)
    requires multiset(ps) == multiset(qs)
    ensures Carried(ps, signal) == Carried(qs, signal)
  {
    if Carried(ps, signal) {
      var i :| 0 <= i < |ps| && signal in ps[i].graph.signals;
      var j := Member(ps, qs, i);
    }
    if Carried(qs, signal) {
      var i :| 0 <= i < |qs| && signal in qs[i].graph.signals;
      var j := Member(qs, ps, i);
    }
  }
}
