/** A collector configuration as a value, and what it does with one tenant's data. */
module Collector {
  import opened Wrappers
  import opened Json
  import opened Naming

  /** A section is a list of keys and values in the order they are written. */
  datatype Entry<+V> = Entry(key: string, value: V)

  /** One row of a routing table: data whose tenant.id is `client` goes to `targets`. */
  datatype Route = Route(client: string, targets: seq<string>)

  datatype Service = Service(receivers: seq<string>, processors: seq<string>, exporters: seq<string>)

  datatype Config = Config(
    receivers: seq<Entry<Json>>,
    processors: seq<Entry<Json>>,
    connectors: seq<Entry<seq<Route>>>,
    exporters: seq<Entry<Json>>,
    pipelines: seq<Entry<Service>>)

  function Find<V>(es: seq<Entry<V>>, key: string): Option<V> {
    if es == [] then None
    else if es[|es| - 1].key == key then Some(es[|es| - 1].value)
    else Find(es[..|es| - 1], key)
  }

  function FlatMap<A, B>(xs: seq<A>, f: A -> seq<B>): seq<B> {
    if xs == [] then [] else FlatMap(xs[..|xs| - 1], f) + f(xs[|xs| - 1])
  }

  // ---------------------------------------------------------------- denotation

  /** A processor or exporter that data passes, with its configuration. */
  datatype Stage = Stage(component: string, config: Option<Json>)

  /** Data that has passed `chain` and leaves through `exporter`. */
  datatype Delivery = Delivery(chain: seq<Stage>, exporter: Stage)

  function Chain(processors: seq<Entry<Json>>, ids: seq<string>): seq<Stage> {
    seq(|ids|, i requires 0 <= i < |ids| => Stage(ComponentType(ids[i]), Find(processors, ids[i])))
  }

  /** The targets of the first row that matches; data of other tenants is dropped. */
  function TargetsFor(table: seq<Route>, tenant: string): seq<string> {
    if table == [] then [] else if table[0].client == tenant then table[0].targets else TargetsFor(table[1..], tenant)
  }

  /** Where data goes that is handed to the exporter or connector `id`, over at most `hops` connectors. */
  function Reach(cfg: Config, tenant: string, chain: seq<Stage>, hops: nat, id: string): seq<Delivery>
    decreases hops, 0
  {
    match Find(cfg.connectors, id)
    case None => [Delivery(chain, Stage(ComponentType(id), Find(cfg.exporters, id)))]
    case Some(table) =>
      if hops == 0 then [] else FlatMap(TargetsFor(table, tenant), t => Entered(cfg, tenant, chain, hops - 1, id, t))
  }

  /** A connector hands data to a pipeline that lists it as a receiver. */
  function Entered(cfg: Config, tenant: string, chain: seq<Stage>, hops: nat, connector: string,
                   target: string): seq<Delivery>
    decreases hops, 2
  {
    match Find(cfg.pipelines, target)
    case None => []
    case Some(svc) => if connector in svc.receivers then Through(cfg, tenant, chain, hops, svc) else []
  }

  function Through(cfg: Config, tenant: string, chain: seq<Stage>, hops: nat, svc: Service): seq<Delivery>
    decreases hops, 1
  {
    FlatMap(svc.exporters, id => Reach(cfg, tenant, chain + Chain(cfg.processors, svc.processors), hops, id))
  }

  /** Every delivery of one signal of one tenant's data that enters through the otlp receiver. */
  function Interpret(cfg: Config, signal: string, tenant: string): seq<Delivery> {
    FlatMap(cfg.pipelines, e => Ingest(cfg, signal, tenant, e))
  }

  function Ingest(cfg: Config, signal: string, tenant: string, e: Entry<Service>): seq<Delivery> {
    if ComponentType(e.key) == signal
        && "otlp" in e.value.receivers then Through(cfg, tenant, [], |cfg.connectors|, e.value) else []
  }

  // ---------------------------------------------------------------- flat maps

  lemma {:induction false} FlatConcat<A, B>(xs: seq<A>, ys: seq<A>, f: A -> seq<B>)
    ensures FlatMap(xs + ys, f) == FlatMap(xs, f) + FlatMap(ys, f)
    decreases |ys|
  {
    if ys == [] {
      assert xs + ys == xs;
    } else {
      assert (xs + ys)[..|xs + ys| - 1] == xs + ys[..|ys| - 1];
      FlatConcat(xs, ys[..|ys| - 1], f);
    }
  }

  lemma FlatOne<A, B>(x: A, f: A -> seq<B>)
    ensures FlatMap([x], f) == f(x)
  {
    assert [x][..0] == [];
  }

  lemma {:induction false} FlatSame<A, B>(xs: seq<A>, f: A -> seq<B>, g: A -> seq<B>)
    requires forall i :: 0 <= i < |xs| ==> f(xs[i]) == g(xs[i])
    ensures FlatMap(xs, f) == FlatMap(xs, g)
  {
    if xs == [] {
    } else {
      FlatSame(xs[..|xs| - 1], f, g);
    }
  }

  lemma {:induction false} FlatNothing<A, B>(xs: seq<A>, f: A -> seq<B>)
    requires forall i :: 0 <= i < |xs| ==> f(xs[i]) == []
    ensures FlatMap(xs, f) == []
  {
    if xs == [] {
    } else {
      FlatNothing(xs[..|xs| - 1], f);
    }
  }

  /** Only one element gives anything. */
  lemma {:induction false} FlatOnly<A, B>(xs: seq<A>, f: A -> seq<B>, k: nat)
    requires k < |xs| && forall i :: 0 <= i < |xs| && i != k ==> f(xs[i]) == []
    ensures FlatMap(xs, f) == f(xs[k])
  {
    if k == |xs| - 1 {
      FlatNothing(xs[..k], f);
    } else {
      FlatOnly(xs[..|xs| - 1], f, k);
    }
  }

  /** A flat map over a flat map is one flat map. */
  lemma {:induction false} FlatFlat<A, B, C>(xs: seq<A>, f: A -> seq<B>, g: B -> seq<C>, h: A -> seq<C>)
    requires forall i :: 0 <= i < |xs| ==> FlatMap(f(xs[i]), g) == h(xs[i])
    ensures FlatMap(FlatMap(xs, f), g) == FlatMap(xs, h)
  {
    if xs == [] {
    } else {
      var front, last := xs[..|xs| - 1], xs[|xs| - 1];
      FlatFlat(front, f, g, h);
      FlatConcat(FlatMap(front, f), f(last), g);
    }
  }

  lemma {:induction false} FlatMember<A, B>(xs: seq<A>, f: A -> seq<B>, y: B) returns (i: nat)
    requires y in FlatMap(xs, f)
    ensures i < |xs| && y in f(xs[i])
  {
    if y in f(xs[|xs| - 1]) {
      i := |xs| - 1;
    } else {
      i := FlatMember(xs[..|xs| - 1], f, y);
    }
  }

  lemma FlatHolds<A, B>(xs: seq<A>, f: A -> seq<B>, i: nat, y: B)
    requires i < |xs| && y in f(xs[i])
    ensures y in FlatMap(xs, f)
  {
    assert xs == xs[..i + 1] + xs[i + 1..];
    FlatConcat(xs[..i + 1], xs[i + 1..], f);
    assert xs[..i + 1][..i] == xs[..i];
  }

  // ---------------------------------------------------------------- keys

  predicate UniqueKeys<V>(es: seq<Entry<V>>) { forall i, j :: 0 <= i < j < |es| ==> es[i].key != es[j].key }

  predicate Apart<V>(a: seq<Entry<V>>, b: seq<Entry<V>>) {
    forall i, j :: 0 <= i < |a| && 0 <= j < |b| ==> a[i].key != b[j].key
  }

  lemma UniqueConcat<V>(a: seq<Entry<V>>, b: seq<Entry<V>>)
    requires UniqueKeys(a) && UniqueKeys(b) && Apart(a, b)
    ensures UniqueKeys(a + b)
  {
  }

  lemma {:induction false} ApartFlat<A, V>(xs: seq<A>, f: A -> seq<Entry<V>>, b: seq<Entry<V>>)
    requires forall i :: 0 <= i < |xs| ==> Apart(f(xs[i]), b)
    ensures Apart(FlatMap(xs, f), b)
  {
    if xs == [] {
    } else {
      ApartFlat(xs[..|xs| - 1], f, b);
    }
  }

  lemma {:induction false} UniqueFlat<A, V>(xs: seq<A>, f: A -> seq<Entry<V>>)
    requires forall i :: 0 <= i < |xs| ==> UniqueKeys(f(xs[i]))
    requires forall i, j :: 0 <= i < j < |xs| ==> Apart(f(xs[i]), f(xs[j]))
    ensures UniqueKeys(FlatMap(xs, f))
  {
    if xs == [] {
    } else {
      var front, last := xs[..|xs| - 1], xs[|xs| - 1];
      UniqueFlat(front, f);
      ApartFlat(front, f, f(last));
      UniqueConcat(FlatMap(front, f), f(last));
    }
  }

  /** With unique keys, an entry is found by its key. */
  lemma {:induction false} FoundByKey<V>(es: seq<Entry<V>>, e: Entry<V>)
    requires UniqueKeys(es) && e in es
    ensures Find(es, e.key) == Some(e.value)
  {
    var k :| 0 <= k < |es| && es[k] == e;
    if k < |es| - 1 {
      assert es[..|es| - 1][k] == e;
      FoundByKey(es[..|es| - 1], e);
    }
  }

  lemma {:induction false} NotFound<V>(es: seq<Entry<V>>, key: string)
    requires forall i :: 0 <= i < |es| ==> es[i].key != key
    ensures Find(es, key) == None
  {
    if es == [] {
    } else {
      NotFound(es[..|es| - 1], key);
    }
  }
}
