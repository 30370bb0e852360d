/**
 The alert evaluator: one pass reads rules, customers, channels and metric values,
 updates the firing map, collects transitions and dispatches what inhibition leaves.
 */
module Alerting {
  import opened Wrappers

  const CRITICAL: string := "critical"

  datatype Comparison = Below | Above | Unknown

  datatype Metric = Tenant(name: string, windowSeconds: int) | PromQL(query: string)

  datatype Rule = Rule(id: string, metric: Metric, comparison: Comparison, threshold: real, severity: string,
                       customer: Option<string>, channelIDs: seq<string>)

  datatype Ref = Ref(id: string, clientID: string)

  datatype Webhook = Webhook(id: string, url: string)

  datatype Answer = QueryFailed | NoData | Value(value: real)

  /** The firing-map key: rule and customer, or rule and region. */
  datatype Key = CustomerKey(rule: string, customer: string) | RegionKey(rule: string, region: string)

  datatype Scope = CustomerScope(customer: string) | RegionScope(region: string)

  /** What one pass reads; None is a failed store read (or, for regions, no metrics store). */
  datatype Pass = Pass(
    windows: Option<nat>,
    rules: Option<seq<Rule>>,
    refs: Option<seq<Ref>>,
    hooks: Option<seq<Webhook>>,
    tenantMetric: (string, int) -> Option<map<string, real>>,
    regions: Option<seq<string>>,
    query: (string, string) -> Answer)

  /** One evaluated (rule, scope) pair. */
  datatype Observation = Observation(key: Key, scope: Scope, breached: bool, value: real, rule: Rule,
                                     channels: seq<Webhook>)

  datatype Notice = Notice(key: Key, scope: Scope, firing: bool, severity: string, value: real, channels: seq<Webhook>)

  type Firing = map<Key, bool>

  datatype Acc = Acc(firing: Firing, pending: seq<Notice>, criticals: set<Scope>)

  predicate Breach(c: Comparison, value: real, threshold: real) {
    match c
    case Below => value < threshold
    case Above => value > threshold
    case Unknown => false
  }

  predicate IsFiring(f: Firing, k: Key) { k in f && f[k] }

  // ---------------------------------------------------------------- what a rule observes

  function ById(refs: seq<Ref>): map<string, Ref> {
    if refs == [] then map[]
    else ById(refs[..|refs| - 1])[refs[|refs| - 1].id := refs[|refs| - 1]]
  }

  function HooksById(hooks: seq<Webhook>): map<string, Webhook> {
    if hooks == [] then map[]
    else HooksById(hooks[..|hooks| - 1])[hooks[|hooks| - 1].id := hooks[|hooks| - 1]]
  }

  function Channels(ids: seq<string>, hooks: map<string, Webhook>): seq<Webhook> {
    if ids == [] then []
    else
      var rest, id := Channels(ids[..|ids| - 1], hooks), ids[|ids| - 1];
      if id in hooks then rest + [hooks[id]] else rest
  }

  function InScope(rule: Rule, refs: seq<Ref>): seq<Ref> {
    if rule.customer.None? then refs
    else if rule.customer.value in ById(refs) then [ById(refs)[rule.customer.value]]
    else []
  }

  function ObserveCustomer(rule: Rule, perTenant: map<string, real>, ref: Ref, channels: seq<Webhook>): Observation {
    var value := if ref.clientID in perTenant then perTenant[ref.clientID] else 0.0;
    Observation(CustomerKey(rule.id, ref.id), CustomerScope(ref.id), Breach(rule.comparison, value, rule.threshold),
                value, rule, channels)
  }

  function ObserveCustomers(rule: Rule, perTenant: map<string, real>, refs: seq<Ref>,
                            channels: seq<Webhook>): seq<Observation> {
    if refs == [] then []
    else ObserveCustomers(rule, perTenant, refs[..|refs| - 1], channels)
         + [ObserveCustomer(rule, perTenant, refs[|refs| - 1], channels)]
  }

  function ObserveRegion(rule: Rule, region: string, answer: Answer, channels: seq<Webhook>): seq<Observation> {
    if answer.QueryFailed? then []
    else
      var value := if answer.Value? then answer.value else 0.0;
      [Observation(RegionKey(rule.id, region), RegionScope(region),
                   answer.Value? && Breach(rule.comparison, value, rule.threshold), value, rule, channels)]
  }

  function ObserveRegions(pass: Pass, rule: Rule, regions: seq<string>, channels: seq<Webhook>): seq<Observation>
    requires rule.metric.PromQL?
  {
    if regions == [] then []
    else
      var region := regions[|regions| - 1];
      ObserveRegions(pass, rule, regions[..|regions| - 1], channels)
      + ObserveRegion(rule, region, pass.query(region, rule.metric.query), channels)
  }

  /** The observations of one rule, in evaluation order; a failed metric query observes nothing. */
  function Observe(pass: Pass, rule: Rule, refs: seq<Ref>, hooks: seq<Webhook>): seq<Observation> {
    var channels := Channels(rule.channelIDs, HooksById(hooks));
    match rule.metric
    case PromQL(_) => if pass.regions.None? then [] else ObserveRegions(pass, rule, pass.regions.value, channels)
    case Tenant(name, window) =>
      var perTenant := pass.tenantMetric(name, window);
      if perTenant.None? then [] else ObserveCustomers(rule, perTenant.value, InScope(rule, refs), channels)
  }

  function ObserveAll(pass: Pass, rules: seq<Rule>, refs: seq<Ref>, hooks: seq<Webhook>): seq<Observation> {
    if rules == [] then []
    else ObserveAll(pass, rules[..|rules| - 1], refs, hooks) + Observe(pass, rules[|rules| - 1], refs, hooks)
  }

  // ---------------------------------------------------------------- what a pass does

  function NoticeOf(o: Observation): Notice {
    Notice(o.key, o.scope, o.breached, o.rule.severity, o.value, o.channels)
  }

  function Visit(acc: Acc, o: Observation): Acc {
    Acc(acc.firing[o.key := o.breached],
        if o.breached == IsFiring(acc.firing, o.key) then acc.pending else acc.pending + [NoticeOf(o)],
        if o.breached && o.rule.severity == CRITICAL then acc.criticals + {o.scope} else acc.criticals)
  }

  function VisitAll(acc: Acc, os: seq<Observation>): Acc {
    if os == [] then acc else Visit(VisitAll(acc, os[..|os| - 1]), os[|os| - 1])
  }

  predicate Inhibited(n: Notice, inhibit: bool, criticals: set<Scope>) {
    inhibit && n.firing && n.severity != CRITICAL && n.scope in criticals
  }

  predicate Delivered(n: Notice, inhibit: bool, criticals: set<Scope>) {
    !Inhibited(n, inhibit, criticals) && n.channels != []
  }

  function Dispatched(pending: seq<Notice>, inhibit: bool, criticals: set<Scope>): seq<Notice> {
    if pending == [] then []
    else
      var rest, n := Dispatched(pending[..|pending| - 1], inhibit, criticals), pending[|pending| - 1];
      if Delivered(n, inhibit, criticals) then rest + [n] else rest
  }

  /** The pass evaluates rules: no maintenance window, every read succeeds and some rule is enabled. */
  predicate Evaluates(pass: Pass) {
    && pass.windows == Some(0) && pass.rules.Some? && pass.rules.value != [] && pass.refs.Some? && pass.hooks.Some?
  }

  /** A store read the pass needs fails: those after a maintenance window or an empty rule list are not made. */
  predicate ReadFails(pass: Pass) {
    || pass.windows.None?
    || (pass.windows == Some(0) && pass.rules.None?)
    || (pass.windows == Some(0) && pass.rules.value != [] && (pass.refs.None? || pass.hooks.None?))
  }

  function PassObservations(pass: Pass): seq<Observation> {
    if Evaluates(pass) then ObserveAll(pass, pass.rules.value, pass.refs.value, pass.hooks.value) else []
  }

  function PassResult(firing: Firing, pass: Pass): Acc {
    VisitAll(Acc(firing, [], {}), PassObservations(pass))
  }

  // ---------------------------------------------------------------- the service

  class Service {
    var firing: Firing
    const inhibit: bool

    constructor (inhibit: bool)
      ensures firing == map[] && this.inhibit == inhibit
    {
      firing, this.inhibit := map[], inhibit;
    }

    method IndexRefs(refs: seq<Ref>) returns (byID: map<string, Ref>)
      ensures byID == ById(refs)
    {
      byID := map[];
      for i := 0 to |refs|
        invariant byID == ById(refs[..i])
      {
        assert refs[..i + 1][..i] == refs[..i];
        byID := byID[refs[i].id := refs[i]];
      }
      assert refs[..|refs|] == refs;
    }

    method IndexHooks(hooks: seq<Webhook>) returns (byID: map<string, Webhook>)
      ensures byID == HooksById(hooks)
    {
      byID := map[];
      for i := 0 to |hooks|
        invariant byID == HooksById(hooks[..i])
      {
        assert hooks[..i + 1][..i] == hooks[..i];
        byID := byID[hooks[i].id := hooks[i]];
      }
      assert hooks[..|hooks|] == hooks;
    }

    method ChannelsFor(rule: Rule, byHookID: map<string, Webhook>) returns (out: seq<Webhook>)
      ensures out == Channels(rule.channelIDs, byHookID)
    {
      var ids := rule.channelIDs;
      out := [];
      for i := 0 to |ids|
        invariant out == Channels(ids[..i], byHookID)
      {
        assert ids[..i + 1][..i] == ids[..i];
        if ids[i] in byHookID {
          out := out + [byHookID[ids[i]]];
        }
      }
      assert ids[..|ids|] == ids;
    }

    /** The shared tail of both evaluation loops. */
    method Record(o: Observation, pending: seq<Notice>, criticals: set<Scope>)
      returns (pending': seq<Notice>, criticals': set<Scope>)
      modifies this
      ensures Acc(firing, pending', criticals') == Visit(Acc(old(firing), pending, criticals), o)
    {
      pending', criticals' := pending, criticals;
      var was := o.key in firing && firing[o.key];
      firing := firing[o.key := o.breached];
      if o.breached && o.rule.severity == CRITICAL {
        criticals' := criticals' + {o.scope};
      }
      if o.breached != was {
        pending' := pending' + [NoticeOf(o)];
      }
    }

    method EvalPromQL(pass: Pass, rule: Rule, byHookID: map<string, Webhook>, pending: seq<Notice>,
                      criticals: set<Scope>)
      returns (pending': seq<Notice>, criticals': set<Scope>)
      requires rule.metric.PromQL?
      modifies this
      ensures Acc(firing, pending', criticals')
           == VisitAll(Acc(old(firing), pending, criticals),
                       if pass.regions.None? then []
                       else ObserveRegions(pass, rule, pass.regions.value, Channels(rule.channelIDs, byHookID)))
    {
      pending', criticals' := pending, criticals;
      if pass.regions.None? {
        return;
      }
      ghost var start := Acc(firing, pending, criticals);
      var channels := ChannelsFor(rule, byHookID);
      var regions := pass.regions.value;
      for i := 0 to |regions|
        invariant Acc(firing, pending', criticals')
                  == VisitAll(start, ObserveRegions(pass, rule, regions[..i], channels))
      {
        assert regions[..i + 1][..i] == regions[..i];
        var answer := pass.query(regions[i], rule.metric.query);
        VisitAllConcat(start, ObserveRegions(pass, rule, regions[..i], channels),
            ObserveRegion(rule, regions[i], answer, channels));
        if answer.QueryFailed? {
          continue;
        }
        var value := if answer.Value? then answer.value else 0.0;
        var breached := answer.Value? && Breach(rule.comparison, value, rule.threshold);
        pending', criticals' := Record(
          Observation(RegionKey(rule.id, regions[i]), RegionScope(regions[i]), breached, value, rule, channels),
          pending', criticals');
      }
      assert regions[..|regions|] == regions;
    }

    /** The loop over in-scope customers in evalRule. */
    method EvalCustomers(rule: Rule, perTenant: map<string, real>, scope: seq<Ref>, channels: seq<Webhook>,
                         pending: seq<Notice>, criticals: set<Scope>)
      returns (pending': seq<Notice>, criticals': set<Scope>)
      modifies this
      ensures Acc(firing, pending', criticals')
           == VisitAll(Acc(old(firing), pending, criticals), ObserveCustomers(rule, perTenant, scope, channels))
    {
      hide Visit;
      pending', criticals' := pending, criticals;
      ghost var start := Acc(firing, pending, criticals);
      for i := 0 to |scope|
        invariant Acc(firing, pending', criticals')
                  == VisitAll(start, ObserveCustomers(rule, perTenant, scope[..i], channels))
      {
        assert scope[..i + 1][..i] == scope[..i];
        var ref := scope[i];
        VisitAllConcat(start, ObserveCustomers(rule, perTenant, scope[..i], channels),
                       [ObserveCustomer(rule, perTenant, ref, channels)]);
        var value := if ref.clientID in perTenant then perTenant[ref.clientID] else 0.0;
        pending', criticals' := Record(
          Observation(CustomerKey(rule.id, ref.id), CustomerScope(ref.id),
              Breach(rule.comparison, value, rule.threshold),
                      value, rule, channels),
          pending', criticals');
      }
      assert scope[..|scope|] == scope;
    }

    method EvalRule(pass: Pass, rule: Rule, refs: seq<Ref>, byID: map<string, Ref>, ghost hooks: seq<Webhook>,
                    byHookID: map<string, Webhook>, pending: seq<Notice>, criticals: set<Scope>)
      returns (pending': seq<Notice>, criticals': set<Scope>)
      requires byID == ById(refs) && byHookID == HooksById(hooks)
      modifies this
      ensures Acc(firing, pending', criticals')
           == VisitAll(Acc(old(firing), pending, criticals), Observe(pass, rule, refs, hooks))
    {
      if rule.metric.PromQL? {
        pending', criticals' := EvalPromQL(pass, rule, byHookID, pending, criticals);
        return;
      }
      var perTenant := pass.tenantMetric(rule.metric.name, rule.metric.windowSeconds);
      if perTenant.None? {
        return pending, criticals;
      }
      var scope := refs;
      if rule.customer.Some? {
        scope := if rule.customer.value in byID then [byID[rule.customer.value]] else [];
      }
      var channels := ChannelsFor(rule, byHookID);
      pending', criticals' := EvalCustomers(rule, perTenant.value, scope, channels, pending, criticals);
    }

    method Dispatch(pending: seq<Notice>, criticals: set<Scope>) returns (sent: seq<Notice>)
      ensures sent == Dispatched(pending, inhibit, criticals)
    {
      sent := [];
      for i := 0 to |pending|
        invariant sent == Dispatched(pending[..i], inhibit, criticals)
      {
        assert pending[..i + 1][..i] == pending[..i];
        var n := pending[i];
        if inhibit && n.firing && n.severity != CRITICAL && n.scope in criticals {
          continue;
        }
        if |n.channels| > 0 {
          sent := sent + [n];
        }
      }
      assert pending[..|pending|] == pending;
    }

    /** `ok` is false when a store read failed; such a pass, like a silenced or empty one, changes and sends nothing. */
    method Evaluate(pass: Pass) returns (ok: bool, sent: seq<Notice>)
      modifies this
      ensures var r := PassResult(old(firing), pass);
              firing == r.firing && sent == Dispatched(r.pending, inhibit, r.criticals)
      ensures ok <==> !ReadFails(pass)
    {
      sent := [];
      if pass.windows.None? {
        return false, [];
      } else if pass.windows.value > 0 {
        return true, [];
      }
      if pass.rules.None? {
        return false, [];
      }
      var rules := pass.rules.value;
      if |rules| == 0 {
        return true, [];
      }
      if pass.refs.None? || pass.hooks.None? {
        return false, [];
      }
      var refs, hooks := pass.refs.value, pass.hooks.value;
      var byID := IndexRefs(refs);
      var byHookID := IndexHooks(hooks);
      var pending, criticals := [], {};
      ghost var start := Acc(firing, [], {});
      for i := 0 to |rules|
        invariant Acc(firing, pending, criticals) == VisitAll(start, ObserveAll(pass, rules[..i], refs, hooks))
      {
        assert rules[..i + 1][..i] == rules[..i];
        VisitAllConcat(start, ObserveAll(pass, rules[..i], refs, hooks), Observe(pass, rules[i], refs, hooks));
        pending, criticals := EvalRule(pass, rules[i], refs, byID, hooks, byHookID, pending, criticals);
      }
      assert rules[..|rules|] == rules;
      sent := Dispatch(pending, criticals);
      ok := true;
    }
  }

  lemma {:induction false} VisitAllConcat(acc: Acc, a: seq<Observation>, b: seq<Observation>)
    ensures VisitAll(acc, a + b) == VisitAll(VisitAll(acc, a), b)
  {
    if b == [] {
      assert a + b == a;
    } else {
      assert (a + b)[..|a + b| - 1] == a + b[..|b| - 1];
      VisitAllConcat(acc, a, b[..|b| - 1]);
    }
  }

  // ---------------------------------------------------------------- alternation over runs

  /** The firing flags of one key's transitions, in order. */
  function Flags(ns: seq<Notice>, k: Key): seq<bool> {
    if ns == [] then []
    else
      var rest, n := Flags(ns[..|ns| - 1], k), ns[|ns| - 1];
      if n.key == k then rest + [n.firing] else rest
  }

  /** firing, resolved, firing, ... */
  predicate Alternates(flags: seq<bool>) {
    forall i :: 0 <= i < |flags| ==> flags[i] == (i % 2 == 0)
  }

  /** The transitions of a whole run of passes, from an empty firing map. */
  function Transitions(passes: seq<Pass>): (Firing, seq<Notice>) {
    if passes == [] then (map[], [])
    else
      var (firing, ns) := Transitions(passes[..|passes| - 1]);
      var r := PassResult(firing, passes[|passes| - 1]);
      (r.firing, ns + r.pending)
  }

  /** The firing map says whether the key's last transition was a firing. */
  predicate InStep(firing: Firing, ns: seq<Notice>, k: Key) {
    Alternates(Flags(ns, k)) && IsFiring(firing, k) == (|Flags(ns, k)| % 2 == 1)
  }

  /** One observation flips the key's flag exactly when it differs from the firing map. */
  lemma VisitKeepsStep(acc: Acc, o: Observation, earlier: seq<Notice>, k: Key)
    requires InStep(acc.firing, earlier + acc.pending, k)
    ensures InStep(Visit(acc, o).firing, earlier + Visit(acc, o).pending, k)
  {
    hide Alternates, Flags;
    var ns, n := earlier + acc.pending, [NoticeOf(o)];
    if o.breached != IsFiring(acc.firing, o.key) {
      assert earlier + (acc.pending + n) == ns + n;
      FlagsAppend(ns, n[0], k);
      if o.key == k {
        AlternatesAppend(Flags(ns, k), o.breached);
      }
    }
  }

  lemma FlagsAppend(ns: seq<Notice>, n: Notice, k: Key)
    ensures Flags(ns + [n], k) == if n.key == k then Flags(ns, k) + [n.firing] else Flags(ns, k)
  {
    assert (ns + [n])[..|ns|] == ns;
  }

  lemma AlternatesAppend(flags: seq<bool>, b: bool)
    requires Alternates(flags) && b == (|flags| % 2 == 0)
    ensures Alternates(flags + [b])
    ensures (|flags + [b]| % 2 == 1) == b
  {}

  lemma {:induction false} VisitsKeepStep(acc: Acc, os: seq<Observation>, earlier: seq<Notice>, k: Key)
    requires InStep(acc.firing, earlier + acc.pending, k)
    ensures var r := VisitAll(acc, os); InStep(r.firing, earlier + r.pending, k)
  {
    if os == [] {
    } else {
      hide InStep, Visit;
      VisitsKeepStep(acc, os[..|os| - 1], earlier, k);
      VisitKeepsStep(VisitAll(acc, os[..|os| - 1]), os[|os| - 1], earlier, k);
    }
  }

  /** Over any run of passes, every key's transitions alternate, firing first. */
  lemma {:induction false} TransitionsAlternate(passes: seq<Pass>, k: Key)
    ensures InStep(Transitions(passes).0, Transitions(passes).1, k)
  {
    if passes == [] {
    } else {
      TransitionsAlternate(passes[..|passes| - 1], k);
      var (firing, ns) := Transitions(passes[..|passes| - 1]);
      assert ns + [] == ns;
      VisitsKeepStep(Acc(firing, [], {}), PassObservations(passes[|passes| - 1]), ns, k);
    }
  }

  // ---------------------------------------------------------------- the order of rules does not matter

  /** Bags of results summed over a sequence. */
  function BagSum<T, U>(f: T -> multiset<U>, s: seq<T>): multiset<U> {
    if s == [] then multiset{} else BagSum(f, s[..|s| - 1]) + f(s[|s| - 1])
  }

  lemma {:induction false} BagSumConcat<T, U>(f: T -> multiset<U>, a: seq<T>, b: seq<T>)
    ensures BagSum(f, a + b) == BagSum(f, a) + BagSum(f, b)
  {
    if b == [] {
      assert a + b == a;
    } else {
      assert (a + b)[..|a + b| - 1] == a + b[..|b| - 1];
      BagSumConcat(f, a, b[..|b| - 1]);
    }
  }

  /** Equal up to order: a sum over a sequence is the same over any permutation. */
  lemma {:induction false} BagSumPermutes<T, U>(f: T -> multiset<U>, a: seq<T>, b: seq<T>)
    requires multiset(a) == multiset(b)
    ensures BagSum(f, a) == BagSum(f, b)
    decreases |a|
  {
    if a == [] {
      assert |b| == |multiset(b)| == |multiset(a)| == 0;
    } else {
      var n := |a| - 1;
      var x := a[n];
      assert x in multiset(a) && BagSum(f, a) == BagSum(f, a[..n]) + f(x);
      hide BagSum;
      var j := Occurrence(b, x);
      var rest := b[..j] + b[j + 1..];
      DropOne(a, n);
      DropOne(b, j);
      assert a[..n] + a[n + 1..] == a[..n];
      BagSumPermutes(f, a[..n], rest);
      BagSumDropOne(f, b, j);
    }
  }

  lemma Occurrence<T>(s: seq<T>, x: T) returns (j: nat)
    requires x in multiset(s)
    ensures j < |s| && s[j] == x
  {
    assert x in s;
    j :| 0 <= j < |s| && s[j] == x;
  }

  lemma DropOne<T>(s: seq<T>, j: nat)
    requires j < |s|
    ensures multiset(s[..j] + s[j + 1..]) == multiset(s) - multiset{s[j]}
  {
    assert s == s[..j] + [s[j]] + s[j + 1..];
    assert multiset(s) == multiset(s[..j]) + multiset{s[j]} + multiset(s[j + 1..]);
  }

  lemma BagSumAppend<T, U>(f: T -> multiset<U>, l: seq<T>, x: T)
    ensures BagSum(f, l + [x]) == BagSum(f, l) + f(x)
  {
    assert (l + [x])[..|l|] == l;
  }

  lemma BagSumDropOne<T, U>(f: T -> multiset<U>, s: seq<T>, j: nat)
    requires j < |s|
    ensures BagSum(f, s) == BagSum(f, s[..j] + s[j + 1..]) + f(s[j])
  {
    hide BagSum;
    var l, x, r := s[..j], s[j], s[j + 1..];
    assert s == (l + [x]) + r;
    BagSumAppend(f, l, x);
    BagSumConcat(f, l + [x], r);
    BagSumConcat(f, l, r);
  }

  predicate DistinctKeys(os: seq<Observation>) {
    forall i, j :: 0 <= i < j < |os| ==> os[i].key != os[j].key
  }

  /** The transition an observation makes against the firing map the pass started with. */
  function Change(firing: Firing, o: Observation): multiset<Notice> {
    if o.breached == IsFiring(firing, o.key) then multiset{} else multiset{NoticeOf(o)}
  }

  function Changes(firing: Firing): Observation -> multiset<Notice> { o => Change(firing, o) }

  function Sends(inhibit: bool, criticals: set<Scope>): Notice -> multiset<Notice> {
    n => if Delivered(n, inhibit, criticals) then multiset{n} else multiset{}
  }

  function Keys(os: seq<Observation>): set<Key> { set o | o in os :: o.key }

  function Criticals(os: seq<Observation>): set<Scope> {
    set o | o in os && o.breached && o.rule.severity == CRITICAL :: o.scope
  }

  /** `after` is `firing` with the outcome of every observation, whatever their order. */
  predicate Outcome(firing: Firing, after: Firing, os: seq<Observation>) {
    && after.Keys == firing.Keys + Keys(os)
    && (forall o :: o in os ==> o.key in after && after[o.key] == o.breached)
    && (forall k :: k in firing && k !in Keys(os) ==> after[k] == firing[k])
  }

  lemma OutcomeGrows(firing: Firing, after: Firing, os: seq<Observation>)
    requires DistinctKeys(os) && os != [] && Outcome(firing, after, os[..|os| - 1])
    ensures Outcome(firing, after[os[|os| - 1].key := os[|os| - 1].breached], os)
  {
    LastKeyIsNew(os);
    hide Keys, DistinctKeys;
    assert forall x :: x in os <==> x in os[..|os| - 1] || x == os[|os| - 1];
  }

  /** With one observation per key, the firing map of a pass is described without mentioning its order. */
  lemma {:induction false} FiringWithoutOrder(acc: Acc, os: seq<Observation>)
    requires DistinctKeys(os)
    ensures Outcome(acc.firing, VisitAll(acc, os).firing, os)
  {
    if os == [] {
    } else {
      var before := os[..|os| - 1];
      LastKeyIsNew(os);
      hide Outcome, Keys, DistinctKeys;
      FiringWithoutOrder(acc, before);
      OutcomeGrows(acc.firing, VisitAll(acc, before).firing, os);
    }
  }

  lemma LastKeyIsNew(os: seq<Observation>)
    requires DistinctKeys(os) && os != []
    ensures var before, o := os[..|os| - 1], os[|os| - 1];
            && DistinctKeys(before) && o.key !in Keys(before) && Keys(os) == Keys(before) + {o.key}
            && forall x :: x in before ==> x.key in Keys(before)
  {
    var before, o := os[..|os| - 1], os[|os| - 1];
    assert os == before + [o];
    assert forall x :: x in os <==> x in before || x == o;
  }

  /** So is the bag of transitions, each taken against the firing map the pass started with. */
  lemma {:induction false} PendingWithoutOrder(firing: Firing, os: seq<Observation>)
    requires DistinctKeys(os)
    ensures multiset(VisitAll(Acc(firing, [], {}), os).pending) == BagSum(Changes(firing), os)
  {
    if os == [] {
    } else {
      var n := |os| - 1;
      var before, o := os[..n], os[n];
      PendingWithoutOrder(firing, before);
      FiringWithoutOrder(Acc(firing, [], {}), before);
      LastKeyIsNew(os);
      var mid := VisitAll(Acc(firing, [], {}), before);
      assert IsFiring(mid.firing, o.key) == IsFiring(firing, o.key);
      hide VisitAll, Keys;
      PendingStep(firing, mid, o);
    }
  }

  lemma PendingStep(firing: Firing, mid: Acc, o: Observation)
    requires IsFiring(mid.firing, o.key) == IsFiring(firing, o.key)
    ensures multiset(Visit(mid, o).pending) == multiset(mid.pending) + Changes(firing)(o)
  {}

  lemma {:induction false} CriticalScopes(acc: Acc, os: seq<Observation>)
    ensures VisitAll(acc, os).criticals == acc.criticals + Criticals(os)
  {
    if os == [] {
    } else {
      var n := |os| - 1;
      var before, o := os[..n], os[n];
      CriticalScopes(acc, before);
      assert forall x :: x in os <==> x in before || x == o;
      assert Criticals(os) == Criticals(before) + (if o.breached && o.rule.severity == CRITICAL then {o.scope} else {});
    }
  }

  lemma {:induction false} DispatchedBag(ns: seq<Notice>, inhibit: bool, criticals: set<Scope>)
    ensures multiset(Dispatched(ns, inhibit, criticals))
         == BagSum(Sends(inhibit, criticals), ns)
  {
    if ns == [] {
    } else {
      DispatchedBag(ns[..|ns| - 1], inhibit, criticals);
    }
  }

  lemma SameBagSameState(firing: Firing, a: seq<Observation>, b: seq<Observation>)
    requires multiset(a) == multiset(b) && DistinctKeys(a) && DistinctKeys(b)
    ensures var r, q := VisitAll(Acc(firing, [], {}), a), VisitAll(Acc(firing, [], {}), b);
            r.firing == q.firing && r.criticals == q.criticals && multiset(r.pending) == multiset(q.pending)
  {
    hide VisitAll, DistinctKeys, BagSum;
    var acc := Acc(firing, [], {});
    FiringWithoutOrder(acc, a);
    FiringWithoutOrder(acc, b);
    CriticalScopes(acc, a);
    CriticalScopes(acc, b);
    PendingWithoutOrder(firing, a);
    PendingWithoutOrder(firing, b);
    BagSumPermutes(Changes(firing), a, b);
    assert forall o :: o in a <==> o in b by {
      assert forall o :: o in a <==> o in multiset(a);
    }
    assert Keys(a) == Keys(b) && Criticals(a) == Criticals(b);
    var r, q := VisitAll(Acc(firing, [], {}), a), VisitAll(Acc(firing, [], {}), b);
    forall k | k in r.firing.Keys ensures r.firing[k] == q.firing[k] {
      if k in Keys(a) {
        var o :| o in a && o.key == k;
        assert o in b;
      }
    }
  }

  /** Two orders of the same observations leave the same firing map, criticals and bag of sent notices. */
  lemma ObservationOrderIrrelevant(firing: Firing, inhibit: bool, a: seq<Observation>, b: seq<Observation>)
    requires multiset(a) == multiset(b) && DistinctKeys(a) && DistinctKeys(b)
    ensures var r, q := VisitAll(Acc(firing, [], {}), a), VisitAll(Acc(firing, [], {}), b);
            && r.firing == q.firing && r.criticals == q.criticals
            && multiset(Dispatched(r.pending, inhibit, r.criticals))
               == multiset(Dispatched(q.pending, inhibit, q.criticals))
  {
    hide VisitAll, Dispatched, BagSum;
    SameBagSameState(firing, a, b);
    var r, q := VisitAll(Acc(firing, [], {}), a), VisitAll(Acc(firing, [], {}), b);
    DispatchedBag(r.pending, inhibit, r.criticals);
    DispatchedBag(q.pending, inhibit, r.criticals);
    BagSumPermutes(Sends(inhibit, r.criticals), r.pending, q.pending);
  }

  lemma {:induction false} ObserveAllBag(pass: Pass, rules: seq<Rule>, refs: seq<Ref>, hooks: seq<Webhook>)
    ensures multiset(ObserveAll(pass, rules, refs, hooks))
            == BagSum((r: Rule) => multiset(Observe(pass, r, refs, hooks)), rules)
  {
    if rules == [] {
    } else {
      ObserveAllBag(pass, rules[..|rules| - 1], refs, hooks);
    }
  }

  // Distinct rules, customers and regions give distinct keys.

  predicate DistinctRules(rules: seq<Rule>) { forall i, j :: 0 <= i < j < |rules| ==> rules[i].id != rules[j].id }

  predicate DistinctRefs(refs: seq<Ref>) { forall i, j :: 0 <= i < j < |refs| ==> refs[i].id != refs[j].id }

  predicate DistinctRegions(regions: seq<string>) { forall i, j :: 0 <= i < j < |regions| ==> regions[i] != regions[j] }

  lemma {:induction false} CustomerKeys(rule: Rule, perTenant: map<string, real>, refs: seq<Ref>,
                                        channels: seq<Webhook>)
    requires DistinctRefs(refs)
    ensures var os := ObserveCustomers(rule, perTenant, refs, channels);
            && |os| == |refs| && DistinctKeys(os)
            && forall i :: 0 <= i < |os| ==> os[i].key == CustomerKey(rule.id, refs[i].id)
  {
    if refs == [] {
    } else {
      CustomerKeys(rule, perTenant, refs[..|refs| - 1], channels);
    }
  }

  lemma {:induction false} RegionKeys(pass: Pass, rule: Rule, regions: seq<string>, channels: seq<Webhook>)
    requires rule.metric.PromQL? && DistinctRegions(regions)
    ensures var os := ObserveRegions(pass, rule, regions, channels);
            && DistinctKeys(os)
            && forall o :: o in os ==> o.key.RegionKey? && o.key.rule == rule.id && o.key.region in regions
  {
    if regions == [] {
    } else {
      var n := |regions| - 1;
      RegionKeys(pass, rule, regions[..n], channels);
      assert regions[n] !in regions[..n];
      var os := ObserveRegions(pass, rule, regions[..n], channels);
      assert forall i :: 0 <= i < |os| ==> os[i] in os;
    }
  }

  lemma RuleKeys(pass: Pass, rule: Rule, refs: seq<Ref>, hooks: seq<Webhook>)
    requires DistinctRefs(refs) && (pass.regions.Some? ==> DistinctRegions(pass.regions.value))
    ensures var os := Observe(pass, rule, refs, hooks);
            DistinctKeys(os) && forall o :: o in os ==> o.key.rule == rule.id
  {
    var channels := Channels(rule.channelIDs, HooksById(hooks));
    if rule.metric.PromQL? {
      if pass.regions.Some? {
        RegionKeys(pass, rule, pass.regions.value, channels);
      }
    } else {
      var perTenant := pass.tenantMetric(rule.metric.name, rule.metric.windowSeconds);
      if perTenant.Some? {
        CustomerKeys(rule, perTenant.value, InScope(rule, refs), channels);
      }
    }
  }

  lemma {:induction false} AllKeys(pass: Pass, rules: seq<Rule>, refs: seq<Ref>, hooks: seq<Webhook>)
    requires DistinctRules(rules) && DistinctRefs(refs) && (pass.regions.Some? ==> DistinctRegions(pass.regions.value))
    ensures var os := ObserveAll(pass, rules, refs, hooks);
            DistinctKeys(os) && forall o :: o in os ==> exists r :: r in rules && r.id == o.key.rule
  {
    if rules == [] {
    } else {
      var n := |rules| - 1;
      AllKeys(pass, rules[..n], refs, hooks);
      RuleKeys(pass, rules[n], refs, hooks);
      var a, b := ObserveAll(pass, rules[..n], refs, hooks), Observe(pass, rules[n], refs, hooks);
      assert forall o :: o in a ==> o.key.rule != rules[n].id;
      assert forall i :: 0 <= i < |a| ==> a[i] in a;
      assert forall i :: 0 <= i < |b| ==> b[i] in b;
    }
  }

  /** Evaluating the same rules in another order changes neither the firing map nor the bag of notices sent. */
  lemma RuleOrderIrrelevant(firing: Firing, inhibit: bool, pass: Pass, rules: seq<Rule>)
    requires Evaluates(pass) && multiset(rules) == multiset(pass.rules.value)
    requires DistinctRules(rules) && DistinctRules(pass.rules.value) && DistinctRefs(pass.refs.value)
    requires pass.regions.Some? ==> DistinctRegions(pass.regions.value)
    ensures var r, q := PassResult(firing, pass), PassResult(firing, pass.(rules := Some(rules)));
            && r.firing == q.firing && r.criticals == q.criticals
            && multiset(Dispatched(r.pending, inhibit, r.criticals))
               == multiset(Dispatched(q.pending, inhibit, q.criticals))
  {
    var other := pass.(rules := Some(rules));
    var refs, hooks := pass.refs.value, pass.hooks.value;
    assert rules != [] by {
      assert |multiset(rules)| == |multiset(pass.rules.value)|;
    }
    SameObservations(pass, other, rules, refs, hooks);
    AllKeys(pass, pass.rules.value, refs, hooks);
    AllKeys(pass, rules, refs, hooks);
    ObserveAllBag(pass, pass.rules.value, refs, hooks);
    ObserveAllBag(pass, rules, refs, hooks);
    BagSumPermutes((r: Rule) => multiset(Observe(pass, r, refs, hooks)), pass.rules.value, rules);
    ObservationOrderIrrelevant(firing, inhibit, PassObservations(pass), PassObservations(other));
  }

  /** Observations depend on the values a pass reads, not on its rule list. */
  lemma {:induction false} SameObservations(pass: Pass, other: Pass, rules: seq<Rule>, refs: seq<Ref>,
                                            hooks: seq<Webhook>)
    requires other == pass.(rules := other.rules)
    ensures ObserveAll(other, rules, refs, hooks) == ObserveAll(pass, rules, refs, hooks)
  {
    if rules == [] {
    } else {
      SameObservations(pass, other, rules[..|rules| - 1], refs, hooks);
      var rule := rules[|rules| - 1];
      if rule.metric.PromQL? && pass.regions.Some? {
        SameRegions(pass, other, rule, pass.regions.value, Channels(rule.channelIDs, HooksById(hooks)));
      }
    }
  }

  lemma {:induction false} SameRegions(pass: Pass, other: Pass, rule: Rule, regions: seq<string>,
                                       channels: seq<Webhook>)
    requires other == pass.(rules := other.rules) && rule.metric.PromQL?
    ensures ObserveRegions(other, rule, regions, channels) == ObserveRegions(pass, rule, regions, channels)
  {
    if regions == [] {
    } else {
      SameRegions(pass, other, rule, regions[..|regions| - 1], channels);
    }
  }

  // ---------------------------------------------------------------- inhibition

  lemma {:induction false} DispatchedKeeps(ns: seq<Notice>, inhibit: bool, criticals: set<Scope>, n: Notice)
    ensures n in Dispatched(ns, inhibit, criticals) <==> n in ns && Delivered(n, inhibit, criticals)
  {
    if ns == [] {
    } else {
      DispatchedKeeps(ns[..|ns| - 1], inhibit, criticals, n);
    }
  }

  /**
   A transition with channels is withheld exactly when inhibition is on, it is a
   non-critical firing, and a critical rule is breached in its scope in the same pass.
   */
  lemma InhibitionDropsExactly(firing: Firing, inhibit: bool, pass: Pass, n: Notice)
    requires n in PassResult(firing, pass).pending && n.channels != []
    ensures var r := PassResult(firing, pass);
            n !in Dispatched(r.pending, inhibit, r.criticals)
            <==> inhibit && n.firing && n.severity != CRITICAL
                 && exists o ::
                      o in PassObservations(pass) && o.breached && o.rule.severity == CRITICAL && o.scope == n.scope
  {
    var r := PassResult(firing, pass);
    DispatchedKeeps(r.pending, inhibit, r.criticals, n);
    CriticalScopes(Acc(firing, [], {}), PassObservations(pass));
  }
}
