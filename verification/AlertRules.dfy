/** For which metric values a rule's keys fire, and what the notices of a pass carry. */
module AlertRules {
  import opened Wrappers
  import opened Alerting

  /** The value is on the alarming side of the rule's threshold. */
  predicate Crosses(rule: Rule, value: real) {
    || (rule.comparison == Below && rule.threshold - value > 0.0)
    || (rule.comparison == Above && value - rule.threshold > 0.0)
  }

  /** Store IDs are unique. */
  predicate UniqueIDs(pass: Pass) {
    && (pass.rules.Some? ==> DistinctRules(pass.rules.value)) && (pass.refs.Some? ==> DistinctRefs(pass.refs.value))
    && (pass.regions.Some? ==> DistinctRegions(pass.regions.value))
    && (pass.hooks.Some? ==> DistinctHooks(pass.hooks.value))
  }

  predicate DistinctHooks(hooks: seq<Webhook>) { forall i, j :: 0 <= i < j < |hooks| ==> hooks[i].id != hooks[j].id }

  /** A maintenance window is open, or no rule is enabled. */
  predicate Quiet(pass: Pass) {
    || (pass.windows.Some? && pass.windows.value > 0)
    || (pass.windows == Some(0) && pass.rules == Some([]))
  }

  /**
   A pass is quiet, fails to read what it needs, or evaluates its rules, and just one of them; unless it evaluates,
   nothing changes and nothing is pending.
   */
  lemma PassKinds(firing: Firing, pass: Pass)
    ensures Quiet(pass) ==> !ReadFails(pass) && !Evaluates(pass)
    ensures Evaluates(pass) ==> !ReadFails(pass)
    ensures Quiet(pass) || ReadFails(pass) || Evaluates(pass)
    ensures ReadFails(pass) ==> pass.windows.None? || pass.rules.None? || pass.refs.None? || pass.hooks.None?
    ensures Evaluates(pass) ==> pass.rules.Some? && pass.refs.Some? && pass.hooks.Some? && pass.windows.Some?
    ensures !Evaluates(pass) ==> PassResult(firing, pass) == Acc(firing, [], {})
  {
  }

  // ---------------------------------------------------------------- what a rule asks about

  /** The rule asks about the customer and its metric could be read. */
  predicate AsksCustomer(pass: Pass, rule: Rule, ref: Ref)
    requires Evaluates(pass)
  {
    && rule in pass.rules.value && ref in pass.refs.value
    && rule.metric.Tenant? && pass.tenantMetric(rule.metric.name, rule.metric.windowSeconds).Some?
    && (rule.customer.Some? ==> rule.customer.value == ref.id)
  }

  /** A customer without a reading counts as zero. */
  function Reading(pass: Pass, rule: Rule, ref: Ref): real
    requires Evaluates(pass) && AsksCustomer(pass, rule, ref)
  {
    var readings := pass.tenantMetric(rule.metric.name, rule.metric.windowSeconds).value;
    if ref.clientID in readings then readings[ref.clientID] else 0.0
  }

  /** The rule asks about the region and the query did not fail. */
  predicate AsksRegion(pass: Pass, rule: Rule, region: string)
    requires Evaluates(pass)
  {
    && rule in pass.rules.value && pass.regions.Some? && region in pass.regions.value
    && rule.metric.PromQL? && !pass.query(region, rule.metric.query).QueryFailed?
  }

  /** What an observation says is what the rule asks, of the customer or region its key names. */
  predicate Faithful(pass: Pass, o: Observation)
    requires Evaluates(pass)
  {
    match o.key
    case CustomerKey(id, customer) =>
      exists ref ::
        && ref in pass.refs.value && AsksCustomer(pass, o.rule, ref) && o.rule.id == id && ref.id == customer
        && o.scope == CustomerScope(customer) && o.value == Reading(pass, o.rule, ref)
        && o.breached == Crosses(o.rule, o.value)
    case RegionKey(id, region) =>
      && AsksRegion(pass, o.rule, region) && o.rule.id == id && o.scope == RegionScope(region)
      && match pass.query(region, o.rule.metric.query)
         case Value(value) => o.value == value && o.breached == Crosses(o.rule, value)
         case _ => o.value == 0.0 && !o.breached
  }

  lemma {:induction false} ByIdFinds(refs: seq<Ref>, i: nat)
    requires DistinctRefs(refs) && i < |refs|
    ensures refs[i].id in ById(refs) && ById(refs)[refs[i].id] == refs[i]
  {
    if i < |refs| - 1 {
      ByIdFinds(refs[..|refs| - 1], i);
    }
  }

  lemma {:induction false} ByIdOnly(refs: seq<Ref>, id: string)
    requires id in ById(refs)
    ensures ById(refs)[id] in refs && ById(refs)[id].id == id
  {
    if refs[|refs| - 1].id != id {
      ByIdOnly(refs[..|refs| - 1], id);
    }
  }

  lemma ScopeExactly(rule: Rule, refs: seq<Ref>, ref: Ref)
    requires DistinctRefs(refs)
    ensures ref in InScope(rule, refs) <==> ref in refs && (rule.customer.Some? ==> rule.customer.value == ref.id)
  {
    if ref in refs {
      var i :| 0 <= i < |refs| && refs[i] == ref;
      ByIdFinds(refs, i);
    }
    if rule.customer.Some? && rule.customer.value in ById(refs) {
      ByIdOnly(refs, rule.customer.value);
    }
  }

  lemma {:induction false} CustomersObserved(rule: Rule, readings: map<string, real>, refs: seq<Ref>,
                                             channels: seq<Webhook>, o: Observation)
    ensures o in ObserveCustomers(rule, readings, refs, channels)
       <==> exists ref :: ref in refs && o == ObserveCustomer(rule, readings, ref, channels)
  {
    if refs == [] {
    } else {
      var before := refs[..|refs| - 1];
      CustomersObserved(rule, readings, before, channels, o);
      hide ObserveCustomer;
      assert forall ref :: ref in refs <==> ref in before || ref == refs[|refs| - 1];
    }
  }

  lemma {:induction false} RegionsObserved(pass: Pass, rule: Rule, regions: seq<string>, channels: seq<Webhook>,
                                           o: Observation)
    requires rule.metric.PromQL?
    ensures o in ObserveRegions(pass, rule, regions, channels)
       <==> exists region ::
              region in regions && o in ObserveRegion(rule, region, pass.query(region, rule.metric.query), channels)
  {
    if regions == [] {
    } else {
      var before := regions[..|regions| - 1];
      RegionsObserved(pass, rule, before, channels, o);
      hide ObserveRegion;
      assert forall region :: region in regions <==> region in before || region == regions[|regions| - 1];
    }
  }

  lemma {:induction false} RulesObserved(pass: Pass, rules: seq<Rule>, refs: seq<Ref>, hooks: seq<Webhook>,
                                         o: Observation)
    ensures o in ObserveAll(pass, rules, refs, hooks)
       <==> exists rule :: rule in rules && o in Observe(pass, rule, refs, hooks)
  {
    if rules == [] {
    } else {
      var before := rules[..|rules| - 1];
      RulesObserved(pass, before, refs, hooks, o);
      hide Observe;
      assert forall rule :: rule in rules <==> rule in before || rule == rules[|rules| - 1];
    }
  }

  // ---------------------------------------------------------------- channels

  lemma {:induction false} HooksFound(hooks: seq<Webhook>, w: Webhook)
    requires DistinctHooks(hooks)
    ensures w in hooks <==> w.id in HooksById(hooks) && HooksById(hooks)[w.id] == w
    ensures forall id :: id in HooksById(hooks) ==> HooksById(hooks)[id].id == id
  {
    if hooks == [] {
    } else {
      var before, last := hooks[..|hooks| - 1], hooks[|hooks| - 1];
      HooksFound(before, w);
      assert w in hooks <==> w in before || w == last;
      if w in before {
        var i :| 0 <= i < |before| && before[i] == w;
        assert hooks[i].id != hooks[|hooks| - 1].id;
      }
    }
  }

  lemma {:induction false} ChannelsFound(ids: seq<string>, byID: map<string, Webhook>, w: Webhook)
    requires forall id :: id in byID ==> byID[id].id == id
    ensures w in Channels(ids, byID) <==> w.id in ids && w.id in byID && byID[w.id] == w
  {
    if ids == [] {
    } else {
      var before, last := ids[..|ids| - 1], ids[|ids| - 1];
      ChannelsFound(before, byID, w);
      assert w.id in ids <==> w.id in before || w.id == last;
    }
  }

  /** The webhooks a rule notifies are the enabled ones it lists. */
  lemma ChannelsExactly(rule: Rule, hooks: seq<Webhook>, w: Webhook)
    requires DistinctHooks(hooks)
    ensures w in Channels(rule.channelIDs, HooksById(hooks)) <==> w in hooks && w.id in rule.channelIDs
  {
    HooksFound(hooks, w);
    ChannelsFound(rule.channelIDs, HooksById(hooks), w);
  }

  // ---------------------------------------------------------------- what a pass observes

  function RuleChannels(pass: Pass, rule: Rule): seq<Webhook>
    requires Evaluates(pass)
  {
    Channels(rule.channelIDs, HooksById(pass.hooks.value))
  }

  lemma RuleFaithful(pass: Pass, rule: Rule, o: Observation)
    requires Evaluates(pass) && UniqueIDs(pass) && rule in pass.rules.value
    requires o in Observe(pass, rule, pass.refs.value, pass.hooks.value)
    ensures Faithful(pass, o) && o.rule == rule && o.channels == RuleChannels(pass, rule)
  {
    var refs, channels := pass.refs.value, RuleChannels(pass, rule);
    hide Channels, HooksById, InScope;
    match rule.metric
    case PromQL(_) =>
      RegionsObserved(pass, rule, pass.regions.value, channels, o);
    case Tenant(name, window) =>
      var readings := pass.tenantMetric(name, window).value;
      CustomersObserved(rule, readings, InScope(rule, refs), channels, o);
      var ref :| ref in InScope(rule, refs) && o == ObserveCustomer(rule, readings, ref, channels);
      ScopeExactly(rule, refs, ref);
      assert AsksCustomer(pass, rule, ref);
  }

  /** Whatever a pass observes is what some rule asks, and carries that rule's channels. */
  lemma ObservedFaithful(pass: Pass, o: Observation)
    requires Evaluates(pass) && UniqueIDs(pass) && o in PassObservations(pass)
    ensures Faithful(pass, o) && o.rule in pass.rules.value && o.channels == RuleChannels(pass, o.rule)
  {
    hide Faithful, Observe, RuleChannels;
    RulesObserved(pass, pass.rules.value, pass.refs.value, pass.hooks.value, o);
    var rule :| rule in pass.rules.value && o in Observe(pass, rule, pass.refs.value, pass.hooks.value);
    RuleFaithful(pass, rule, o);
  }

  lemma CustomerObserved(pass: Pass, rule: Rule, ref: Ref) returns (o: Observation)
    requires Evaluates(pass) && UniqueIDs(pass) && AsksCustomer(pass, rule, ref)
    ensures o in PassObservations(pass) && o.key == CustomerKey(rule.id, ref.id) && o.rule == rule
  {
    var refs, hooks := pass.refs.value, pass.hooks.value;
    var readings := pass.tenantMetric(rule.metric.name, rule.metric.windowSeconds).value;
    var channels := RuleChannels(pass, rule);
    o := ObserveCustomer(rule, readings, ref, channels);
    ScopeExactly(rule, refs, ref);
    CustomersObserved(rule, readings, InScope(rule, refs), channels, o);
    RulesObserved(pass, pass.rules.value, refs, hooks, o);
    assert o in Observe(pass, rule, refs, hooks);
  }

  lemma RegionObserved(pass: Pass, rule: Rule, region: string) returns (o: Observation)
    requires Evaluates(pass) && UniqueIDs(pass) && AsksRegion(pass, rule, region)
    ensures o in PassObservations(pass) && o.key == RegionKey(rule.id, region) && o.rule == rule
  {
    var refs, hooks, channels := pass.refs.value, pass.hooks.value, RuleChannels(pass, rule);
    o := ObserveRegion(rule, region, pass.query(region, rule.metric.query), channels)[0];
    RegionsObserved(pass, rule, pass.regions.value, channels, o);
    RulesObserved(pass, pass.rules.value, refs, hooks, o);
    assert o in Observe(pass, rule, refs, hooks);
  }

  // ---------------------------------------------------------------- which keys fire

  lemma PassOutcome(firing: Firing, pass: Pass)
    requires Evaluates(pass) && UniqueIDs(pass)
    ensures DistinctKeys(PassObservations(pass))
    ensures Outcome(firing, PassResult(firing, pass).firing, PassObservations(pass))
  {
    AllKeys(pass, pass.rules.value, pass.refs.value, pass.hooks.value);
    hide Outcome, DistinctKeys;
    FiringWithoutOrder(Acc(firing, [], {}), PassObservations(pass));
  }

  lemma SameRef(refs: seq<Ref>, a: Ref, b: Ref)
    requires DistinctRefs(refs) && a in refs && b in refs && a.id == b.id
    ensures a == b
  {
  }

  /** After a pass, a customer's key fires exactly when the customer's reading crosses the rule's threshold. */
  lemma CustomerKeyFires(firing: Firing, pass: Pass, rule: Rule, ref: Ref)
    requires Evaluates(pass) && UniqueIDs(pass) && AsksCustomer(pass, rule, ref)
    ensures IsFiring(PassResult(firing, pass).firing, CustomerKey(rule.id, ref.id))
       <==> Crosses(rule, Reading(pass, rule, ref))
  {
    hide Crosses, PassObservations, PassResult;
    var o := CustomerObserved(pass, rule, ref);
    ObservedFaithful(pass, o);
    var other :| other in pass.refs.value && AsksCustomer(pass, rule, other) && other.id == ref.id
                 && o.value == Reading(pass, rule, other) && o.breached == Crosses(rule, o.value);
    SameRef(pass.refs.value, other, ref);
    PassOutcome(firing, pass);
  }

  /** A region's key fires exactly when its query gives a value that crosses; no data does not. */
  lemma RegionKeyFires(firing: Firing, pass: Pass, rule: Rule, region: string)
    requires Evaluates(pass) && UniqueIDs(pass) && AsksRegion(pass, rule, region)
    ensures var answer := pass.query(region, rule.metric.query);
            IsFiring(PassResult(firing, pass).firing, RegionKey(rule.id, region))
            <==> answer.Value? && Crosses(rule, answer.value)
  {
    hide Crosses, PassObservations, PassResult;
    var o := RegionObserved(pass, rule, region);
    ObservedFaithful(pass, o);
    PassOutcome(firing, pass);
  }

  /** Some rule asks about the key in this pass. */
  predicate Asked(pass: Pass, k: Key) {
    && Evaluates(pass)
    && match k
       case CustomerKey(id, customer) =>
         exists rule, ref :: rule in pass.rules.value && ref in pass.refs.value && rule.id == id && ref.id == customer
                             && AsksCustomer(pass, rule, ref)
       case RegionKey(id, region) =>
         exists rule :: rule in pass.rules.value && rule.id == id && AsksRegion(pass, rule, region)
  }

  /** A key nobody asks about, or whose metric cannot be read, stays as it was, with no notice. */
  lemma UnaskedKeyKept(firing: Firing, pass: Pass, k: Key)
    requires UniqueIDs(pass) && !Asked(pass, k)
    ensures var r := PassResult(firing, pass);
            IsFiring(r.firing, k) == IsFiring(firing, k) && forall n :: n in r.pending ==> n.key != k
  {
    if Evaluates(pass) {
      var os := PassObservations(pass);
      forall o | o in os ensures o.key != k {
        ObservedFaithful(pass, o);
      }
      PassOutcome(firing, pass);
      hide PassObservations, Asked;
      forall n | n in PassResult(firing, pass).pending ensures n.key != k {
        PendingFrom(firing, os, n);
      }
    }
  }

  lemma {:induction false} BagSumHolds<T, U>(f: T -> multiset<U>, s: seq<T>, x: U)
    ensures x in BagSum(f, s) <==> exists t :: t in s && x in f(t)
  {
    if s == [] {
    } else {
      var before, last := s[..|s| - 1], s[|s| - 1];
      BagSumHolds(f, before, x);
      assert forall t :: t in s <==> t in before || t == last;
    }
  }

  /** The notice that tells of an observation. */
  function Told(o: Observation): Notice {
    Notice(o.key, o.scope, o.breached, o.rule.severity, o.value, o.channels)
  }

  lemma PendingFrom(firing: Firing, os: seq<Observation>, n: Notice)
    requires DistinctKeys(os)
    ensures n in VisitAll(Acc(firing, [], {}), os).pending
       <==> exists o :: o in os && o.breached != IsFiring(firing, o.key) && n == Told(o)
  {
    hide VisitAll, BagSum, DistinctKeys, IsFiring;
    PendingWithoutOrder(firing, os);
    BagSumHolds(Changes(firing), os, n);
    var pending := VisitAll(Acc(firing, [], {}), os).pending;
    assert n in pending <==> n in multiset(pending);
    forall o | o in os
      ensures n in Changes(firing)(o) <==> o.breached != IsFiring(firing, o.key) && n == Told(o)
    {
    }
  }

  /**
   A pass notifies exactly of the keys whose state changes: each notice carries the new state, the rule's severity,
   the value read and the enabled webhooks the rule lists.
   */
  lemma NoticesExactly(firing: Firing, pass: Pass, n: Notice)
    requires Evaluates(pass) && UniqueIDs(pass)
    ensures n in PassResult(firing, pass).pending ==>
              && n.firing != IsFiring(firing, n.key) && n.firing == IsFiring(PassResult(firing, pass).firing, n.key)
              && exists o ::
                   && o in PassObservations(pass) && Faithful(pass, o) && n == Told(o)
                   && forall w :: w in o.channels <==> w in pass.hooks.value && w.id in o.rule.channelIDs
    ensures forall o :: o in PassObservations(pass) && o.breached != IsFiring(firing, o.key) ==>
              Told(o) in PassResult(firing, pass).pending
  {
    PassOutcome(firing, pass);
    var os := PassObservations(pass);
    hide PassObservations, Faithful, DistinctKeys, Crosses, Keys;
    PendingFrom(firing, os, n);
    if n in PassResult(firing, pass).pending {
      var o :| o in os && o.breached != IsFiring(firing, o.key) && n == Told(o);
      ObservedFaithful(pass, o);
      forall w ensures w in o.channels <==> w in pass.hooks.value && w.id in o.rule.channelIDs {
        ChannelsExactly(o.rule, pass.hooks.value, w);
      }
    }
    forall o | o in os && o.breached != IsFiring(firing, o.key)
      ensures Told(o) in PassResult(firing, pass).pending
    {
      PendingFrom(firing, os, Told(o));
    }
  }
}
