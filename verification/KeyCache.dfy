/**
 The LRU cache of API-key verdicts: a doubly linked list (front = most recently
 used) whose elements are shared with a map from key to element.
 */
module KeyCache {
  import opened Wrappers

  datatype Slot<E> = Slot(key: string, entry: E)

  // ---------------------------------------------------------------- recency sequences

  predicate Distinct<E>(s: seq<Slot<E>>) {
    forall i, j :: 0 <= i < j < |s| ==> s[i].key != s[j].key
  }

  /** Position of the key, or the length when it is absent. */
  function Find<E>(s: seq<Slot<E>>, key: string): (i: nat)
    ensures i <= |s| && (i < |s| ==> s[i].key == key)
    ensures forall j :: 0 <= j < i ==> s[j].key != key
  {
    if s == [] || s[0].key == key then 0 else 1 + Find(s[1..], key)
  }

  lemma FindAt<E>(s: seq<Slot<E>>, key: string, i: nat)
    requires i < |s| && s[i].key == key && forall j :: 0 <= j < i ==> s[j].key != key
    ensures Find(s, key) == i
  {}

  function Lookup<E>(s: seq<Slot<E>>, key: string): Option<E> {
    var i := Find(s, key);
    if i < |s| then Some(s[i].entry) else None
  }

  /** The sequence with position `i` moved to the front. */
  function Moved<T>(s: seq<T>, i: nat): (r: seq<T>)
    requires i < |s|
    ensures |r| == |s| && r[0] == s[i]
    ensures forall j :: 0 < j <= i ==> r[j] == s[j - 1]
    ensures forall j :: i < j < |s| ==> r[j] == s[j]
  {
    [s[i]] + s[..i] + s[i + 1..]
  }

  function Touch<E>(s: seq<Slot<E>>, key: string): seq<Slot<E>> {
    var i := Find(s, key);
    if i < |s| then Moved(s, i) else s
  }

  function Trim<E>(s: seq<Slot<E>>, max: int): seq<Slot<E>> {
    if |s| <= max then s else s[..if max < 0 then 0 else max]
  }

  function Insert<E>(s: seq<Slot<E>>, key: string, entry: E, max: int): seq<Slot<E>> {
    var i := Find(s, key);
    if i < |s| then Moved(s[i := Slot(key, entry)], i) else Trim([Slot(key, entry)] + s, max)
  }

  // ---------------------------------------------------------------- the linked list and map

  class Element<E> {
    const key: string
    var entry: E

    constructor (key: string, entry: E)
      ensures this.key == key && this.entry == entry
    {
      this.key, this.entry := key, entry;
    }
  }

  class Cache<E> {
    const maxEntries: int
    var ll: seq<Element<E>>
    var items: map<string, Element<E>>
    ghost var recency: seq<Slot<E>>

    /** The list and the map hold the same elements, one per key; `recency` is what they hold. */
    ghost predicate Valid()
      reads this, ll
    {
      && Indexed(ll, items)
      && |recency| == |ll| == |items|
      && (forall i :: 0 <= i < |ll| ==> recency[i] == Slot(ll[i].key, ll[i].entry))
    }

    constructor (maxEntries: int)
      ensures Valid() && recency == [] && this.maxEntries == maxEntries && ll == []
    {
      this.maxEntries, ll, items, recency := maxEntries, [], map[], [];
    }

    /** container/list's MoveToFront. */
    method MoveToFront(el: Element<E>)
      requires Valid() && el in ll
      modifies this`ll, this`recency
      ensures Valid() && recency == Touch(old(recency), el.key)
      ensures forall x :: x in ll <==> x in old(ll)
    {
      hide Moved, Indexed;
      var i :| 0 <= i < |ll| && ll[i] == el;
      MovedKeeps(ll, items, i);
      Position(ll, items, i);
      FindAt(recency, el.key, i);
      ll := Moved(ll, i);
      recency := Moved(recency, i);
    }

    method Get(key: string) returns (r: Option<E>)
      requires Valid()
      modifies this`ll, this`recency
      ensures Valid() && r == Lookup(old(recency), key) && recency == Touch(old(recency), key)
      ensures forall x :: x in ll <==> x in old(ll)
    {
      if key !in items {
        Absent(ll, items, recency, key);
        return None;
      }
      hide Indexed;
      var el := items[key];
      ghost var i := PositionOf(ll, items, key);
      FindAt(recency, key, i);
      MoveToFront(el);
      return Some(el.entry);
    }

    method SetEntry(ghost i: nat, el: Element<E>, entry: E)
      requires Valid() && i < |ll| && ll[i] == el
      modifies el, this`recency
      ensures Valid() && recency == old(recency)[i := Slot(el.key, entry)]
    {
      Position(ll, items, i);
      el.entry := entry;
      recency := recency[i := Slot(el.key, entry)];
    }

    method Overwrite(key: string, entry: E)
      requires Valid() && key in items
      modifies this`ll, this`recency, ll
      ensures Valid() && recency == Insert(old(recency), key, entry, maxEntries)
      ensures forall x :: x in ll <==> x in old(ll)
    {
      hide Moved, Indexed;
      var el := items[key];
      ghost var i := PositionOf(ll, items, key);
      FindAt(recency, key, i);
      SetEntry(i, el, entry);
      FindAt(recency, key, i);
      MoveToFront(el);
    }

    method PushFront(key: string, entry: E)
      requires Valid() && key !in items
      modifies this`ll, this`items, this`recency
      ensures Valid() && recency == [Slot(key, entry)] + old(recency)
      ensures forall x :: x in ll ==> x in old(ll) || fresh(x)
    {
      hide Indexed;
      var el := new Element(key, entry);
      PushKeeps(ll, items, el);
      ll := [el] + ll;
      items := items[key := el];
      recency := [Slot(key, entry)] + recency;
    }

    method RemoveBack()
      requires Valid() && ll != []
      modifies this`ll, this`items, this`recency
      ensures Valid() && recency == old(recency)[..|old(recency)| - 1]
      ensures forall x :: x in ll ==> x in old(ll)
    {
      hide Indexed;
      DropKeeps(ll, items);
      var oldest := ll[|ll| - 1];
      ll := ll[..|ll| - 1];
      items := items - {oldest.key};
      recency := recency[..|recency| - 1];
    }

    /** The eviction loop of put. */
    method EvictOldest()
      requires Valid()
      modifies this`ll, this`items, this`recency
      ensures Valid() && recency == Trim(old(recency), maxEntries)
      ensures forall x :: x in ll ==> x in old(ll)
    {
      hide Indexed;
      ghost var grown := recency;
      while |items| > maxEntries
        invariant Valid()
        invariant |recency| <= |grown| && recency == grown[..|recency|]
        invariant |recency| < |grown| ==> |recency| >= maxEntries
        invariant forall x :: x in ll ==> x in old(ll)
        decreases |ll|
      {
        if ll == [] {
          break;
        }
        RemoveBack();
      }
    }

    method Put(key: string, entry: E)
      requires Valid()
      modifies this`ll, this`items, this`recency, ll
      ensures Valid() && recency == Insert(old(recency), key, entry, maxEntries)
      ensures forall x :: x in ll ==> x in old(ll) || fresh(x)
    {
      if key in items {
        Overwrite(key, entry);
      } else {
        Absent(ll, items, recency, key);
        PushFront(key, entry);
        EvictOldest();
      }
    }
  }

  ghost predicate NoDuplicates<E>(ll: seq<Element<E>>) {
    forall i, j :: 0 <= i < j < |ll| ==> ll[i].key != ll[j].key
  }

  ghost predicate Listed<E>(ll: seq<Element<E>>, items: map<string, Element<E>>) {
    forall x :: x in ll ==> x.key in items && items[x.key] == x
  }

  ghost predicate Covered<E>(ll: seq<Element<E>>, items: map<string, Element<E>>) {
    forall k :: k in items ==> items[k] in ll && items[k].key == k
  }

  ghost predicate Indexed<E>(ll: seq<Element<E>>, items: map<string, Element<E>>) {
    |items| == |ll| && NoDuplicates(ll) && Listed(ll, items) && Covered(ll, items)
  }

  lemma Position<E>(ll: seq<Element<E>>, items: map<string, Element<E>>, i: nat)
    requires Indexed(ll, items) && i < |ll|
    ensures forall j :: 0 <= j < |ll| && j != i ==> ll[j].key != ll[i].key
  {}

  lemma PositionOf<E>(ll: seq<Element<E>>, items: map<string, Element<E>>, key: string) returns (i: nat)
    requires Indexed(ll, items) && key in items
    ensures i < |ll| && ll[i] == items[key] && ll[i].key == key && items[key] in ll
    ensures forall j :: 0 <= j < |ll| && j != i ==> ll[j].key != key
  {
    i :| 0 <= i < |ll| && ll[i] == items[key];
    Position(ll, items, i);
  }

  lemma Absent<E>(ll: seq<Element<E>>, items: map<string, Element<E>>, s: seq<Slot<E>>, key: string)
    requires Indexed(ll, items) && key !in items && |s| == |ll| && forall i :: 0 <= i < |ll| ==> s[i].key == ll[i].key
    ensures Find(s, key) == |s|
  {
    assert forall i :: 0 <= i < |ll| ==> ll[i] in ll;
  }

  lemma MovedKeeps<E>(ll: seq<Element<E>>, items: map<string, Element<E>>, i: nat)
    requires Indexed(ll, items) && i < |ll|
    ensures Indexed(Moved(ll, i), items)
    ensures forall x :: x in Moved(ll, i) <==> x in ll
  {
    hide Moved;
    var r := Moved(ll, i);
    assert NoDuplicates(r) by {
      hide Listed, Covered;
    }
    assert forall x :: x in r <==> x in ll by {
      hide Listed, Covered, NoDuplicates;
      forall x | x in ll ensures x in r {
        var j :| 0 <= j < |ll| && ll[j] == x;
        assert r[if j < i then j + 1 else if j == i then 0 else j] == x;
      }
    }
  }

  lemma PushKeeps<E>(ll: seq<Element<E>>, items: map<string, Element<E>>, el: Element<E>)
    requires Indexed(ll, items) && el.key !in items
    ensures Indexed([el] + ll, items[el.key := el]) && |items[el.key := el]| == |ll| + 1
  {
    var r := [el] + ll;
    MapWith(items, el.key, el);
    assert forall x :: x in r <==> x == el || x in ll;
    assert NoDuplicates(r) by {
      hide Covered;
      forall i, j | 0 <= i < j < |r| ensures r[i].key != r[j].key {
        assert r[j] == ll[j - 1];
        assert i > 0 ==> r[i] == ll[i - 1];
      }
    }
    assert Listed(r, items[el.key := el]) by { hide Covered, NoDuplicates; }
    assert Covered(r, items[el.key := el]) by { hide Listed, NoDuplicates; }
  }

  lemma DropKeeps<E>(ll: seq<Element<E>>, items: map<string, Element<E>>)
    requires Indexed(ll, items) && ll != []
    ensures Indexed(ll[..|ll| - 1], items - {ll[|ll| - 1].key}) && |items - {ll[|ll| - 1].key}| == |ll| - 1
  {
    var last, r := ll[|ll| - 1], ll[..|ll| - 1];
    MapWithout(items, last.key);
    assert NoDuplicates(r) by { hide Covered, Listed; }
    assert forall x :: x in ll && x != last ==> x in r by {
      hide Listed, Covered, NoDuplicates;
      forall x | x in ll && x != last ensures x in r {
        var j :| 0 <= j < |ll| && ll[j] == x;
        assert r[j] == x;
      }
    }
    assert forall x :: x in r ==> x in ll && x.key != last.key by { hide Listed, Covered; }
    assert Listed(r, items - {last.key}) by { hide Covered, NoDuplicates; }
    assert Covered(r, items - {last.key}) by { hide NoDuplicates; }
  }

  // ---------------------------------------------------------------- what the sequences promise

  /** Every operation keeps one slot per key, and a put never leaves more than the capacity. */
  lemma OperationsKeepDistinct<E>(s: seq<Slot<E>>, key: string, entry: E, max: int)
    requires Distinct(s)
    ensures Distinct(Touch(s, key)) && |Touch(s, key)| == |s|
    ensures Distinct(Insert(s, key, entry, max))
    ensures |s| <= max ==> |Insert(s, key, entry, max)| <= max
  {
    hide Moved;
  }

  // ---------------------------------------------------------------- the reference cache

  /** A cache that stamps every use with a counter and evicts the smallest stamp. */
  datatype Use<E> = Use(entry: E, stamp: nat)
  datatype Op<E> = GetOp(key: string) | PutOp(key: string, entry: E)

  predicate Oldest<E>(m: map<string, Use<E>>, k: string) {
    k in m && forall j :: j in m && j != k ==> m[k].stamp < m[j].stamp
  }

  ghost function Evict<E>(m: map<string, Use<E>>, max: nat): map<string, Use<E>> {
    if |m| > max && exists k :: Oldest(m, k) then
      var k :| Oldest(m, k);
      m - {k}
    else m
  }

  ghost function StampStep<E>(m: map<string, Use<E>>, op: Op<E>, clock: nat, max: nat): map<string, Use<E>> {
    match op
    case GetOp(k) => if k in m then m[k := Use(m[k].entry, clock)] else m
    case PutOp(k, e) => if k in m then m[k := Use(e, clock)] else Evict(m[k := Use(e, clock)], max)
  }

  ghost function StampAnswers<E>(m: map<string, Use<E>>, ops: seq<Op<E>>, clock: nat, max: nat): seq<Option<E>>
    decreases |ops|
  {
    if ops == [] then []
    else
      [if ops[0].key in m then Some(m[ops[0].key].entry) else None]
      + StampAnswers(StampStep(m, ops[0], clock, max), ops[1..], clock + 1, max)
  }

  function ListStep<E>(s: seq<Slot<E>>, op: Op<E>, max: nat): seq<Slot<E>> {
    match op
    case GetOp(k) => Touch(s, k)
    case PutOp(k, e) => Insert(s, k, e, max)
  }

  /** What a lookup of each operation's key finds just before the operation. */
  function ListAnswers<E>(s: seq<Slot<E>>, ops: seq<Op<E>>, max: nat): seq<Option<E>>
    decreases |ops|
  {
    if ops == [] then []
    else [Lookup(s, ops[0].key)] + ListAnswers(ListStep(s, ops[0], max), ops[1..], max)
  }

  ghost predicate Holds<E>(s: seq<Slot<E>>, m: map<string, Use<E>>, clock: nat) {
    && (forall i :: 0 <= i < |s| ==> s[i].key in m && m[s[i].key].entry == s[i].entry && m[s[i].key].stamp < clock)
    && (forall k :: k in m ==> Find(s, k) < |s|)
  }

  ghost predicate Ordered<E>(s: seq<Slot<E>>, m: map<string, Use<E>>) {
    && (forall i :: 0 <= i < |s| ==> s[i].key in m)
    && (forall i, j :: 0 <= i < j < |s| ==> m[s[i].key].stamp > m[s[j].key].stamp)
  }

  /** The list is the stamped cache, most recent stamp first. */
  ghost predicate Agree<E>(s: seq<Slot<E>>, m: map<string, Use<E>>, clock: nat) {
    |m| == |s| && Holds(s, m, clock) && Ordered(s, m)
  }

  /** A key standing somewhere is found. */
  lemma Found<E>(s: seq<Slot<E>>, i: nat)
    requires i < |s|
    ensures Find(s, s[i].key) <= i
  {}

  lemma MovedHolds<E>(s: seq<Slot<E>>, m: map<string, Use<E>>, i: nat, entry: E, clock: nat)
    requires Agree(s, m, clock) && i < |s|
    ensures Holds(Moved(s[i := Slot(s[i].key, entry)], i), m[s[i].key := Use(entry, clock)], clock + 1)
  {
    hide Moved, Find;
    var key := s[i].key;
    var s', m' := Moved(s[i := Slot(key, entry)], i), m[key := Use(entry, clock)];
    forall j | 0 <= j < |s'|
      ensures s'[j].key in m' && m'[s'[j].key].entry == s'[j].entry && m'[s'[j].key].stamp < clock + 1
    {
      assert s'[j] == if j == 0 then Slot(key, entry) else if j <= i then s[j - 1] else s[j];
    }
    forall k | k in m' ensures Find(s', k) < |s'| {
      var j := Find(s, k);
      Found(s', if j < i then j + 1 else if j == i then 0 else j);
    }
  }

  lemma MovedOrdered<E>(s: seq<Slot<E>>, m: map<string, Use<E>>, i: nat, entry: E, clock: nat)
    requires Agree(s, m, clock) && i < |s|
    ensures Ordered(Moved(s[i := Slot(s[i].key, entry)], i), m[s[i].key := Use(entry, clock)])
  {
    hide Moved;
    var key := s[i].key;
    var s', m' := Moved(s[i := Slot(key, entry)], i), m[key := Use(entry, clock)];
    forall j | 0 <= j < |s'|
      ensures s'[j].key in m'
      ensures m'[s'[j].key].stamp == if j == 0 then clock else m[s[if j <= i then j - 1 else j].key].stamp
    {
    }
  }

  lemma NewHolds<E>(s: seq<Slot<E>>, m: map<string, Use<E>>, key: string, entry: E, clock: nat)
    requires Holds(s, m, clock) && key !in m
    ensures Holds([Slot(key, entry)] + s, m[key := Use(entry, clock)], clock + 1)
  {
    hide Find;
    var s', m' := [Slot(key, entry)] + s, m[key := Use(entry, clock)];
    forall k | k in m' ensures Find(s', k) < |s'| {
      Found(s', if k == key then 0 else Find(s, k) + 1);
    }
  }

  lemma NewOrdered<E>(s: seq<Slot<E>>, m: map<string, Use<E>>, key: string, entry: E, clock: nat)
    requires Agree(s, m, clock) && key !in m
    ensures Ordered([Slot(key, entry)] + s, m[key := Use(entry, clock)])
  {
    var s', m' := [Slot(key, entry)] + s, m[key := Use(entry, clock)];
    forall j | 0 <= j < |s'|
      ensures s'[j].key in m' && m'[s'[j].key].stamp == if j == 0 then clock else m[s[j - 1].key].stamp
    {
    }
  }

  lemma LastIsOldest<E>(s: seq<Slot<E>>, m: map<string, Use<E>>, clock: nat)
    requires Agree(s, m, clock) && s != []
    ensures Oldest(m, s[|s| - 1].key)
    ensures forall k :: Oldest(m, k) ==> k == s[|s| - 1].key
  {}

  lemma EvictIsTrim<E>(s: seq<Slot<E>>, m: map<string, Use<E>>, clock: nat, max: nat)
    requires Agree(s, m, clock) && 0 < |s| <= max + 1
    ensures Agree(Trim(s, max), Evict(m, max), clock)
  {
    if |s| > max {
      LastIsOldest(s, m, clock);
      hide Holds, Oldest;
      DropOrdered(s, m);
      DropHolds(s, m, clock);
      MapWithout(m, s[|s| - 1].key);
    }
  }

  lemma DropOrdered<E>(s: seq<Slot<E>>, m: map<string, Use<E>>)
    requires Ordered(s, m) && s != []
    ensures Ordered(s[..|s| - 1], m - {s[|s| - 1].key})
    ensures forall i :: 0 <= i < |s| - 1 ==> s[i].key != s[|s| - 1].key
  {
    var s', m' := s[..|s| - 1], m - {s[|s| - 1].key};
    assert forall i :: 0 <= i < |s'| ==> s'[i] == s[i] && s'[i].key in m' && m'[s'[i].key] == m[s[i].key];
  }

  lemma DropHolds<E>(s: seq<Slot<E>>, m: map<string, Use<E>>, clock: nat)
    requires Holds(s, m, clock) && s != [] && forall i :: 0 <= i < |s| - 1 ==> s[i].key != s[|s| - 1].key
    ensures Holds(s[..|s| - 1], m - {s[|s| - 1].key}, clock)
  {
    hide Find;
    var s', m' := s[..|s| - 1], m - {s[|s| - 1].key};
    forall k | k in m' ensures Find(s', k) < |s'| {
      Found(s', Find(s, k));
    }
  }

  lemma MapWithout<K, V>(m: map<K, V>, k: K)
    requires k in m
    ensures |m - {k}| == |m| - 1
  {
    assert (m - {k}).Keys == m.Keys - {k};
  }

  lemma MapWith<K, V>(m: map<K, V>, k: K, v: V)
    ensures |m[k := v]| == if k in m then |m| else |m| + 1
  {
    assert m[k := v].Keys == m.Keys + {k};
  }

  lemma AgreeLater<E>(s: seq<Slot<E>>, m: map<string, Use<E>>, clock: nat)
    requires Agree(s, m, clock)
    ensures Agree(s, m, clock + 1)
  {}

  lemma FoundIffStamped<E>(s: seq<Slot<E>>, m: map<string, Use<E>>, key: string, clock: nat)
    requires Agree(s, m, clock)
    ensures key in m <==> Find(s, key) < |s|
    ensures key in m ==> m[key].entry == s[Find(s, key)].entry
  {}

  lemma AgreeStep<E>(s: seq<Slot<E>>, m: map<string, Use<E>>, op: Op<E>, clock: nat, max: nat)
    requires Agree(s, m, clock) && |s| <= max
    ensures Agree(ListStep(s, op, max), StampStep(m, op, clock, max), clock + 1)
    ensures |ListStep(s, op, max)| <= max
    ensures Lookup(s, op.key) == if op.key in m then Some(m[op.key].entry) else None
  {
    hide Moved, Holds, Ordered, Evict;
    var p := Find(s, op.key);
    FoundIffStamped(s, m, op.key, clock);
    if op.PutOp? || op.key in m {
      MapWith(m, op.key, Use(if op.PutOp? then op.entry else m[op.key].entry, clock));
    }
    if p < |s| {
      MovedHolds(s, m, p, if op.GetOp? then s[p].entry else op.entry, clock);
      MovedOrdered(s, m, p, if op.GetOp? then s[p].entry else op.entry, clock);
      assert s[p := Slot(s[p].key, s[p].entry)] == s;
    } else if op.GetOp? {
      AgreeLater(s, m, clock);
    } else {
      NewHolds(s, m, op.key, op.entry, clock);
      NewOrdered(s, m, op.key, op.entry, clock);
      EvictIsTrim([Slot(op.key, op.entry)] + s, m[op.key := Use(op.entry, clock)], clock + 1, max);
    }
  }

  /** Every run of gets and puts is answered as by the cache that evicts its least recently used key. */
  lemma {:induction false} ListIsLeastRecentlyUsed<E>(s: seq<Slot<E>>, m: map<string, Use<E>>, ops: seq<Op<E>>,
                                                      clock: nat, max: nat)
    requires Agree(s, m, clock) && |s| <= max
    ensures ListAnswers(s, ops, max) == StampAnswers(m, ops, clock, max)
    decreases |ops|
  {
    if ops == [] {
    } else {
      AgreeStep(s, m, ops[0], clock, max);
      ListIsLeastRecentlyUsed(ListStep(s, ops[0], max), StampStep(m, ops[0], clock, max), ops[1..], clock + 1, max);
    }
  }
}
