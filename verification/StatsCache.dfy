/** The row-group statistics cache (`query_lib/src/data_access.rs`): a map plus an access order.  It
    refines a plain recency list, and a larger cache always holds what a smaller one holds. */
module StatsCache {
  import opened Prelude

  /** Entries from the least to the most recently used. */
  type Recency<V> = seq<(string, V)>

  predicate HasKey<V>(s: Recency<V>, k: string) { exists i :: 0 <= i < |s| && s[i].0 == k }

  predicate UniqueKeys<V>(s: Recency<V>) { forall i, j :: 0 <= i < j < |s| ==> s[i].0 != s[j].0 }

  function Lookup<V>(s: Recency<V>, k: string): (r: Option<V>)
    ensures r.None? <==> !HasKey(s, k)
  {
    if |s| == 0 then None
    else if s[|s| - 1].0 == k then Some(s[|s| - 1].1)
    else
      assert HasKey(s, k) <==> HasKey(s[..|s| - 1], k);
      Lookup(s[..|s| - 1], k)
  }

  function Without<V>(s: Recency<V>, k: string): Recency<V> {
    Filter(s, (p: (string, V)) => p.0 != k)
  }

  function Newest<V>(s: Recency<V>, capacity: nat): Recency<V> {
    if |s| > capacity then s[|s| - capacity..] else s
  }

  datatype Op<V> = Get(key: string) | Insert(key: string, value: V) | Remove(key: string) | Clear

  /** One operation on the recency list. */
  function Step<V>(s: Recency<V>, capacity: nat, op: Op<V>): Recency<V> {
    match op
    case Get(k) =>
      (match Lookup(s, k)
       case Some(v) => Without(s, k) + [(k, v)]
       case None => s)
    case Insert(k, v) => Newest(Without(s, k) + [(k, v)], capacity)
    case Remove(k) => Without(s, k)
    case Clear => []
  }

  function Run<V>(capacity: nat, ops: seq<Op<V>>): Recency<V> {
    if |ops| == 0 then [] else Step(Run(capacity, ops[..|ops| - 1]), capacity, ops[|ops| - 1])
  }

  // ------------------------------------------------------------ list lemmas

  lemma {:induction false} LookupIs<V>(s: Recency<V>, k: string, v: V)
    requires UniqueKeys(s) && (k, v) in s
    ensures Lookup(s, k) == Some(v)
  {
    var m := |s| - 1;
    assert s == s[..m] + [s[m]];
    if (k, v) != s[m] {
      var i :| 0 <= i < |s| && s[i] == (k, v);
      LookupIs(s[..m], k, v);
    }
  }

  lemma {:induction false} LookupIn<V>(s: Recency<V>, k: string)
    requires Lookup(s, k).Some?
    ensures (k, Lookup(s, k).value) in s
  {
    if s[|s| - 1].0 != k { LookupIn(s[..|s| - 1], k); }
  }

  lemma {:induction false} WithoutMeaning<V>(s: Recency<V>, k: string)
    requires UniqueKeys(s)
    ensures UniqueKeys(Without(s, k)) && !HasKey(Without(s, k), k)
    ensures HasKey(s, k) ==> |Without(s, k)| == |s| - 1
    ensures !HasKey(s, k) ==> Without(s, k) == s
  {
    if |s| != 0 {
      var m := |s| - 1;
      var rest := Without(s[..m], k);
      WithoutMeaning(s[..m], k);
      assert s == s[..m] + [s[m]];
      assert HasKey(s, k) <==> HasKey(s[..m], k) || s[m].0 == k;
      forall i | 0 <= i < |rest|
        ensures rest[i].0 != s[m].0
      {
        assert rest[i] in s[..m];
      }
    }
  }

  lemma TouchMeaning<V>(s: Recency<V>, k: string, v: V)
    requires UniqueKeys(s)
    ensures UniqueKeys(Without(s, k) + [(k, v)])
    ensures |Without(s, k) + [(k, v)]| == if HasKey(s, k) then |s| else |s| + 1
  {
    WithoutMeaning(s, k);
    var w := Without(s, k);
    forall i | 0 <= i < |w|
      ensures w[i].0 != k
    {
      assert w[i] in w;
    }
  }

  /** Keys stay unique and the size within capacity. */
  lemma StepKeeps<V>(s: Recency<V>, capacity: nat, op: Op<V>)
    requires UniqueKeys(s) && |s| <= capacity
    ensures UniqueKeys(Step(s, capacity, op)) && |Step(s, capacity, op)| <= capacity
  {
    match op {
      case Get(k) => if HasKey(s, k) { TouchMeaning(s, k, Lookup(s, k).value); }
      case Insert(k, v) => TouchMeaning(s, k, v);
      case Remove(k) => WithoutMeaning(s, k);
      case Clear =>
    }
  }

  // -------------------------------------------------------------- inclusion

  /** `a` is what is left of `b` when other keys are taken out: same order, same values. */
  predicate Sublist<V(==)>(a: Recency<V>, b: Recency<V>) {
    if |a| == 0 then true
    else if |b| == 0 then false
    else if a[|a| - 1] == b[|b| - 1] then Sublist(a[..|a| - 1], b[..|b| - 1])
    else Sublist(a, b[..|b| - 1])
  }

  lemma {:induction false} SublistIn<V>(a: Recency<V>, b: Recency<V>)
    requires Sublist(a, b)
    ensures forall x :: x in a ==> x in b
    ensures |a| <= |b|
  {
    if |a| != 0 {
      assert a == a[..|a| - 1] + [a[|a| - 1]];
      if a[|a| - 1] == b[|b| - 1] { SublistIn(a[..|a| - 1], b[..|b| - 1]); } else { SublistIn(a, b[..|b| - 1]); }
    }
  }

  lemma {:induction false} SublistDrop<V>(a: Recency<V>, b: Recency<V>)
    requires Sublist(a, b) && |a| > 0
    ensures Sublist(a[..|a| - 1], b)
    decreases |b|, 0
  {
    if a[|a| - 1] == b[|b| - 1] {
      SublistMore(a[..|a| - 1], b[..|b| - 1], b[|b| - 1]);
      assert b == b[..|b| - 1] + [b[|b| - 1]];
    } else {
      SublistDrop(a, b[..|b| - 1]);
      SublistMore(a[..|a| - 1], b[..|b| - 1], b[|b| - 1]);
      assert b == b[..|b| - 1] + [b[|b| - 1]];
    }
  }

  lemma {:induction false} SublistMore<V>(a: Recency<V>, b: Recency<V>, x: (string, V))
    requires Sublist(a, b)
    ensures Sublist(a, b + [x])
    decreases |b|, 1
  {
    assert (b + [x])[..|b|] == b;
    if |a| != 0 && a[|a| - 1] == x { SublistDrop(a, b); }
  }

  lemma SublistAppend<V>(a: Recency<V>, b: Recency<V>, x: (string, V))
    requires Sublist(a, b)
    ensures Sublist(a + [x], b + [x])
  {
    assert (a + [x])[..|a|] == a && (b + [x])[..|b|] == b;
  }

  lemma {:induction false} SublistWithout<V>(a: Recency<V>, b: Recency<V>, k: string)
    requires Sublist(a, b)
    ensures Sublist(Without(a, k), Without(b, k))
  {
    if |a| != 0 {
      var m, n := |a| - 1, |b| - 1;
      if a[m] == b[n] {
        SublistWithout(a[..m], b[..n], k);
        if b[n].0 != k { SublistAppend(Without(a[..m], k), Without(b[..n], k), b[n]); }
      } else {
        SublistWithout(a, b[..n], k);
        if b[n].0 != k { SublistMore(Without(a, k), Without(b[..n], k), b[n]); }
      }
    }
  }

  lemma TailSnoc<T>(a: seq<T>)
    requires |a| > 1
    ensures a[1..] == a[..|a| - 1][1..] + [a[|a| - 1]]
  {
  }

  /** Dropping the head of both lists. */
  lemma {:induction false} SublistTail<V>(a: Recency<V>, b: Recency<V>)
    requires Sublist(a, b) && |a| > 0
    ensures Sublist(a[1..], b[1..])
  {
    var m, n := |a| - 1, |b| - 1;
    if m == 0 {
      assert a[1..] == [];
    } else if a[m] == b[n] {
      SublistTail(a[..m], b[..n]);
      SublistAppend(a[..m][1..], b[..n][1..], b[n]);
      SublistIn(a[..m], b[..n]);
      TailSnoc(a);
      TailSnoc(b);
    } else {
      SublistTail(a, b[..n]);
      SublistMore(a[1..], b[..n][1..], b[n]);
      SublistIn(a, b[..n]);
      TailSnoc(b);
    }
  }

  /** The smaller cache is included in the larger one, which is not ahead by more than the difference in capacity. */
  ghost predicate Included<V>(a: Recency<V>, small: nat, b: Recency<V>, large: nat) {
    && UniqueKeys(a) && UniqueKeys(b) && |a| <= small && |b| <= large && small <= large
    && Sublist(a, b) && |b| - |a| <= large - small
  }

  lemma HasKeyIncluded<V>(a: Recency<V>, b: Recency<V>, k: string)
    requires Sublist(a, b) && UniqueKeys(a) && UniqueKeys(b)
    ensures HasKey(a, k) ==> HasKey(b, k) && Lookup(a, k) == Lookup(b, k)
  {
    if HasKey(a, k) {
      LookupIn(a, k);
      SublistIn(a, b);
      LookupIs(b, k, Lookup(a, k).value);
    }
  }

  lemma InsertIncluded<V>(a: Recency<V>, small: nat, b: Recency<V>, large: nat, k: string, v: V)
    requires Included(a, small, b, large)
    ensures Included(Newest(Without(a, k) + [(k, v)], small), small, Newest(Without(b, k) + [(k, v)], large), large)
  {
    var c, d := Without(a, k) + [(k, v)], Without(b, k) + [(k, v)];
    TouchMeaning(a, k, v);
    TouchMeaning(b, k, v);
    HasKeyIncluded(a, b, k);
    SublistWithout(a, b, k);
    SublistAppend(Without(a, k), Without(b, k), (k, v));
    SublistIn(c, d);
    TrimIncluded(c, small, d, large);
  }

  /** Trimming two lists to their capacities keeps the inclusion when the larger does not overflow alone. */
  lemma TrimIncluded<V>(c: Recency<V>, small: nat, d: Recency<V>, large: nat)
    requires UniqueKeys(c) && UniqueKeys(d) && Sublist(c, d) && small <= large && |c| <= |d|
    requires |c| <= small + 1 && |d| <= large + 1 && (|d| == large + 1 ==> |c| == small + 1)
    requires |c| <= small ==> |d| - |c| <= large - small
    ensures Included(Newest(c, small), small, Newest(d, large), large)
  {
    if |d| > large {
      SublistTail(c, d);
      assert c[|c| - small..] == c[1..] && d[|d| - large..] == d[1..];
    } else if |c| > small {
      assert c[|c| - small..] == c[1..];
      SublistHead(c, d);
    }
  }

  lemma {:induction false} SublistHead<V>(a: Recency<V>, b: Recency<V>)
    requires Sublist(a, b) && |a| > 0
    ensures Sublist(a[1..], b)
  {
    var m, n := |a| - 1, |b| - 1;
    if a[m] == b[n] {
      if m > 0 {
        SublistHead(a[..m], b[..n]);
        SublistAppend(a[..m][1..], b[..n], b[n]);
        assert a[1..] == a[..m][1..] + [a[m]] && b == b[..n] + [b[n]];
      }
    } else {
      SublistHead(a, b[..n]);
      SublistMore(a[1..], b[..n], b[n]);
      assert b == b[..n] + [b[n]];
    }
  }

  lemma StepIncluded<V>(a: Recency<V>, small: nat, b: Recency<V>, large: nat, op: Op<V>)
    requires Included(a, small, b, large)
    ensures Included(Step(a, small, op), small, Step(b, large, op), large)
  {
    StepKeeps(a, small, op);
    StepKeeps(b, large, op);
    match op {
      case Get(k) =>
        HasKeyIncluded(a, b, k);
        if HasKey(b, k) {
          var v := Lookup(b, k).value;
          TouchMeaning(b, k, v);
          TouchMeaning(a, k, v);
          WithoutMeaning(a, k);
          SublistWithout(a, b, k);
          if HasKey(a, k) {
            SublistAppend(Without(a, k), Without(b, k), (k, v));
          } else {
            SublistMore(Without(a, k), Without(b, k), (k, v));
          }
        }
      case Insert(k, v) => InsertIncluded(a, small, b, large, k, v);
      case Remove(k) =>
        HasKeyIncluded(a, b, k);
        SublistWithout(a, b, k);
        WithoutMeaning(a, k);
        WithoutMeaning(b, k);
      case Clear =>
    }
  }

  /** Fed the same operations, a larger cache always holds everything the smaller one holds, with equal values. */
  lemma {:induction false} LargerCacheHoldsMore<V>(small: nat, large: nat, ops: seq<Op<V>>, k: string)
    requires small <= large
    ensures Included(Run(small, ops), small, Run(large, ops), large)
    ensures Lookup(Run(small, ops), k).Some? ==> Lookup(Run(large, ops), k) == Lookup(Run(small, ops), k)
  {
    if |ops| != 0 {
      LargerCacheHoldsMore(small, large, ops[..|ops| - 1], k);
      StepIncluded(Run(small, ops[..|ops| - 1]), small, Run(large, ops[..|ops| - 1]), large, ops[|ops| - 1]);
    }
    HasKeyIncluded(Run(small, ops), Run(large, ops), k);
  }

  // ------------------------------------------------------------- the cache

  /** The recency list that an order and a map stand for. */
  function ViewOf<V>(order: seq<string>, entries: map<string, V>): Recency<V>
    requires forall k :: k in order ==> k in entries
  {
    seq(|order|, i requires 0 <= i < |order| => (order[i], entries[order[i]]))
  }

  function Others(order: seq<string>, k: string): seq<string> {
    Filter(order, (x: string) => x != k)
  }

  lemma {:induction false} OrderSize(order: seq<string>)
    requires NoDup(order)
    ensures |set k | k in order| == |order|
  {
    if |order| != 0 {
      var m := |order| - 1;
      OrderSize(order[..m]);
      assert (set k | k in order) == (set k | k in order[..m]) + {order[m]} by {
        assert order == order[..m] + [order[m]];
      }
      assert order[m] !in order[..m];
    }
  }

  lemma SameSize<V>(order: seq<string>, entries: map<string, V>)
    requires NoDup(order) && forall k :: k in order <==> k in entries
    ensures |order| == |entries|
  {
    OrderSize(order);
    assert entries.Keys == set k | k in order;
  }

  lemma DropOldest<V>(order: seq<string>, entries: map<string, V>)
    requires NoDup(order) && |order| > 0 && forall k :: k in order <==> k in entries
    ensures NoDup(order[1..]) && forall k :: k in order[1..] <==> k in entries - {order[0]}
    ensures |order[1..]| == |entries - {order[0]}|
  {
    assert order == [order[0]] + order[1..];
    SameSize(order[1..], entries - {order[0]});
  }

  lemma ViewTail<V>(order: seq<string>, entries: map<string, V>, fewer: map<string, V>)
    requires |order| > 0 && (forall k :: k in order ==> k in entries)
    requires forall k :: k in order[1..] ==> k in fewer && k in entries && fewer[k] == entries[k]
    ensures ViewOf(order[1..], fewer) == ViewOf(order, entries)[1..]
  {
    forall i | 0 <= i < |order| - 1
      ensures ViewOf(order[1..], fewer)[i] == ViewOf(order, entries)[1..][i]
    {
      assert order[1..][i] == order[i + 1];
    }
  }

  lemma ViewSnoc<V>(order: seq<string>, x: string, entries: map<string, V>)
    requires (forall k :: k in order ==> k in entries) && x in entries
    ensures ViewOf(order + [x], entries) == ViewOf(order, entries) + [(x, entries[x])]
  {
  }

  lemma ViewLookup<V>(order: seq<string>, entries: map<string, V>, k: string)
    requires NoDup(order) && forall x :: x in order <==> x in entries
    ensures Lookup(ViewOf(order, entries), k) == if k in entries then Some(entries[k]) else None
  {
    var view := ViewOf(order, entries);
    if k in entries {
      var i :| 0 <= i < |order| && order[i] == k;
      assert view[i] in view;
      LookupIs(view, k, entries[k]);
    }
  }

  lemma {:induction false} ViewOthers<V>(order: seq<string>, entries: map<string, V>, k: string)
    requires forall x :: x in order ==> x in entries
    ensures Without(ViewOf(order, entries), k) == ViewOf(Others(order, k), entries)
  {
    if |order| != 0 {
      var m := |order| - 1;
      var init, x := order[..m], order[m];
      assert order == init + [x];
      ViewOthers(init, entries, k);
      ViewSnoc(init, x, entries);
      FilterStep(ViewOf(init, entries), (x, entries[x]), (p: (string, V)) => p.0 != k);
      FilterStep(init, x, (y: string) => y != k);
      ViewSnoc(Others(init, k), x, entries);
    }
  }

  /** A key written to the map is read through the end of the order only. */
  lemma ViewTouched<V>(order: seq<string>, entries: map<string, V>, k: string, v: V)
    requires forall x :: x in order ==> x in entries
    ensures ViewOf(Others(order, k) + [k], entries[k := v]) == Without(ViewOf(order, entries), k) + [(k, v)]
  {
    ViewOthers(order, entries, k);
  }

  lemma DropKey<V>(order: seq<string>, entries: map<string, V>, k: string)
    requires NoDup(order) && forall x :: x in order <==> x in entries
    ensures NoDup(Others(order, k)) && forall x :: x in Others(order, k) <==> x in entries - {k}
    ensures |Others(order, k)| == |entries - {k}| <= |entries|
    ensures ViewOf(Others(order, k), entries - {k}) == Without(ViewOf(order, entries), k)
  {
    ViewOthers(order, entries, k);
    FilterNoDup(order, (x: string) => x != k);
    SameSize(Others(order, k), entries - {k});
    SameSize(order, entries);
    ViewSame(Others(order, k), entries, entries - {k});
  }

  lemma ViewSame<V>(order: seq<string>, a: map<string, V>, b: map<string, V>)
    requires forall k :: k in order ==> k in a && k in b && a[k] == b[k]
    ensures ViewOf(order, a) == ViewOf(order, b)
  {
  }

  class ParquetRowGroupStatsCache<V> {
    var entries: map<string, V>
    var accessOrder: seq<string>
    const maxEntries: nat

    /** The order lists every key once. */
    ghost predicate Ordered()
      reads this
    {
      NoDup(accessOrder) && (forall k :: k in accessOrder <==> k in entries) && |accessOrder| == |entries|
    }

    ghost predicate Valid()
      reads this
    {
      Ordered() && |entries| <= maxEntries
    }

    ghost function View(): Recency<V>
      requires Ordered()
      reads this
    {
      ViewOf(accessOrder, entries)
    }

    constructor (maxEntries: nat)
      ensures Valid() && View() == [] && this.maxEntries == maxEntries
    {
      entries, accessOrder := map[], [];
      this.maxEntries := maxEntries;
    }

    /** Moves a key to the end of the order; the key may be new to it. */
    method Touch(k: string)
      requires k in entries && NoDup(accessOrder)
      requires forall x :: x in accessOrder ==> x in entries
      requires forall x :: x in entries ==> x in accessOrder || x == k
      modifies this`accessOrder
      ensures Ordered() && accessOrder == Others(old(accessOrder), k) + [k]
    {
      FilterNoDup(accessOrder, (x: string) => x != k);
      accessOrder := Others(accessOrder, k);
      assert k !in accessOrder;
      accessOrder := accessOrder + [k];
      SameSize(accessOrder, entries);
    }

    method Get(k: string) returns (r: Option<V>)
      requires Valid()
      modifies this
      ensures Valid() && r == Lookup(old(View()), k)
      ensures View() == Step(old(View()), maxEntries, Op.Get(k))
    {
      ViewLookup(accessOrder, entries, k);
      if k !in entries { return None; }
      r := Some(entries[k]);
      ViewTouched(accessOrder, entries, k, entries[k]);
      assert entries[k := entries[k]] == entries;
      Touch(k);
    }

    method Insert(k: string, v: V)
      requires Valid()
      modifies this
      ensures Valid() && View() == Step(old(View()), maxEntries, Op.Insert(k, v))
    {
      ViewTouched(accessOrder, entries, k, v);
      entries := entries[k := v];
      Touch(k);
      EvictIfNeeded();
    }

    /** One round of the eviction loop: the order is not empty, so that its front can be popped. */
    method EvictOldest()
      requires Ordered() && |entries| > 0
      modifies this
      ensures Ordered() && |entries| == old(|entries|) - 1 && View() == old(View())[1..]
    {
      var oldest := accessOrder[0];
      DropOldest(accessOrder, entries);
      ViewTail(accessOrder, entries, entries - {oldest});
      accessOrder := accessOrder[1..];
      entries := entries - {oldest};
    }

    method EvictIfNeeded()
      requires Ordered()
      modifies this
      ensures Valid() && View() == Newest(old(View()), maxEntries)
    {
      ghost var before := View();
      while |entries| > maxEntries
        invariant Ordered() && |entries| <= |before| && View() == before[|before| - |entries|..]
        invariant |before| > maxEntries ==> |entries| >= maxEntries
        invariant |before| <= maxEntries ==> |entries| == |before|
        decreases |entries|
      {
        ghost var n := |entries|;
        EvictOldest();
        assert before[|before| - n..][1..] == before[|before| - (n - 1)..];
      }
    }

    method Remove(k: string)
      requires Valid()
      modifies this
      ensures Valid() && View() == Step(old(View()), maxEntries, Op.Remove(k))
    {
      DropKey(accessOrder, entries, k);
      accessOrder := Others(accessOrder, k);
      entries := entries - {k};
    }

    method Clear()
      modifies this
      ensures Valid() && View() == []
    {
      entries, accessOrder := map[], [];
    }
  }
}
