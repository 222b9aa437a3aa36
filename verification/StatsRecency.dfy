/** What the statistics cache keeps, told by the operations alone: its order is that of the last uses, and an
    insertion that overflows it gives up the key whose last use is the oldest. */
module StatsRecency {
  import opened Prelude
  import opened StatsCache

  /** An insertion uses its key, and so does a look-up that finds it. */
  predicate Uses<V>(before: Recency<V>, op: Op<V>, k: string) {
    (op.Insert? && op.key == k) || (op.Get? && op.key == k && HasKey(before, k))
  }

  /** The index of the last operation that used the key, or -1. */
  function LastUse<V>(capacity: nat, ops: seq<Op<V>>, k: string): (r: int)
    ensures -1 <= r < |ops|
    decreases |ops|
  {
    if |ops| == 0 then -1
    else
      var n := |ops| - 1;
      if Uses(Run(capacity, ops[..n]), ops[n], k) then n else LastUse(capacity, ops[..n], k)
  }

  function Keys<V>(s: Recency<V>): set<string> { set i | 0 <= i < |s| :: s[i].0 }

  lemma KeysMean<V>(s: Recency<V>, k: string)
    ensures k in Keys(s) <==> HasKey(s, k)
  {
  }

  // ----------------------------------------------------------- the order of uses

  ghost predicate Ascends<V>(s: Recency<V>, rank: string -> int) {
    forall i, j :: 0 <= i < j < |s| ==> rank(s[i].0) < rank(s[j].0)
  }

  lemma {:induction false} WithoutAscends<V>(s: Recency<V>, k: string, rank: string -> int)
    requires Ascends(s, rank)
    ensures Ascends(Without(s, k), rank)
  {
    if |s| != 0 {
      var m := |s| - 1;
      var rest := Without(s[..m], k);
      WithoutAscends(s[..m], k, rank);
      forall i | 0 <= i < |rest|
        ensures rank(rest[i].0) < rank(s[m].0)
      {
        assert rest[i] in s[..m];
      }
    }
  }

  lemma AppendAscends<V>(s: Recency<V>, x: (string, V), rank: string -> int)
    requires Ascends(s, rank) && forall i :: 0 <= i < |s| ==> rank(s[i].0) < rank(x.0)
    ensures Ascends(s + [x], rank)
  {
  }

  lemma SameAscends<V>(s: Recency<V>, before: string -> int, now: string -> int)
    requires Ascends(s, before) && forall i :: 0 <= i < |s| ==> now(s[i].0) == before(s[i].0)
    ensures Ascends(s, now)
  {
  }

  lemma NewestAscends<V>(s: Recency<V>, capacity: nat, rank: string -> int)
    requires Ascends(s, rank)
    ensures Ascends(Newest(s, capacity), rank)
  {
  }

  ghost function Rank<V>(capacity: nat, ops: seq<Op<V>>): string -> int {
    (k: string) => LastUse(capacity, ops, k)
  }

  /** Only the used key moves. */
  lemma LastUseStep<V>(capacity: nat, ops: seq<Op<V>>, op: Op<V>, k: string)
    ensures LastUse(capacity, ops + [op], k)
            == if Uses(Run(capacity, ops), op, k) then |ops| else LastUse(capacity, ops, k)
  {
    assert (ops + [op])[..|ops|] == ops;
  }

  lemma RunStep<V>(capacity: nat, ops: seq<Op<V>>, op: Op<V>)
    ensures Run(capacity, ops + [op]) == Step(Run(capacity, ops), capacity, op)
  {
    assert (ops + [op])[..|ops|] == ops;
  }

  /** Moving a used key to the end keeps the order of last uses. */
  lemma TouchAscends<V>(capacity: nat, ops: seq<Op<V>>, op: Op<V>, k: string, v: V)
    requires Ascends(Run(capacity, ops), Rank(capacity, ops)) && Uses(Run(capacity, ops), op, k)
    ensures Ascends(Without(Run(capacity, ops), k) + [(k, v)], Rank(capacity, ops + [op]))
  {
    var s, rank := Run(capacity, ops), Rank(capacity, ops + [op]);
    var rest := Without(s, k);
    WithoutAscends(s, k, Rank(capacity, ops));
    forall i | 0 <= i < |rest|
      ensures rank(rest[i].0) == LastUse(capacity, ops, rest[i].0) < |ops|
    {
      assert rest[i] in rest && rest[i].0 != k;
      LastUseStep(capacity, ops, op, rest[i].0);
    }
    SameAscends(rest, Rank(capacity, ops), rank);
    LastUseStep(capacity, ops, op, k);
    AppendAscends(rest, (k, v), rank);
  }

  lemma UnusedAscends<V>(capacity: nat, ops: seq<Op<V>>, op: Op<V>, s: Recency<V>)
    requires Ascends(s, Rank(capacity, ops)) && forall k :: !Uses(Run(capacity, ops), op, k)
    ensures Ascends(s, Rank(capacity, ops + [op]))
  {
    forall i | 0 <= i < |s|
      ensures LastUse(capacity, ops + [op], s[i].0) == LastUse(capacity, ops, s[i].0)
    {
      LastUseStep(capacity, ops, op, s[i].0);
    }
    SameAscends(s, Rank(capacity, ops), Rank(capacity, ops + [op]));
  }

  lemma StepAscends<V>(capacity: nat, ops: seq<Op<V>>, op: Op<V>)
    requires Ascends(Run(capacity, ops), Rank(capacity, ops))
    ensures Ascends(Run(capacity, ops + [op]), Rank(capacity, ops + [op]))
  {
    var s := Run(capacity, ops);
    RunStep(capacity, ops, op);
    match op {
      case Get(k) =>
        if HasKey(s, k) {
          TouchAscends(capacity, ops, op, k, Lookup(s, k).value);
        } else {
          UnusedAscends(capacity, ops, op, s);
        }
      case Insert(k, v) =>
        TouchAscends(capacity, ops, op, k, v);
        NewestAscends(Without(s, k) + [(k, v)], capacity, Rank(capacity, ops + [op]));
      case Remove(k) =>
        WithoutAscends(s, k, Rank(capacity, ops));
        UnusedAscends(capacity, ops, op, Without(s, k));
      case Clear =>
    }
  }

  /** After any operations the cache is ordered by last use. */
  lemma {:induction false} OrderedByLastUse<V>(capacity: nat, ops: seq<Op<V>>)
    ensures forall i, j :: 0 <= i < j < |Run(capacity, ops)| ==>
              LastUse(capacity, ops, Run(capacity, ops)[i].0) < LastUse(capacity, ops, Run(capacity, ops)[j].0)
  {
    RunAscends(capacity, ops);
    assert Ascends(Run(capacity, ops), Rank(capacity, ops));
  }

  lemma {:induction false} RunAscends<V>(capacity: nat, ops: seq<Op<V>>)
    ensures Ascends(Run(capacity, ops), Rank(capacity, ops))
  {
    if |ops| != 0 {
      var n := |ops| - 1;
      RunAscends(capacity, ops[..n]);
      StepAscends(capacity, ops[..n], ops[n]);
      assert ops[..n] + [ops[n]] == ops;
    }
  }

  // ------------------------------------------------------------- the keys it holds

  lemma {:induction false} RunKeeps<V>(capacity: nat, ops: seq<Op<V>>)
    ensures UniqueKeys(Run(capacity, ops)) && |Run(capacity, ops)| <= capacity
  {
    if |ops| != 0 {
      var n := |ops| - 1;
      RunKeeps(capacity, ops[..n]);
      StepKeeps(Run(capacity, ops[..n]), capacity, ops[n]);
    }
  }

  lemma {:induction false} KeysCount<V>(s: Recency<V>)
    requires UniqueKeys(s)
    ensures |Keys(s)| == |s|
  {
    if |s| != 0 {
      var m := |s| - 1;
      KeysCount(s[..m]);
      assert Keys(s) == Keys(s[..m]) + {s[m].0} by {
        forall k
          ensures k in Keys(s) <==> k in Keys(s[..m]) || k == s[m].0
        {
          if i :| 0 <= i < m && s[i].0 == k { assert s[..m][i].0 == k; }
          if i :| 0 <= i < m && s[..m][i].0 == k { assert s[i].0 == k; }
          if k == s[m].0 { assert s[m].0 in Keys(s); }
        }
      }
    }
  }

  /** The keys of the list that were used after `k`. */
  function UsedAfter<V>(s: Recency<V>, capacity: nat, ops: seq<Op<V>>, k: string): set<string> {
    set x | x in Keys(s) && LastUse(capacity, ops, x) > LastUse(capacity, ops, k)
  }

  lemma UsedLater<V>(s: Recency<V>, rank: string -> int, i: nat, j: nat)
    requires Ascends(s, rank) && i < |s| && j < |s| && rank(s[i].0) < rank(s[j].0)
    ensures i < j
  {
  }

  lemma UsedAfterCount<V>(s: Recency<V>, capacity: nat, ops: seq<Op<V>>, i: nat)
    requires UniqueKeys(s) && Ascends(s, Rank(capacity, ops)) && i < |s|
    ensures |UsedAfter(s, capacity, ops, s[i].0)| == |s| - 1 - i
  {
    var tail, after := s[i + 1..], UsedAfter(s, capacity, ops, s[i].0);
    var rank := Rank(capacity, ops);
    forall x
      ensures x in after <==> x in Keys(tail)
    {
      if x in Keys(tail) {
        var j :| 0 <= j < |tail| && tail[j].0 == x;
        assert s[i + 1 + j].0 == x && rank(s[i].0) < rank(s[i + 1 + j].0);
      }
      if x in after {
        var j :| 0 <= j < |s| && s[j].0 == x;
        UsedLater(s, rank, i, j);
        assert tail[j - i - 1].0 == x;
      }
    }
    assert after == Keys(tail);
    KeysCount(tail);
  }

  lemma NewestAt<V>(s: Recency<V>, capacity: nat, j: nat)
    requires j < |Newest(s, capacity)|
    ensures var d := |s| - |Newest(s, capacity)|; d >= 0 && Newest(s, capacity)[j] == s[d + j]
  {
  }

  lemma NewestFrom<V>(s: Recency<V>, capacity: nat, k: string)
    requires HasKey(Newest(s, capacity), k)
    ensures HasKey(s, k)
  {
    var t := Newest(s, capacity);
    var j :| 0 <= j < |t| && t[j].0 == k;
    NewestAt(s, capacity, j);
    assert s[|s| - |t| + j].0 == k;
  }

  lemma NewestHas<V>(s: Recency<V>, capacity: nat, i: nat)
    requires UniqueKeys(s) && i < |s|
    ensures HasKey(Newest(s, capacity), s[i].0) <==> |s| - 1 - i < capacity
  {
    var t := Newest(s, capacity);
    if |s| - 1 - i < capacity {
      var j := i - (|s| - |t|);
      NewestAt(s, capacity, j);
      assert t[j].0 == s[i].0;
    }
    if j :| 0 <= j < |t| && t[j].0 == s[i].0 { NewestAt(s, capacity, j); }
  }

  /** Of a list in the order of last uses, the newest entries are those with few keys used after them. */
  lemma NewestKeys<V>(s: Recency<V>, capacity: nat, ops: seq<Op<V>>, k: string)
    requires UniqueKeys(s) && Ascends(s, Rank(capacity, ops))
    ensures HasKey(Newest(s, capacity), k) <==> HasKey(s, k) && |UsedAfter(s, capacity, ops, k)| < capacity
  {
    if HasKey(s, k) {
      var i :| 0 <= i < |s| && s[i].0 == k;
      UsedAfterCount(s, capacity, ops, i);
      NewestHas(s, capacity, i);
    } else if HasKey(Newest(s, capacity), k) {
      NewestFrom(s, capacity, k);
    }
  }

  lemma {:induction false} WithoutKeys<V>(s: Recency<V>, x: string, k: string)
    ensures HasKey(Without(s, x), k) <==> HasKey(s, k) && k != x
  {
    if |s| != 0 {
      var m := |s| - 1;
      WithoutKeys(s[..m], x, k);
      SnocKeys(s[..m], s[m], k);
      SnocKeys(Without(s[..m], x), s[m], k);
      assert s == s[..m] + [s[m]];
    }
  }

  lemma SnocKeys<V>(s: Recency<V>, e: (string, V), k: string)
    ensures HasKey(s + [e], k) <==> HasKey(s, k) || e.0 == k
  {
    if i :| 0 <= i < |s| && s[i].0 == k { assert (s + [e])[i].0 == k; }
    if e.0 == k { assert (s + [e])[|s|].0 == k; }
    if i :| 0 <= i < |s + [e]| && (s + [e])[i].0 == k && i < |s| { assert s[i].0 == k; }
  }

  /** The candidates of an insertion: what is held, and the new key. */
  function Candidates<V>(capacity: nat, ops: seq<Op<V>>, k: string): set<string> {
    Keys(Run(capacity, ops)) + {k}
  }

  /** The candidates that were used after `k`, once the operation is done. */
  function Newer<V>(capacity: nat, ops: seq<Op<V>>, op: Op<V>, k: string): set<string>
    requires op.Insert?
  {
    set x | x in Candidates(capacity, ops, op.key)
            && LastUse(capacity, ops + [op], x) > LastUse(capacity, ops + [op], k)
  }

  lemma InsertKeys<V>(capacity: nat, ops: seq<Op<V>>, op: Op<V>, k: string)
    requires op.Insert?
    ensures HasKey(Run(capacity, ops + [op]), k) <==>
              k in Candidates(capacity, ops, op.key) && |Newer(capacity, ops, op, k)| < capacity
  {
    var s := Run(capacity, ops);
    var u := Without(s, op.key) + [(op.key, op.value)];
    RunStep(capacity, ops, op);
    RunKeeps(capacity, ops);
    RunAscends(capacity, ops);
    TouchMeaning(s, op.key, op.value);
    TouchAscends(capacity, ops, op, op.key, op.value);
    CandidateKeys(capacity, ops, op);
    NewestKeys(u, capacity, ops + [op], k);
    KeysMean(u, k);
    assert Newer(capacity, ops, op, k) == UsedAfter(u, capacity, ops + [op], k);
  }

  lemma CandidateKeys<V>(capacity: nat, ops: seq<Op<V>>, op: Op<V>)
    requires op.Insert?
    ensures Keys(Without(Run(capacity, ops), op.key) + [(op.key, op.value)]) == Candidates(capacity, ops, op.key)
  {
    var s := Run(capacity, ops);
    forall k
      ensures k in Keys(Without(s, op.key) + [(op.key, op.value)]) <==> k in Candidates(capacity, ops, op.key)
    {
      KeysMean(Without(s, op.key) + [(op.key, op.value)], k);
      KeysMean(s, k);
      WithoutKeys(s, op.key, k);
      SnocKeys(Without(s, op.key), (op.key, op.value), k);
    }
  }

  lemma GetKeys<V>(s: Recency<V>, x: string, v: V, k: string)
    requires HasKey(s, x)
    ensures HasKey(Without(s, x) + [(x, v)], k) <==> HasKey(s, k)
  {
    WithoutKeys(s, x, k);
    SnocKeys(Without(s, x), (x, v), k);
  }

  /** What one more operation does to the keys: a look-up changes none, an insertion keeps of what was held and the new
      key the `capacity` ones used last, and a removal takes out its key. */
  lemma HeldKeys<V>(capacity: nat, ops: seq<Op<V>>, op: Op<V>, k: string)
    ensures op.Get? ==> (HasKey(Run(capacity, ops + [op]), k) <==> HasKey(Run(capacity, ops), k))
    ensures op.Insert? ==>
              (HasKey(Run(capacity, ops + [op]), k) <==>
                 k in Candidates(capacity, ops, op.key) && |Newer(capacity, ops, op, k)| < capacity)
    ensures op.Remove? ==> (HasKey(Run(capacity, ops + [op]), k) <==> HasKey(Run(capacity, ops), k) && k != op.key)
    ensures op.Clear? ==> !HasKey(Run(capacity, ops + [op]), k)
  {
    var s := Run(capacity, ops);
    RunStep(capacity, ops, op);
    match op {
      case Get(x) => if HasKey(s, x) { GetKeys(s, x, Lookup(s, x).value, k); }
      case Insert(x, v) => InsertKeys(capacity, ops, op, k);
      case Remove(x) => WithoutKeys(s, x, k);
      case Clear =>
    }
  }

  // ------------------------------------------------------------- the values it holds

  /** The value of the last insertion of the key. */
  function LastValue<V>(ops: seq<Op<V>>, k: string): Option<V> {
    if |ops| == 0 then None
    else
      var op := ops[|ops| - 1];
      if op.Insert? && op.key == k then Some(op.value) else LastValue(ops[..|ops| - 1], k)
  }

  ghost predicate HoldsLast<V>(s: Recency<V>, ops: seq<Op<V>>) {
    forall e :: e in s ==> LastValue(ops, e.0) == Some(e.1)
  }

  lemma HoldsLastStep<V>(s: Recency<V>, capacity: nat, ops: seq<Op<V>>, op: Op<V>)
    requires UniqueKeys(s) && HoldsLast(s, ops)
    ensures HoldsLast(Step(s, capacity, op), ops + [op])
  {
    assert (ops + [op])[..|ops|] == ops;
    var t := Step(s, capacity, op);
    if op.Get? && HasKey(s, op.key) { LookupIn(s, op.key); }
    forall e | e in t
      ensures LastValue(ops + [op], e.0) == Some(e.1)
    {
      if op.Insert? {
        var u := Without(s, op.key) + [(op.key, op.value)];
        assert e in u;
      }
    }
  }

  /** Whatever the cache holds is what was last inserted for its key. */
  lemma {:induction false} HeldValues<V>(capacity: nat, ops: seq<Op<V>>, k: string)
    ensures HoldsLast(Run(capacity, ops), ops)
    ensures Lookup(Run(capacity, ops), k).Some? ==> Lookup(Run(capacity, ops), k) == LastValue(ops, k)
  {
    if |ops| != 0 {
      var n := |ops| - 1;
      HeldValues(capacity, ops[..n], k);
      RunKeeps(capacity, ops[..n]);
      HoldsLastStep(Run(capacity, ops[..n]), capacity, ops[..n], ops[n]);
      assert ops[..n] + [ops[n]] == ops;
    }
    if Lookup(Run(capacity, ops), k).Some? { LookupIn(Run(capacity, ops), k); }
  }
}
