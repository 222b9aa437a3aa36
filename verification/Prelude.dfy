/** Small shared vocabulary: optional values, the byte-wise order that Rust gives
    strings, and lists without duplicates. */
module Prelude {

  datatype Option<+T> = None | Some(value: T)

  /** `a < b` for Rust strings: the first differing character decides, a proper prefix is smaller. */
  predicate Less(a: string, b: string) {
    if |b| == 0 then false
    else if |a| == 0 then true
    else if a[0] == b[0] then Less(a[1..], b[1..])
    else a[0] < b[0]
  }

  /** The strings agree before position `i`, where `a` ends or has the smaller character. */
  predicate SmallerAt(a: string, b: string, i: nat) {
    && i <= |a| && i < |b| && a[..i] == b[..i]
    && (i == |a| || a[i] < b[i])
  }

  lemma SmallerStart(a: string, b: string, i: nat)
    requires SmallerAt(a, b, i) && |a| > 0
    ensures a[0] <= b[0]
  {
    if i > 0 { assert a[..i][0] == b[..i][0]; }
  }

  /** The order is the lexicographic one. */
  lemma {:induction false} LessIsLexicographic(a: string, b: string)
    ensures Less(a, b) <==> exists i: nat :: SmallerAt(a, b, i)
  {
    if |b| != 0 && |a| == 0 {
      assert SmallerAt(a, b, 0);
    } else if |b| != 0 && a[0] == b[0] {
      LessIsLexicographic(a[1..], b[1..]);
      if i: nat :| SmallerAt(a[1..], b[1..], i) {
        assert a[..i + 1] == [a[0]] + a[1..][..i] && b[..i + 1] == [b[0]] + b[1..][..i];
        assert SmallerAt(a, b, i + 1);
      }
      if i: nat :| SmallerAt(a, b, i) {
        assert a[1..][..i - 1] == a[..i][1..] && b[1..][..i - 1] == b[..i][1..];
        assert SmallerAt(a[1..], b[1..], i - 1);
      }
    } else if |b| != 0 {
      if a[0] < b[0] { assert SmallerAt(a, b, 0); }
      if i: nat :| SmallerAt(a, b, i) { SmallerStart(a, b, i); }
    }
  }

  lemma {:induction false} LessIrreflexive(a: string)
    ensures !Less(a, a)
  {
    if |a| != 0 { LessIrreflexive(a[1..]); }
  }

  lemma {:induction false} LessTransitive(a: string, b: string, c: string)
    requires Less(a, b) && Less(b, c)
    ensures Less(a, c)
  {
    if |a| != 0 && a[0] == b[0] && b[0] == c[0] {
      LessTransitive(a[1..], b[1..], c[1..]);
    }
  }

  lemma LessAsymmetric(a: string, b: string)
    ensures !(Less(a, b) && Less(b, a))
  {
    LessIrreflexive(a);
    if Less(a, b) && Less(b, a) { LessTransitive(a, b, a); }
  }

  lemma {:induction false} LessTotal(a: string, b: string)
    ensures a == b || Less(a, b) || Less(b, a)
  {
    if |a| != 0 && |b| != 0 && a[0] == b[0] {
      LessTotal(a[1..], b[1..]);
      if a[1..] == b[1..] {
        assert a == [a[0]] + a[1..] && b == [b[0]] + b[1..];
      }
    }
  }

  predicate NoDup<T(==)>(s: seq<T>) {
    forall i, j :: 0 <= i < j < |s| ==> s[i] != s[j]
  }

  lemma HeadIn<T>(s: seq<T>)
    requires |s| > 0
    ensures s[0] in s
  {
  }

  predicate IsPrefix<T(==)>(s: seq<T>, t: seq<T>) {
    |s| <= |t| && t[..|s|] == s
  }

  /** The elements of `s` that satisfy `p`, in order (`retain`, `filter`). */
  function Filter<T>(s: seq<T>, p: T -> bool): (r: seq<T>)
    ensures forall x :: x in r ==> x in s && p(x)
    ensures forall x :: x in s && p(x) ==> x in r
    ensures |r| <= |s|
  {
    if |s| == 0 then []
    else
      var rest := Filter(s[..|s| - 1], p);
      assert s == s[..|s| - 1] + [s[|s| - 1]];
      if p(s[|s| - 1]) then rest + [s[|s| - 1]] else rest
  }

  lemma FilterStep<T>(s: seq<T>, x: T, p: T -> bool)
    ensures Filter(s + [x], p) == if p(x) then Filter(s, p) + [x] else Filter(s, p)
  {
    assert (s + [x])[..|s|] == s;
  }

  lemma AppendAssociates<T>(a: seq<T>, b: seq<T>, c: seq<T>)
    ensures (a + b) + c == a + (b + c)
  {
  }

  lemma {:induction false} FilterConcat<T>(s: seq<T>, t: seq<T>, p: T -> bool)
    ensures Filter(s + t, p) == Filter(s, p) + Filter(t, p)
  {
    if |t| == 0 {
      assert s + t == s;
    } else {
      var m := |t| - 1;
      FilterConcat(s, t[..m], p);
      AppendAssociates(s, t[..m], [t[m]]);
      assert t == t[..m] + [t[m]];
      FilterStep(s + t[..m], t[m], p);
      AppendAssociates(Filter(s, p), Filter(t[..m], p), [t[m]]);
    }
  }

  lemma {:induction false} FilterNoDup<T>(s: seq<T>, p: T -> bool)
    requires NoDup(s)
    ensures NoDup(Filter(s, p))
  {
    if |s| != 0 {
      FilterNoDup(s[..|s| - 1], p);
    }
  }

  lemma {:induction false} FilterAll<T>(s: seq<T>, p: T -> bool)
    requires forall x :: x in s ==> p(x)
    ensures Filter(s, p) == s
  {
    if |s| != 0 {
      FilterAll(s[..|s| - 1], p);
      assert s == s[..|s| - 1] + [s[|s| - 1]];
    }
  }

  lemma {:induction false} FilterExt<T>(s: seq<T>, p: T -> bool, q: T -> bool)
    requires forall x :: x in s ==> p(x) == q(x)
    ensures Filter(s, p) == Filter(s, q)
  {
    if |s| != 0 {
      FilterExt(s[..|s| - 1], p, q);
    }
  }

  /** The concatenation of a list of lists. */
  function Flat<T>(ss: seq<seq<T>>): seq<T> {
    if |ss| == 0 then [] else Flat(ss[..|ss| - 1]) + ss[|ss| - 1]
  }

  lemma FlatStep<T>(ss: seq<seq<T>>, s: seq<T>)
    ensures Flat(ss + [s]) == Flat(ss) + s
  {
    assert (ss + [s])[..|ss|] == ss;
  }

  // ------------------------------------------------------- sorting by a name

  predicate SortedBy<T>(s: seq<T>, key: T -> string) {
    forall i, j :: 0 <= i < j < |s| ==> !Less(key(s[j]), key(s[i]))
  }

  predicate UniqueBy<T>(s: seq<T>, key: T -> string) {
    forall i, j :: 0 <= i < j < |s| ==> key(s[i]) != key(s[j])
  }

  function Insert<T>(s: seq<T>, x: T, key: T -> string): seq<T> {
    if |s| == 0 || !Less(key(x), key(s[|s| - 1])) then s + [x]
    else Insert(s[..|s| - 1], x, key) + [s[|s| - 1]]
  }

  /** The stable `sort_by` on a string key. */
  function SortBy<T>(s: seq<T>, key: T -> string): seq<T> {
    if |s| == 0 then [] else Insert(SortBy(s[..|s| - 1], key), s[|s| - 1], key)
  }

  lemma NotBetween(a: string, b: string, c: string)
    requires Less(a, b) && !Less(c, b)
    ensures Less(a, c)
  {
    LessTotal(b, c);
    if b != c { LessTransitive(a, b, c); }
  }

  lemma {:induction false} InsertSorted<T>(s: seq<T>, x: T, key: T -> string)
    requires SortedBy(s, key)
    ensures SortedBy(Insert(s, x, key), key) && multiset(Insert(s, x, key)) == multiset(s) + multiset{x}
  {
    if |s| == 0 {
    } else if !Less(key(x), key(s[|s| - 1])) {
      forall i | 0 <= i < |s|
        ensures !Less(key(x), key(s[i]))
      {
        if Less(key(x), key(s[i])) { NotBetween(key(x), key(s[i]), key(s[|s| - 1])); }
      }
    } else {
      var m := |s| - 1;
      assert s == s[..m] + [s[m]];
      InsertSorted(s[..m], x, key);
      var r := Insert(s[..m], x, key);
      forall i | 0 <= i < |r|
        ensures !Less(key(s[m]), key(r[i]))
      {
        assert r[i] in multiset(r);
        LessAsymmetric(key(s[m]), key(x));
        assert r[i] == x || r[i] in s[..m];
      }
    }
  }

  lemma {:induction false} SortBySorts<T>(s: seq<T>, key: T -> string)
    ensures SortedBy(SortBy(s, key), key) && multiset(SortBy(s, key)) == multiset(s)
  {
    if |s| != 0 {
      var m := |s| - 1;
      assert s == s[..m] + [s[m]];
      SortBySorts(s[..m], key);
      InsertSorted(SortBy(s[..m], key), s[m], key);
    }
  }

  lemma {:induction false} InsertUnique<T>(s: seq<T>, x: T, key: T -> string)
    requires SortedBy(s, key) && UniqueBy(s, key) && forall i :: 0 <= i < |s| ==> key(s[i]) != key(x)
    ensures UniqueBy(Insert(s, x, key), key)
  {
    if |s| != 0 && Less(key(x), key(s[|s| - 1])) {
      var m := |s| - 1;
      InsertUnique(s[..m], x, key);
      InsertSorted(s[..m], x, key);
      var r := Insert(s[..m], x, key);
      forall i | 0 <= i < |r|
        ensures key(r[i]) != key(s[m])
      {
        assert r[i] in multiset(r);
        assert r[i] == x || r[i] in s[..m];
      }
    }
  }

  lemma {:induction false} SortByUnique<T>(s: seq<T>, key: T -> string)
    requires UniqueBy(s, key)
    ensures UniqueBy(SortBy(s, key), key)
  {
    if |s| != 0 {
      var m := |s| - 1;
      SortByUnique(s[..m], key);
      SortBySorts(s[..m], key);
      var r := SortBy(s[..m], key);
      forall i | 0 <= i < |r|
        ensures key(r[i]) != key(s[m])
      {
        assert r[i] in multiset(r);
        assert r[i] in s[..m];
      }
      InsertUnique(r, s[m], key);
    }
  }
}
