/** Fan-out of a query over peers and schema groups: selection by hash
    (`control_plane/src/data_contract.rs`), grouping by schema (`query_lib/src/query_execution.rs`,
    `query_core/src/query_path.rs`) and grouping of extension files. */
module FanOut {
  import opened Prelude
  import opened Schemas
  import opened FileSets
  import opened Checkpoints

  // ----------------------------------------------------------------- selection

  /** `as_selected_tuples`, for any hash of the path. */
  function Selected(fs: seq<FileDesc>, hash: string -> nat, index: nat, num: nat): seq<FileDesc>
    requires num > 0
  {
    Filter(fs, (d: FileDesc) => hash(d.path) % num == index)
  }

  /** What the first `k` of `num` peers select, one after the other. */
  function Selections(fs: seq<FileDesc>, hash: string -> nat, num: nat, k: nat): seq<FileDesc>
    requires num > 0
  {
    if k == 0 then [] else Selections(fs, hash, num, k - 1) + Selected(fs, hash, k - 1, num)
  }

  /** Two exclusive filters together keep what their disjunction keeps. */
  lemma {:induction false} FilterEither<T>(s: seq<T>, p: T -> bool, q: T -> bool, r: T -> bool)
    requires forall x :: x in s ==> !(p(x) && q(x)) && (r(x) <==> p(x) || q(x))
    ensures multiset(Filter(s, r)) == multiset(Filter(s, p)) + multiset(Filter(s, q))
  {
    if |s| != 0 {
      var m := |s| - 1;
      FilterEither(s[..m], p, q, r);
      assert s[m] in s;
    }
  }

  lemma {:induction false} SelectionsSoFar(fs: seq<FileDesc>, hash: string -> nat, num: nat, k: nat)
    requires num > 0
    ensures multiset(Selections(fs, hash, num, k)) == multiset(Filter(fs, (d: FileDesc) => hash(d.path) % num < k))
  {
    if k == 0 {
      FilterNone(fs, (d: FileDesc) => hash(d.path) % num < 0);
    } else {
      SelectionsSoFar(fs, hash, num, k - 1);
      FilterEither(fs, (d: FileDesc) => hash(d.path) % num < k - 1, (d: FileDesc) => hash(d.path) % num == k - 1,
                   (d: FileDesc) => hash(d.path) % num < k);
    }
  }

  /** The selections of all peers are together the file list, for any hash and any number of peers. */
  lemma SelectionsConserve(fs: seq<FileDesc>, hash: string -> nat, num: nat)
    requires num > 0
    ensures multiset(Selections(fs, hash, num, num)) == multiset(fs)
  {
    SelectionsSoFar(fs, hash, num, num);
    FilterAll(fs, (d: FileDesc) => hash(d.path) % num < num);
  }

  /** No file is selected by two peers, and each by the peer its hash names. */
  lemma SelectedOnce(fs: seq<FileDesc>, hash: string -> nat, num: nat, i: nat, d: FileDesc)
    requires num > 0 && d in fs
    ensures d in Selected(fs, hash, i, num) <==> i == hash(d.path) % num
  {
  }

  // ------------------------------------------------------------------ grouping

  function WithKey<T, K(==)>(s: seq<T>, key: T -> K, k: K): seq<T> {
    Filter(s, (x: T) => key(x) == k)
  }

  /** The keys of a list, in the order in which they first occur. */
  function KeysInOrder<T, K(==)>(s: seq<T>, key: T -> K): seq<K> {
    if |s| == 0 then []
    else
      var ks := KeysInOrder(s[..|s| - 1], key);
      if key(s[|s| - 1]) in ks then ks else ks + [key(s[|s| - 1])]
  }

  function GroupKeys<T, K>(groups: seq<seq<T>>, key: T -> K): seq<K>
    requires forall i :: 0 <= i < |groups| ==> |groups[i]| > 0
  {
    seq(|groups|, i requires 0 <= i < |groups| => key(groups[i][0]))
  }

  /** Groups come in the order of their first elements. */
  predicate InOrder<T, K(==)>(s: seq<T>, key: T -> K, groups: seq<seq<T>>) {
    (forall i :: 0 <= i < |groups| ==> |groups[i]| > 0) && GroupKeys(groups, key) == KeysInOrder(s, key)
  }

  lemma InOrderExtends<T, K>(s: seq<T>, x: T, key: T -> K, groups: seq<seq<T>>, i: nat)
    requires InOrder(s, key, groups) && i < |groups| && key(groups[i][0]) == key(x)
    ensures InOrder(s + [x], key, groups[i := groups[i] + [x]])
  {
    var more := groups[i := groups[i] + [x]];
    assert (s + [x])[..|s|] == s && GroupKeys(groups, key)[i] == key(x);
    assert GroupKeys(more, key) == GroupKeys(groups, key);
  }

  lemma InOrderStarts<T, K>(s: seq<T>, x: T, key: T -> K, groups: seq<seq<T>>)
    requires InOrder(s, key, groups) && forall i :: 0 <= i < |groups| ==> key(groups[i][0]) != key(x)
    ensures InOrder(s + [x], key, groups + [[x]])
  {
    assert (s + [x])[..|s|] == s && key(x) !in GroupKeys(groups, key);
    assert GroupKeys(groups + [[x]], key) == GroupKeys(groups, key) + [key(x)];
  }

  /** Every group holds all elements of one key in their order, no key has two groups, no group is empty, and groups
      come in the order of their first elements. */
  ghost predicate IsGrouping<T, K>(s: seq<T>, key: T -> K, groups: seq<seq<T>>) {
    && InOrder(s, key, groups)
    && (forall i :: 0 <= i < |groups| ==> |groups[i]| > 0 && groups[i] == WithKey(s, key, key(groups[i][0])))
    && (forall i, j :: 0 <= i < j < |groups| ==> key(groups[i][0]) != key(groups[j][0]))
    && (forall x :: x in s ==> exists i :: 0 <= i < |groups| && key(groups[i][0]) == key(x))
  }

  lemma WithKeyStep<T, K>(s: seq<T>, x: T, key: T -> K, k: K)
    ensures WithKey(s + [x], key, k) == if key(x) == k then WithKey(s, key, k) + [x] else WithKey(s, key, k)
  {
    FilterStep(s, x, (y: T) => key(y) == k);
  }

  lemma {:induction false} NoneWithKey<T, K>(s: seq<T>, key: T -> K, k: K)
    requires forall x :: x in s ==> key(x) != k
    ensures WithKey(s, key, k) == []
  {
    FilterNone(s, (x: T) => key(x) == k);
  }

  /** An element goes to the group of its key ... */
  lemma GroupingExtends<T, K>(s: seq<T>, x: T, key: T -> K, groups: seq<seq<T>>, i: nat)
    requires IsGrouping(s, key, groups) && i < |groups| && key(groups[i][0]) == key(x)
    ensures IsGrouping(s + [x], key, groups[i := groups[i] + [x]])
  {
    var more := groups[i := groups[i] + [x]];
    InOrderExtends(s, x, key, groups, i);
    forall j | 0 <= j < |more|
      ensures |more[j]| > 0 && key(more[j][0]) == key(groups[j][0]) && more[j] == WithKey(s + [x], key, key(more[j][0]))
    {
      WithKeyStep(s, x, key, key(groups[j][0]));
    }
    forall y | y in s + [x]
      ensures exists j :: 0 <= j < |more| && key(more[j][0]) == key(y)
    {
      if y in s {
        var j :| 0 <= j < |groups| && key(groups[j][0]) == key(y);
        assert key(more[j][0]) == key(y);
      } else {
        assert key(more[i][0]) == key(y);
      }
    }
  }

  /** ... or starts a new one. */
  lemma GroupingStarts<T, K>(s: seq<T>, x: T, key: T -> K, groups: seq<seq<T>>)
    requires IsGrouping(s, key, groups) && forall i :: 0 <= i < |groups| ==> key(groups[i][0]) != key(x)
    ensures IsGrouping(s + [x], key, groups + [[x]])
  {
    var more := groups + [[x]];
    InOrderStarts(s, x, key, groups);
    NoneWithKey(s, key, key(x));
    forall j | 0 <= j < |more|
      ensures |more[j]| > 0 && more[j] == WithKey(s + [x], key, key(more[j][0]))
    {
      WithKeyStep(s, x, key, key(more[j][0]));
    }
    forall y | y in s + [x]
      ensures exists j :: 0 <= j < |more| && key(more[j][0]) == key(y)
    {
      if y in s {
        var j :| 0 <= j < |groups| && key(groups[j][0]) == key(y);
        assert key(more[j][0]) == key(y);
      } else {
        assert key(more[|groups|][0]) == key(y);
      }
    }
  }

  method FindGroup<T, K(==)>(groups: seq<seq<T>>, key: T -> K, x: T) returns (i: nat)
    requires forall j :: 0 <= j < |groups| ==> |groups[j]| > 0
    ensures i <= |groups| && (i < |groups| ==> key(groups[i][0]) == key(x))
    ensures forall j :: 0 <= j < i ==> key(groups[j][0]) != key(x)
  {
    i := 0;
    while i < |groups| && key(groups[i][0]) != key(x)
      invariant i <= |groups| && forall j :: 0 <= j < i ==> key(groups[j][0]) != key(x)
    {
      i := i + 1;
    }
  }

  method AddToGroup<T, K(==)>(ghost s: seq<T>, x: T, key: T -> K, before: seq<seq<T>>) returns (groups: seq<seq<T>>)
    requires IsGrouping(s, key, before)
    ensures IsGrouping(s + [x], key, groups)
  {
    var i := FindGroup(before, key, x);
    if i < |before| {
      GroupingExtends(s, x, key, before, i);
      groups := before[i := before[i] + [x]];
    } else {
      GroupingStarts(s, x, key, before);
      groups := before + [[x]];
    }
  }

  lemma GroupingEmpty<T, K>(s: seq<T>, key: T -> K)
    ensures IsGrouping(s[..0], key, [])
  {
    assert s[..0] == [];
  }

  lemma GroupingGoesOn<T, K>(s: seq<T>, k: nat, key: T -> K, groups: seq<seq<T>>)
    requires k < |s| && IsGrouping(s[..k] + [s[k]], key, groups)
    ensures IsGrouping(s[..k + 1], key, groups)
  {
    assert s[..k + 1] == s[..k] + [s[k]];
  }

  lemma GroupingEnds<T, K>(s: seq<T>, key: T -> K, groups: seq<seq<T>>)
    requires IsGrouping(s[..|s|], key, groups)
    ensures IsGrouping(s, key, groups)
  {
    assert s[..|s|] == s;
  }

  /** The loop of both grouping functions: the first group with the element's key takes it. */
  method GroupBy<T, K(==)>(s: seq<T>, key: T -> K) returns (groups: seq<seq<T>>)
    ensures IsGrouping(s, key, groups)
  {
    groups := [];
    GroupingEmpty(s, key);
    var k := 0;
    while k < |s|
      invariant k <= |s| && IsGrouping(s[..k], key, groups)
    {
      groups := AddToGroup(s[..k], s[k], key, groups);
      GroupingGoesOn(s, k, key, groups);
      k := k + 1;
    }
    GroupingEnds(s, key, groups);
  }

  predicate KeyBefore<T, K(==)>(groups: seq<seq<T>>, key: T -> K, k: nat, x: T)
    requires k <= |groups| && forall i :: 0 <= i < |groups| ==> |groups[i]| > 0
  {
    exists i :: 0 <= i < k && key(groups[i][0]) == key(x)
  }

  lemma NextKey<T, K>(s: seq<T>, key: T -> K, groups: seq<seq<T>>, k: nat)
    requires IsGrouping(s, key, groups) && k < |groups|
    ensures multiset(Filter(s, (x: T) => KeyBefore(groups, key, k + 1, x)))
            == multiset(Filter(s, (x: T) => KeyBefore(groups, key, k, x))) + multiset(groups[k])
  {
    var last := key(groups[k][0]);
    FilterEither(s, (x: T) => KeyBefore(groups, key, k, x), (x: T) => key(x) == last,
                 (x: T) => KeyBefore(groups, key, k + 1, x));
  }

  lemma {:induction false} GroupsSoFar<T, K>(s: seq<T>, key: T -> K, groups: seq<seq<T>>, k: nat)
    requires IsGrouping(s, key, groups) && k <= |groups|
    ensures multiset(Flat(groups[..k])) == multiset(Filter(s, (x: T) => KeyBefore(groups, key, k, x)))
  {
    if k == 0 {
      FilterNone(s, (x: T) => KeyBefore(groups, key, 0, x));
    } else {
      GroupsSoFar(s, key, groups, k - 1);
      NextKey(s, key, groups, k - 1);
      assert groups[..k][..k - 1] == groups[..k - 1];
    }
  }

  /** The groups together are the list, as a multiset. */
  lemma GroupingConserves<T, K>(s: seq<T>, key: T -> K, groups: seq<seq<T>>)
    requires IsGrouping(s, key, groups)
    ensures multiset(Flat(groups)) == multiset(s)
  {
    GroupsSoFar(s, key, groups, |groups|);
    assert groups[..|groups|] == groups;
    FilterAll(s, (x: T) => KeyBefore(groups, key, |groups|, x));
  }

  // ------------------------------------------------------- query input files

  datatype InputFile = InputFile(file: FileDesc, storage: string, extensions: seq<ExtensionFile>)

  function Suffixes(f: InputFile): seq<string> {
    seq(|f.extensions|, i requires 0 <= i < |f.extensions| => f.extensions[i].suffix)
  }

  function Self(s: string): string { s }

  function SortedSuffixes(f: InputFile): seq<string> { SortBy(Suffixes(f), Self) }

  /** What `group_query_input_files_by_schema` compares. */
  function GroupKey(f: InputFile): (string, Schema, seq<string>) {
    (f.storage, f.file.schema, SortedSuffixes(f))
  }

  lemma InitMultiset(a: seq<string>)
    requires |a| > 0
    ensures multiset(a[..|a| - 1]) == multiset(a) - multiset{a[|a| - 1]}
  {
    assert a == a[..|a| - 1] + [a[|a| - 1]];
  }

  lemma SameLast(a: seq<string>, b: seq<string>)
    requires |a| == |b| > 0 && multiset(a) == multiset(b)
    requires SortedBy(a, Self) && SortedBy(b, Self)
    ensures a[|a| - 1] == b[|b| - 1]
  {
    var m := |a| - 1;
    assert a[m] in multiset(a) && b[m] in multiset(b);
    LastLargest(a, b[m]);
    LastLargest(b, a[m]);
    LessTotal(a[m], b[m]);
  }

  lemma SameLength(a: seq<string>, b: seq<string>)
    requires multiset(a) == multiset(b)
    ensures |a| == |b|
  {
    assert |a| == |multiset(a)| && |b| == |multiset(b)|;
  }

  lemma SortedInit(a: seq<string>)
    requires |a| > 0 && SortedBy(a, Self)
    ensures SortedBy(a[..|a| - 1], Self)
  {
  }

  lemma {:induction false} SortedUnique(a: seq<string>, b: seq<string>)
    requires SortedBy(a, Self) && SortedBy(b, Self) && multiset(a) == multiset(b)
    ensures a == b
  {
    SameLength(a, b);
    if |a| != 0 {
      var m := |a| - 1;
      SameLast(a, b);
      InitMultiset(a);
      InitMultiset(b);
      SortedInit(a);
      SortedInit(b);
      SortedUnique(a[..m], b[..m]);
      SplitLast(a);
      SplitLast(b);
    }
  }

  lemma SplitLast(a: seq<string>)
    requires |a| > 0
    ensures a == a[..|a| - 1] + [a[|a| - 1]]
  {
  }

  lemma LastLargest(a: seq<string>, x: string)
    requires |a| > 0 && SortedBy(a, Self) && x in a
    ensures !Less(a[|a| - 1], x)
  {
    LessIrreflexive(x);
    var i :| 0 <= i < |a| && a[i] == x;
  }

  /** Two files fall in one group exactly when they agree in storage, schema and suffixes, in whatever order these are
      listed. */
  lemma GroupKeyMeans(f: InputFile, g: InputFile)
    ensures GroupKey(f) == GroupKey(g) <==>
            f.storage == g.storage && f.file.schema == g.file.schema && multiset(Suffixes(f)) == multiset(Suffixes(g))
  {
    SortBySorts(Suffixes(f), Self);
    SortBySorts(Suffixes(g), Self);
    if multiset(Suffixes(f)) == multiset(Suffixes(g)) { SortedUnique(SortedSuffixes(f), SortedSuffixes(g)); }
  }

  /** `group_query_input_files_by_schema`; each group keeps the order of the list. */
  method GroupInputFiles(files: seq<InputFile>) returns (groups: seq<seq<InputFile>>)
    ensures multiset(Flat(groups)) == multiset(files)
    ensures forall i :: 0 <= i < |groups| ==>
              |groups[i]| > 0 && groups[i] == WithKey(files, GroupKey, GroupKey(groups[i][0]))
    ensures InOrder(files, GroupKey, groups)
    ensures forall i, a, b :: 0 <= i < |groups| && a in groups[i] && b in groups[i] ==> GroupKey(a) == GroupKey(b)
    ensures forall i, j, a, b :: 0 <= i < j < |groups| && a in groups[i] && b in groups[j] ==>
              GroupKey(a) != GroupKey(b)
  {
    groups := GroupBy(files, GroupKey);
    GroupingConserves(files, GroupKey, groups);
    SameKeyInGroup(files, GroupKey, groups);
  }

  lemma SameKeyInGroup<T, K>(s: seq<T>, key: T -> K, groups: seq<seq<T>>)
    requires IsGrouping(s, key, groups)
    ensures forall i, a :: 0 <= i < |groups| && a in groups[i] ==> key(a) == key(groups[i][0])
  {
  }

  function SchemaOf(d: FileDesc): Schema { d.schema }

  /** `group_files_by_schema`; each group keeps the order of the list. */
  method GroupFilesBySchema(files: seq<FileDesc>) returns (groups: seq<seq<FileDesc>>)
    ensures multiset(Flat(groups)) == multiset(files)
    ensures forall i :: 0 <= i < |groups| ==>
              |groups[i]| > 0 && groups[i] == WithKey(files, SchemaOf, SchemaOf(groups[i][0]))
    ensures InOrder(files, SchemaOf, groups)
    ensures forall i, a, b :: 0 <= i < |groups| && a in groups[i] && b in groups[i] ==> a.schema == b.schema
    ensures forall i, j, a, b :: 0 <= i < j < |groups| && a in groups[i] && b in groups[j] ==> a.schema != b.schema
  {
    groups := GroupBy(files, SchemaOf);
    GroupingConserves(files, SchemaOf, groups);
    SameKeyInGroup(files, SchemaOf, groups);
  }

  // ---------------------------------------------------------- extension files

  function Locations(es: seq<ExtensionFile>, suffix: string): seq<string> {
    if |es| == 0 then []
    else Locations(es[..|es| - 1], suffix) + if es[|es| - 1].suffix == suffix then [es[|es| - 1].location] else []
  }

  /** The extension files of all inputs, in order. */
  function AllExtensions(files: seq<InputFile>): seq<ExtensionFile> {
    if |files| == 0 then [] else AllExtensions(files[..|files| - 1]) + files[|files| - 1].extensions
  }

  /** A table from suffix to all locations with that suffix, in order. */
  ghost predicate GroupsBySuffix(es: seq<ExtensionFile>, grouped: map<string, seq<string>>) {
    && (forall s :: s in grouped <==> exists i :: 0 <= i < |es| && es[i].suffix == s)
    && (forall s :: s in grouped ==> grouped[s] == Locations(es, s))
  }

  lemma {:induction false} LocationsConcat(a: seq<ExtensionFile>, b: seq<ExtensionFile>, s: string)
    ensures Locations(a + b, s) == Locations(a, s) + Locations(b, s)
  {
    if |b| == 0 {
      assert a + b == a;
    } else {
      LocationsConcat(a, b[..|b| - 1], s);
      assert (a + b)[..|a + b| - 1] == a + b[..|b| - 1];
    }
  }

  lemma GroupsBySuffixStep(es: seq<ExtensionFile>, grouped: map<string, seq<string>>, e: ExtensionFile)
    requires GroupsBySuffix(es, grouped)
    ensures GroupsBySuffix(
              es + [e], grouped[e.suffix := (if e.suffix in grouped then grouped[e.suffix] else []) + [e.location]])
  {
    var more := grouped[e.suffix := (if e.suffix in grouped then grouped[e.suffix] else []) + [e.location]];
    var all := es + [e];
    assert all[..|es|] == es && all[|es|] == e;
    if e.suffix !in grouped { NoLocations(es, e.suffix); }
    forall s
      ensures s in more <==> exists i :: 0 <= i < |all| && all[i].suffix == s
    {
      if s in grouped {
        var i :| 0 <= i < |es| && es[i].suffix == s;
        assert all[i].suffix == s;
      }
      if i :| 0 <= i < |all| && all[i].suffix == s {
        assert i < |es| ==> es[i].suffix == s;
      }
    }
  }

  lemma {:induction false} NoLocations(es: seq<ExtensionFile>, s: string)
    requires forall i :: 0 <= i < |es| ==> es[i].suffix != s
    ensures Locations(es, s) == []
  {
    if |es| != 0 { NoLocations(es[..|es| - 1], s); }
  }

  /** `extension_groups_by_suffix`. */
  method ExtensionGroups(files: seq<InputFile>) returns (grouped: map<string, seq<string>>)
    ensures GroupsBySuffix(AllExtensions(files), grouped)
  {
    grouped := map[];
    var k := 0;
    while k < |files|
      invariant k <= |files| && GroupsBySuffix(AllExtensions(files[..k]), grouped)
    {
      var es := files[k].extensions;
      ghost var before := AllExtensions(files[..k]);
      assert files[..k + 1][..k] == files[..k];
      assert before + es[..0] == before;
      var j := 0;
      while j < |es|
        invariant j <= |es| && GroupsBySuffix(before + es[..j], grouped)
      {
        assert before + es[..j + 1] == (before + es[..j]) + [es[j]];
        GroupsBySuffixStep(before + es[..j], grouped, es[j]);
        grouped := grouped[es[j].suffix := (if es[j].suffix in grouped then grouped[es[j].suffix] else [])
                           + [es[j].location]];
        j := j + 1;
      }
      assert es[..j] == es;
      k := k + 1;
    }
    assert files[..k] == files;
  }

  /** `filter_query_input_extensions` for a given list of suffixes. */
  function KeepExtensions(files: seq<InputFile>, suffixes: seq<string>): seq<InputFile> {
    seq(|files|, i requires 0 <= i < |files| =>
      files[i].(extensions := Filter(files[i].extensions, (e: ExtensionFile) => e.suffix in suffixes)))
  }

  /** Nothing but the extensions of the files changes. */
  lemma KeepsFiles(files: seq<InputFile>, suffixes: seq<string>, i: nat, e: ExtensionFile)
    requires i < |files|
    ensures |KeepExtensions(files, suffixes)| == |files|
    ensures var r := KeepExtensions(files, suffixes)[i];
            && r.file == files[i].file && r.storage == files[i].storage
            && (e in r.extensions <==> e in files[i].extensions && e.suffix in suffixes)
  {
  }

  lemma {:induction false} LocationsKept(es: seq<ExtensionFile>, suffixes: seq<string>, s: string)
    ensures Locations(Filter(es, (e: ExtensionFile) => e.suffix in suffixes), s)
            == if s in suffixes then Locations(es, s) else []
  {
    if |es| != 0 {
      var m := |es| - 1;
      var kept := Filter(es[..m], (e: ExtensionFile) => e.suffix in suffixes);
      LocationsKept(es[..m], suffixes, s);
      if es[m].suffix in suffixes { assert (kept + [es[m]])[..|kept|] == kept; }
    }
  }

  /** Filtering first gives, for every suffix, exactly the locations that grouping everything gives for the
      wanted suffixes. */
  lemma {:induction false} KeepThenGroup(files: seq<InputFile>, suffixes: seq<string>, s: string)
    ensures Locations(AllExtensions(KeepExtensions(files, suffixes)), s) ==
            if s in suffixes then Locations(AllExtensions(files), s) else []
  {
    if |files| != 0 {
      var m := |files| - 1;
      var kept := Filter(files[m].extensions, (e: ExtensionFile) => e.suffix in suffixes);
      KeepThenGroup(files[..m], suffixes, s);
      assert KeepExtensions(files, suffixes)[..m] == KeepExtensions(files[..m], suffixes);
      LocationsConcat(AllExtensions(files[..m]), files[m].extensions, s);
      LocationsConcat(AllExtensions(KeepExtensions(files[..m], suffixes)), kept, s);
      LocationsKept(files[m].extensions, suffixes, s);
    }
  }
}
