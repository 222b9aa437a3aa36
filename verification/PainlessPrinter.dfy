/** The `translate` methods of the Painless translator (`control_plane/src/painless_parser.rs`):
    printing a parsed expression gives back its tokens up to fixed renamings, and a null-safe access
    chain becomes a conditional that navigates safely. */
module PainlessPrinter {
  import opened Prelude
  import opened PainlessTokens
  import opened PainlessParser

  function JoinWith(ss: seq<string>, sep: string): string {
    if |ss| == 0 then "" else if |ss| == 1 then ss[0] else JoinWith(ss[..|ss| - 1], sep) + sep + ss[|ss| - 1]
  }

  /** `VariableOrTypeReference::translate`. */
  function NameText(v: string): string {
    if v == "ctx" || v == "params" || (|v| > 0 && v[0] == QUOTE) then v else "__types." + v
  }

  /** A comparison with null, once the left side is translated. */
  function NullComparison(left: string, isField: bool, equal: bool): string {
    if !isField then left + if equal then " is none" else " is not none"
    else if equal then "(" + left + " is not defined or " + left + " is none)"
    else "(" + left + " is defined and " + left + " is not none)"
  }

  /** `translate`; `None` where the source aborts: a call of anything but a field, or `contains` without
      exactly one parameter. */
  function Translate(e: Expr): Option<string>
    decreases e
  {
    match e
    case Name(v) => Some(NameText(v))
    case NullReference => Some("none")
    case FieldAccess(t, f) =>
      (match Translate(t)
       case None => None
       case Some(s) => Some(s + "." + f))
    case Index(t, i) =>
      (match (Translate(t), Translate(i))
       case (Some(s), Some(j)) => Some(s + "[" + j + "]")
       case _ => None)
    case Call(t, ps) =>
      if !t.FieldAccess? then None
      else if t.field == "contains" then
        if |ps| != 1 then None
        else
          (match (Translate(ps[0]), Translate(t.target))
           case (Some(p), Some(s)) => Some(p + " in " + s)
           case _ => None)
      else
        (match (Translate(t), TranslateAll(ps))
         case (Some(s), Some(texts)) => Some(s + "(" + JoinWith(texts, ", ") + ")")
         case _ => None)
    case Binary(l, op, r) =>
      (match (Translate(l), Translate(r))
       case (Some(s), Some(u)) =>
         if r.NullReference? && (op == "==" || op == "!=") then Some(NullComparison(s, l.FieldAccess?, op == "=="))
         else Some(s + " " + op + " " + u)
       case _ => None)
    case NullTest(_, _) =>
      (match Translate(ChainBase(e))
       case None => None
       case Some(s) => Some(ChainText(s, ChainFields(e))))
  }

  function TranslateAll(ps: seq<Expr>): Option<seq<string>>
    decreases ps
  {
    if |ps| == 0 then Some([])
    else
      match (TranslateAll(ps[..|ps| - 1]), Translate(ps[|ps| - 1]))
      case (Some(texts), Some(s)) => Some(texts + [s])
      case _ => None
  }

  // ------------------------------------------------------- null-safe chains

  /** The expression that a chain of null-safe accesses starts from. */
  function ChainBase(e: Expr): (b: Expr)
    requires e.NullTest?
    ensures b < e && !b.NullTest?
    decreases e
  {
    if e.target.NullTest? then ChainBase(e.target) else e.target
  }

  /** Its fields, in source order. */
  function ChainFields(e: Expr): (fs: seq<string>)
    requires e.NullTest?
    ensures |fs| > 0
    decreases e
  {
    (if e.target.NullTest? then ChainFields(e.target) else []) + [e.field]
  }

  function Reversed<T>(s: seq<T>): (r: seq<T>)
    ensures |r| == |s| && forall i :: 0 <= i < |s| ==> r[i] == s[|s| - 1 - i]
  {
    if |s| == 0 then [] else [s[|s| - 1]] + Reversed(s[..|s| - 1])
  }

  /** Subscripts for a path. */
  function Access(path: seq<string>): string {
    if |path| == 0 then "" else Access(path[..|path| - 1]) + "[\"" + path[|path| - 1] + "\"]"
  }

  /** `create_field_access`: the chain is listed last field first. */
  function FieldAccessText(chain: seq<string>): string { Access(Reversed(chain)) }

  /** `create_field_chains`. */
  function FieldChains(nested: seq<string>): seq<seq<string>> {
    seq(|nested|, i requires 0 <= i < |nested| => nested[i..])
  }

  function Test(base: string, access: string): string {
    base + access + " is defined and " + base + access + " is mapping"
  }

  function MapTest(base: string, chains: seq<seq<string>>): seq<string> {
    seq(|chains|, i requires 0 <= i < |chains| => Test(base, FieldAccessText(chains[i])))
  }

  /** `create_conditions_str`. */
  function ConditionsText(base: string, nested: seq<string>): string {
    JoinWith(Reversed(MapTest(base, FieldChains(nested)) + [Test(base, "")]), " and ")
  }

  /** `NullTestFieldAccess::translate` for a base already translated. */
  function ChainText(base: string, fields: seq<string>): string
    requires |fields| > 0
  {
    var nested := Reversed(fields[..|fields| - 1]);
    var all := [fields[|fields| - 1]] + nested;
    Conditional(base + FieldAccessText(all), ConditionsText(base, nested))
  }

  function Conditional(value: string, condition: string): string {
    "(" + value + " if " + condition + " else none)"
  }

  /** The loop that collects the fields of a chain, outermost access first. */
  method CollectChain(e: Expr) returns (base: Expr, nested: seq<string>)
    requires e.NullTest?
    ensures base == ChainBase(e) && Reversed([e.field] + nested) == ChainFields(e)
  {
    var test := e;
    nested := [];
    CollectStart(e);
    while test.target.NullTest?
      invariant Collected(e, test, nested)
      decreases test
    {
      CollectStep(e, test, nested);
      test := test.target;
      nested := nested + [test.field];
    }
    CollectEnd(e, test, nested);
    base := test.target;
  }

  /** The fields inside a null-safe access. */
  function Inner(e: Expr): seq<string>
    requires e.NullTest?
  {
    if e.target.NullTest? then ChainFields(e.target) else []
  }

  /** The loop has come to `test`; `nested` are the fields passed since `e`. */
  predicate Collected(e: Expr, test: Expr, nested: seq<string>) {
    e.NullTest? && test.NullTest? && ChainBase(e) == ChainBase(test)
    && ChainFields(e) == Inner(test) + Reversed([e.field] + nested)
  }

  lemma CollectStart(e: Expr)
    requires e.NullTest?
    ensures Collected(e, e, [])
  {
    assert [e.field] + [] == [e.field] && Reversed([e.field]) == [e.field];
  }

  lemma CollectStep(e: Expr, test: Expr, nested: seq<string>)
    requires Collected(e, test, nested) && test.target.NullTest?
    ensures Collected(e, test.target, nested + [test.target.field])
  {
    var next := test.target;
    ReversedTail(e.field, nested, next.field);
    AppendAssociates(Inner(next), [next.field], Reversed([e.field] + nested));
  }

  lemma CollectEnd(e: Expr, test: Expr, nested: seq<string>)
    requires Collected(e, test, nested) && !test.target.NullTest?
    ensures test.target == ChainBase(e) && Reversed([e.field] + nested) == ChainFields(e)
  {
    assert [] + Reversed([e.field] + nested) == Reversed([e.field] + nested);
  }

  lemma ReversedSnoc<T>(s: seq<T>, x: T)
    ensures Reversed(s + [x]) == [x] + Reversed(s)
  {
    assert (s + [x])[..|s|] == s;
  }

  lemma ReversedTail(f: string, nested: seq<string>, g: string)
    ensures Reversed([f] + (nested + [g])) == [g] + Reversed([f] + nested)
  {
    ReversedSnoc([f] + nested, g);
    assert [f] + (nested + [g]) == [f] + nested + [g];
  }

  /** The paths tested, in order: every proper prefix of the fields, shortest first. */
  function Prefixes(fields: seq<string>): seq<seq<string>> {
    seq(|fields|, i requires 0 <= i < |fields| => fields[..i])
  }

  function Tests(base: string, fields: seq<string>): seq<string> {
    seq(|fields|, i requires 0 <= i < |fields| => Test(base, Access(Prefixes(fields)[i])))
  }

  lemma SuffixReversed(fields: seq<string>, i: nat)
    requires |fields| > 0 && i < |fields| - 1
    ensures var nested := Reversed(fields[..|fields| - 1]); Reversed(nested[i..]) == fields[..|fields| - 1 - i]
  {
  }

  lemma ListedTest(base: string, fields: seq<string>, i: nat)
    requires 0 < i < |fields|
    ensures var nested := Reversed(fields[..|fields| - 1]);
            MapTest(base, FieldChains(nested))[|fields| - 1 - i] == Test(base, Access(fields[..i]))
  {
    SuffixReversed(fields, |fields| - 1 - i);
  }

  lemma ReversedAt<T>(s: seq<T>, i: nat)
    requires i < |s|
    ensures Reversed(s)[i] == s[|s| - 1 - i]
  {
  }

  lemma ConditionAt(base: string, fields: seq<string>, i: nat)
    requires i < |fields|
    ensures (MapTest(base, FieldChains(Reversed(fields[..|fields| - 1]))) + [Test(base, "")])[|fields| - 1 - i]
            == Test(base, Access(fields[..i]))
  {
    if i == 0 {
      assert fields[..0] == [];
    } else {
      ListedTest(base, fields, i);
    }
  }

  lemma ConditionsAre(base: string, fields: seq<string>)
    requires |fields| > 0
    ensures Reversed(MapTest(base, FieldChains(Reversed(fields[..|fields| - 1]))) + [Test(base, "")])
            == Tests(base, fields)
  {
    var conditions := MapTest(base, FieldChains(Reversed(fields[..|fields| - 1]))) + [Test(base, "")];
    forall i | 0 <= i < |fields|
      ensures Reversed(conditions)[i] == Tests(base, fields)[i]
    {
      ReversedAt(conditions, i);
      ConditionAt(base, fields, i);
    }
  }

  lemma ReversedBack(fields: seq<string>)
    requires |fields| > 0
    ensures Reversed([fields[|fields| - 1]] + Reversed(fields[..|fields| - 1])) == fields
  {
  }

  /** A chain of any length prints as a conditional on every proper prefix, shortest first. */
  lemma ChainTextIs(base: string, fields: seq<string>)
    requires |fields| > 0
    ensures ChainText(base, fields) == Conditional(base + Access(fields), JoinWith(Tests(base, fields), " and "))
  {
    ConditionsAre(base, fields);
    ReversedBack(fields);
  }

  // ------------------------------------------------- meaning of a chain

  /** Values of the template language. */
  datatype Value = Undefined | Nothing | Mapping(items: map<string, Value>) | Other(text: string)

  /** A subscript; `None` when the value is not a mapping. */
  function Item(v: Value, f: string): Option<Value> {
    if !v.Mapping? then None else if f in v.items then Some(v.items[f]) else Some(Undefined)
  }

  /** Subscripts in a row. */
  function Follow(v: Value, path: seq<string>): Option<Value> {
    if |path| == 0 then Some(v)
    else
      match Follow(v, path[..|path| - 1])
      case None => None
      case Some(u) => Item(u, path[|path| - 1])
  }

  /** The first `k` tests of a chain, joined with a short-circuiting `and`. */
  function HoldFirst(v: Value, fields: seq<string>, k: nat): Option<bool>
    requires k <= |fields|
  {
    if k == 0 then Some(true)
    else
      match HoldFirst(v, fields, k - 1)
      case None => None
      case Some(false) => Some(false)
      case Some(true) =>
        match Follow(v, fields[..k - 1])
        case None => None
        case Some(u) => Some(u.Mapping?)
  }

  /** The conditional that a chain translates to; `None` if it ever indexes a non-mapping. */
  function EvalChain(v: Value, fields: seq<string>): Option<Value> {
    match HoldFirst(v, fields, |fields|)
    case None => None
    case Some(true) => Follow(v, fields)
    case Some(false) => Some(Nothing)
  }

  /** Null-safe navigation: nothing as soon as a step is not possible. */
  function NullSafe(v: Value, fields: seq<string>): Value {
    if |fields| == 0 then v
    else if v.Mapping? && fields[0] in v.items then NullSafe(v.items[fields[0]], fields[1..])
    else Nothing
  }

  predicate MappingAt(v: Value, path: seq<string>) {
    Follow(v, path).Some? && Follow(v, path).value.Mapping?
  }

  predicate MappingsBelow(v: Value, fields: seq<string>, k: nat)
    requires k <= |fields|
  {
    forall j :: 0 <= j < k ==> MappingAt(v, fields[..j])
  }

  lemma FollowStep(v: Value, fields: seq<string>, k: nat)
    requires k < |fields| && Follow(v, fields[..k]).Some?
    ensures Follow(v, fields[..k + 1]) == Item(Follow(v, fields[..k]).value, fields[k])
  {
    assert fields[..k + 1][..k] == fields[..k];
  }

  /** Once all shorter prefixes are mappings, the next prefix can be looked up. */
  lemma PrefixReachable(v: Value, fields: seq<string>, k: nat)
    requires k <= |fields| && MappingsBelow(v, fields, k)
    ensures Follow(v, fields[..k]).Some?
  {
    if k == 0 {
      assert fields[..0] == [];
    } else {
      assert MappingAt(v, fields[..k - 1]);
      FollowStep(v, fields, k - 1);
    }
  }

  lemma {:induction false} TestsMean(v: Value, fields: seq<string>, k: nat)
    requires k <= |fields|
    ensures HoldFirst(v, fields, k) == Some(MappingsBelow(v, fields, k))
  {
    if k != 0 {
      TestsMean(v, fields, k - 1);
      if MappingsBelow(v, fields, k - 1) { PrefixReachable(v, fields, k - 1); }
    }
  }

  lemma {:induction false} NullSafeStep(v: Value, path: seq<string>, f: string)
    ensures NullSafe(v, path + [f]) ==
            (var u := NullSafe(v, path); if u.Mapping? && f in u.items then u.items[f] else Nothing)
  {
    if |path| == 0 {
      assert path + [f] == [f];
      assert [f][1..] == [];
    } else {
      assert (path + [f])[1..] == path[1..] + [f];
      if v.Mapping? && path[0] in v.items { NullSafeStep(v.items[path[0]], path[1..], f); }
    }
  }

  lemma NullSafeNext(v: Value, fields: seq<string>, k: nat)
    requires k < |fields|
    ensures NullSafe(v, fields[..k + 1]) ==
            (var u := NullSafe(v, fields[..k]);
             if u.Mapping? && fields[k] in u.items then u.items[fields[k]] else Nothing)
  {
    assert fields[..k + 1] == fields[..k] + [fields[k]];
    NullSafeStep(v, fields[..k], fields[k]);
  }

  /** Navigation follows the subscripts as long as these meet mappings ... */
  lemma {:induction false} NavigationFollows(v: Value, fields: seq<string>, k: nat)
    requires k < |fields| && MappingsBelow(v, fields, k + 1)
    ensures MappingAt(v, fields[..k]) && NullSafe(v, fields[..k]) == Follow(v, fields[..k]).value
  {
    assert MappingAt(v, fields[..k]);
    if k == 0 {
      assert fields[..0] == [];
    } else {
      NavigationFollows(v, fields, k - 1);
      FollowStep(v, fields, k - 1);
      NullSafeNext(v, fields, k - 1);
    }
  }

  /** ... and ends in nothing otherwise. */
  lemma {:induction false} NavigationEnds(v: Value, fields: seq<string>, k: nat)
    requires k <= |fields| && !MappingsBelow(v, fields, k)
    ensures NullSafe(v, fields[..k]) == Nothing
  {
    NullSafeNext(v, fields, k - 1);
    if !MappingsBelow(v, fields, k - 1) {
      NavigationEnds(v, fields, k - 1);
    } else {
      PrefixReachable(v, fields, k - 1);
      assert !MappingAt(v, fields[..k - 1]);
      if k == 1 {
        assert fields[..0] == [];
      } else {
        NavigationFollows(v, fields, k - 2);
        FollowStep(v, fields, k - 2);
        NullSafeNext(v, fields, k - 2);
      }
    }
  }

  /** The last field is there to be read. */
  predicate LastPresent(v: Value, fields: seq<string>)
    requires |fields| > 0
  {
    MappingAt(v, fields[..|fields| - 1]) && fields[|fields| - 1] in Follow(v, fields[..|fields| - 1]).value.items
  }

  /** The conditional never indexes a non-mapping, and it navigates null-safely exactly when the last field
      is present or some proper prefix is not a mapping; otherwise it yields an undefined value. */
  lemma ChainNavigates(v: Value, fields: seq<string>)
    requires |fields| > 0
    ensures EvalChain(v, fields).Some?
    ensures EvalChain(v, fields) == Some(NullSafe(v, fields)) <==>
            LastPresent(v, fields) || !MappingsBelow(v, fields, |fields|)
    ensures MappingsBelow(v, fields, |fields|) && !LastPresent(v, fields) ==> EvalChain(v, fields) == Some(Undefined)
  {
    var n := |fields|;
    TestsMean(v, fields, n);
    assert fields[..n] == fields;
    if MappingsBelow(v, fields, n) {
      NavigationFollows(v, fields, n - 1);
      FollowStep(v, fields, n - 1);
      NullSafeNext(v, fields, n - 1);
    } else {
      NavigationEnds(v, fields, n);
    }
  }

  /** A mapping without the field reads as an undefined value, where null-safe navigation gives nothing. */
  lemma MissingFieldUndefined()
    ensures EvalChain(Mapping(map[]), ["a"]) == Some(Undefined)
    ensures NullSafe(Mapping(map[]), ["a"]) == Nothing
  {
    var v := Mapping(map[]);
    assert MappingsBelow(v, ["a"], 1) by {
      assert ["a"][..0] == [];
    }
    ChainNavigates(v, ["a"]);
  }

  /** What a template tests of the value reached by subscripts. */
  datatype ChainTest =
    | Defined(path: seq<string>)
    | IsMapping(path: seq<string>)
    | First(test: ChainTest, next: ChainTest)

  function PathText(path: seq<string>): string {
    if path == [] then "" else "[\"" + path[0] + "\"]" + PathText(path[1..])
  }

  function ChainTestText(base: string, t: ChainTest): string {
    match t
    case Defined(p) => base + PathText(p) + " is defined"
    case IsMapping(p) => base + PathText(p) + " is mapping"
    case First(a, b) => ChainTestText(base, a) + " and " + ChainTestText(base, b)
  }

  /** The outcome, left to right; `None` if it ever subscripts a non-mapping. */
  function TestHolds(v: Value, t: ChainTest): Option<bool> {
    match t
    case Defined(p) =>
      (match Follow(v, p)
       case None => None
       case Some(u) => Some(u != Undefined))
    case IsMapping(p) =>
      (match Follow(v, p)
       case None => None
       case Some(u) => Some(u.Mapping?))
    case First(a, b) =>
      (match TestHolds(v, a)
       case Some(true) => TestHolds(v, b)
       case r => r)
  }

  /** Each of the first `k` prefixes is defined and a mapping. */
  function PrefixTests(fields: seq<string>, k: nat): ChainTest
    requires 0 < k <= |fields|
  {
    var last := First(Defined(fields[..k - 1]), IsMapping(fields[..k - 1]));
    if k == 1 then last else First(PrefixTests(fields, k - 1), last)
  }

  lemma {:induction false} PathTextSnoc(path: seq<string>, f: string)
    ensures PathText(path + [f]) == PathText(path) + ("[\"" + f + "\"]")
  {
    if path == [] {
      assert [] + [f] == [f] && [f][1..] == [];
    } else {
      assert (path + [f])[1..] == path[1..] + [f];
      PathTextSnoc(path[1..], f);
    }
  }

  lemma {:induction false} AccessIs(path: seq<string>)
    ensures Access(path) == PathText(path)
  {
    if |path| != 0 {
      var m := |path| - 1;
      AccessIs(path[..m]);
      PathTextSnoc(path[..m], path[m]);
      assert path == path[..m] + [path[m]];
    }
  }

  lemma TestIs(base: string, fields: seq<string>, i: nat)
    requires i < |fields|
    ensures Tests(base, fields)[i]
            == ChainTestText(base, First(Defined(fields[..i]), IsMapping(fields[..i])))
  {
    AccessIs(fields[..i]);
    var x := base + PathText(fields[..i]);
    assert x + " is defined and " + base + PathText(fields[..i]) + " is mapping"
        == x + " is defined" + " and " + (x + " is mapping");
  }

  lemma {:induction false} TestsText(base: string, fields: seq<string>, k: nat)
    requires 0 < k <= |fields|
    ensures JoinWith(Tests(base, fields)[..k], " and ") == ChainTestText(base, PrefixTests(fields, k))
  {
    var ts := Tests(base, fields);
    TestIs(base, fields, k - 1);
    if k > 1 {
      TestsText(base, fields, k - 1);
      assert ts[..k][..k - 1] == ts[..k - 1];
    }
  }

  lemma PairHolds(v: Value, p: seq<string>)
    ensures TestHolds(v, First(Defined(p), IsMapping(p))) ==
            (match Follow(v, p)
             case None => None
             case Some(u) => Some(u.Mapping?))
  {
    assert TestHolds(v, Defined(p)) == (if Follow(v, p).None? then None else Some(Follow(v, p).value != Undefined));
  }

  lemma {:induction false} TestsHold(v: Value, fields: seq<string>, k: nat)
    requires 0 < k <= |fields|
    ensures TestHolds(v, PrefixTests(fields, k)) == HoldFirst(v, fields, k)
  {
    PairHolds(v, fields[..k - 1]);
    if k > 1 { TestsHold(v, fields, k - 1); } else { assert HoldFirst(v, fields, 0) == Some(true); }
  }

  /** The text of a chain is a conditional whose value `EvalChain` gives: the last field if every prefix is defined and
      a mapping, and none otherwise. */
  lemma ChainReads(base: string, fields: seq<string>, v: Value)
    requires |fields| > 0
    ensures var t := PrefixTests(fields, |fields|);
            && ChainText(base, fields)
               == "(" + (base + PathText(fields)) + " if " + ChainTestText(base, t) + " else none)"
            && EvalChain(v, fields) ==
               (match TestHolds(v, t)
                case None => None
                case Some(b) => if b then Follow(v, fields) else Some(Nothing))
  {
    ChainTextIs(base, fields);
    AccessIs(fields);
    TestsText(base, fields, |fields|);
    assert Tests(base, fields)[..|fields|] == Tests(base, fields);
    TestsHold(v, fields, |fields|);
  }

  // ------------------------------------------------- names, null tests, membership

  /** A name is printed as it is exactly when it is a root or a literal, and otherwise as a type. */
  lemma NamesPrinted(v: string)
    ensures Translate(Name(v)) == Some(v) <==> v == "ctx" || v == "params" || [QUOTE] <= v
    ensures Translate(Name(v)) != Some(v) ==> Translate(Name(v)) == Some("__types." + v)
  {
    assert |"__types." + v| == 8 + |v|;
  }

  /** The tests that a template can make of a value. */
  datatype Condition =
    | IsNone | IsNotNone | IsDefined | IsNotDefined
    | Both(first: Condition, second: Condition)
    | OneOf(first: Condition, second: Condition)

  /** The text of a condition on the value that `x` stands for. */
  function ConditionText(x: string, c: Condition): string {
    match c
    case IsNone => x + " is none"
    case IsNotNone => x + " is not none"
    case IsDefined => x + " is defined"
    case IsNotDefined => x + " is not defined"
    case Both(a, b) => "(" + ConditionText(x, a) + " and " + ConditionText(x, b) + ")"
    case OneOf(a, b) => "(" + ConditionText(x, a) + " or " + ConditionText(x, b) + ")"
  }

  predicate HoldsFor(c: Condition, v: Value) {
    match c
    case IsNone => v == Nothing
    case IsNotNone => v != Nothing
    case IsDefined => v != Undefined
    case IsNotDefined => v == Undefined
    case Both(a, b) => HoldsFor(a, v) && HoldsFor(b, v)
    case OneOf(a, b) => HoldsFor(a, v) || HoldsFor(b, v)
  }

  /** What a comparison with null tests. */
  function NullCondition(isField: bool, op: string): Condition {
    if !isField then if op == "==" then IsNone else IsNotNone
    else if op == "==" then OneOf(IsNotDefined, IsNone)
    else Both(IsDefined, IsNotNone)
  }

  /** A comparison of a field with null accepts exactly the values that are undefined or null, or exactly the others;
      a comparison of anything else looks at null alone. */
  lemma NullTestsMean(l: Expr, op: string, v: Value)
    requires Translate(l).Some? && (op == "==" || op == "!=")
    ensures Translate(Binary(l, op, NullReference))
            == Some(ConditionText(Translate(l).value, NullCondition(l.FieldAccess?, op)))
    ensures HoldsFor(NullCondition(l.FieldAccess?, op), v) <==>
              ((v == Nothing || (l.FieldAccess? && v == Undefined)) <==> op == "==")
  {
    NullTranslates(l, op);
    NullText(Translate(l).value, l.FieldAccess?, op);
    NullHolds(l.FieldAccess?, op, v);
  }

  lemma NullTranslates(l: Expr, op: string)
    requires Translate(l).Some? && (op == "==" || op == "!=")
    ensures Translate(Binary(l, op, NullReference))
            == Some(NullComparison(Translate(l).value, l.FieldAccess?, op == "=="))
  {
    assert Translate(NullReference) == Some("none");
  }

  lemma NullHolds(isField: bool, op: string, v: Value)
    requires op == "==" || op == "!="
    ensures HoldsFor(NullCondition(isField, op), v) <==>
              ((v == Nothing || (isField && v == Undefined)) <==> op == "==")
  {
    if isField && op == "==" {
      assert HoldsFor(OneOf(IsNotDefined, IsNone), v) <==> v == Undefined || v == Nothing;
    } else if isField {
      assert HoldsFor(Both(IsDefined, IsNotNone), v) <==> v != Undefined && v != Nothing;
    }
  }

  lemma NullText(s: string, isField: bool, op: string)
    requires op == "==" || op == "!="
    ensures ConditionText(s, NullCondition(isField, op)) == NullComparison(s, isField, op == "==")
  {
    if isField && op == "==" {
      assert "(" + (s + " is not defined") + " or " + (s + " is none") + ")"
          == "(" + s + " is not defined or " + s + " is none)";
    } else if isField {
      assert "(" + (s + " is defined") + " and " + (s + " is not none") + ")"
          == "(" + s + " is defined and " + s + " is not none)";
    }
  }

  /** `contains` asks whether its parameter is in its target. */
  lemma ContainsIsMembership(list: Expr, element: Expr)
    requires Translate(list).Some? && Translate(element).Some?
    ensures Translate(Call(FieldAccess(list, "contains"), [element]))
            == Some(Translate(element).value + " in " + Translate(list).value)
  {
  }

  /** Only fields can be called, and `contains` takes exactly one parameter. */
  lemma CallsTranslate(t: Expr, ps: seq<Expr>)
    requires Translate(t).Some? && TranslateAll(ps).Some?
    ensures Translate(Call(t, ps)).Some? <==> t.FieldAccess? && (t.field == "contains" ==> |ps| == 1)
  {
    if |ps| == 1 { assert TranslateAll(ps[..0]) == Some([]); }
  }

  /** The texts with a comma between each two. */
  function Listed(texts: seq<string>): string {
    if texts == [] then "" else if |texts| == 1 then texts[0] else texts[0] + ", " + Listed(texts[1..])
  }

  lemma {:induction false} ListedSnoc(texts: seq<string>, x: string)
    requires texts != []
    ensures Listed(texts + [x]) == Listed(texts) + ", " + x
  {
    if |texts| == 1 {
      assert (texts + [x])[1..] == [x];
    } else {
      assert (texts + [x])[1..] == texts[1..] + [x];
      ListedSnoc(texts[1..], x);
      assert texts[0] + ", " + (Listed(texts[1..]) + ", " + x) == texts[0] + ", " + Listed(texts[1..]) + ", " + x;
    }
  }

  lemma {:induction false} JoinLists(texts: seq<string>)
    ensures JoinWith(texts, ", ") == Listed(texts)
  {
    if |texts| > 1 {
      var m := |texts| - 1;
      JoinLists(texts[..m]);
      ListedSnoc(texts[..m], texts[m]);
      assert texts == texts[..m] + [texts[m]];
    }
  }

  lemma {:induction false} ParamsTranslate(ps: seq<Expr>)
    ensures TranslateAll(ps).Some? <==> forall i :: 0 <= i < |ps| ==> Translate(ps[i]).Some?
    ensures TranslateAll(ps).Some? ==>
              && |TranslateAll(ps).value| == |ps|
              && forall i :: 0 <= i < |ps| ==> Translate(ps[i]) == Some(TranslateAll(ps).value[i])
  {
    if |ps| != 0 {
      var m := |ps| - 1;
      ParamsTranslate(ps[..m]);
      assert forall i :: 0 <= i < m ==> ps[i] == ps[..m][i];
    }
  }

  /** A call of a field other than `contains` lists the texts of its parameters, in order. */
  lemma CallsList(t: Expr, f: string, ps: seq<Expr>, s: string, texts: seq<string>)
    requires f != "contains" && Translate(t) == Some(s) && |texts| == |ps|
    requires forall i :: 0 <= i < |ps| ==> Translate(ps[i]) == Some(texts[i])
    ensures Translate(Call(FieldAccess(t, f), ps)) == Some(s + "." + f + "(" + Listed(texts) + ")")
  {
    ParamsTranslate(ps);
    assert TranslateAll(ps).value == texts;
    JoinLists(texts);
  }

  // ------------------------------------------------------ printing is renaming

  datatype Place = BeforeOperand | AfterOperand | AfterDot

  /** Token by token: operands get their prefix, boolean operators their names, binary operators spaces. */
  function Render(place: Place, vs: seq<string>): string
    decreases vs
  {
    if |vs| == 0 then ""
    else
      var v, rest := vs[0], vs[1..];
      match place
      case BeforeOperand => OperandText(v) + Render(AfterOperand, rest)
      case AfterDot => v + Render(AfterOperand, rest)
      case AfterOperand =>
        if v == "." then v + Render(AfterDot, rest)
        else if v == "(" || v == "[" then v + Render(BeforeOperand, rest)
        else if v == ")" || v == "]" then v + Render(AfterOperand, rest)
        else OperatorText(v) + Render(BeforeOperand, rest)
  }

  /** The two roots and literals stay, every other name is a type; an empty parameter list ends at once. */
  function OperandText(v: string): string {
    if v == ")" || v == "ctx" || v == "params" || [QUOTE] <= v then v else "__types." + v
  }

  function OperatorText(v: string): string {
    match v
    case "&&" => " and "
    case "||" => " or "
    case _ => " " + v + " "
  }

  /** No null, no null-safe access, no `contains`, calls only of fields and with at most one parameter. */
  predicate Simple(e: Expr)
    decreases e
  {
    match e
    case Name(_) => true
    case NullReference => false
    case NullTest(_, _) => false
    case FieldAccess(t, _) => Simple(t)
    case Index(t, i) => Simple(t) && Simple(i)
    case Call(t, ps) =>
      t.FieldAccess? && t.field != "contains" && Simple(t) && (|ps| == 0 || (|ps| == 1 && Simple(ps[0])))
    case Binary(l, _, r) => Simple(l) && Simple(r)
  }

  lemma RenderHead(place: Place, v: string, rest: seq<string>)
    ensures [v] + rest != [] && ([v] + rest)[0] == v && ([v] + rest)[1..] == rest
    ensures place == AfterDot ==> Render(place, [v] + rest) == v + Render(AfterOperand, rest)
    ensures place == BeforeOperand ==>
              Render(place, [v] + rest) == (if v == ")" then v else NameText(v)) + Render(AfterOperand, rest)
  {
    assert OperandText(v) == if v == ")" then v else NameText(v);
  }

  lemma RenderAfter(v: string, rest: seq<string>)
    ensures v == "." ==> Render(AfterOperand, [v] + rest) == v + Render(AfterDot, rest)
    ensures v == "(" || v == "[" ==> Render(AfterOperand, [v] + rest) == v + Render(BeforeOperand, rest)
    ensures v == ")" || v == "]" ==> Render(AfterOperand, [v] + rest) == v + Render(AfterOperand, rest)
    ensures IsAnyOp(v) ==> Render(AfterOperand, [v] + rest) == " " + OpName(v) + " " + Render(BeforeOperand, rest)
  {
    assert ([v] + rest)[1..] == rest;
    assert OperatorText(v) == " " + OpName(v) + " ";
  }

  lemma RenderField(f: string, rest: seq<string>)
    ensures Render(AfterOperand, [".", f] + rest) == "." + (f + Render(AfterOperand, rest))
  {
    assert [".", f] + rest == ["."] + ([f] + rest);
    RenderAfter(".", [f] + rest);
    RenderHead(AfterDot, f, rest);
  }

  lemma Dotted(a: string, f: string, r: string)
    ensures a + ("." + (f + r)) == (a + "." + f) + r
  {
  }

  lemma FieldText(t: Expr, f: string, rest: seq<string>)
    requires Translate(t).Some?
    requires Render(BeforeOperand, Unparse(t) + ([".", f] + rest))
             == Translate(t).value + Render(AfterOperand, [".", f] + rest)
    ensures Render(BeforeOperand, Unparse(FieldAccess(t, f)) + rest)
            == Translate(FieldAccess(t, f)).value + Render(AfterOperand, rest)
  {
    FieldTokens(t, f, rest);
    RenderField(f, rest);
    Dotted(Translate(t).value, f, Render(AfterOperand, rest));
  }

  /** Printing a simple expression renders its tokens. */
  lemma {:induction false} TranslateRenders(level: nat, e: Expr, rest: seq<string>)
    requires level <= INNERMOST && Shape(level, e) && Simple(e)
    ensures Translate(e).Some?
    ensures Render(BeforeOperand, Unparse(e) + rest) == Translate(e).value + Render(AfterOperand, rest)
    decreases e
  {
    match e {
      case Name(v) => RenderHead(BeforeOperand, v, rest);
      case FieldAccess(t, f) =>
        TranslateRenders(INNERMOST, t, [".", f] + rest);
        FieldText(t, f, rest);
      case Index(t, i) => IndexRenders(e, rest);
      case Call(t, ps) => CallRenders(e, rest);
      case Binary(l, op, r) => BinaryRenders(e, rest);
    }
  }

  lemma Bracketed(a: string, open: string, b: string, close: string, r: string)
    ensures a + (open + (b + (close + r))) == (a + open + b + close) + r
  {
  }

  lemma Spaced(a: string, op: string, b: string, r: string)
    ensures a + (" " + op + " " + (b + r)) == (a + " " + op + " " + b) + r
  {
  }

  lemma {:induction false} IndexRenders(e: Expr, rest: seq<string>)
    requires e.Index? && Shape(INNERMOST, e) && Simple(e)
    ensures Translate(e).Some?
    ensures Render(BeforeOperand, Unparse(e) + rest) == Translate(e).value + Render(AfterOperand, rest)
    decreases e, 0
  {
    var more := Unparse(e.index) + (["]"] + rest);
    TranslateRenders(INNERMOST, e.target, ["["] + more);
    TranslateRenders(0, e.index, ["]"] + rest);
    IndexTokens(e.target, e.index, rest);
    RenderAfter("[", more);
    RenderAfter("]", rest);
    Bracketed(Translate(e.target).value, "[", Translate(e.index).value, "]", Render(AfterOperand, rest));
  }

  lemma BinaryTokens(e: Expr, rest: seq<string>)
    requires e.Binary?
    ensures Unparse(e) + rest == Unparse(e.left) + ([OpToken(e.op)] + (Unparse(e.right) + rest))
  {
  }

  lemma {:induction false} BinaryRenders(e: Expr, rest: seq<string>)
    requires e.Binary? && Shape(0, e) && Simple(e)
    ensures Translate(e).Some?
    ensures Render(BeforeOperand, Unparse(e) + rest) == Translate(e).value + Render(AfterOperand, rest)
    decreases e, 0
  {
    var v := OpToken(e.op);
    var more := Unparse(e.right) + rest;
    TranslateRenders(OpLevel(e.op), e.left, [v] + more);
    TranslateRenders(OpLevel(e.op) + 1, e.right, rest);
    BinaryTokens(e, rest);
    assert IsAnyOp(v) && OpName(v) == e.op;
    RenderAfter(v, more);
    Spaced(Translate(e.left).value, e.op, Translate(e.right).value, Render(AfterOperand, rest));
  }

  lemma NoParams(rest: seq<string>)
    ensures TranslateAll([]) == Some([])
    ensures Render(BeforeOperand, UnparseAll([]) + [")"] + rest)
            == JoinWith([], ", ") + (")" + Render(AfterOperand, rest))
  {
    RenderHead(BeforeOperand, ")", rest);
    assert UnparseAll([]) + [")"] + rest == [")"] + rest;
  }

  lemma SingleTokens(p: Expr, rest: seq<string>)
    ensures UnparseAll([p]) + [")"] + rest == Unparse(p) + ([")"] + rest)
  {
    assert [p][1..] == [];
    assert UnparseAll([p]) == Unparse(p) + [];
  }

  lemma SingleTranslated(p: Expr)
    requires Translate(p).Some?
    ensures TranslateAll([p]) == Some([Translate(p).value])
  {
    assert [p][..0] == [];
    assert [] + [Translate(p).value] == [Translate(p).value];
  }

  lemma OneParam(p: Expr, rest: seq<string>)
    requires Translate(p).Some?
    requires Render(BeforeOperand, Unparse(p) + ([")"] + rest))
             == Translate(p).value + Render(AfterOperand, [")"] + rest)
    ensures TranslateAll([p]) == Some([Translate(p).value])
    ensures Render(BeforeOperand, UnparseAll([p]) + [")"] + rest)
            == JoinWith([Translate(p).value], ", ") + (")" + Render(AfterOperand, rest))
  {
    RenderAfter(")", rest);
    SingleTokens(p, rest);
    SingleTranslated(p);
  }

  lemma {:induction false} CallRenders(e: Expr, rest: seq<string>)
    requires e.Call? && Shape(INNERMOST, e) && Simple(e)
    ensures Translate(e).Some?
    ensures Render(BeforeOperand, Unparse(e) + rest) == Translate(e).value + Render(AfterOperand, rest)
    decreases e, 0
  {
    var more := UnparseAll(e.params) + [")"] + rest;
    TranslateRenders(INNERMOST, e.target, ["("] + more);
    if |e.params| == 0 {
      NoParams(rest);
      assert e.params == [];
    } else {
      TranslateRenders(0, e.params[0], [")"] + rest);
      OneParam(e.params[0], rest);
      assert e.params == [e.params[0]];
    }
    CallTokens(e.target, e.params, rest);
    RenderAfter("(", more);
    Bracketed(Translate(e.target).value, "(", JoinWith(TranslateAll(e.params).value, ", "), ")",
              Render(AfterOperand, rest));
  }

  /** What is parsed from tokens and printed is those tokens, renamed one by one. */
  lemma PrintingIsRenaming(ts: seq<Token>)
    requires WellKinded(ts) && Parse(0, ts).Some? && Simple(Parse(0, ts).value.0)
    ensures var r := Parse(0, ts).value;
            && |r.1| < |ts| && Values(ts) == Unparse(r.0) + Values(r.1)
            && Translate(r.0) == Some(Render(BeforeOperand, Unparse(r.0)))
  {
    var e := Parse(0, ts).value.0;
    ParseShapes(0, ts);
    ParsePrints(0, ts);
    TranslateRenders(0, e, []);
    assert Unparse(e) + [] == Unparse(e);
    assert Translate(e).value + "" == Translate(e).value;
  }
}
