/** The filter stack of `SqlBuilder` (`query_core/src/schema_massager.rs`): contexts are pushed and
    popped, and what comes out denotes the tree of contexts. */
module SqlBuilders {
  import opened Prelude
  import opened SqlFilters

  /** A tree of filter contexts. */
  datatype Tree = Leaf(filter: Expr) | Node(isAnd: bool, negated: bool, children: seq<Tree>)

  /** What popping a context adds to the one below. */
  function PopResult(top: seq<Expr>, isAnd: bool, negated: bool): seq<Expr> {
    match if isAnd then Conjoin(top) else Disjoin(top)
    case None => []
    case Some(e) => [if negated then Not(e) else e]
  }

  /** What a tree leaves in the enclosing context: nothing, or one filter. */
  function Compiled(t: Tree): seq<Expr>
    decreases t
  {
    match t
    case Leaf(e) => [e]
    case Node(isAnd, negated, ts) => PopResult(CompiledAll(ts), isAnd, negated)
  }

  function CompiledAll(ts: seq<Tree>): seq<Expr>
    decreases ts
  {
    if |ts| == 0 then [] else CompiledAll(ts[..|ts| - 1]) + Compiled(ts[|ts| - 1])
  }

  // -------------------------------------------------------- meaning of a tree

  /** Some leaf lies below: the tree constrains something. */
  predicate Constrains(t: Tree)
    decreases t
  {
    match t
    case Leaf(_) => true
    case Node(_, _, ts) => exists x :: x in ts && Constrains(x)
  }

  /** The truth value of a tree, where subtrees without any leaf are left out. */
  function Meaning(g: Engine, row: Row, t: Tree): Kleene
    decreases t
  {
    match t
    case Leaf(e) => AsKleene(Eval(g, row, e))
    case Node(isAnd, negated, ts) =>
      var m := if isAnd then MeaningAll(g, row, ts) else MeaningAny(g, row, ts);
      if negated then Negate(m) else m
  }

  function MeaningAll(g: Engine, row: Row, ts: seq<Tree>): Kleene
    decreases ts
  {
    if |ts| == 0 then True
    else
      var m, t := MeaningAll(g, row, ts[..|ts| - 1]), ts[|ts| - 1];
      if Constrains(t) then Both(m, Meaning(g, row, t)) else m
  }

  function MeaningAny(g: Engine, row: Row, ts: seq<Tree>): Kleene
    decreases ts
  {
    if |ts| == 0 then False
    else
      var m, t := MeaningAny(g, row, ts[..|ts| - 1]), ts[|ts| - 1];
      if Constrains(t) then Either(m, Meaning(g, row, t)) else m
  }

  lemma {:induction false} CompiledWhen(t: Tree)
    ensures Constrains(t) <==> Compiled(t) != []
    ensures |Compiled(t)| <= 1
    decreases t
  {
    match t
    case Leaf(_) =>
    case Node(isAnd, negated, ts) => ListWhen(ts);
  }

  lemma {:induction false} ListWhen(ts: seq<Tree>)
    ensures CompiledAll(ts) != [] <==> exists x :: x in ts && Constrains(x)
    decreases ts
  {
    if |ts| != 0 {
      var m := |ts| - 1;
      ListWhen(ts[..m]);
      CompiledWhen(ts[m]);
      assert forall x :: x in ts <==> x in ts[..m] || x == ts[m];
    }
  }

  /** A tree compiles to one filter with its meaning, or to nothing when it constrains nothing. */
  lemma {:induction false} CompiledMeans(g: Engine, row: Row, t: Tree)
    ensures Constrains(t) <==> Compiled(t) != []
    ensures Constrains(t) ==> |Compiled(t)| == 1 && AsKleene(Eval(g, row, Compiled(t)[0])) == Meaning(g, row, t)
    decreases t
  {
    CompiledWhen(t);
    match t
    case Leaf(_) =>
    case Node(isAnd, negated, ts) =>
      if isAnd { ListAll(g, row, ts); } else { ListAny(g, row, ts); }
      PopMeans(g, row, CompiledAll(ts), isAnd, negated);
  }

  lemma PopMeans(g: Engine, row: Row, top: seq<Expr>, isAnd: bool, negated: bool)
    ensures PopResult(top, isAnd, negated) == [] <==> top == []
    ensures top != [] ==>
              && |PopResult(top, isAnd, negated)| == 1
              && AsKleene(Eval(g, row, PopResult(top, isAnd, negated)[0])) ==
                 (var k := if isAnd then All(g, row, top) else Any(g, row, top); if negated then Negate(k) else k)
  {
    ConjoinTruth(g, row, top);
  }

  /** The list grows by one filter or by none. */
  lemma CompiledStep(ts: seq<Tree>)
    requires |ts| > 0
    ensures var before, t := CompiledAll(ts[..|ts| - 1]), ts[|ts| - 1];
            && (Constrains(t) ==> |Compiled(t)| == 1 && CompiledAll(ts) == before + [Compiled(t)[0]])
            && (!Constrains(t) ==> CompiledAll(ts) == before)
  {
    CompiledWhen(ts[|ts| - 1]);
  }

  lemma {:induction false} ListAll(g: Engine, row: Row, ts: seq<Tree>)
    ensures All(g, row, CompiledAll(ts)) == MeaningAll(g, row, ts)
    decreases ts
  {
    if |ts| != 0 {
      var m := |ts| - 1;
      ListAll(g, row, ts[..m]);
      CompiledMeans(g, row, ts[m]);
      CompiledStep(ts);
      if Constrains(ts[m]) { AllStep(g, row, CompiledAll(ts[..m]), Compiled(ts[m])[0]); }
    }
  }

  lemma {:induction false} ListAny(g: Engine, row: Row, ts: seq<Tree>)
    ensures Any(g, row, CompiledAll(ts)) == MeaningAny(g, row, ts)
    decreases ts
  {
    if |ts| != 0 {
      var m := |ts| - 1;
      ListAny(g, row, ts[..m]);
      CompiledMeans(g, row, ts[m]);
      CompiledStep(ts);
      if Constrains(ts[m]) { AllStep(g, row, CompiledAll(ts[..m]), Compiled(ts[m])[0]); }
    }
  }

  // --------------------------------------------------------- the tables it reads

  predicate TreeReads(t: Tree, table: string)
    decreases t
  {
    match t
    case Leaf(e) => Reads(e, table)
    case Node(_, _, ts) => exists x :: x in ts && TreeReads(x, table)
  }

  lemma PopReads(top: seq<Expr>, isAnd: bool, negated: bool, table: string)
    ensures AnyReads(PopResult(top, isAnd, negated), table) <==> AnyReads(top, table)
  {
    var e := if isAnd then Conjoin(top) else Disjoin(top);
    if e.Some? {
      assert Reads(e.value, table) <==> AnyReads(top, table) by {
        if |top| == 1 { assert forall x :: x in top <==> x == top[0]; }
      }
      var x := if negated then Not(e.value) else e.value;
      assert PopResult(top, isAnd, negated) == [x];
      assert Reads(x, table) <==> Reads(e.value, table);
      assert forall y :: y in [x] <==> y == x;
    }
  }

  lemma {:induction false} CompiledReads(t: Tree, table: string)
    ensures AnyReads(Compiled(t), table) <==> TreeReads(t, table)
    decreases t
  {
    match t
    case Leaf(e) => assert e in [e];
    case Node(isAnd, negated, ts) =>
      CompiledAllReads(ts, table);
      PopReads(CompiledAll(ts), isAnd, negated, table);
  }

  lemma {:induction false} CompiledAllReads(ts: seq<Tree>, table: string)
    ensures AnyReads(CompiledAll(ts), table) <==> exists x :: x in ts && TreeReads(x, table)
    decreases ts
  {
    if |ts| != 0 {
      var m := |ts| - 1;
      CompiledAllReads(ts[..m], table);
      CompiledReads(ts[m], table);
      assert forall x :: x in ts <==> x in ts[..m] || x == ts[m];
    }
  }

  /** Without the delete filter, a built filter reads the deletes table only where one of its trees does. */
  lemma BuiltReads(includeDeletesJoin: bool, ts: seq<Tree>)
    requires forall x :: x in ts ==> !TreeReads(x, "dt")
    ensures var e := Conjoin(StartOf(includeDeletesJoin) + CompiledAll(ts));
            e.Some? && WithoutDeleteFilter(e.value).Some? ==> !Reads(WithoutDeleteFilter(e.value).value, "dt")
  {
    var es := StartOf(includeDeletesJoin) + CompiledAll(ts);
    var e := Conjoin(es);
    if e.Some? && WithoutDeleteFilter(e.value).Some? {
      WithoutDeleteReads(e.value, "dt");
      ConjoinConjuncts(es);
      forall x | x in ConjunctsOf(es) && IsOther(x)
        ensures !Reads(x, "dt")
      {
        if Reads(x, "dt") { OtherFromTrees(StartOf(includeDeletesJoin), CompiledAll(ts), x); }
        CompiledAllReads(ts, "dt");
        ConjunctsOfRead(CompiledAll(ts), "dt");
      }
    }
  }

  lemma {:induction false} ConjunctsConcat(a: seq<Expr>, b: seq<Expr>)
    ensures ConjunctsOf(a + b) == ConjunctsOf(a) + ConjunctsOf(b)
  {
    if |b| == 0 {
      assert a + b == a;
    } else {
      var m := |b| - 1;
      ConjunctsConcat(a, b[..m]);
      assert (a + b)[..|a + b| - 1] == a + b[..m];
    }
  }

  lemma OtherFromTrees(start: seq<Expr>, es: seq<Expr>, x: Expr)
    requires (start == [] || start == [IsNull(DELETE_KEY)]) && x in ConjunctsOf(start + es) && IsOther(x)
    ensures x in ConjunctsOf(es)
  {
    ConjunctsConcat(start, es);
    if start != [] { assert start[..0] == []; }
  }

  // -------------------------------------------------------------- the builder

  class SqlBuilder {
    var filterStack: seq<seq<Expr>>

    constructor (includeDeletesJoin: bool)
      ensures filterStack == [StartOf(includeDeletesJoin)]
    {
      filterStack := [StartOf(includeDeletesJoin)];
    }

    method PushFilterContext()
      modifies this
      ensures filterStack == old(filterStack) + [[]]
    {
      filterStack := filterStack + [[]];
    }

    /** `filter`. */
    method AddFilter(e: Expr)
      requires |filterStack| > 0
      modifies this
      ensures |filterStack| == old(|filterStack|)
      ensures filterStack == old(filterStack)[|filterStack| - 1 := old(filterStack)[|filterStack| - 1] + [e]]
    {
      var n := |filterStack| - 1;
      filterStack := filterStack[n := filterStack[n] + [e]];
    }

    /** `pop_and_maybe_not_filter_context`; there must be a context below unless the popped one is empty. */
    method PopFilterContext(isAnd: bool, isNot: bool)
      requires |filterStack| > 0 && (|filterStack| == 1 ==> filterStack[0] == [])
      modifies this
      ensures var n := old(|filterStack|) - 1;
              var added := PopResult(old(filterStack)[n], isAnd, isNot);
              filterStack == if added == [] then old(filterStack)[..n]
                             else old(filterStack)[..n][n - 1 := old(filterStack)[n - 1] + added]
    {
      var n := |filterStack| - 1;
      var filter := if isAnd then Conjoin(filterStack[n]) else Disjoin(filterStack[n]);
      filterStack := filterStack[..n];
      if filter.Some? {
        var e := if isNot then Not(filter.value) else filter.value;
        filterStack := filterStack[n - 1 := filterStack[n - 1] + [e]];
      }
    }

    /** Feeds a tree to the builder: push, the children, pop. */
    method AddTree(t: Tree)
      requires |filterStack| > 0
      modifies this
      ensures |filterStack| == old(|filterStack|)
      ensures filterStack[..|filterStack| - 1] == old(filterStack)[..|filterStack| - 1]
      ensures filterStack[|filterStack| - 1] == old(filterStack)[|filterStack| - 1] + Compiled(t)
      decreases t
    {
      match t
      case Leaf(e) => AddFilter(e);
      case Node(isAnd, negated, ts) =>
        var n := |filterStack|;
        PushFilterContext();
        var k := 0;
        while k < |ts|
          invariant k <= |ts| && |filterStack| == n + 1
          invariant filterStack[..n] == old(filterStack)
          invariant filterStack[n] == CompiledAll(ts[..k])
        {
          assert ts[..k + 1][..k] == ts[..k];
          AddTree(ts[k]);
          k := k + 1;
        }
        assert ts[..k] == ts;
        PopFilterContext(isAnd, negated);
    }

    /** `_filters`. */
    method Filters() returns (e: Option<Expr>)
      requires |filterStack| == 1
      ensures e == Conjoin(filterStack[0])
    {
      e := Conjoin(filterStack[0]);
    }
  }

  /** Compiling a list of trees leaves the stack at depth one, with a filter that denotes all of them
      together with what was there before. */
  method BuildFilters(includeDeletesJoin: bool, ts: seq<Tree>, ghost g: Engine, ghost row: Row)
    returns (e: Option<Expr>)
    ensures TruthOf(g, row, e) ==
            Both(if includeDeletesJoin then AsKleene(Eval(g, row, IsNull(DELETE_KEY))) else True,
                 MeaningAll(g, row, ts))
    ensures (forall x :: x in ts ==> !TreeReads(x, "dt")) && e.Some? && WithoutDeleteFilter(e.value).Some? ==>
              !Reads(WithoutDeleteFilter(e.value).value, "dt")
  {
    var b := new SqlBuilder(includeDeletesJoin);
    var k := 0;
    while k < |ts|
      invariant k <= |ts| && |b.filterStack| == 1
      invariant b.filterStack[0] == StartOf(includeDeletesJoin) + CompiledAll(ts[..k])
    {
      assert ts[..k + 1][..k] == ts[..k];
      b.AddTree(ts[k]);
      k := k + 1;
    }
    assert ts[..k] == ts;
    e := b.Filters();
    BuiltTruth(g, row, includeDeletesJoin, ts);
    if forall x :: x in ts ==> !TreeReads(x, "dt") { BuiltReads(includeDeletesJoin, ts); }
  }

  function StartOf(includeDeletesJoin: bool): seq<Expr> {
    if includeDeletesJoin then [IsNull(DELETE_KEY)] else []
  }

  lemma StartTruth(g: Engine, row: Row, includeDeletesJoin: bool)
    ensures All(g, row, StartOf(includeDeletesJoin)) ==
            if includeDeletesJoin then AsKleene(Eval(g, row, IsNull(DELETE_KEY))) else True
  {
    AllStep(g, row, [], IsNull(DELETE_KEY));
    assert [] + [IsNull(DELETE_KEY)] == [IsNull(DELETE_KEY)];
  }

  lemma BuiltTruth(g: Engine, row: Row, includeDeletesJoin: bool, ts: seq<Tree>)
    ensures TruthOf(g, row, Conjoin(StartOf(includeDeletesJoin) + CompiledAll(ts))) ==
            Both(if includeDeletesJoin then AsKleene(Eval(g, row, IsNull(DELETE_KEY))) else True,
                 MeaningAll(g, row, ts))
  {
    ConjoinTruth(g, row, StartOf(includeDeletesJoin) + CompiledAll(ts));
    AllConcat(g, row, StartOf(includeDeletesJoin), CompiledAll(ts));
    StartTruth(g, row, includeDeletesJoin);
    ListAll(g, row, ts);
  }

  lemma {:induction false} AllConcat(g: Engine, row: Row, a: seq<Expr>, b: seq<Expr>)
    ensures All(g, row, a + b) == Both(All(g, row, a), All(g, row, b))
  {
    if |b| == 0 {
      assert a + b == a;
    } else {
      var m := |b| - 1;
      AllConcat(g, row, a, b[..m]);
      assert (a + b)[..|a + b| - 1] == a + b[..m];
    }
  }
}
