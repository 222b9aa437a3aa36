/** Filter expressions (`query_core/src/schema_massager.rs`): fitting a filter to the schema of one
    file, and dropping the delete filter, keep what the filter accepts. */
module SqlFilters {
  import opened Prelude
  import opened Schemas

  datatype Expr =
    | And(exprs: seq<Expr>)
    | Arithmetic(left: Expr, op: string, right: Expr)
    | Average(value: Expr)
    | Comparison(left: Expr, op: string, right: Expr)
    | Count
    | CountDistinct(value: Expr)
    | FieldRef(table: string, field: string)
    | In(left: Expr, choices: seq<Expr>)
    | IsNull(value: Expr)
    | Like(left: Expr, right: Expr)
    | LiteralNonString(text: string)
    | LiteralString(text: string)
    | Not(value: Expr)
    | NullOf(dataType: DataType)
    | Or(exprs: seq<Expr>)

  // ------------------------------------------------- three-valued evaluation

  datatype Value = Nothing | Truth(b: bool) | Number(n: real) | Text(s: string)

  datatype Kleene = True | False | Unknown

  /** What the SQL engine does with literals, comparisons, arithmetic and patterns. */
  datatype Engine = Engine(
    literal: string -> Value,
    compare: (string, Value, Value) -> Kleene,
    arithmetic: (string, Value, Value) -> Value,
    like: (Value, Value) -> Kleene)

  /** Null and false literals mean what they say, and no comparison with null is true or false. */
  ghost predicate Sound(g: Engine) {
    && g.literal("null") == Nothing
    && g.literal("false") == Truth(false)
    && forall op, v :: g.compare(op, Nothing, v) == Unknown
  }

  /** A joined row: the columns of the data file, and those of the other tables. */
  datatype Row = Row(columns: map<string, Value>, others: map<(string, string), Value>)

  function AsKleene(v: Value): Kleene {
    match v
    case Truth(b) => if b then True else False
    case _ => Unknown
  }

  function AsValue(k: Kleene): Value {
    match k
    case True => Truth(true)
    case False => Truth(false)
    case Unknown => Nothing
  }

  function Both(a: Kleene, b: Kleene): Kleene {
    if a == False || b == False then False else if a == True && b == True then True else Unknown
  }

  function Either(a: Kleene, b: Kleene): Kleene {
    if a == True || b == True then True else if a == False && b == False then False else Unknown
  }

  function Negate(a: Kleene): Kleene {
    match a
    case True => False
    case False => True
    case Unknown => Unknown
  }

  /** `replace(".", "_")`. */
  function Denormalize(name: string): string {
    seq(|name|, i requires 0 <= i < |name| => if name[i] == '.' then '_' else name[i])
  }

  /** Dots become underscores, so that nested names are flat column names; nothing else changes. */
  lemma DenormalizeFlattens(name: string, i: nat)
    requires i < |name|
    ensures |Denormalize(name)| == |name| && '.' !in Denormalize(name)
    ensures Denormalize(name)[i] != name[i] ==> name[i] == '.' && Denormalize(name)[i] == '_'
  {
  }

  /** The value of an expression tree; a column the row does not have is null. */
  function Eval(g: Engine, row: Row, e: Expr): Value
    decreases e
  {
    match e
    case And(es) => AsValue(All(g, row, es))
    case Or(es) => AsValue(Any(g, row, es))
    case Not(v) => AsValue(Negate(AsKleene(Eval(g, row, v))))
    case Arithmetic(l, op, r) => g.arithmetic(op, Eval(g, row, l), Eval(g, row, r))
    case Comparison(l, op, r) => AsValue(g.compare(op, Eval(g, row, l), Eval(g, row, r)))
    case FieldRef(t, f) =>
      if t == "t" then if Denormalize(f) in row.columns then row.columns[Denormalize(f)] else Nothing
      else if (t, f) in row.others then row.others[(t, f)] else Nothing
    case In(l, rs) => AsValue(Among(g, row, Eval(g, row, l), rs))
    case IsNull(v) => Truth(Eval(g, row, v) == Nothing)
    case Like(l, r) => AsValue(g.like(Eval(g, row, l), Eval(g, row, r)))
    case LiteralNonString(t) => g.literal(t)
    case LiteralString(t) => Text(t)
    case NullOf(dt) => if dt == DataType.Boolean then Truth(false) else Nothing
    case Average(_) => Nothing
    case Count => Nothing
    case CountDistinct(_) => Nothing
  }

  function All(g: Engine, row: Row, es: seq<Expr>): Kleene
    decreases es
  {
    if |es| == 0 then True else Both(All(g, row, es[..|es| - 1]), AsKleene(Eval(g, row, es[|es| - 1])))
  }

  function Any(g: Engine, row: Row, es: seq<Expr>): Kleene
    decreases es
  {
    if |es| == 0 then False else Either(Any(g, row, es[..|es| - 1]), AsKleene(Eval(g, row, es[|es| - 1])))
  }

  function Among(g: Engine, row: Row, v: Value, es: seq<Expr>): Kleene
    decreases es
  {
    if |es| == 0 then False else Either(Among(g, row, v, es[..|es| - 1]), g.compare("=", v, Eval(g, row, es[|es| - 1])))
  }

  predicate Accepts(g: Engine, row: Row, e: Expr) {
    Eval(g, row, e) == Truth(true)
  }

  // ------------------------------------------------------------- finalize

  type Columns = map<string, DataType>

  /** `finalize`, for schemas without nested objects. */
  function Finalize(e: Expr, original: Columns, target: Columns): Expr
    decreases e
  {
    match e
    case And(es) => And(FinalizeAll(es, original, target))
    case Or(es) => Or(FinalizeAll(es, original, target))
    case Not(v) => Not(Finalize(v, original, target))
    case Arithmetic(l, op, r) => Arithmetic(Finalize(l, original, target), op, Finalize(r, original, target))
    case Comparison(l, op, r) =>
      var left := Finalize(l, original, target);
      if left == LiteralNonString("null") then LiteralNonString("false")
      else Comparison(left, op, Finalize(r, original, target))
    case FieldRef(t, f) =>
      if t != "t" then e
      else if Denormalize(f) !in original then LiteralNonString("null")
      else if Denormalize(f) in target then e
      else NullOf(original[Denormalize(f)])
    case In(l, rs) => In(Finalize(l, original, target), FinalizeAll(rs, original, target))
    case IsNull(v) => IsNull(Finalize(v, original, target))
    case Like(l, r) => Like(Finalize(l, original, target), Finalize(r, original, target))
    case Average(v) => Average(Finalize(v, original, target))
    case CountDistinct(v) => CountDistinct(Finalize(v, original, target))
    case LiteralNonString(_) => e
    case LiteralString(_) => e
    case NullOf(_) => e
    case Count => e
  }

  function FinalizeAll(es: seq<Expr>, original: Columns, target: Columns): seq<Expr>
    decreases es
  {
    if |es| == 0 then [] else FinalizeAll(es[..|es| - 1], original, target) + [Finalize(es[|es| - 1], original, target)]
  }

  // -------------------------------------------------- what fitting preserves

  /** The row holds the columns of the file's schema. */
  ghost predicate Fits(row: Row, target: Columns) {
    row.columns.Keys == target.Keys
  }

  /** A column that the file has is a column of the table, and a Boolean column is not missing from the file. */
  predicate ColumnSafe(n: string, original: Columns, target: Columns) {
    && (n in target ==> n in original)
    && (n in original && n !in target ==> original[n] != DataType.Boolean)
  }

  /** Every column that an expression mentions is safe. */
  predicate Safe(e: Expr, original: Columns, target: Columns)
    decreases e
  {
    match e
    case FieldRef(t, f) => t == "t" ==> ColumnSafe(Denormalize(f), original, target)
    case And(es) => forall x :: x in es ==> Safe(x, original, target)
    case Or(es) => forall x :: x in es ==> Safe(x, original, target)
    case Not(v) => Safe(v, original, target)
    case Comparison(l, _, r) => Safe(l, original, target) && Safe(r, original, target)
    case Arithmetic(l, _, r) => Safe(l, original, target) && Safe(r, original, target)
    case Like(l, r) => Safe(l, original, target) && Safe(r, original, target)
    case In(l, rs) => Safe(l, original, target) && forall x :: x in rs ==> Safe(x, original, target)
    case IsNull(v) => Safe(v, original, target)
    case _ => true
  }

  /** A column keeps its value exactly when it is not a Boolean one that the file lacks. */
  lemma ColumnKept(g: Engine, row: Row, f: string, original: Columns, target: Columns)
    requires Sound(g) && Fits(row, target) && (Denormalize(f) in target ==> Denormalize(f) in original)
    ensures Eval(g, row, Finalize(FieldRef("t", f), original, target)) == Eval(g, row, FieldRef("t", f))
            <==> ColumnSafe(Denormalize(f), original, target)
  {
  }

  /** No comparison under a negation or inside an operand has a left side that becomes the null literal;
      `exact` says that `e` itself is in such a place. */
  predicate Robust(e: Expr, exact: bool, original: Columns, target: Columns)
    decreases e
  {
    match e
    case And(es) => forall x :: x in es ==> Robust(x, exact, original, target)
    case Or(es) => forall x :: x in es ==> Robust(x, exact, original, target)
    case Comparison(l, _, r) =>
      && (exact ==> Finalize(l, original, target) != LiteralNonString("null"))
      && Robust(l, true, original, target) && Robust(r, true, original, target)
    case Not(v) => Robust(v, true, original, target)
    case Arithmetic(l, _, r) => Robust(l, true, original, target) && Robust(r, true, original, target)
    case Like(l, r) => Robust(l, true, original, target) && Robust(r, true, original, target)
    case In(l, rs) => Robust(l, true, original, target) && forall x :: x in rs ==> Robust(x, true, original, target)
    case IsNull(v) => Robust(v, true, original, target)
    case _ => true
  }

  /** What the lemmas below ask of an expression. */
  ghost predicate Fitted(g: Engine, row: Row, e: Expr, exact: bool, original: Columns, target: Columns) {
    Sound(g) && Fits(row, target) && Safe(e, original, target) && Robust(e, exact, original, target)
  }

  ghost predicate AllFitted(g: Engine, row: Row, es: seq<Expr>, exact: bool, original: Columns, target: Columns) {
    && Sound(g) && Fits(row, target)
    && forall x :: x in es ==> Safe(x, original, target) && Robust(x, exact, original, target)
  }

  lemma {:induction false} FinalizeLength(es: seq<Expr>, original: Columns, target: Columns)
    ensures |FinalizeAll(es, original, target)| == |es|
  {
    if |es| != 0 { FinalizeLength(es[..|es| - 1], original, target); }
  }

  lemma FinalizeStep(es: seq<Expr>, original: Columns, target: Columns)
    requires |es| > 0
    ensures var m, fs := |es| - 1, FinalizeAll(es, original, target);
            && |fs| == m + 1 && fs[..m] == FinalizeAll(es[..m], original, target)
            && fs[m] == Finalize(es[m], original, target)
  {
    FinalizeLength(es[..|es| - 1], original, target);
  }

  /** In an exact place an expression keeps its value on every row. */
  lemma {:induction false} FilterKept(g: Engine, row: Row, e: Expr, original: Columns, target: Columns)
    requires Fitted(g, row, e, true, original, target)
    ensures Eval(g, row, Finalize(e, original, target)) == Eval(g, row, e)
    decreases e, 1
  {
    if e.And? || e.Or? {
      ListNodeKept(g, row, e, original, target);
    } else if e.In? {
      InKept(g, row, e, original, target);
    } else if e.Arithmetic? || e.Comparison? || e.Like? {
      PairNodeKept(g, row, e, original, target);
    } else if e.Not? || e.IsNull? {
      FilterKept(g, row, e.value, original, target);
    }
  }

  /** An aggregate stays the same aggregate, of an expression with the same value on every row. */
  lemma AggregateKept(g: Engine, row: Row, v: Expr, original: Columns, target: Columns)
    requires Fitted(g, row, v, true, original, target)
    ensures Finalize(Average(v), original, target).Average?
    ensures Eval(g, row, Finalize(Average(v), original, target).value) == Eval(g, row, v)
    ensures Finalize(CountDistinct(v), original, target).CountDistinct?
    ensures Eval(g, row, Finalize(CountDistinct(v), original, target).value) == Eval(g, row, v)
    ensures Finalize(Count, original, target) == Count
  {
    FilterKept(g, row, v, original, target);
  }

  lemma {:induction false} PairNodeKept(g: Engine, row: Row, e: Expr, original: Columns, target: Columns)
    requires Fitted(g, row, e, true, original, target) && (e.Arithmetic? || e.Comparison? || e.Like?)
    ensures Eval(g, row, Finalize(e, original, target)) == Eval(g, row, e)
    decreases e, 0
  {
    FilterKept(g, row, e.left, original, target);
    FilterKept(g, row, e.right, original, target);
  }

  lemma {:induction false} ListNodeKept(g: Engine, row: Row, e: Expr, original: Columns, target: Columns)
    requires Fitted(g, row, e, true, original, target) && (e.And? || e.Or?)
    ensures Eval(g, row, Finalize(e, original, target)) == Eval(g, row, e)
    decreases e, 0
  {
    ListKept(g, row, e.exprs, original, target);
  }

  lemma {:induction false} InKept(g: Engine, row: Row, e: Expr, original: Columns, target: Columns)
    requires Fitted(g, row, e, true, original, target) && e.In?
    ensures Eval(g, row, Finalize(e, original, target)) == Eval(g, row, e)
    decreases e, 0
  {
    FilterKept(g, row, e.left, original, target);
    ChoicesKept(g, row, Eval(g, row, e.left), e.choices, original, target);
  }

  lemma {:induction false} ListKept(g: Engine, row: Row, es: seq<Expr>, original: Columns, target: Columns)
    requires AllFitted(g, row, es, true, original, target)
    ensures All(g, row, FinalizeAll(es, original, target)) == All(g, row, es)
    ensures Any(g, row, FinalizeAll(es, original, target)) == Any(g, row, es)
    decreases es
  {
    if |es| != 0 {
      ListKept(g, row, es[..|es| - 1], original, target);
      FilterKept(g, row, es[|es| - 1], original, target);
      FinalizeStep(es, original, target);
    }
  }

  lemma {:induction false} ChoicesKept(g: Engine, row: Row, v: Value, es: seq<Expr>, original: Columns, target: Columns)
    requires AllFitted(g, row, es, true, original, target)
    ensures Among(g, row, v, FinalizeAll(es, original, target)) == Among(g, row, v, es)
    decreases es
  {
    if |es| != 0 {
      ChoicesKept(g, row, v, es[..|es| - 1], original, target);
      FilterKept(g, row, es[|es| - 1], original, target);
      FinalizeStep(es, original, target);
    }
  }

  /** `b` is `a`, except that an unknown may have become false. */
  predicate Hardened(a: Kleene, b: Kleene) {
    a == b || (a == Unknown && b == False)
  }

  lemma HardenedBoth(a: Kleene, b: Kleene, c: Kleene, d: Kleene)
    requires Hardened(a, c) && Hardened(b, d)
    ensures Hardened(Both(a, b), Both(c, d)) && Hardened(Either(a, b), Either(c, d))
  {
  }

  lemma UnknownComparison(g: Engine, row: Row, l: Expr, op: string, r: Expr, original: Columns, target: Columns)
    requires Fitted(g, row, l, true, original, target)
    requires Finalize(l, original, target) == LiteralNonString("null")
    ensures Eval(g, row, Comparison(l, op, r)) == Nothing
    ensures Finalize(Comparison(l, op, r), original, target) == LiteralNonString("false")
  {
    FilterKept(g, row, l, original, target);
    assert Eval(g, row, l) == g.literal("null");
  }

  lemma ComparisonHardened(g: Engine, row: Row, l: Expr, op: string, r: Expr, original: Columns, target: Columns)
    requires Fitted(g, row, Comparison(l, op, r), false, original, target)
    ensures var e := Comparison(l, op, r); var f := Finalize(e, original, target);
            Eval(g, row, f) == Eval(g, row, e) || (Eval(g, row, e) == Nothing && Eval(g, row, f) == Truth(false))
  {
    ComparisonHardens(g, row, l, op, r, original, target);
  }

  /** Every truth value stays, or hardens from unknown to false. */
  lemma {:induction false} FilterHardened(g: Engine, row: Row, e: Expr, original: Columns, target: Columns)
    requires Fitted(g, row, e, false, original, target)
    ensures Hardened(AsKleene(Eval(g, row, e)), AsKleene(Eval(g, row, Finalize(e, original, target))))
    decreases e
  {
    if e.And? || e.Or? {
      ListHardened(g, row, e.exprs, original, target);
    } else if e.Comparison? {
      ComparisonHardened(g, row, e.left, e.op, e.right, original, target);
    } else {
      FilterKept(g, row, e, original, target);
    }
  }

  lemma {:induction false} ListHardened(g: Engine, row: Row, es: seq<Expr>, original: Columns, target: Columns)
    requires AllFitted(g, row, es, false, original, target)
    ensures Hardened(All(g, row, es), All(g, row, FinalizeAll(es, original, target)))
    ensures Hardened(Any(g, row, es), Any(g, row, FinalizeAll(es, original, target)))
    decreases es
  {
    if |es| != 0 {
      var m := |es| - 1;
      var init := FinalizeAll(es[..m], original, target);
      ListHardened(g, row, es[..m], original, target);
      FilterHardened(g, row, es[m], original, target);
      FinalizeStep(es, original, target);
      var a, c := AsKleene(Eval(g, row, es[m])), AsKleene(Eval(g, row, Finalize(es[m], original, target)));
      HardenedBoth(All(g, row, es[..m]), a, All(g, row, init), c);
      HardenedBoth(Any(g, row, es[..m]), a, Any(g, row, init), c);
    }
  }

  /** A filter accepts the same rows after being fitted to a file, whatever its shape, when no comparison
      under a negation or inside an operand has a left side that becomes the null literal. */
  lemma FinalizeAcceptsSame(g: Engine, row: Row, e: Expr, original: Columns, target: Columns)
    requires Sound(g) && Fits(row, target) && Safe(e, original, target) && Robust(e, false, original, target)
    ensures Accepts(g, row, Finalize(e, original, target)) <==> Accepts(g, row, e)
  {
    FilterHardened(g, row, e, original, target);
  }

  /** A comparison under a negation, or tested for null, keeps what it accepts exactly when its left side
      does not become the null literal. */
  lemma TestedComparison(g: Engine, row: Row, l: Expr, op: string, r: Expr, original: Columns, target: Columns)
    requires Fitted(g, row, Comparison(l, op, r), false, original, target)
    ensures var e := Not(Comparison(l, op, r));
            (Accepts(g, row, Finalize(e, original, target)) <==> Accepts(g, row, e))
            <==> Finalize(l, original, target) != LiteralNonString("null")
    ensures var e := IsNull(Comparison(l, op, r));
            (Accepts(g, row, Finalize(e, original, target)) <==> Accepts(g, row, e))
            <==> Finalize(l, original, target) != LiteralNonString("null")
  {
    var c := Comparison(l, op, r);
    ComparisonHardens(g, row, l, op, r, original, target);
    TestEval(g, row, c);
    TestEval(g, row, Finalize(c, original, target));
  }

  lemma ComparisonHardens(g: Engine, row: Row, l: Expr, op: string, r: Expr, original: Columns, target: Columns)
    requires Fitted(g, row, Comparison(l, op, r), false, original, target)
    ensures var c := Comparison(l, op, r);
            if Finalize(l, original, target) == LiteralNonString("null") then
              Eval(g, row, c) == Nothing && Eval(g, row, Finalize(c, original, target)) == Truth(false)
            else Eval(g, row, Finalize(c, original, target)) == Eval(g, row, c)
  {
    if Finalize(l, original, target) == LiteralNonString("null") {
      UnknownComparison(g, row, l, op, r, original, target);
    } else {
      FilterKept(g, row, Comparison(l, op, r), original, target);
    }
  }

  lemma TestEval(g: Engine, row: Row, c: Expr)
    ensures Accepts(g, row, Not(c)) <==> Eval(g, row, c) == Truth(false)
    ensures Accepts(g, row, IsNull(c)) <==> Eval(g, row, c) == Nothing
  {
  }

  /** Testing a comparison with an unknown field for null accepts rows that the fitted filter rejects. */
  lemma NullTestChanges(g: Engine)
    requires Sound(g)
    ensures var e := IsNull(Comparison(FieldRef("t", "x"), "=", LiteralString("a"))); var row := Row(map[], map[]);
            Accepts(g, row, e) && !Accepts(g, row, Finalize(e, map[], map[]))
  {
    var l := FieldRef("t", "x");
    assert Eval(g, Row(map[], map[]), l) == Nothing;
  }

  /** Under a negation a comparison with an unknown field accepts rows that the filter itself rejects. */
  lemma NegationChanges(g: Engine)
    requires Sound(g)
    ensures var e := Not(Comparison(FieldRef("t", "x"), "=", LiteralString("a"))); var row := Row(map[], map[]);
            Accepts(g, row, Finalize(e, map[], map[])) && !Accepts(g, row, e)
  {
    var l := FieldRef("t", "x");
    assert Eval(g, Row(map[], map[]), l) == Nothing;
  }

  /** A Boolean column that the file lacks reads as false, not as null. */
  lemma MissingBooleanChanges(g: Engine)
    requires Sound(g)
    ensures var e := IsNull(FieldRef("t", "x")); var row := Row(map[], map[]);
            var original := map["x" := DataType.Boolean];
            Accepts(g, row, e) && !Accepts(g, row, Finalize(e, original, map[]))
  {
    assert Denormalize("x") == "x";
  }

  // ------------------------------------------------------ dangling columns

  /** The expression reads no column of the data file outside its schema. */
  predicate Resolves(e: Expr, target: Columns)
    decreases e
  {
    match e
    case FieldRef(t, f) => t == "t" ==> Denormalize(f) in target
    case And(es) => forall x :: x in es ==> Resolves(x, target)
    case Or(es) => forall x :: x in es ==> Resolves(x, target)
    case Not(v) => Resolves(v, target)
    case Comparison(l, _, r) => Resolves(l, target) && Resolves(r, target)
    case Arithmetic(l, _, r) => Resolves(l, target) && Resolves(r, target)
    case Like(l, r) => Resolves(l, target) && Resolves(r, target)
    case In(l, rs) => Resolves(l, target) && forall x :: x in rs ==> Resolves(x, target)
    case IsNull(v) => Resolves(v, target)
    case Average(v) => Resolves(v, target)
    case CountDistinct(v) => Resolves(v, target)
    case _ => true
  }

  /** A fitted expression can be run against the file: it reads only columns that are there. */
  lemma {:induction false} FinalizeResolves(e: Expr, original: Columns, target: Columns)
    ensures Resolves(Finalize(e, original, target), target)
    decreases e
  {
    match e {
      case And(es) => ListResolves(es, original, target);
      case Or(es) => ListResolves(es, original, target);
      case Not(v) => FinalizeResolves(v, original, target);
      case Comparison(l, _, r) => FinalizeResolves(l, original, target); FinalizeResolves(r, original, target);
      case Arithmetic(l, _, r) => FinalizeResolves(l, original, target); FinalizeResolves(r, original, target);
      case Like(l, r) => FinalizeResolves(l, original, target); FinalizeResolves(r, original, target);
      case In(l, rs) => FinalizeResolves(l, original, target); ListResolves(rs, original, target);
      case IsNull(v) => FinalizeResolves(v, original, target);
      case Average(v) => FinalizeResolves(v, original, target);
      case CountDistinct(v) => FinalizeResolves(v, original, target);
      case _ =>
    }
  }

  lemma {:induction false} ListResolves(es: seq<Expr>, original: Columns, target: Columns)
    ensures forall x :: x in FinalizeAll(es, original, target) ==> Resolves(x, target)
    decreases es
  {
    if |es| != 0 {
      ListResolves(es[..|es| - 1], original, target);
      FinalizeResolves(es[|es| - 1], original, target);
    }
  }

  // ------------------------------------------------------- delete filters

  const DELETE_KEY := FieldRef("dt", "_id_seq_no")

  /** `and`. */
  function Conjoin(es: seq<Expr>): Option<Expr> {
    if |es| == 0 then None else if |es| == 1 then Some(es[0]) else Some(And(es))
  }

  /** `or`. */
  function Disjoin(es: seq<Expr>): Option<Expr> {
    if |es| == 0 then None else if |es| == 1 then Some(es[0]) else Some(Or(es))
  }

  /** `without_delete_filter`. */
  function WithoutDeleteFilter(e: Expr): Option<Expr>
    decreases e
  {
    if e == IsNull(DELETE_KEY) then None
    else
      match e
      case And(es) => Conjoin(WithoutDeleteFilters(es))
      case _ => Some(e)
  }

  function WithoutDeleteFilters(es: seq<Expr>): seq<Expr>
    decreases es
  {
    if |es| == 0 then []
    else
      WithoutDeleteFilters(es[..|es| - 1]) +
      match WithoutDeleteFilter(es[|es| - 1])
      case Some(x) => [x]
      case None => []
  }

  /** The truth value of an optional filter; no filter accepts everything. */
  function TruthOf(g: Engine, row: Row, e: Option<Expr>): Kleene {
    match e
    case Some(x) => AsKleene(Eval(g, row, x))
    case None => True
  }

  lemma AllStep(g: Engine, row: Row, es: seq<Expr>, x: Expr)
    ensures All(g, row, es + [x]) == Both(All(g, row, es), AsKleene(Eval(g, row, x)))
    ensures Any(g, row, es + [x]) == Either(Any(g, row, es), AsKleene(Eval(g, row, x)))
  {
    assert (es + [x])[..|es|] == es;
  }

  lemma ConjoinTruth(g: Engine, row: Row, es: seq<Expr>)
    ensures TruthOf(g, row, Conjoin(es)) == All(g, row, es)
    ensures es != [] ==> TruthOf(g, row, Disjoin(es)) == Any(g, row, es)
  {
    if |es| == 1 {
      AllStep(g, row, [], es[0]);
      assert es == [] + [es[0]];
    }
  }

  /** No delete row joins: the deletes table contributes null. */
  predicate Undeleted(row: Row) {
    ("dt", "_id_seq_no") in row.others ==> row.others[("dt", "_id_seq_no")] == Nothing
  }

  /** When no delete row joins, dropping the delete filter changes no truth value. */
  lemma {:induction false} DeleteFilterDroppable(g: Engine, row: Row, e: Expr)
    requires Undeleted(row)
    ensures TruthOf(g, row, WithoutDeleteFilter(e)) == AsKleene(Eval(g, row, e))
    decreases e
  {
    if e.And? {
      DeleteFiltersDroppable(g, row, e.exprs);
      ConjoinTruth(g, row, WithoutDeleteFilters(e.exprs));
    } else {
      assert Eval(g, row, DELETE_KEY) == Nothing;
    }
  }

  lemma {:induction false} DeleteFiltersDroppable(g: Engine, row: Row, es: seq<Expr>)
    requires Undeleted(row)
    ensures All(g, row, WithoutDeleteFilters(es)) == All(g, row, es)
    decreases es
  {
    if |es| != 0 {
      var m := |es| - 1;
      DeleteFiltersDroppable(g, row, es[..m]);
      DeleteFilterDroppable(g, row, es[m]);
      var x := WithoutDeleteFilter(es[m]);
      if x.Some? {
        AllStep(g, row, WithoutDeleteFilters(es[..m]), x.value);
      } else {
        assert WithoutDeleteFilters(es) == WithoutDeleteFilters(es[..m]);
      }
    }
  }

  /** The delete filter stands at the top or below a chain of conjunctions. */
  predicate HasDeleteFilter(e: Expr)
    decreases e
  {
    e == IsNull(DELETE_KEY) || (e.And? && exists x :: x in e.exprs && HasDeleteFilter(x))
  }

  /** Nothing but delete filters and conjunctions. */
  predicate OnlyDeleteFilters(e: Expr)
    decreases e
  {
    e == IsNull(DELETE_KEY) || (e.And? && forall x :: x in e.exprs ==> OnlyDeleteFilters(x))
  }

  /** The conjuncts of a filter, with nested conjunctions taken apart. */
  function Conjuncts(e: Expr): seq<Expr>
    decreases e
  {
    if e.And? then ConjunctsOf(e.exprs) else [e]
  }

  function ConjunctsOf(es: seq<Expr>): seq<Expr>
    decreases es
  {
    if |es| == 0 then [] else ConjunctsOf(es[..|es| - 1]) + Conjuncts(es[|es| - 1])
  }

  function OptionalConjuncts(e: Option<Expr>): seq<Expr> {
    match e
    case Some(x) => Conjuncts(x)
    case None => []
  }

  predicate IsOther(e: Expr) { e != IsNull(DELETE_KEY) }

  lemma ConjoinConjuncts(es: seq<Expr>)
    ensures OptionalConjuncts(Conjoin(es)) == ConjunctsOf(es)
  {
    if |es| == 1 { assert ConjunctsOf(es[..0]) == []; }
  }

  /** Dropping the delete filter leaves exactly the other conjuncts, in their order. */
  lemma {:induction false} OtherConjunctsStay(e: Expr)
    ensures OptionalConjuncts(WithoutDeleteFilter(e)) == Filter(Conjuncts(e), IsOther)
    decreases e
  {
    if e.And? {
      OtherConjunctsStayIn(e.exprs);
      ConjoinConjuncts(WithoutDeleteFilters(e.exprs));
    } else {
      assert [e][..0] == [];
    }
  }

  lemma {:induction false} OtherConjunctsStayIn(es: seq<Expr>)
    ensures ConjunctsOf(WithoutDeleteFilters(es)) == Filter(ConjunctsOf(es), IsOther)
    decreases es
  {
    if |es| != 0 {
      var m := |es| - 1;
      OtherConjunctsStayIn(es[..m]);
      OtherConjunctsStay(es[m]);
      FilterConcat(ConjunctsOf(es[..m]), Conjuncts(es[m]), IsOther);
      var x := WithoutDeleteFilter(es[m]);
      var before := WithoutDeleteFilters(es[..m]);
      if x.Some? {
        assert (before + [x.value])[..|before|] == before;
        assert ConjunctsOf(before + [x.value]) == ConjunctsOf(before) + Conjuncts(x.value);
      } else {
        assert WithoutDeleteFilters(es) == before;
      }
    }
  }

  lemma {:induction false} HasDeleteFilterMeans(e: Expr)
    ensures HasDeleteFilter(e) <==> IsNull(DELETE_KEY) in Conjuncts(e)
    decreases e
  {
    if e.And? { HaveDeleteFilterMeans(e.exprs); }
  }

  lemma {:induction false} HaveDeleteFilterMeans(es: seq<Expr>)
    ensures (exists x :: x in es && HasDeleteFilter(x)) <==> IsNull(DELETE_KEY) in ConjunctsOf(es)
    decreases es
  {
    if |es| != 0 {
      var m := |es| - 1;
      HaveDeleteFilterMeans(es[..m]);
      HasDeleteFilterMeans(es[m]);
      assert forall x :: x in es <==> x in es[..m] || x == es[m];
    }
  }

  lemma {:induction false} NothingLeft(e: Expr)
    ensures WithoutDeleteFilter(e).None? <==> OnlyDeleteFilters(e)
    decreases e
  {
    if e.And? { NoneLeft(e.exprs); }
  }

  lemma {:induction false} NoneLeft(es: seq<Expr>)
    ensures WithoutDeleteFilters(es) == [] <==> forall x :: x in es ==> OnlyDeleteFilters(x)
    decreases es
  {
    if |es| != 0 {
      var m := |es| - 1;
      NoneLeft(es[..m]);
      NothingLeft(es[m]);
      assert forall x :: x in es <==> x in es[..m] || x == es[m];
    }
  }

  /** No delete filter is left, and no filter at all is left exactly when there was nothing else. */
  lemma DeleteFilterGone(e: Expr)
    ensures WithoutDeleteFilter(e).None? <==> OnlyDeleteFilters(e)
    ensures WithoutDeleteFilter(e).Some? ==> !HasDeleteFilter(WithoutDeleteFilter(e).value)
  {
    NothingLeft(e);
    OtherConjunctsStay(e);
    if WithoutDeleteFilter(e).Some? { HasDeleteFilterMeans(WithoutDeleteFilter(e).value); }
  }

  /** The expression names a column of the table. */
  predicate Reads(e: Expr, table: string)
    decreases e
  {
    match e
    case And(es) => exists x :: x in es && Reads(x, table)
    case Or(es) => exists x :: x in es && Reads(x, table)
    case Not(v) => Reads(v, table)
    case Arithmetic(l, _, r) => Reads(l, table) || Reads(r, table)
    case Comparison(l, _, r) => Reads(l, table) || Reads(r, table)
    case FieldRef(t, _) => t == table
    case In(l, rs) => Reads(l, table) || exists x :: x in rs && Reads(x, table)
    case IsNull(v) => Reads(v, table)
    case Like(l, r) => Reads(l, table) || Reads(r, table)
    case Average(v) => Reads(v, table)
    case CountDistinct(v) => Reads(v, table)
    case _ => false
  }

  predicate AnyReads(es: seq<Expr>, table: string) { exists x :: x in es && Reads(x, table) }

  lemma {:induction false} ConjunctsRead(e: Expr, table: string)
    ensures Reads(e, table) <==> AnyReads(Conjuncts(e), table)
    decreases e
  {
    if e.And? {
      ConjunctsOfRead(e.exprs, table);
    } else {
      assert e in [e];
    }
  }

  lemma {:induction false} ConjunctsOfRead(es: seq<Expr>, table: string)
    ensures AnyReads(es, table) <==> AnyReads(ConjunctsOf(es), table)
    decreases es
  {
    if |es| != 0 {
      var m := |es| - 1;
      ConjunctsOfRead(es[..m], table);
      ConjunctsRead(es[m], table);
      assert forall x :: x in es <==> x in es[..m] || x == es[m];
    }
  }

  /** What is left reads a table exactly when some other conjunct did. */
  lemma WithoutDeleteReads(e: Expr, table: string)
    requires WithoutDeleteFilter(e).Some?
    ensures Reads(WithoutDeleteFilter(e).value, table) <==>
              exists x :: x in Conjuncts(e) && IsOther(x) && Reads(x, table)
  {
    OtherConjunctsStay(e);
    ConjunctsRead(WithoutDeleteFilter(e).value, table);
  }
}
