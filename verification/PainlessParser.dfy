/** The expression parser of the Painless translator (`control_plane/src/painless_parser.rs`).
    Binary operators have four levels, of which addition binds tighter than multiplication; `None`
    stands for an abort of the source. */
module PainlessParser {
  import opened Prelude
  import opened PainlessTokens

  datatype Expr =
    | Name(name: string)
    | NullReference
    | FieldAccess(target: Expr, field: string)
    | NullTest(target: Expr, field: string)
    | Call(target: Expr, params: seq<Expr>)
    | Index(target: Expr, index: Expr)
    | Binary(left: Expr, op: string, right: Expr)

  const INNERMOST: nat := 4

  /** The operators of a level, loosest first. */
  predicate IsOp(level: nat, v: string) {
    match level
    case 0 => v == "&&" || v == "||"
    case 1 => v == "<" || v == "<=" || v == ">" || v == ">=" || v == "==" || v == "!="
    case 2 => v == "*" || v == "/"
    case 3 => v == "+" || v == "-"
    case _ => false
  }

  predicate IsPostfix(v: string) { v == "." || v == "?." || v == "(" || v == "[" }

  /** The fixed renaming of operators, and back. */
  function OpName(v: string): string { if v == "&&" then "and" else if v == "||" then "or" else v }

  function OpToken(op: string): string { if op == "and" then "&&" else if op == "or" then "||" else op }

  /** `create_expression`. */
  function Operand(t: Token): Option<Expr> {
    if t.kind == Identifier then Some(Name(t.value))
    else if t.value == "null" then Some(NullReference)
    else None
  }

  type Parsed<T> = Option<(T, seq<Token>)>

  /** `parse_expression` and the levels below it: an expression and the tokens left. */
  function Parse(level: nat, ts: seq<Token>): (r: Parsed<Expr>)
    requires level <= INNERMOST
    ensures r.Some? ==> |r.value.1| < |ts|
    decreases |ts|, 10 - level
  {
    if level == INNERMOST then
      if |ts| == 0 then None
      else
        match Operand(ts[0])
        case None => None
        case Some(e) => ParsePostfix(e, ts[1..])
    else
      match Parse(level + 1, ts)
      case None => None
      case Some(p) => ParseOps(level, p.0, p.1)
  }

  /** The loop of one level. */
  function ParseOps(level: nat, left: Expr, ts: seq<Token>): (r: Parsed<Expr>)
    requires level < INNERMOST
    ensures r.Some? ==> |r.value.1| <= |ts|
    decreases |ts|, 0
  {
    if |ts| == 0 || !IsOp(level, ts[0].value) then Some((left, ts))
    else
      match Parse(level + 1, ts[1..])
      case None => None
      case Some(p) => ParseOps(level, Binary(left, OpName(ts[0].value), p.0), p.1)
  }

  /** The loop of `parse_expression_inner_most`. */
  function ParsePostfix(left: Expr, ts: seq<Token>): (r: Parsed<Expr>)
    ensures r.Some? ==> |r.value.1| <= |ts|
    decreases |ts|, 1
  {
    if |ts| == 0 || !IsPostfix(ts[0].value) then Some((left, ts))
    else
      match ParseAccess(left, ts)
      case None => None
      case Some(p) => ParsePostfix(p.0, p.1)
  }

  /** One field access, null-safe field access, call or index. */
  function ParseAccess(left: Expr, ts: seq<Token>): (r: Parsed<Expr>)
    requires |ts| > 0 && IsPostfix(ts[0].value)
    ensures r.Some? ==> |r.value.1| < |ts|
    decreases |ts|, 0
  {
    if ts[0].value == "(" then
      match ParseParams(ts[1..])
      case None => None
      case Some(p) => Some((Call(left, p.0), p.1))
    else if ts[0].value == "[" then
      match Parse(0, ts[1..])
      case None => None
      case Some(p) => if |p.1| == 0 || p.1[0].value != "]" then None else Some((Index(left, p.0), p.1[1..]))
    else if |ts| == 1 then None
    else if ts[0].value == "." then Some((FieldAccess(left, ts[1].value), ts[2..]))
    else Some((NullTest(left, ts[1].value), ts[2..]))
  }

  /** The loop of `parse_method_invocation`: parameters stand side by side up to the closing parenthesis. */
  function ParseParams(ts: seq<Token>): (r: Parsed<seq<Expr>>)
    ensures r.Some? ==> |r.value.1| < |ts|
    decreases |ts|, 11
  {
    if |ts| == 0 then None
    else if ts[0].value == ")" then Some(([], ts[1..]))
    else
      match Parse(0, ts)
      case None => None
      case Some(p) =>
        match ParseParams(p.1)
        case None => None
        case Some(q) => Some(([p.0] + q.0, q.1))
  }

  // ------------------------------------------------------------ what binds tighter

  /** Text that is neither a delimiter nor a keyword. */
  predicate IsWord(v: string) { !IsDelimiter(v) && v != "if" && v != "null" }

  lemma WordParses(v: string, rest: seq<Token>)
    requires IsWord(v) && (rest != [] ==> !IsPostfix(rest[0].value))
    ensures Parse(INNERMOST, [Tok(v)] + rest) == Some((Name(v), rest))
  {
    assert ([Tok(v)] + rest)[1..] == rest;
  }

  /** A level passes on what the tighter ones have read to the end. */
  lemma LevelPasses(level: nat, ts: seq<Token>, e: Expr)
    requires level < INNERMOST && Parse(level + 1, ts) == Some((e, []))
    ensures Parse(level, ts) == Some((e, []))
  {
  }

  /** Between two words, an operator of the tightest level. */
  lemma TightPair(a: string, op: string, b: string, rest: seq<Token>)
    requires IsWord(a) && IsWord(b) && (op == "+" || op == "-")
    requires rest == [] || (!IsPostfix(rest[0].value) && rest[0].value != "+" && rest[0].value != "-")
    ensures Parse(3, [Tok(a)] + ([Tok(op)] + ([Tok(b)] + rest))) == Some((Binary(Name(a), op, Name(b)), rest))
  {
    var tail := [Tok(op)] + ([Tok(b)] + rest);
    WordParses(a, tail);
    assert tail[1..] == [Tok(b)] + rest;
    WordParses(b, rest);
    assert ParseOps(3, Binary(Name(a), op, Name(b)), rest) == Some((Binary(Name(a), op, Name(b)), rest));
  }

  lemma TightWord(a: string, rest: seq<Token>)
    requires IsWord(a)
    requires rest == [] || (!IsPostfix(rest[0].value) && rest[0].value != "+" && rest[0].value != "-")
    ensures Parse(3, [Tok(a)] + rest) == Some((Name(a), rest))
  {
    WordParses(a, rest);
  }

  lemma Multiplies(left: Expr, ts: seq<Token>, right: Expr, rest: seq<Token>)
    requires Parse(3, ts) == Some((right, rest)) && rest == []
    ensures ParseOps(2, left, [Tok("*")] + ts) == Some((Binary(left, "*", right), []))
  {
    assert ([Tok("*")] + ts)[1..] == ts;
    assert ParseOps(2, Binary(left, "*", right), []) == Some((Binary(left, "*", right), []));
  }

  /** As in the source, and unlike in Painless itself, addition binds tighter than multiplication. */
  lemma AdditionBindsTighter(a: string, b: string, c: string)
    requires IsWord(a) && IsWord(b) && IsWord(c)
    ensures Parse(0, [Tok(a)] + ([Tok("*")] + ([Tok(b)] + ([Tok("+")] + [Tok(c)]))))
            == Some((Binary(Name(a), "*", Binary(Name(b), "+", Name(c))), []))
    ensures Parse(0, [Tok(a)] + ([Tok("+")] + ([Tok(b)] + ([Tok("*")] + [Tok(c)]))))
            == Some((Binary(Binary(Name(a), "+", Name(b)), "*", Name(c)), []))
  {
    ProductOfSum(a, b, c);
    SumTimes(a, b, c);
  }

  lemma ProductOfSum(a: string, b: string, c: string)
    requires IsWord(a) && IsWord(b) && IsWord(c)
    ensures Parse(0, [Tok(a)] + ([Tok("*")] + ([Tok(b)] + ([Tok("+")] + [Tok(c)]))))
            == Some((Binary(Name(a), "*", Binary(Name(b), "+", Name(c))), []))
  {
    var sum := [Tok(b)] + ([Tok("+")] + ([Tok(c)] + []));
    var tail := [Tok("*")] + sum;
    var e := Binary(Name(a), "*", Binary(Name(b), "+", Name(c)));
    assert [Tok(b)] + ([Tok("+")] + [Tok(c)]) == sum;
    TightWord(a, tail);
    TightPair(b, "+", c, []);
    Multiplies(Name(a), sum, Binary(Name(b), "+", Name(c)), []);
    LevelPasses(1, [Tok(a)] + tail, e);
    LevelPasses(0, [Tok(a)] + tail, e);
  }

  lemma SumTimes(a: string, b: string, c: string)
    requires IsWord(a) && IsWord(b) && IsWord(c)
    ensures Parse(0, [Tok(a)] + ([Tok("+")] + ([Tok(b)] + ([Tok("*")] + [Tok(c)]))))
            == Some((Binary(Binary(Name(a), "+", Name(b)), "*", Name(c)), []))
  {
    var tail := [Tok("*")] + ([Tok(c)] + []);
    var ts := [Tok(a)] + ([Tok("+")] + ([Tok(b)] + tail));
    var sum := Binary(Name(a), "+", Name(b));
    var e := Binary(sum, "*", Name(c));
    assert [Tok("*")] + [Tok(c)] == tail;
    TightPair(a, "+", b, tail);
    TightWord(c, []);
    Multiplies(sum, [Tok(c)] + [], Name(c), []);
    LevelPasses(1, ts, e);
    LevelPasses(0, ts, e);
  }

  /** The word "null" is the null reference, "if" is no operand, and every other text is a name. */
  lemma OperandsRead(v: string)
    requires !IsDelimiter(v)
    ensures Operand(Tok(v)) == if v == "null" then Some(NullReference) else if v == "if" then None else Some(Name(v))
  {
  }

  // --------------------------------------------------------- printing tokens

  /** The token values of an expression. */
  function Unparse(e: Expr): seq<string>
    decreases e
  {
    match e
    case Name(v) => [v]
    case NullReference => ["null"]
    case FieldAccess(t, f) => Unparse(t) + [".", f]
    case NullTest(t, f) => Unparse(t) + ["?.", f]
    case Call(t, ps) => Unparse(t) + ["("] + UnparseAll(ps) + [")"]
    case Index(t, i) => Unparse(t) + ["["] + Unparse(i) + ["]"]
    case Binary(l, op, r) => Unparse(l) + [OpToken(op)] + Unparse(r)
  }

  function UnparseAll(es: seq<Expr>): seq<string>
    decreases es
  {
    if |es| == 0 then [] else Unparse(es[0]) + UnparseAll(es[1..])
  }

  lemma OpNames(level: nat, v: string)
    requires IsOp(level, v)
    ensures OpToken(OpName(v)) == v && level < INNERMOST
  {
  }

  lemma ValuesHead(ts: seq<Token>)
    requires |ts| > 0
    ensures Values(ts) == [ts[0].value] + Values(ts[1..])
  {
  }

  lemma ValuesHead2(ts: seq<Token>)
    requires |ts| > 1
    ensures Values(ts) == [ts[0].value, ts[1].value] + Values(ts[2..])
  {
  }

  /** What was parsed prints as exactly the tokens that were consumed. */
  lemma {:induction false} ParsePrints(level: nat, ts: seq<Token>)
    requires level <= INNERMOST && Parse(level, ts).Some?
    ensures Values(ts) == Unparse(Parse(level, ts).value.0) + Values(Parse(level, ts).value.1)
    decreases |ts|, 10 - level
  {
    if level == INNERMOST {
      ValuesHead(ts);
      var e := Operand(ts[0]).value;
      ParsePostfixPrints(e, ts[1..]);
    } else {
      ParsePrints(level + 1, ts);
      var p := Parse(level + 1, ts).value;
      ParseOpsPrints(level, p.0, p.1);
    }
  }

  lemma {:induction false} ParseOpsPrints(level: nat, left: Expr, ts: seq<Token>)
    requires level < INNERMOST && ParseOps(level, left, ts).Some?
    ensures var r := ParseOps(level, left, ts).value; Unparse(left) + Values(ts) == Unparse(r.0) + Values(r.1)
    decreases |ts|, 0
  {
    if |ts| != 0 && IsOp(level, ts[0].value) {
      ValuesHead(ts);
      OpNames(level, ts[0].value);
      ParsePrints(level + 1, ts[1..]);
      var p := Parse(level + 1, ts[1..]).value;
      OpTokens(left, ts[0].value, p.0, Values(p.1));
      ParseOpsPrints(level, Binary(left, OpName(ts[0].value), p.0), p.1);
    }
  }

  lemma {:induction false} ParsePostfixPrints(left: Expr, ts: seq<Token>)
    requires ParsePostfix(left, ts).Some?
    ensures var r := ParsePostfix(left, ts).value; Unparse(left) + Values(ts) == Unparse(r.0) + Values(r.1)
    decreases |ts|, 1
  {
    if |ts| != 0 && IsPostfix(ts[0].value) {
      ParseAccessPrints(left, ts);
      var p := ParseAccess(left, ts).value;
      ParsePostfixPrints(p.0, p.1);
    }
  }

  lemma {:induction false} ParseAccessPrints(left: Expr, ts: seq<Token>)
    requires |ts| > 0 && IsPostfix(ts[0].value) && ParseAccess(left, ts).Some?
    ensures var r := ParseAccess(left, ts).value; Unparse(left) + Values(ts) == Unparse(r.0) + Values(r.1)
    decreases |ts|, 0
  {
    ValuesHead(ts);
    if ts[0].value == "(" {
      ParseParamsPrints(ts[1..]);
      var p := ParseParams(ts[1..]).value;
      CallTokens(left, p.0, Values(p.1));
    } else if ts[0].value == "[" {
      ParsePrints(0, ts[1..]);
      var p := Parse(0, ts[1..]).value;
      ValuesHead(p.1);
      IndexTokens(left, p.0, Values(p.1[1..]));
    } else {
      ValuesHead2(ts);
      FieldTokens(left, ts[1].value, Values(ts[2..]));
    }
  }

  lemma OpTokens(left: Expr, v: string, right: Expr, rest: seq<string>)
    requires OpToken(OpName(v)) == v
    ensures Unparse(left) + ([v] + (Unparse(right) + rest)) == Unparse(Binary(left, OpName(v), right)) + rest
  {
  }

  lemma CallTokens(left: Expr, ps: seq<Expr>, rest: seq<string>)
    ensures Unparse(left) + (["("] + (UnparseAll(ps) + [")"] + rest)) == Unparse(Call(left, ps)) + rest
  {
  }

  lemma IndexTokens(left: Expr, i: Expr, rest: seq<string>)
    ensures Unparse(left) + (["["] + (Unparse(i) + (["]"] + rest))) == Unparse(Index(left, i)) + rest
  {
  }

  lemma FieldTokens(left: Expr, f: string, rest: seq<string>)
    ensures Unparse(left) + ([".", f] + rest) == Unparse(FieldAccess(left, f)) + rest
    ensures Unparse(left) + (["?.", f] + rest) == Unparse(NullTest(left, f)) + rest
  {
  }

  lemma {:induction false} ParseParamsPrints(ts: seq<Token>)
    requires ParseParams(ts).Some?
    ensures Values(ts) == UnparseAll(ParseParams(ts).value.0) + [")"] + Values(ParseParams(ts).value.1)
    decreases |ts|, 11
  {
    ValuesHead(ts);
    if ts[0].value != ")" {
      ParsePrints(0, ts);
      var p := Parse(0, ts).value;
      ParseParamsPrints(p.1);
      var q := ParseParams(p.1).value;
      assert ([p.0] + q.0)[1..] == q.0;
    }
  }

  // ------------------------------------------------------- the shapes of trees

  predicate IsAnyOp(v: string) { IsOp(0, v) || IsOp(1, v) || IsOp(2, v) || IsOp(3, v) }

  /** The level of an operator name; `INNERMOST` if it is none. */
  function OpLevel(op: string): (k: nat)
    ensures k <= INNERMOST
  {
    if op == "and" || op == "or" then 0
    else if IsOp(1, op) then 1
    else if IsOp(2, op) then 2
    else if IsOp(3, op) then 3
    else INNERMOST
  }

  /** The trees that a level can produce: the left operand of an operator has its level, the right one
      a tighter level, and side by side parameters do not start with an operator. */
  predicate Shape(level: nat, e: Expr)
    requires level <= INNERMOST
    decreases e
  {
    match e
    case Name(v) => KindOf(v) == Identifier
    case NullReference => true
    case FieldAccess(t, _) => Shape(INNERMOST, t)
    case NullTest(t, _) => Shape(INNERMOST, t)
    case Index(t, i) => Shape(INNERMOST, t) && Shape(0, i)
    case Call(t, ps) => Shape(INNERMOST, t) && ShapeAll(ps)
    case Binary(l, op, r) =>
      var k := OpLevel(op);
      level <= k < INNERMOST && Shape(k, l) && Shape(k + 1, r)
  }

  predicate ShapeAll(ps: seq<Expr>)
    decreases ps
  {
    |ps| == 0 || (Shape(0, ps[0]) && ShapeAll(ps[1..]) && (|ps| > 1 ==> !IsAnyOp(First(ps[1]))))
  }

  /** The first token of an expression. */
  function First(e: Expr): string {
    match e
    case Name(v) => v
    case NullReference => "null"
    case FieldAccess(t, _) => First(t)
    case NullTest(t, _) => First(t)
    case Call(t, _) => First(t)
    case Index(t, _) => First(t)
    case Binary(l, _, _) => First(l)
  }

  lemma {:induction false} FirstToken(e: Expr)
    ensures |Unparse(e)| > 0 && Unparse(e)[0] == First(e)
    decreases e
  {
    match e
    case Name(_) =>
    case NullReference =>
    case FieldAccess(t, _) => FirstToken(t);
    case NullTest(t, _) => FirstToken(t);
    case Call(t, _) => FirstToken(t);
    case Index(t, _) => FirstToken(t);
    case Binary(l, _, _) => FirstToken(l);
  }

  lemma {:induction false} FirstIsOperand(level: nat, e: Expr)
    requires level <= INNERMOST && Shape(level, e)
    ensures First(e) == "null" || KindOf(First(e)) == Identifier
    decreases e
  {
    match e
    case Name(_) =>
    case NullReference =>
    case FieldAccess(t, _) => FirstIsOperand(INNERMOST, t);
    case NullTest(t, _) => FirstIsOperand(INNERMOST, t);
    case Call(t, _) => FirstIsOperand(INNERMOST, t);
    case Index(t, _) => FirstIsOperand(INNERMOST, t);
    case Binary(l, op, _) => FirstIsOperand(OpLevel(op), l);
  }

  lemma ShapeLooser(level: nat, e: Expr)
    requires level < INNERMOST && Shape(level + 1, e)
    ensures Shape(level, e)
  {
  }

  // ------------------------------------------------ every parsed tree has shape

  /** A level stops in front of these tokens. */
  predicate StopsAt(level: nat, ts: seq<Token>) {
    |ts| == 0 || (!IsPostfix(ts[0].value) && forall k :: level <= k < INNERMOST ==> !IsOp(k, ts[0].value))
  }

  lemma {:induction false} ParseShapes(level: nat, ts: seq<Token>)
    requires level <= INNERMOST && Parse(level, ts).Some? && WellKinded(ts)
    ensures var r := Parse(level, ts).value; Shape(level, r.0) && StopsAt(level, r.1) && WellKinded(r.1)
    decreases |ts|, 10 - level
  {
    if level == INNERMOST {
      assert WellKinded(ts[1..]);
      assert IsToken(ts[0]);
      ParsePostfixShapes(Operand(ts[0]).value, ts[1..]);
    } else {
      ParseShapes(level + 1, ts);
      var p := Parse(level + 1, ts).value;
      ShapeLooser(level, p.0);
      ParseOpsShapes(level, p.0, p.1);
    }
  }

  lemma OpLevels(level: nat, v: string)
    requires level < INNERMOST && IsOp(level, v)
    ensures OpLevel(OpName(v)) == level && !IsPostfix(v) && forall k :: level < k < INNERMOST ==> !IsOp(k, v)
  {
  }

  lemma {:induction false} ParseOpsShapes(level: nat, left: Expr, ts: seq<Token>)
    requires level < INNERMOST && ParseOps(level, left, ts).Some? && WellKinded(ts)
    requires Shape(level, left) && StopsAt(level + 1, ts)
    ensures var r := ParseOps(level, left, ts).value; Shape(level, r.0) && StopsAt(level, r.1) && WellKinded(r.1)
    decreases |ts|, 0
  {
    if |ts| != 0 && IsOp(level, ts[0].value) {
      OpLevels(level, ts[0].value);
      assert WellKinded(ts[1..]);
      ParseShapes(level + 1, ts[1..]);
      var p := Parse(level + 1, ts[1..]).value;
      ParseOpsShapes(level, Binary(left, OpName(ts[0].value), p.0), p.1);
    }
  }

  lemma {:induction false} ParsePostfixShapes(left: Expr, ts: seq<Token>)
    requires ParsePostfix(left, ts).Some? && WellKinded(ts) && Shape(INNERMOST, left)
    ensures var r := ParsePostfix(left, ts).value; Shape(INNERMOST, r.0) && StopsAt(INNERMOST, r.1) && WellKinded(r.1)
    decreases |ts|, 1
  {
    if |ts| != 0 && IsPostfix(ts[0].value) {
      ParseAccessShapes(left, ts);
      var p := ParseAccess(left, ts).value;
      ParsePostfixShapes(p.0, p.1);
    }
  }

  lemma {:induction false} ParseAccessShapes(left: Expr, ts: seq<Token>)
    requires |ts| > 0 && IsPostfix(ts[0].value) && ParseAccess(left, ts).Some? && WellKinded(ts)
             && Shape(INNERMOST, left)
    ensures var r := ParseAccess(left, ts).value; Shape(INNERMOST, r.0) && WellKinded(r.1)
    decreases |ts|, 0
  {
    assert WellKinded(ts[1..]);
    if ts[0].value == "(" {
      ParseParamsShapes(ts[1..]);
    } else if ts[0].value == "[" {
      ParseShapes(0, ts[1..]);
    }
  }

  lemma {:induction false} ParseParamsShapes(ts: seq<Token>)
    requires ParseParams(ts).Some? && WellKinded(ts)
    ensures var r := ParseParams(ts).value; ShapeAll(r.0) && WellKinded(r.1)
    ensures var r := ParseParams(ts).value; |r.0| > 0 ==> First(r.0[0]) == ts[0].value
    decreases |ts|, 11
  {
    if ts[0].value != ")" {
      ParseShapes(0, ts);
      var p := Parse(0, ts).value;
      ParseParamsShapes(p.1);
      var q := ParseParams(p.1).value;
      assert ([p.0] + q.0)[1..] == q.0;
      ParsePrints(0, ts);
      FirstToken(p.0);
      assert Values(ts)[0] == ts[0].value;
    } else {
      assert WellKinded(ts[1..]);
    }
  }

  // ----------------------------------------------------- shaped trees reparse

  function Toks(vs: seq<string>): seq<Token> {
    seq(|vs|, i requires 0 <= i < |vs| => Tok(vs[i]))
  }

  lemma ToksConcat(a: seq<string>, b: seq<string>)
    ensures Toks(a + b) == Toks(a) + Toks(b)
  {
  }

  lemma Regroup<T>(a: seq<T>, b: seq<T>, c: seq<T>, d: seq<T>, r: seq<T>)
    ensures a + b + c + d + r == a + (b + (c + (d + r)))
  {
  }

  lemma FieldToks(t: Expr, f: string, rest: seq<Token>)
    ensures Toks(Unparse(FieldAccess(t, f))) + rest == Toks(Unparse(t)) + ([Tok("."), Tok(f)] + rest)
    ensures ParsePostfix(t, [Tok("."), Tok(f)] + rest) == ParsePostfix(FieldAccess(t, f), rest)
  {
    assert ([Tok("."), Tok(f)] + rest)[2..] == rest;
  }

  lemma NullTestToks(t: Expr, f: string, rest: seq<Token>)
    ensures Toks(Unparse(NullTest(t, f))) + rest == Toks(Unparse(t)) + ([Tok("?."), Tok(f)] + rest)
    ensures ParsePostfix(t, [Tok("?."), Tok(f)] + rest) == ParsePostfix(NullTest(t, f), rest)
  {
    assert ([Tok("?."), Tok(f)] + rest)[2..] == rest;
  }

  /** Tokens of a bracketed form. */
  lemma BracketToks(t: seq<string>, open: string, inner: seq<string>, close: string, rest: seq<Token>)
    ensures Toks(t + [open] + inner + [close]) + rest == Toks(t) + ([Tok(open)] + (Toks(inner) + ([Tok(close)] + rest)))
  {
    ToksConcat(t + [open] + inner, [close]);
    ToksConcat(t + [open], inner);
    ToksConcat(t, [open]);
    Regroup(Toks(t), [Tok(open)], Toks(inner), [Tok(close)], rest);
  }

  lemma IndexParses(t: Expr, i: Expr, rest: seq<Token>)
    requires Parse(0, Toks(Unparse(i)) + ([Tok("]")] + rest)) == Some((i, [Tok("]")] + rest))
    ensures ParsePostfix(t, [Tok("[")] + (Toks(Unparse(i)) + ([Tok("]")] + rest))) == ParsePostfix(Index(t, i), rest)
  {
    var inner := Toks(Unparse(i)) + ([Tok("]")] + rest);
    assert ([Tok("[")] + inner)[1..] == inner;
    assert ([Tok("]")] + rest)[1..] == rest;
  }

  lemma CallParses(t: Expr, ps: seq<Expr>, rest: seq<Token>)
    requires ParseParams(Toks(UnparseAll(ps)) + ([Tok(")")] + rest)) == Some((ps, rest))
    ensures ParsePostfix(t, [Tok("(")] + (Toks(UnparseAll(ps)) + ([Tok(")")] + rest)))
            == ParsePostfix(Call(t, ps), rest)
  {
    var inner := Toks(UnparseAll(ps)) + ([Tok(")")] + rest);
    assert ([Tok("(")] + inner)[1..] == inner;
  }

  /** Every level stops at a closing bracket. */
  lemma CloserStops(level: nat, v: string, rest: seq<Token>)
    requires v == "]" || v == ")"
    ensures StopsAt(level, [Tok(v)] + rest)
  {
    assert ([Tok(v)] + rest)[0] == Tok(v);
  }

  /** An innermost tree is read back up to the accesses that follow it. */
  lemma {:induction false} ReparseInnermost(e: Expr, rest: seq<Token>)
    requires Shape(INNERMOST, e)
    ensures Parse(INNERMOST, Toks(Unparse(e)) + rest) == ParsePostfix(e, rest)
    decreases e, 0
  {
    match e {
      case Name(v) => assert (Toks(Unparse(e)) + rest)[1..] == rest;
      case NullReference => assert (Toks(Unparse(e)) + rest)[1..] == rest;
      case FieldAccess(t, f) =>
        FieldToks(t, f, rest);
        ReparseInnermost(t, [Tok("."), Tok(f)] + rest);
      case NullTest(t, f) =>
        NullTestToks(t, f, rest);
        ReparseInnermost(t, [Tok("?."), Tok(f)] + rest);
      case Index(t, i) =>
        CloserStops(0, "]", rest);
        Reparse(0, i, [Tok("]")] + rest);
        BracketToks(Unparse(t), "[", Unparse(i), "]", rest);
        IndexParses(t, i, rest);
        ReparseInnermost(t, [Tok("[")] + (Toks(Unparse(i)) + ([Tok("]")] + rest)));
      case Call(t, ps) =>
        ReparseParams(ps, rest);
        BracketToks(Unparse(t), "(", UnparseAll(ps), ")", rest);
        CallParses(t, ps, rest);
        ReparseInnermost(t, [Tok("(")] + (Toks(UnparseAll(ps)) + ([Tok(")")] + rest)));
    }
  }

  /** The first token of a list of parameters. */
  lemma ParamsStart(ps: seq<Expr>, end: seq<Token>)
    requires ShapeAll(ps) && |ps| > 0
    ensures var ts := Toks(UnparseAll(ps)) + end;
            && |ts| > 0 && ts[0] == Tok(First(ps[0])) && (First(ps[0]) == "null" || KindOf(First(ps[0])) == Identifier)
  {
    FirstToken(ps[0]);
    FirstIsOperand(0, ps[0]);
    assert UnparseAll(ps)[0] == First(ps[0]);
  }

  lemma ParamsStop(ps: seq<Expr>, rest: seq<Token>)
    requires ShapeAll(ps) && |ps| > 0
    ensures StopsAt(0, Toks(UnparseAll(ps[1..])) + ([Tok(")")] + rest))
  {
    var end := [Tok(")")] + rest;
    if |ps| > 1 {
      ParamsStart(ps[1..], end);
    } else {
      CloserStops(0, ")", rest);
      assert Toks(UnparseAll(ps[1..])) + end == end;
    }
  }

  lemma {:induction false} ReparseParams(ps: seq<Expr>, rest: seq<Token>)
    requires ShapeAll(ps)
    ensures ParseParams(Toks(UnparseAll(ps)) + ([Tok(")")] + rest)) == Some((ps, rest))
    decreases ps, 0
  {
    var end := [Tok(")")] + rest;
    if |ps| == 0 {
      assert Toks(UnparseAll(ps)) + end == end;
      assert end[1..] == rest;
    } else {
      ParamsStart(ps, end);
      ParamsStop(ps, rest);
      Reparse(0, ps[0], Toks(UnparseAll(ps[1..])) + end);
      ReparseParams(ps[1..], rest);
      ParamsStep(ps, end);
      assert [ps[0]] + ps[1..] == ps;
    }
  }

  lemma ParamsStep(ps: seq<Expr>, end: seq<Token>)
    requires |ps| > 0
    ensures Toks(UnparseAll(ps)) + end == Toks(Unparse(ps[0])) + (Toks(UnparseAll(ps[1..])) + end)
  {
    ToksPair(Unparse(ps[0]), UnparseAll(ps[1..]), end);
  }

  lemma ToksPair(a: seq<string>, b: seq<string>, end: seq<Token>)
    ensures Toks(a + b) + end == Toks(a) + (Toks(b) + end)
  {
    ToksConcat(a, b);
  }

  lemma ToksOne(v: string)
    ensures Toks([v]) == [Tok(v)]
  {
  }

  lemma Middle<T>(a: seq<T>, x: T, b: seq<T>, r: seq<T>)
    ensures a + [x] + b + r == a + ([x] + (b + r))
    ensures ([x] + (b + r))[1..] == b + r
  {
  }

  lemma BinaryToks(e: Expr, rest: seq<Token>)
    requires e.Binary?
    ensures var more := [Tok(OpToken(e.op))] + (Toks(Unparse(e.right)) + rest);
            Toks(Unparse(e)) + rest == Toks(Unparse(e.left)) + more && more[1..] == Toks(Unparse(e.right)) + rest
  {
    var a, v, b := Unparse(e.left), OpToken(e.op), Unparse(e.right);
    ToksConcat(a + [v], b);
    ToksConcat(a, [v]);
    ToksOne(v);
    Middle(Toks(a), Tok(v), Toks(b), rest);
  }

  /** A tree of a level is read back up to the operators of that level that follow it. */
  lemma {:induction false} ReparseOps(level: nat, e: Expr, rest: seq<Token>)
    requires level < INNERMOST && Shape(level, e) && StopsAt(level + 1, rest)
    ensures Parse(level, Toks(Unparse(e)) + rest) == ParseOps(level, e, rest)
    decreases e, 2 * (INNERMOST - level)
  {
    if e.Binary? && OpLevel(e.op) == level {
      var v := OpToken(e.op);
      assert IsOp(level, v) && OpName(v) == e.op;
      OpLevels(level, v);
      BinaryToks(e, rest);
      ReparseOps(level, e.left, [Tok(v)] + (Toks(Unparse(e.right)) + rest));
      Reparse(level + 1, e.right, rest);
    } else {
      Reparse(level + 1, e, rest);
    }
  }

  /** A shaped tree, printed and followed by tokens at which its level stops, parses back to itself. */
  lemma {:induction false} Reparse(level: nat, e: Expr, rest: seq<Token>)
    requires level <= INNERMOST && Shape(level, e) && StopsAt(level, rest)
    ensures Parse(level, Toks(Unparse(e)) + rest) == Some((e, rest))
    decreases e, 2 * (INNERMOST - level) + 1
  {
    if level == INNERMOST {
      ReparseInnermost(e, rest);
    } else {
      ReparseOps(level, e, rest);
    }
  }

  /** The parser accepts exactly the printed forms of shaped trees, and gives back the tree. */
  lemma ParsesExactly(ts: seq<Token>, e: Expr)
    requires WellKinded(ts)
    ensures Parse(0, ts) == Some((e, [])) <==> Shape(0, e) && Values(ts) == Unparse(e)
  {
    if Parse(0, ts) == Some((e, [])) {
      ParseShapes(0, ts);
      ParsePrints(0, ts);
    }
    if Shape(0, e) && Values(ts) == Unparse(e) {
      assert Toks(Values(ts)) == ts by {
        assert forall i :: 0 <= i < |ts| ==> IsToken(ts[i]);
      }
      Reparse(0, e, []);
      assert Toks(Unparse(e)) + [] == ts;
    }
  }

  // --------------------------------------------------------- the parser object

  /** `ParserContext`: the tokens and a position that every `parse_*` function advances.  Each method reads
      exactly what the parsing function of the same rest reads; after an abort the position is meaningless. */
  class ParserContext {
    const tokens: seq<Token>
    var currentPos: nat

    ghost predicate Valid()
      reads this
    {
      currentPos <= |tokens|
    }

    ghost function Rest(): seq<Token>
      requires Valid()
      reads this
    {
      tokens[currentPos..]
    }

    constructor (tokens: seq<Token>)
      ensures Valid() && Rest() == tokens && this.tokens == tokens
    {
      this.tokens := tokens;
      currentPos := 0;
    }

    predicate HasMore()
      reads this
    {
      currentPos < |tokens|
    }

    method Pop() returns (t: Token)
      requires Valid() && HasMore()
      modifies this
      ensures Valid() && currentPos == old(currentPos) + 1
      ensures t == old(Rest())[0] && Rest() == old(Rest())[1..]
    {
      t := tokens[currentPos];
      currentPos := currentPos + 1;
    }

    /** `pop_validate`; false where the source aborts. */
    method PopValidate(v: string) returns (ok: bool)
      requires Valid()
      modifies this
      ensures Valid() && currentPos >= old(currentPos)
      ensures ok <==> |old(Rest())| > 0 && old(Rest())[0].value == v
      ensures ok ==> currentPos > old(currentPos) && Rest() == old(Rest())[1..]
    {
      if !HasMore() { return false; }
      var t := Pop();
      ok := t.value == v;
    }

    /** `parse_expression_booleans`, `_comparisons`, `_mut_div`, `_add_sub` and `_inner_most`. */
    method ParseLevel(level: nat) returns (e: Option<Expr>)
      requires Valid() && level <= INNERMOST
      modifies this
      ensures Valid() && currentPos >= old(currentPos)
      ensures e.None? ==> Parse(level, old(Rest())).None?
      ensures e.Some? ==> Parse(level, old(Rest())) == Some((e.value, Rest())) && currentPos > old(currentPos)
      decreases |tokens| - currentPos, 10 - level
    {
      if level == INNERMOST {
        e := ParseInnerMost();
        return;
      }
      ghost var start := Rest();
      e := ParseLevel(level + 1);
      if e.None? { return; }
      while HasMore() && IsOp(level, tokens[currentPos].value)
        invariant Valid() && currentPos > old(currentPos) && e.Some?
        invariant Parse(level, start) == ParseOps(level, e.value, Rest())
        decreases |tokens| - currentPos
      {
        var op := Pop();
        var right := ParseLevel(level + 1);
        if right.None? { return None; }
        e := Some(Binary(e.value, OpName(op.value), right.value));
      }
    }

    method ParseInnerMost() returns (e: Option<Expr>)
      requires Valid()
      modifies this
      ensures Valid() && currentPos >= old(currentPos)
      ensures e.None? ==> Parse(INNERMOST, old(Rest())).None?
      ensures e.Some? ==> Parse(INNERMOST, old(Rest())) == Some((e.value, Rest())) && currentPos > old(currentPos)
      decreases |tokens| - currentPos, 5
    {
      if !HasMore() { return None; }
      ghost var start := Rest();
      var first := Pop();
      e := Operand(first);
      if e.None? { return; }
      while HasMore() && IsPostfix(tokens[currentPos].value)
        invariant Valid() && currentPos > old(currentPos) && e.Some?
        invariant Parse(INNERMOST, start) == ParsePostfix(e.value, Rest())
        decreases |tokens| - currentPos
      {
        var next := ParseOneAccess(e.value);
        if next.None? { return None; }
        e := next;
      }
    }

    /** `parse_field_access`, `parse_null_test_field_access`, `parse_method_invocation` and `parse_index`. */
    method ParseOneAccess(left: Expr) returns (e: Option<Expr>)
      requires Valid() && HasMore() && IsPostfix(tokens[currentPos].value)
      modifies this
      ensures Valid() && currentPos >= old(currentPos)
      ensures e.None? ==> ParseAccess(left, old(Rest())).None?
      ensures e.Some? ==> ParseAccess(left, old(Rest())) == Some((e.value, Rest())) && currentPos > old(currentPos)
      decreases |tokens| - currentPos, 4
    {
      var t := Pop();
      if t.value == "(" {
        var params := ParseCallParams();
        e := if params.None? then None else Some(Call(left, params.value));
      } else if t.value == "[" {
        var index := ParseLevel(0);
        if index.None? { return None; }
        var ok := PopValidate("]");
        e := if ok then Some(Index(left, index.value)) else None;
      } else {
        if !HasMore() { return None; }
        var f := Pop();
        e := Some(if t.value == "." then FieldAccess(left, f.value) else NullTest(left, f.value));
      }
    }

    method ParseCallParams() returns (ps: Option<seq<Expr>>)
      requires Valid()
      modifies this
      ensures Valid() && currentPos >= old(currentPos)
      ensures ps.None? ==> ParseParams(old(Rest())).None?
      ensures ps.Some? ==> ParseParams(old(Rest())) == Some((ps.value, Rest())) && currentPos > old(currentPos)
      decreases |tokens| - currentPos, 12
    {
      ghost var start := Rest();
      var params: seq<Expr> := [];
      PrefixedNothing(ParseParams(start));
      while HasMore() && tokens[currentPos].value != ")"
        invariant Valid() && currentPos >= old(currentPos)
        invariant ParseParams(start) == Prefixed(params, ParseParams(Rest()))
        decreases |tokens| - currentPos
      {
        var p := ParseLevel(0);
        if p.None? { return None; }
        PrefixedStep(params, p.value, ParseParams(Rest()));
        params := params + [p.value];
      }
      assert params + [] == params;
      var ok := PopValidate(")");
      ps := if ok then Some(params) else None;
    }
  }

  /** Parameters already read, in front of the outcome for the rest. */
  function Prefixed(ps: seq<Expr>, r: Parsed<seq<Expr>>): Parsed<seq<Expr>> {
    match r
    case None => None
    case Some(q) => Some((ps + q.0, q.1))
  }

  lemma PrefixedStep(ps: seq<Expr>, p: Expr, r: Parsed<seq<Expr>>)
    ensures Prefixed(ps, Prefixed([p], r)) == Prefixed(ps + [p], r)
  {
    if r.Some? { assert ps + ([p] + r.value.0) == ps + [p] + r.value.0; }
  }

  lemma PrefixedNothing(r: Parsed<seq<Expr>>)
    ensures Prefixed([], r) == r
  {
    if r.Some? { assert [] + r.value.0 == r.value.0; }
  }
}
