/** Min/max pruning (`query_core/src/query_path.rs`): skipping files and row groups by their column
    statistics returns the same rows as a full scan.  Rows are compared exactly; the pruning code
    compares numbers after conversion to IEEE 754 binary64. */
module Pruning {
  import opened Prelude

  // -------------------------------------------------------- binary64 rounding

  const TWO_53 := 0x20_0000_0000_0000
  const TWO_52 := 0x10_0000_0000_0000

  /** The spacing of doubles around a natural number. */
  function Spacing(n: nat): (q: nat)
    ensures q >= 1 && n < TWO_53 * q && (q > 1 ==> n >= TWO_52 * q)
  {
    if n < TWO_53 then 1 else 2 * Spacing(n / 2)
  }

  /** The nearest multiple of `q`; ties go to the even one. */
  function ToMultiple(n: nat, q: nat): nat
    requires q >= 1
  {
    if RoundsUp(n / q, n % q, q) then (n / q + 1) * q else (n / q) * q
  }

  predicate RoundsUp(d: nat, r: nat, q: nat) {
    2 * r > q || (2 * r == q && d % 2 == 1)
  }

  function RoundNat(n: nat): nat { ToMultiple(n, Spacing(n)) }

  /** `as_f64` of an integer. */
  function Round(n: int): int { if n >= 0 then RoundNat(n) else 0 - RoundNat(-n) }

  lemma {:induction false} SpacingMonotone(n: nat, m: nat)
    requires n <= m
    ensures Spacing(n) <= Spacing(m) && (Spacing(n) < Spacing(m) ==> 2 * Spacing(n) <= Spacing(m))
  {
    if n >= TWO_53 { SpacingMonotone(n / 2, m / 2); }
  }

  lemma DivMod(n: nat, q: nat)
    requires q >= 1
    ensures n == (n / q) * q + n % q && 0 <= n % q < q
  {
  }

  lemma MulMonotone(a: nat, b: nat, q: nat)
    requires a <= b
    ensures a * q <= b * q
  {
  }

  lemma QuotientMonotone(n: nat, m: nat, q: nat)
    requires q >= 1 && n <= m
    ensures n / q <= m / q
  {
    DivMod(n, q);
    DivMod(m, q);
    if n / q > m / q {
      MulMonotone(m / q + 1, n / q, q);
    }
  }

  lemma MultipleBetween(n: nat, q: nat)
    requires q >= 1
    ensures (n / q) * q <= ToMultiple(n, q) <= (n / q + 1) * q
  {
    MulMonotone(n / q, n / q + 1, q);
  }

  lemma MultipleSame(n: nat, m: nat, q: nat)
    requires q >= 1 && n <= m && n / q == m / q
    ensures ToMultiple(n, q) <= ToMultiple(m, q)
  {
    DivMod(n, q);
    DivMod(m, q);
    MulMonotone(n / q, n / q + 1, q);
    assert n % q <= m % q;
  }

  lemma MultipleMonotone(n: nat, m: nat, q: nat)
    requires q >= 1 && n <= m
    ensures ToMultiple(n, q) <= ToMultiple(m, q)
  {
    QuotientMonotone(n, m, q);
    if n / q == m / q {
      MultipleSame(n, m, q);
    } else {
      MultipleBetween(n, q);
      MultipleBetween(m, q);
      MulMonotone(n / q + 1, m / q, q);
    }
  }

  lemma MultipleBounds(n: nat, q: nat, a: nat)
    requires q >= 1
    ensures a * q <= n ==> a * q <= ToMultiple(n, q)
    ensures n < a * q ==> ToMultiple(n, q) <= a * q
  {
    DivMod(n, q);
    if a * q <= n {
      if n / q < a { MulMonotone(n / q + 1, a, q); }
      MulMonotone(a, n / q, q);
    } else {
      if n / q >= a { MulMonotone(a, n / q, q); }
      MulMonotone(n / q + 1, a, q);
    }
  }

  lemma RoundNatMonotone(n: nat, m: nat)
    requires n <= m
    ensures RoundNat(n) <= RoundNat(m)
  {
    var q, p := Spacing(n), Spacing(m);
    SpacingMonotone(n, m);
    if q == p {
      MultipleMonotone(n, m, q);
    } else {
      MultipleBounds(n, q, TWO_53);
      MultipleBounds(m, p, TWO_52);
    }
  }

  /** Converting to double never swaps two integers. */
  lemma RoundMonotone(n: int, m: int)
    requires n <= m
    ensures Round(n) <= Round(m)
  {
    if n >= 0 { RoundNatMonotone(n, m); } else if m < 0 { RoundNatMonotone(-m, -n); }
  }

  /** The conversion is to nearest: the result is a multiple of the spacing, at most half of it away. */
  lemma RoundNearest(n: nat)
    ensures exists d: nat :: RoundNat(n) == d * Spacing(n)
    ensures 2 * (RoundNat(n) - n) <= Spacing(n) && 2 * (n - RoundNat(n)) <= Spacing(n)
  {
    var q := Spacing(n);
    DivMod(n, q);
    if RoundsUp(n / q, n % q, q) {
      assert RoundNat(n) == (n / q + 1) * q == (n / q) * q + q;
    } else {
      assert RoundNat(n) == (n / q) * q;
    }
  }

  /** Integers of magnitude up to 2^53 convert exactly. */
  lemma RoundExact(n: int)
    requires -TWO_53 <= n <= TWO_53
    ensures Round(n) == n
  {
    var a := if n >= 0 then n else -n;
    if a == TWO_53 {
      assert Spacing(a / 2) == 1 && Spacing(a) == 2;
      assert ToMultiple(a, 2) == a;
    } else {
      assert Spacing(a) == 1;
      assert ToMultiple(a, 1) == a;
    }
  }

  // ------------------------------------------------------------------ scalars

  /** Every double of magnitude 2^53 or more is an integer that conversion leaves alone. */
  predicate IsDouble(x: real) {
    -(TWO_53 as real) < x < TWO_53 as real || (x == x.Floor as real && Round(x.Floor) == x.Floor)
  }

  type Double = x: real | IsDouble(x) witness 0.0

  /** A JSON value; arrays and objects are `Composite`. */
  datatype Scalar = Null | Bool(b: bool) | Int(n: int) | Float(x: Double) | Str(s: string) | Composite

  datatype Order = Lt | Eq | Gt

  function OrderOf(a: real, b: real): Order { if a < b then Lt else if a == b then Eq else Gt }

  predicate IsNumber(v: Scalar) { v.Int? || v.Float? }

  /** The number itself. */
  function Exactly(v: Scalar): real
    requires IsNumber(v)
  {
    if v.Int? then v.n as real else v.x
  }

  /** `as_f64`. */
  function AsDouble(v: Scalar): real
    requires IsNumber(v)
  {
    if v.Int? then Round(v.n) as real else v.x
  }

  function CompareWith(a: Scalar, b: Scalar, number: Scalar --> real): Option<Order>
    requires IsNumber(a) ==> number.requires(a)
    requires IsNumber(b) ==> number.requires(b)
  {
    if IsNumber(a) && IsNumber(b) then Some(OrderOf(number(a), number(b)))
    else
      match (a, b)
      case (Str(s), Str(t)) => Some(if s == t then Eq else if Less(s, t) then Lt else Gt)
      case (Bool(s), Bool(t)) => Some(if s == t then Eq else if t then Lt else Gt)
      case _ => None
  }

  /** `compare_scalar_values`. */
  function Compare(a: Scalar, b: Scalar): Option<Order> {
    CompareWith(a, b, v requires IsNumber(v) => AsDouble(v))
  }

  /** The comparison that the scan itself makes. */
  function ExactCompare(a: Scalar, b: Scalar): Option<Order> {
    CompareWith(a, b, v requires IsNumber(v) => Exactly(v))
  }

  /** Texts compare in lexicographic order, false comes before true, and other kinds do not compare. */
  lemma ComparesByKind(a: Scalar, b: Scalar)
    ensures a.Str? && b.Str? ==> (Compare(a, b) == Some(Lt) <==> exists i: nat :: SmallerAt(a.s, b.s, i))
    ensures a.Bool? && b.Bool? ==> (Compare(a, b) == Some(Lt) <==> !a.b && b.b)
    ensures IsNumber(a) && IsNumber(b) ==> (Compare(a, b) == Some(Lt) <==> AsDouble(a) < AsDouble(b))
    ensures Compare(a, b) == Some(Eq) <==>
              (IsNumber(a) && IsNumber(b) && AsDouble(a) == AsDouble(b)) || ((a.Str? || a.Bool?) && a == b)
    ensures Compare(a, b).None? <==> !((IsNumber(a) && IsNumber(b)) || (a.Str? && b.Str?) || (a.Bool? && b.Bool?))
  {
    if a.Str? && b.Str? {
      LessIsLexicographic(a.s, b.s);
      LessIrreflexive(a.s);
    }
  }

  predicate AtMost(a: Scalar, b: Scalar) {
    var o := ExactCompare(a, b);
    o == Some(Lt) || o == Some(Eq)
  }

  predicate Below(a: Scalar, b: Scalar) { ExactCompare(a, b) == Some(Lt) }

  lemma AsDoubleMonotone(a: Scalar, b: Scalar)
    requires IsNumber(a) && IsNumber(b) && Exactly(a) <= Exactly(b)
    ensures AsDouble(a) <= AsDouble(b)
  {
    match (a, b) {
      case (Int(n), Int(m)) => RoundMonotone(n, m);
      case (Int(n), Float(x)) =>
        if x == x.Floor as real && Round(x.Floor) == x.Floor {
          RoundMonotone(n, x.Floor);
        } else if n >= -TWO_53 {
          RoundExact(n);
        } else {
          RoundMonotone(n, -TWO_53);
          RoundExact(-TWO_53);
        }
      case (Float(x), Int(m)) =>
        if x == x.Floor as real && Round(x.Floor) == x.Floor {
          RoundMonotone(x.Floor, m);
        } else if m <= TWO_53 {
          RoundExact(m);
        } else {
          RoundMonotone(TWO_53, m);
          RoundExact(TWO_53);
        }
      case (Float(_), Float(_)) =>
    }
  }

  /** Conversion to double never reverses an exact comparison. */
  lemma CompareMonotone(a: Scalar, b: Scalar)
    requires AtMost(a, b)
    ensures Compare(a, b) == Some(Lt) || Compare(a, b) == Some(Eq)
    ensures Compare(b, a) == Some(Gt) || Compare(b, a) == Some(Eq)
  {
    if IsNumber(a) && IsNumber(b) {
      AsDoubleMonotone(a, b);
    } else if a.Str? && a.s != b.s {
      LessAsymmetric(a.s, b.s);
    }
  }

  lemma AtMostTransitive(a: Scalar, b: Scalar, c: Scalar)
    requires AtMost(a, b) && AtMost(b, c)
    ensures AtMost(a, c) && (Below(a, b) || Below(b, c) ==> Below(a, c))
  {
    if a.Str? {
      if a.s != b.s && b.s != c.s { LessTransitive(a.s, b.s, c.s); }
      if Less(a.s, c.s) { LessIrreflexive(a.s); }
    }
  }

  /** Two numbers that differ but convert to the same double. */
  predicate Collide(a: Scalar, b: Scalar) {
    IsNumber(a) && IsNumber(b) && Exactly(a) < Exactly(b) && AsDouble(a) == AsDouble(b)
  }

  predicate Small(v: Scalar) { v.Int? ==> -TWO_53 <= v.n <= TWO_53 }

  /** Up to 2^53 nothing collides. */
  lemma SmallNeverCollide(a: Scalar, b: Scalar)
    requires Small(a) && Small(b)
    ensures !Collide(a, b)
  {
    if a.Int? { RoundExact(a.n); }
    if b.Int? { RoundExact(b.n); }
  }

  lemma CompareStrict(a: Scalar, b: Scalar)
    requires Below(a, b)
    ensures Compare(a, b) == Some(Lt) <==> !Collide(a, b)
    ensures Compare(b, a) == Some(Gt) <==> !Collide(a, b)
  {
    CompareMonotone(a, b);
    if a.Str? { LessAsymmetric(a.s, b.s); LessIrreflexive(a.s); }
  }

  // --------------------------------------------------------------- predicates

  datatype Predicate = Predicate(
    field: string, eq: Option<Scalar>, inValues: Option<seq<Scalar>>,
    gt: Option<Scalar>, gte: Option<Scalar>, lt: Option<Scalar>, lte: Option<Scalar>)

  type Row = map<string, Scalar>

  /** A missing field reads as null. */
  function FieldOf(row: Row, f: string): Scalar { if f in row then row[f] else Null }

  /** The value meets every condition of the predicate; null meets none. */
  predicate ValueMatches(v: Scalar, p: Predicate) {
    && v != Null
    && (p.eq.Some? ==> ExactCompare(v, p.eq.value) == Some(Eq))
    && (p.inValues.Some? ==>
        exists i :: 0 <= i < |p.inValues.value| && ExactCompare(v, p.inValues.value[i]) == Some(Eq))
    && (p.gt.Some? ==> Below(p.gt.value, v))
    && (p.gte.Some? ==> AtMost(p.gte.value, v))
    && (p.lt.Some? ==> Below(v, p.lt.value))
    && (p.lte.Some? ==> AtMost(v, p.lte.value))
  }

  predicate RowMatches(row: Row, ps: seq<Predicate>) {
    forall i :: 0 <= i < |ps| ==> ValueMatches(FieldOf(row, ps[i].field), ps[i])
  }

  datatype ColumnStats = ColumnStats(field: string, nullCount: Option<nat>, lower: Option<Scalar>,
                                     upper: Option<Scalar>)

  datatype Stats = Stats(columns: seq<ColumnStats>, recordCount: Option<nat>)

  // ---------------------------------------------------------- the pruning code

  predicate AllNull(c: ColumnStats, records: Option<nat>) {
    c.nullCount.Some? && records.Some? && c.nullCount.value >= records.value
  }

  predicate EqualityMayMatch(c: ColumnStats, records: Option<nat>, v: Scalar) {
    && !AllNull(c, records)
    && !(c.lower.Some? && Compare(v, c.lower.value) == Some(Lt))
    && !(c.upper.Some? && Compare(v, c.upper.value) == Some(Gt))
  }

  predicate RangeMayMatch(c: ColumnStats, records: Option<nat>, p: Predicate) {
    && !AllNull(c, records)
    && !(p.gt.Some? && c.upper.Some? && (var o := Compare(c.upper.value, p.gt.value); o == Some(Lt) || o == Some(Eq)))
    && !(p.gte.Some? && c.upper.Some? && Compare(c.upper.value, p.gte.value) == Some(Lt))
    && !(p.lt.Some? && c.lower.Some? && (var o := Compare(c.lower.value, p.lt.value); o == Some(Gt) || o == Some(Eq)))
    && !(p.lte.Some? && c.lower.Some? && Compare(c.lower.value, p.lte.value) == Some(Gt))
  }

  /** `predicate_may_match_stats`: equality wins over membership, which wins over ranges. */
  predicate StatsMayMatch(c: ColumnStats, records: Option<nat>, p: Predicate) {
    if p.eq.Some? then EqualityMayMatch(c, records, p.eq.value)
    else if p.inValues.Some? then
      exists i :: 0 <= i < |p.inValues.value| && EqualityMayMatch(c, records, p.inValues.value[i])
    else RangeMayMatch(c, records, p)
  }

  /** The first statistics of a column. */
  function FindColumn(cs: seq<ColumnStats>, f: string): (r: Option<ColumnStats>)
    ensures r.Some? ==> r.value in cs && r.value.field == f
  {
    if |cs| == 0 then None else if cs[0].field == f then Some(cs[0]) else FindColumn(cs[1..], f)
  }

  predicate MayMatchOne(s: Stats, p: Predicate) {
    match FindColumn(s.columns, p.field)
    case None => true
    case Some(c) => StatsMayMatch(c, s.recordCount, p)
  }

  /** `file_may_match_predicates` and `row_group_may_match_predicates`. */
  predicate MayMatch(s: Stats, ps: seq<Predicate>) {
    forall i :: 0 <= i < |ps| ==> MayMatchOne(s, ps[i])
  }

  // -------------------------------------------------------------- true bounds

  function NullsIn(rows: seq<Row>, f: string): nat {
    if |rows| == 0 then 0 else NullsIn(rows[..|rows| - 1], f) + if FieldOf(rows[|rows| - 1], f) == Null then 1 else 0
  }

  /** The statistics are true of the rows: counts are counts and bounds are bounds. */
  ghost predicate TrueColumn(c: ColumnStats, records: Option<nat>, rows: seq<Row>) {
    && (c.nullCount.Some? ==> c.nullCount.value == NullsIn(rows, c.field))
    && (records.Some? ==> records.value == |rows|)
    && forall r :: r in rows && FieldOf(r, c.field) != Null ==>
         && (c.lower.Some? ==> AtMost(c.lower.value, FieldOf(r, c.field)))
         && (c.upper.Some? ==> AtMost(FieldOf(r, c.field), c.upper.value))
  }

  ghost predicate TrueStats(s: Stats, rows: seq<Row>) {
    forall c :: c in s.columns ==> TrueColumn(c, s.recordCount, rows)
  }

  lemma {:induction false} NullsBounded(rows: seq<Row>, f: string)
    ensures NullsIn(rows, f) <= |rows|
    ensures NullsIn(rows, f) == |rows| ==> forall r :: r in rows ==> FieldOf(r, f) == Null
  {
    if |rows| != 0 {
      var m := |rows| - 1;
      NullsBounded(rows[..m], f);
      assert rows == rows[..m] + [rows[m]];
    }
  }

  /** No strict range condition meets a bound that converts to the same double. */
  predicate ExactEnough(c: ColumnStats, p: Predicate) {
    p.eq.None? && p.inValues.None? ==>
      && (p.gt.Some? && c.upper.Some? ==> !Collide(p.gt.value, c.upper.value))
      && (p.lt.Some? && c.lower.Some? ==> !Collide(c.lower.value, p.lt.value))
  }

  // ------------------------------------------------------------ row by column

  lemma EqualitySurvives(c: ColumnStats, records: Option<nat>, v: Scalar, x: Scalar)
    requires ExactCompare(v, x) == Some(Eq) && !AllNull(c, records)
    requires c.lower.Some? ==> AtMost(c.lower.value, v)
    requires c.upper.Some? ==> AtMost(v, c.upper.value)
    ensures EqualityMayMatch(c, records, x)
  {
    assert AtMost(v, x) && AtMost(x, v);
    if c.lower.Some? { AtMostTransitive(c.lower.value, v, x); CompareMonotone(c.lower.value, x); }
    if c.upper.Some? { AtMostTransitive(x, v, c.upper.value); CompareMonotone(x, c.upper.value); }
  }

  lemma RangeSurvives(c: ColumnStats, records: Option<nat>, v: Scalar, p: Predicate)
    requires ValueMatches(v, p) && !AllNull(c, records) && p.eq.None? && p.inValues.None? && ExactEnough(c, p)
    requires c.lower.Some? ==> AtMost(c.lower.value, v)
    requires c.upper.Some? ==> AtMost(v, c.upper.value)
    ensures RangeMayMatch(c, records, p)
  {
    if c.upper.Some? {
      if p.gt.Some? { AtMostTransitive(p.gt.value, v, c.upper.value); CompareStrict(p.gt.value, c.upper.value); }
      if p.gte.Some? { AtMostTransitive(p.gte.value, v, c.upper.value); CompareMonotone(p.gte.value, c.upper.value); }
    }
    if c.lower.Some? {
      if p.lt.Some? { AtMostTransitive(c.lower.value, v, p.lt.value); CompareStrict(c.lower.value, p.lt.value); }
      if p.lte.Some? { AtMostTransitive(c.lower.value, v, p.lte.value); CompareMonotone(c.lower.value, p.lte.value); }
    }
  }

  /** A matching row keeps its file: the test on true statistics never says no. */
  lemma ColumnSurvives(c: ColumnStats, records: Option<nat>, rows: seq<Row>, r: Row, p: Predicate)
    requires TrueColumn(c, records, rows) && r in rows && c.field == p.field
    requires ValueMatches(FieldOf(r, p.field), p) && ExactEnough(c, p)
    ensures StatsMayMatch(c, records, p)
  {
    NullsBounded(rows, c.field);
    var v := FieldOf(r, p.field);
    assert !AllNull(c, records);
    if p.eq.Some? {
      EqualitySurvives(c, records, v, p.eq.value);
    } else if p.inValues.Some? {
      var i :| 0 <= i < |p.inValues.value| && ExactCompare(v, p.inValues.value[i]) == Some(Eq);
      EqualitySurvives(c, records, v, p.inValues.value[i]);
    } else {
      RangeSurvives(c, records, v, p);
    }
  }

  // ------------------------------------------------------------ what is ruled out

  /** Comparing as doubles tells two values apart exactly when they differ and do not collide. */
  lemma CompareExactly(a: Scalar, b: Scalar)
    ensures Compare(a, b) == Some(Lt) <==> Below(a, b) && !Collide(a, b)
    ensures Compare(a, b) == Some(Gt) <==> Below(b, a) && !Collide(b, a)
    ensures Compare(a, b) == Some(Eq) <==> ExactCompare(a, b) == Some(Eq) || Collide(a, b) || Collide(b, a)
  {
    if Below(a, b) {
      CompareStrict(a, b);
      CompareMonotone(a, b);
    } else if ExactCompare(a, b) == Some(Eq) {
      if IsNumber(a) {
        AsDoubleMonotone(a, b);
        AsDoubleMonotone(b, a);
      }
    } else if ExactCompare(a, b) == Some(Gt) {
      if a.Str? { LessTotal(a.s, b.s); }
      assert Below(b, a);
      CompareStrict(b, a);
      CompareMonotone(b, a);
    }
  }

  /** Every record has null in the column. */
  predicate OnlyNulls(c: ColumnStats, records: Option<nat>) {
    c.nullCount.Some? && records.Some? && records.value <= c.nullCount.value
  }

  /** The bounds exclude the value, and not only by a collision. */
  predicate Outside(c: ColumnStats, v: Scalar) {
    || (c.lower.Some? && Below(v, c.lower.value) && !Collide(v, c.lower.value))
    || (c.upper.Some? && Below(c.upper.value, v) && !Collide(c.upper.value, v))
  }

  /** An equality rules a file out exactly when the column is null throughout or its bounds exclude the value. */
  lemma EqualityRulesOut(c: ColumnStats, records: Option<nat>, p: Predicate)
    requires p.eq.Some?
    ensures !StatsMayMatch(c, records, p) <==> OnlyNulls(c, records) || Outside(c, p.eq.value)
  {
    EqualityOutside(c, records, p.eq.value);
  }

  lemma EqualityOutside(c: ColumnStats, records: Option<nat>, v: Scalar)
    ensures !EqualityMayMatch(c, records, v) <==> OnlyNulls(c, records) || Outside(c, v)
  {
    if c.lower.Some? { CompareExactly(v, c.lower.value); }
    if c.upper.Some? { CompareExactly(v, c.upper.value); }
  }

  /** A membership rules a file out exactly when each of its values does. */
  lemma MembershipRulesOut(c: ColumnStats, records: Option<nat>, p: Predicate)
    requires p.eq.None? && p.inValues.Some?
    ensures !StatsMayMatch(c, records, p) <==>
              forall i :: 0 <= i < |p.inValues.value| ==> OnlyNulls(c, records) || Outside(c, p.inValues.value[i])
  {
    forall i | 0 <= i < |p.inValues.value|
      ensures !EqualityMayMatch(c, records, p.inValues.value[i])
              <==> OnlyNulls(c, records) || Outside(c, p.inValues.value[i])
    {
      EqualityOutside(c, records, p.inValues.value[i]);
    }
  }

  /** A lower condition fails on the upper bound: a strict one also when the two collide. */
  predicate TooLow(c: ColumnStats, p: Predicate) {
    c.upper.Some? &&
    (|| (p.gt.Some? && (AtMost(c.upper.value, p.gt.value) || Collide(p.gt.value, c.upper.value)))
     || (p.gte.Some? && Below(c.upper.value, p.gte.value) && !Collide(c.upper.value, p.gte.value)))
  }

  /** An upper condition fails on the lower bound. */
  predicate TooHigh(c: ColumnStats, p: Predicate) {
    c.lower.Some? &&
    (|| (p.lt.Some? && (AtMost(p.lt.value, c.lower.value) || Collide(c.lower.value, p.lt.value)))
     || (p.lte.Some? && Below(p.lte.value, c.lower.value) && !Collide(p.lte.value, c.lower.value)))
  }

  lemma Reversed(a: Scalar, b: Scalar)
    ensures ExactCompare(a, b) == Some(Eq) <==> ExactCompare(b, a) == Some(Eq)
    ensures ExactCompare(a, b) == Some(Gt) <==> Below(b, a)
  {
    if a.Str? && b.Str? {
      LessTotal(a.s, b.s);
      if Less(a.s, b.s) { LessAsymmetric(a.s, b.s); }
      if Less(b.s, a.s) { LessAsymmetric(b.s, a.s); }
    }
  }

  /** A range rules a file out exactly when the column is null throughout or one of its conditions fails on a bound. */
  lemma RangeRulesOut(c: ColumnStats, records: Option<nat>, p: Predicate)
    requires p.eq.None? && p.inValues.None?
    ensures !StatsMayMatch(c, records, p) <==> OnlyNulls(c, records) || TooLow(c, p) || TooHigh(c, p)
  {
    if c.upper.Some? {
      if p.gt.Some? { CompareExactly(c.upper.value, p.gt.value); }
      if p.gte.Some? { CompareExactly(c.upper.value, p.gte.value); }
    }
    if c.lower.Some? {
      if p.lt.Some? { CompareExactly(c.lower.value, p.lt.value); Reversed(c.lower.value, p.lt.value); }
      if p.lte.Some? { CompareExactly(c.lower.value, p.lte.value); }
    }
  }

  /** A file is ruled out exactly when the first statistics of the column of some predicate rule it out. */
  lemma FileRuledOut(s: Stats, ps: seq<Predicate>)
    ensures !MayMatch(s, ps) <==>
              exists i, j :: 0 <= i < |ps| && 0 <= j < |s.columns| && s.columns[j].field == ps[i].field
                             && (forall k :: 0 <= k < j ==> s.columns[k].field != ps[i].field)
                             && !StatsMayMatch(s.columns[j], s.recordCount, ps[i])
  {
    if i :| 0 <= i < |ps| && !MayMatchOne(s, ps[i]) {
      var j := FirstColumn(s.columns, ps[i].field);
      assert !StatsMayMatch(s.columns[j], s.recordCount, ps[i]);
    }
    if i, j :| 0 <= i < |ps| && 0 <= j < |s.columns| && s.columns[j].field == ps[i].field
               && (forall k :: 0 <= k < j ==> s.columns[k].field != ps[i].field)
               && !StatsMayMatch(s.columns[j], s.recordCount, ps[i])
    {
      ColumnAt(s.columns, j);
      assert !MayMatchOne(s, ps[i]);
    }
  }

  lemma {:induction false} FirstColumn(cs: seq<ColumnStats>, f: string) returns (j: nat)
    requires FindColumn(cs, f).Some?
    ensures j < |cs| && FindColumn(cs, f) == Some(cs[j]) && cs[j].field == f
    ensures forall k :: 0 <= k < j ==> cs[k].field != f
  {
    if cs[0].field == f {
      j := 0;
    } else {
      j := FirstColumn(cs[1..], f);
      j := j + 1;
    }
  }

  lemma {:induction false} ColumnAt(cs: seq<ColumnStats>, j: nat)
    requires j < |cs| && forall k :: 0 <= k < j ==> cs[k].field != cs[j].field
    ensures FindColumn(cs, cs[j].field) == Some(cs[j])
  {
    if j > 0 {
      assert cs[0].field != cs[j].field;
      ColumnAt(cs[1..], j - 1);
    }
  }

  /** A strict lower condition keeps the file whose upper bound matches it exactly when the two do not
      convert to the same double. */
  lemma GreaterThanExact(upper: Scalar, x: Scalar)
    requires Below(x, upper) && upper != Null
    ensures RangeMayMatch(ColumnStats("f", None, None, Some(upper)), None,
                          Predicate("f", None, None, Some(x), None, None, None))
            <==> !Collide(x, upper)
    ensures ValueMatches(upper, Predicate("f", None, None, Some(x), None, None, None))
  {
    CompareStrict(x, upper);
    CompareMonotone(x, upper);
  }

  lemma LessThanExact(lower: Scalar, x: Scalar)
    requires Below(lower, x) && lower != Null
    ensures RangeMayMatch(ColumnStats("f", None, Some(lower), None), None,
                          Predicate("f", None, None, None, None, Some(x), None))
            <==> !Collide(lower, x)
    ensures ValueMatches(lower, Predicate("f", None, None, None, None, Some(x), None))
  {
    CompareStrict(lower, x);
    CompareMonotone(lower, x);
  }

  /** Just above 2^53 a file whose largest value is the only match is skipped. */
  lemma LargeIntegersCollide()
    ensures var x, upper := Int(TWO_53), Int(TWO_53 + 1);
            && Collide(x, upper)
            && !RangeMayMatch(ColumnStats("f", None, None, Some(upper)), None,
                              Predicate("f", None, None, Some(x), None, None, None))
  {
    RoundExact(TWO_53);
    assert Spacing((TWO_53 + 1) / 2) == 1 && Spacing(TWO_53 + 1) == 2;
    assert (TWO_53 + 1) / 2 == TWO_52 && (TWO_53 + 1) % 2 == 1 && TWO_52 % 2 == 0;
    assert Round(TWO_53 + 1) == TWO_53;
    GreaterThanExact(Int(TWO_53 + 1), Int(TWO_53));
  }

  // -------------------------------------------------------------------- scans

  datatype RowGroup = RowGroup(stats: Option<Stats>, rows: seq<Row>)

  datatype File = File(stats: Option<Stats>, groups: seq<RowGroup>)

  predicate Survives(s: Option<Stats>, ps: seq<Predicate>) { s.Some? ==> MayMatch(s.value, ps) }

  function Matching(rows: seq<Row>, ps: seq<Predicate>): seq<Row> {
    Filter(rows, (r: Row) => RowMatches(r, ps))
  }

  function ScanGroups(gs: seq<RowGroup>, ps: seq<Predicate>, prune: bool): seq<Row> {
    if |gs| == 0 then []
    else
      var g := gs[|gs| - 1];
      ScanGroups(gs[..|gs| - 1], ps, prune) + if prune && !Survives(g.stats, ps) then [] else Matching(g.rows, ps)
  }

  /** The rows that a scan returns, with or without pruning. */
  function Scan(fs: seq<File>, ps: seq<Predicate>, prune: bool): seq<Row> {
    if |fs| == 0 then []
    else
      var f := fs[|fs| - 1];
      Scan(fs[..|fs| - 1], ps, prune) + if prune && !Survives(f.stats, ps) then [] else ScanGroups(f.groups, ps, prune)
  }

  function RowsOf(gs: seq<RowGroup>): seq<Row> {
    if |gs| == 0 then [] else RowsOf(gs[..|gs| - 1]) + gs[|gs| - 1].rows
  }

  /** Statistics that are true of some rows and, for the column of each predicate, strict enough for it. */
  ghost predicate Trusted(s: Option<Stats>, rows: seq<Row>, ps: seq<Predicate>) {
    s.Some? ==>
      && TrueStats(s.value, rows)
      && forall c, i :: c in s.value.columns && 0 <= i < |ps| && c.field == ps[i].field ==> ExactEnough(c, ps[i])
  }

  lemma NothingPruned(s: Option<Stats>, rows: seq<Row>, ps: seq<Predicate>, r: Row)
    requires Trusted(s, rows, ps) && r in rows && RowMatches(r, ps)
    ensures Survives(s, ps)
  {
    if s.Some? {
      forall i | 0 <= i < |ps|
        ensures MayMatchOne(s.value, ps[i])
      {
        var c := FindColumn(s.value.columns, ps[i].field);
        if c.Some? { ColumnSurvives(c.value, s.value.recordCount, rows, r, ps[i]); }
      }
    }
  }

  lemma NoMatch(s: Option<Stats>, rows: seq<Row>, ps: seq<Predicate>)
    requires Trusted(s, rows, ps) && !Survives(s, ps)
    ensures Matching(rows, ps) == []
  {
    var m := Matching(rows, ps);
    if |m| != 0 {
      HeadIn(m);
      NothingPruned(s, rows, ps, m[0]);
    }
  }

  lemma {:induction false} GroupsKeepRows(gs: seq<RowGroup>, ps: seq<Predicate>)
    requires forall g :: g in gs ==> Trusted(g.stats, g.rows, ps)
    ensures ScanGroups(gs, ps, true) == ScanGroups(gs, ps, false)
    ensures ScanGroups(gs, ps, false) == Matching(RowsOf(gs), ps)
  {
    if |gs| != 0 {
      var m := |gs| - 1;
      GroupsKeepRows(gs[..m], ps);
      FilterConcat(RowsOf(gs[..m]), gs[m].rows, (r: Row) => RowMatches(r, ps));
      if !Survives(gs[m].stats, ps) { NoMatch(gs[m].stats, gs[m].rows, ps); }
    }
  }

  /** A pruned scan returns the same rows, in the same order, as a full scan. */
  lemma {:induction false} PrunedScanIsFullScan(fs: seq<File>, ps: seq<Predicate>)
    requires forall f :: f in fs ==> Trusted(f.stats, RowsOf(f.groups), ps)
    requires forall f, g :: f in fs && g in f.groups ==> Trusted(g.stats, g.rows, ps)
    ensures Scan(fs, ps, true) == Scan(fs, ps, false)
  {
    if |fs| != 0 {
      var m := |fs| - 1;
      PrunedScanIsFullScan(fs[..m], ps);
      GroupsKeepRows(fs[m].groups, ps);
      if !Survives(fs[m].stats, ps) { NoMatch(fs[m].stats, RowsOf(fs[m].groups), ps); }
    }
  }
}
