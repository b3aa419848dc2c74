/** Largest-remainder sharing of a money total over weighted targets (packages/core/src/allocation.ts). */
module Allocation {
  import opened Prelude
  import opened Sorting

  datatype Weight = Weight(id: string, weight: int)

  datatype Share = Share(id: string, pence: int)

  datatype Refusal = NonZeroTotalNeedsTargets | BadTargets | ZeroWeightTotal

  /** A row before the leftover pennies are dealt out. */
  datatype Row = Row(id: string, weight: int, whole: int, remainder: int)

  function Abs(x: int): nat {
    if x < 0 then -x else x
  }

  function WeightTotal(weights: seq<Weight>): int {
    SumBy(weights, (w: Weight) => w.weight)
  }

  predicate WellFormed(weights: seq<Weight>) {
    && AllDifferent(Map(weights, (w: Weight) => w.id))
    && (forall w :: w in weights ==> w.weight >= 0)
  }

  /** Why a request is refused, in the order the checks are made; None means it is allocated. */
  function Refuses(total: int, weights: seq<Weight>): Option<Refusal> {
    if weights == [] then (if total != 0 then Some(NonZeroTotalNeedsTargets) else None)
    else if !WellFormed(weights) then Some(BadTargets)
    else if WeightTotal(weights) == 0 then Some(ZeroWeightTotal)
    else None
  }

  ghost predicate Allocatable(weights: seq<Weight>) {
    WellFormed(weights) && WeightTotal(weights) > 0
  }

  function RowOf(absolute: nat, weightTotal: int): Weight -> Row
    requires weightTotal > 0
  {
    (w: Weight) => Row(w.id, w.weight, absolute * w.weight / weightTotal, absolute * w.weight % weightTotal)
  }

  function Rows(absolute: nat, weights: seq<Weight>, weightTotal: int): (rows: seq<Row>)
    requires weightTotal > 0
  {
    Map(weights, RowOf(absolute, weightTotal))
  }

  /**
   * The order in which leftover pennies are dealt: larger remainder first, ties by the collation
   * of the id. Ids with the same collation key keep their input order, as in a stable sort.
   */
  function ByRemainder(collation: string -> int): (Row, Row) -> bool {
    (a: Row, b: Row) => a.remainder > b.remainder || (a.remainder == b.remainder && collation(a.id) <= collation(b.id))
  }

  function Ranked(rows: seq<Row>, collation: string -> int): seq<Row> {
    Sort(rows, ByRemainder(collation))
  }

  function WholePennies(rows: seq<Row>): int {
    SumBy(rows, (r: Row) => r.whole)
  }

  function PenniesLeft(absolute: nat, rows: seq<Row>): int {
    absolute - WholePennies(rows)
  }

  /** The rows that receive one of the leftover pennies. */
  function Winners(rows: seq<Row>, left: int, collation: string -> int): seq<Row> {
    if 0 <= left <= |Ranked(rows, collation)| then Ranked(rows, collation)[..left] else []
  }

  function Magnitude(r: Row, winners: seq<Row>): int {
    if r in winners then r.whole + 1 else r.whole
  }

  /** The magnitude each target receives, in input order. */
  function Magnitudes(absolute: nat, weights: seq<Weight>, collation: string -> int): (m: seq<int>)
    requires WellFormed(weights) && WeightTotal(weights) > 0
    ensures |m| == |weights|
  {
    var rows := Rows(absolute, weights, WeightTotal(weights));
    var winners := Winners(rows, PenniesLeft(absolute, rows), collation);
    seq(|rows|, i requires 0 <= i < |rows| => Magnitude(rows[i], winners))
  }

  function Sign(total: int): int {
    if total < 0 then -1 else 1
  }

  function Shares(total: int, weights: seq<Weight>, collation: string -> int): (shares: seq<Share>)
    requires WellFormed(weights) && WeightTotal(weights) > 0
    ensures |shares| == |weights|
  {
    var m := Magnitudes(Abs(total), weights, collation);
    seq(|weights|, i requires 0 <= i < |weights| => Share(weights[i].id, Sign(total) * m[i]))
  }

  // ----- the arithmetic: leftover pennies fit the rows with a remainder -----

  function Products(rows: seq<Row>, absolute: nat): int {
    SumBy(rows, (r: Row) => absolute * r.weight)
  }

  function Remainders(rows: seq<Row>): int {
    SumBy(rows, (r: Row) => r.remainder)
  }

  function Positive(r: Row): int {
    if r.remainder > 0 then 1 else 0
  }

  /** How many rows have a positive remainder. */
  function PositiveCount(rows: seq<Row>): int {
    SumBy(rows, (r: Row) => Positive(r))
  }

  ghost predicate Divided(rows: seq<Row>, absolute: nat, d: nat) {
    d > 0 && forall r :: r in rows ==> absolute * r.weight == d * r.whole + r.remainder && 0 <= r.remainder < d
  }

  lemma RowsDivided(absolute: nat, weights: seq<Weight>, d: int)
    requires d > 0
    ensures Divided(Rows(absolute, weights, d), absolute, d)
  {
    var rows := Rows(absolute, weights, d);
    forall r | r in rows
      ensures absolute * r.weight == d * r.whole + r.remainder && 0 <= r.remainder < d
    {
      var i :| 0 <= i < |rows| && rows[i] == r;
    }
  }

  lemma {:induction false} TotalsDivided(rows: seq<Row>, absolute: nat, d: nat)
    requires Divided(rows, absolute, d)
    ensures Products(rows, absolute) == d * WholePennies(rows) + Remainders(rows)
    ensures 0 <= Remainders(rows) <= (d - 1) * PositiveCount(rows)
    ensures PositiveCount(rows) >= 0
  {
    if rows != [] {
      assert rows[0] in rows;
      TotalsDivided(rows[1..], absolute, d);
      var q, p := WholePennies(rows[1..]), PositiveCount(rows[1..]);
      assert d * (rows[0].whole + q) == d * rows[0].whole + d * q;
      assert (d - 1) * (Positive(rows[0]) + p) == (d - 1) * Positive(rows[0]) + (d - 1) * p;
    }
  }

  lemma {:induction false} ProductsFactor(absolute: nat, weights: seq<Weight>, d: int)
    requires d > 0
    ensures Products(Rows(absolute, weights, d), absolute) == absolute * WeightTotal(weights)
  {
    var rows := Rows(absolute, weights, d);
    if weights != [] {
      ProductsFactor(absolute, weights[1..], d);
      assert rows[1..] == Rows(absolute, weights[1..], d);
      assert absolute * (weights[0].weight + WeightTotal(weights[1..]))
          == absolute * weights[0].weight + absolute * WeightTotal(weights[1..]);
    }
  }

  lemma Squeeze(d: nat, left: int, rem: int, p: int)
    requires d > 0 && d * left == rem && 0 <= rem <= (d - 1) * p && p >= 0
    ensures 0 <= left <= p
  {
    MulKeepsOrder(d, left, -1);
    MulKeepsOrder(d, p + 1, left);
    assert d * (p + 1) == (d - 1) * p + p + d;
  }

  lemma {:induction false} CountBound(rows: seq<Row>)
    ensures 0 <= PositiveCount(rows) <= |rows|
  {
    if rows != [] {
      CountBound(rows[1..]);
    }
  }

  /** The key fact: the pennies left over never exceed the rows whose division left a remainder. */
  lemma LeftoverFits(absolute: nat, weights: seq<Weight>)
    requires Allocatable(weights)
    ensures var rows := Rows(absolute, weights, WeightTotal(weights));
            0 <= PenniesLeft(absolute, rows) <= PositiveCount(rows) <= |rows|
  {
    var d := WeightTotal(weights);
    var rows := Rows(absolute, weights, d);
    RowsDivided(absolute, weights, d);
    TotalsDivided(rows, absolute, d);
    ProductsFactor(absolute, weights, d);
    assert d * PenniesLeft(absolute, rows) == d * absolute - d * WholePennies(rows);
    Squeeze(d, PenniesLeft(absolute, rows), Remainders(rows), PositiveCount(rows));
    CountBound(rows);
  }

  // ----- who wins a penny -----

  lemma ByRemainderIsTotal(collation: string -> int)
    ensures TotalPreorder(ByRemainder(collation))
  {
  }

  lemma RankedFacts(rows: seq<Row>, collation: string -> int)
    ensures multiset(Ranked(rows, collation)) == multiset(rows)
    ensures |Ranked(rows, collation)| == |rows|
    ensures Sorted(Ranked(rows, collation), ByRemainder(collation))
  {
    ByRemainderIsTotal(collation);
    SortPermutes(rows, ByRemainder(collation));
    SortSorts(rows, ByRemainder(collation));
  }

  /** In a sequence sorted by remainder the positive ones come first. */
  lemma {:induction false} PositivePrefix(s: seq<Row>, collation: string -> int, k: nat)
    requires Sorted(s, ByRemainder(collation))
    requires k < PositiveCount(s)
    ensures k < |s| && s[k].remainder > 0
  {
    CountBound(s);
    SumBySplit(s, k, (r: Row) => Positive(r));
    if s[k].remainder <= 0 {
      forall r | r in s[k + 1..]
        ensures r.remainder <= 0
      {
        var j :| k < j < |s| && s[j] == r;
        assert ByRemainder(collation)(s[k], s[j]);
      }
      NoPositive(s[k + 1..]);
      CountBound(s[..k]);
    }
  }

  lemma {:induction false} NoPositive(s: seq<Row>)
    requires forall r :: r in s ==> r.remainder <= 0
    ensures PositiveCount(s) == 0
  {
    if s != [] {
      NoPositive(s[1..]);
    }
  }

  /** Only rows with a remainder win a penny. */
  lemma WinnersHaveRemainder(rows: seq<Row>, left: int, collation: string -> int, r: Row)
    requires 0 <= left <= PositiveCount(rows) <= |rows|
    requires r in Winners(rows, left, collation)
    ensures r.remainder > 0 && r in rows
  {
    RankedFacts(rows, collation);
    var s := Ranked(rows, collation);
    SumByPermuted(s, rows, (r: Row) => Positive(r));
    var k :| 0 <= k < left && s[k] == r;
    PositivePrefix(s, collation, k);
    assert r in multiset(s);
  }

  lemma RowsDistinct(absolute: nat, weights: seq<Weight>)
    requires Allocatable(weights)
    ensures Distinct(Rows(absolute, weights, WeightTotal(weights)))
    ensures var rows := Rows(absolute, weights, WeightTotal(weights));
            forall r, t :: r in rows && t in rows && r.id == t.id ==> r == t
  {
    var rows := Rows(absolute, weights, WeightTotal(weights));
    var ids := Map(weights, (w: Weight) => w.id);
    forall i, j | 0 <= i < j < |rows|
      ensures rows[i].id != rows[j].id
    {
      assert ids[i] != ids[j];
    }
  }

  /** Dealing one penny to each of the winners adds exactly their number. */
  lemma {:induction false} WinnersAdd(rows: seq<Row>, winners: seq<Row>)
    requires Distinct(rows) && Distinct(winners)
    requires forall w :: w in winners ==> w in rows
    ensures SumBy(rows, (r: Row) => Magnitude(r, winners)) == WholePennies(rows) + |winners|
  {
    if winners == [] {
      SumByAgree(rows, (r: Row) => Magnitude(r, winners), (r: Row) => r.whole);
    } else {
      var w, rest := winners[0], winners[1..];
      assert winners == [w] + rest;
      WinnersAdd(rows, rest);
      assert w in rows;
      var k :| 0 <= k < |rows| && rows[k] == w;
      var f, g := (r: Row) => Magnitude(r, winners), (r: Row) => Magnitude(r, rest);
      SumBySplit(rows, k, f);
      SumBySplit(rows, k, g);
      forall x | x in rows[..k] || x in rows[k + 1..]
        ensures f(x) == g(x)
      {
        assert x != w;
      }
      SumByAgree(rows[..k], f, g);
      SumByAgree(rows[k + 1..], f, g);
    }
  }

  // ----- the properties of the shares -----

  function Total(shares: seq<Share>): int {
    SumBy(shares, (s: Share) => s.pence)
  }

  lemma {:induction false} ScaledSum<T>(a: seq<Share>, rows: seq<T>, f: T -> int, sign: int)
    requires |a| == |rows| && forall i :: 0 <= i < |a| ==> a[i].pence == sign * f(rows[i])
    ensures Total(a) == sign * SumBy(rows, f)
  {
    if a != [] {
      ScaledSum(a[1..], rows[1..], f, sign);
      assert sign * (f(rows[0]) + SumBy(rows[1..], f)) == sign * f(rows[0]) + sign * SumBy(rows[1..], f);
    }
  }

  /** Conservation: the shares add up to the total, to the penny. */
  lemma SharesSumToTotal(total: int, weights: seq<Weight>, collation: string -> int)
    requires Allocatable(weights)
    ensures Total(Shares(total, weights, collation)) == total
  {
    var absolute, d := Abs(total), WeightTotal(weights);
    var rows := Rows(absolute, weights, d);
    var left := PenniesLeft(absolute, rows);
    var winners := Winners(rows, left, collation);
    LeftoverFits(absolute, weights);
    RankedFacts(rows, collation);
    RowsDistinct(absolute, weights);
    DistinctPermuted(rows, Ranked(rows, collation));
    forall w | w in winners
      ensures w in rows
    {
      assert w in multiset(Ranked(rows, collation));
    }
    WinnersAdd(rows, winners);
    ScaledSum(Shares(total, weights, collation), rows, (r: Row) => Magnitude(r, winners), Sign(total));
  }

  lemma PennyError(absolute: nat, w: int, d: int, q: int, r: int, extra: int)
    requires w >= 0 && d > 0 && absolute * w == d * q + r && 0 <= r < d
    requires extra == 0 || (extra == 1 && r > 0)
    ensures 0 <= q && -d < d * (q + extra) - absolute * w < d
    ensures w == 0 || absolute == 0 ==> q + extra == 0
  {
    MulKeepsOrder(absolute, 0, w);
    MulKeepsOrder(d, q, -1);
    MulKeepsOrder(d, 1, q);
    assert d * (q + extra) == d * q + d * extra;
  }

  lemma RowDivided(absolute: nat, weights: seq<Weight>, d: int, i: nat)
    requires d > 0 && i < |weights|
    ensures var r := Rows(absolute, weights, d)[i];
            r.weight == weights[i].weight && absolute * weights[i].weight == d * r.whole + r.remainder && 0 <= r.remainder < d
  {
    RowsDivided(absolute, weights, d);
    assert Rows(absolute, weights, d)[i] in Rows(absolute, weights, d);
  }

  lemma MagnitudeOfRow(absolute: nat, weights: seq<Weight>, collation: string -> int, i: nat) returns (extra: int)
    requires Allocatable(weights) && i < |weights|
    ensures var r := Rows(absolute, weights, WeightTotal(weights))[i];
            Magnitudes(absolute, weights, collation)[i] == r.whole + extra && (extra == 0 || (extra == 1 && r.remainder > 0))
  {
    var rows := Rows(absolute, weights, WeightTotal(weights));
    var left := PenniesLeft(absolute, rows);
    var winners := Winners(rows, left, collation);
    LeftoverFits(absolute, weights);
    extra := if rows[i] in winners then 1 else 0;
    if rows[i] in winners {
      WinnersHaveRemainder(rows, left, collation, rows[i]);
    }
  }

  /** What a target receives in magnitude, against its exact proportion of the absolute total. */
  lemma MagnitudeNearProportion(absolute: nat, weights: seq<Weight>, collation: string -> int, i: nat)
    requires Allocatable(weights) && i < |weights|
    ensures var m, d := Magnitudes(absolute, weights, collation)[i], WeightTotal(weights);
            && 0 <= m && -d < d * m - absolute * weights[i].weight < d
            && (weights[i].weight == 0 || absolute == 0 ==> m == 0)
  {
    var d := WeightTotal(weights);
    var r := Rows(absolute, weights, d)[i];
    assert weights[i] in weights;
    RowDivided(absolute, weights, d, i);
    var extra := MagnitudeOfRow(absolute, weights, collation, i);
    PennyError(absolute, weights[i].weight, d, r.whole, r.remainder, extra);
  }

  lemma NegatedNear(d: int, m: int, total: int, w: int)
    ensures -d < d * m - (-total) * w < d ==> -d < d * (-m) - total * w < d
    ensures d * (-1 * m) == d * (-m) && d * (1 * m) == d * m
  {
    assert d * (-m) == -(d * m) && (-total) * w == -(total * w);
  }

  /** Every share is less than a penny from the exact proportion, and a zero weight receives nothing. */
  lemma ShareNearProportion(total: int, weights: seq<Weight>, collation: string -> int, i: nat)
    requires Allocatable(weights) && i < |weights|
    ensures var share, d := Shares(total, weights, collation)[i].pence, WeightTotal(weights);
            -d < d * share - total * weights[i].weight < d
    ensures weights[i].weight == 0 || total == 0 ==> Shares(total, weights, collation)[i].pence == 0
  {
    var m, d, w := Magnitudes(Abs(total), weights, collation)[i], WeightTotal(weights), weights[i].weight;
    MagnitudeNearProportion(Abs(total), weights, collation, i);
    NegatedNear(d, m, total, w);
  }

  lemma {:induction false} WinsBefore(s: seq<Row>, left: nat, collation: string -> int, x: Row, y: Row)
    requires left <= |s| && Sorted(s, ByRemainder(collation))
    requires x in s && y in s[..left] && x.remainder > y.remainder
    ensures x in s[..left]
  {
    var k :| 0 <= k < left && s[k] == y;
    var n :| 0 <= n < |s| && s[n] == x;
    if left <= n {
      SortedAt(s, ByRemainder(collation), k, n);
    }
    assert s[..left][n] == x;
  }

  lemma WinsOver(s: seq<Row>, left: nat, collation: string -> int, x: Row, y: Row)
    requires left <= |s| && Sorted(s, ByRemainder(collation))
    requires x in s[..left] && y in s && y !in s[..left]
    ensures ByRemainder(collation)(x, y)
  {
    var k :| 0 <= k < left && s[k] == x;
    assert s == s[..left] + s[left..];
    var n :| 0 <= n < |s| - left && s[left..][n] == y;
    SortedAt(s, ByRemainder(collation), k, left + n);
  }

  lemma WinnerBeatsLoser(absolute: nat, weights: seq<Weight>, collation: string -> int, i: nat, j: nat)
    requires Allocatable(weights) && i < |weights| && j < |weights|
    requires var rows, m := Rows(absolute, weights, WeightTotal(weights)), Magnitudes(absolute, weights, collation);
             m[i] == rows[i].whole + 1 && m[j] == rows[j].whole
    ensures var rows := Rows(absolute, weights, WeightTotal(weights)); ByRemainder(collation)(rows[i], rows[j])
  {
    var rows := Rows(absolute, weights, WeightTotal(weights));
    var left := PenniesLeft(absolute, rows);
    LeftoverFits(absolute, weights);
    RankedFacts(rows, collation);
    CountBound(rows);
    assert rows[j] in multiset(rows) && rows[j] in Ranked(rows, collation);
    WinsOver(Ranked(rows, collation), left, collation, rows[i], rows[j]);
  }

  lemma WholeOrOneMore(w: int, d: int, q: int, r: int, extra: int)
    requires d > 0 && w == d * q + r && 0 <= r < d && (extra == 0 || extra == 1)
    ensures (d * (q + extra) > w ==> extra == 1 && w - d * (q + extra - 1) == r)
    ensures (d * (q + extra) < w ==> extra == 0 && w - d * (q + extra) == r)
  {
    assert d * (q + extra) == d * q + d * extra && d * (q + extra - 1) == d * (q + extra) - d;
  }

  /**
   * Leftover pennies go to the largest remainders: a target that got a penny above its proportion had
   * left over no less than a target that got none of what it had left over, and ties follow the collation.
   */
  lemma LargestRemaindersFirst(total: int, weights: seq<Weight>, collation: string -> int, i: nat, j: nat)
    requires Allocatable(weights) && i < |weights| && j < |weights|
    requires var d, shares := WeightTotal(weights), Shares(total, weights, collation);
             d * Abs(shares[i].pence) > Abs(total) * weights[i].weight && d * Abs(shares[j].pence) < Abs(total) * weights[j].weight
    ensures var d, shares := WeightTotal(weights), Shares(total, weights, collation);
            var x := Abs(total) * weights[i].weight - d * (Abs(shares[i].pence) - 1);
            var y := Abs(total) * weights[j].weight - d * Abs(shares[j].pence);
            x > y || (x == y && collation(weights[i].id) <= collation(weights[j].id))
  {
    var absolute, d := Abs(total), WeightTotal(weights);
    var rows, m := Rows(absolute, weights, d), Magnitudes(absolute, weights, collation);
    var a := MagnitudeOfRow(absolute, weights, collation, i);
    var b := MagnitudeOfRow(absolute, weights, collation, j);
    MagnitudeNearProportion(absolute, weights, collation, i);
    MagnitudeNearProportion(absolute, weights, collation, j);
    RowDivided(absolute, weights, d, i);
    RowDivided(absolute, weights, d, j);
    assert Abs(Shares(total, weights, collation)[i].pence) == m[i] && Abs(Shares(total, weights, collation)[j].pence) == m[j];
    WholeOrOneMore(absolute * weights[i].weight, d, rows[i].whole, rows[i].remainder, a);
    WholeOrOneMore(absolute * weights[j].weight, d, rows[j].whole, rows[j].remainder, b);
    WinnerBeatsLoser(absolute, weights, collation, i, j);
  }

  /** A strictly larger weight never receives a smaller magnitude. */
  lemma LargerWeightNoSmaller(total: int, weights: seq<Weight>, collation: string -> int, i: nat, j: nat)
    requires Allocatable(weights) && i < |weights| && j < |weights|
    requires weights[i].weight > weights[j].weight
    ensures Abs(Shares(total, weights, collation)[i].pence) >= Abs(Shares(total, weights, collation)[j].pence)
  {
    var absolute, d := Abs(total), WeightTotal(weights);
    MagnitudeNearProportion(absolute, weights, collation, i);
    MagnitudeNearProportion(absolute, weights, collation, j);
    if absolute > 0 {
      var rows := Rows(absolute, weights, d);
      LeftoverFits(absolute, weights);
      RowsDivided(absolute, weights, d);
      MagnitudeOrder(rows, PenniesLeft(absolute, rows), collation, absolute, d, rows[i], rows[j]);
    }
  }

  lemma MagnitudeOrder(rows: seq<Row>, left: nat, collation: string -> int, absolute: nat, d: nat, x: Row, y: Row)
    requires Divided(rows, absolute, d) && absolute > 0 && left <= |rows|
    requires x in rows && y in rows && x.weight > y.weight
    ensures Magnitude(x, Winners(rows, left, collation)) >= Magnitude(y, Winners(rows, left, collation))
  {
    MulKeepsOrder(absolute, y.weight + 1, x.weight);
    assert absolute * (y.weight + 1) == absolute * y.weight + absolute;
    QuotientOrder(x.whole, x.remainder, y.whole, y.remainder, d);
    if x.whole == y.whole && y in Winners(rows, left, collation) {
      RankedFacts(rows, collation);
      assert x in multiset(Ranked(rows, collation));
      WinsBefore(Ranked(rows, collation), left, collation, x, y);
    }
  }

  lemma QuotientOrder(q1: int, r1: int, q2: int, r2: int, d: nat)
    requires d * q1 + r1 > d * q2 + r2 && 0 <= r1 < d && 0 <= r2 < d
    ensures q1 > q2 || (q1 == q2 && r1 > r2)
  {
    MulKeepsOrder(d, q1 + 1, q2);
    assert d * (q1 + 1) == d * q1 + d;
  }

  /** Negating the total negates every share. */
  lemma NegationNegates(total: int, weights: seq<Weight>, collation: string -> int, i: nat)
    requires Allocatable(weights) && i < |weights|
    ensures Shares(-total, weights, collation)[i] ==
            Share(weights[i].id, -Shares(total, weights, collation)[i].pence)
  {
    if total == 0 {
      ShareNearProportion(0, weights, collation, i);
    }
  }

  /** With ids the collation tells apart, the listing order of the targets changes nobody's share. */
  lemma ListingOrderIrrelevant(total: int, a: seq<Weight>, b: seq<Weight>, collation: string -> int, i: nat, j: nat)
    requires Allocatable(a) && Allocatable(b) && multiset(a) == multiset(b)
    requires forall x, y :: x in a && y in a && collation(x.id) == collation(y.id) ==> x.id == y.id
    requires i < |a| && j < |b| && a[i].id == b[j].id
    ensures Shares(total, a, collation)[i] == Shares(total, b, collation)[j]
  {
    var absolute, d := Abs(total), WeightTotal(a);
    SumByPermuted(a, b, (w: Weight) => w.weight);
    var rowsA, rowsB := Rows(absolute, a, d), Rows(absolute, b, d);
    MapPermuted(a, b, RowOf(absolute, d));
    SumByPermuted(rowsA, rowsB, (r: Row) => r.whole);
    RowsDistinct(absolute, a);
    forall x, y | x in rowsA && y in rowsA && ByRemainder(collation)(x, y) && ByRemainder(collation)(y, x)
      ensures x == y
    {
      var m :| 0 <= m < |rowsA| && rowsA[m] == x;
      var n :| 0 <= n < |rowsA| && rowsA[n] == y;
      assert a[m] in a && a[n] in a;
    }
    ByRemainderIsTotal(collation);
    SortForgetsOrder(rowsA, rowsB, ByRemainder(collation));
    assert rowsB[j] in multiset(rowsB);
    assert rowsA[i] in rowsA && rowsB[j] in rowsA;
    assert rowsA[i] == rowsB[j];
  }

  // ----- refusals -----

  /** Two targets share an id, or a weight is negative. */
  ghost predicate Improper(weights: seq<Weight>) {
    (exists i, j :: 0 <= i < j < |weights| && weights[i].id == weights[j].id) || exists i :: 0 <= i < |weights| && weights[i].weight < 0
  }

  lemma ImproperExactly(weights: seq<Weight>)
    ensures WellFormed(weights) <==> !Improper(weights)
  {
    var ids := Map(weights, (w: Weight) => w.id);
    if !Improper(weights) {
      assert forall i, j :: 0 <= i < j < |ids| ==> ids[i] != ids[j];
    }
    if i, j :| 0 <= i < j < |weights| && weights[i].id == weights[j].id {
      assert ids[i] == ids[j];
    }
    if i :| 0 <= i < |weights| && weights[i].weight < 0 {
      assert weights[i] in weights;
    }
  }

  lemma {:induction false} NoWeight(weights: seq<Weight>)
    requires forall i :: 0 <= i < |weights| ==> weights[i].weight >= 0
    ensures WeightTotal(weights) >= 0
    ensures WeightTotal(weights) == 0 <==> forall i :: 0 <= i < |weights| ==> weights[i].weight == 0
  {
    if weights != [] {
      NoWeight(weights[1..]);
      assert forall i :: 0 < i < |weights| ==> weights[i] == weights[1..][i - 1];
    }
  }

  /**
   * An allocation is refused exactly when money has no target, a target is repeated or weighs less than
   * nothing, or nothing has any weight.
   */
  lemma RefusalsExactly(total: int, weights: seq<Weight>)
    ensures Refuses(total, weights) == Some(NonZeroTotalNeedsTargets) <==> weights == [] && total != 0
    ensures Refuses(total, weights) == Some(BadTargets) <==> Improper(weights)
    ensures Refuses(total, weights) == Some(ZeroWeightTotal) <==>
            weights != [] && !Improper(weights) && forall i :: 0 <= i < |weights| ==> weights[i].weight == 0
  {
    ImproperExactly(weights);
    if !Improper(weights) {
      NoWeight(weights);
    }
  }

  // ----- the algorithm -----

  /** The row objects are shared between the two listings, so they are known here by their unique id. */
  method AllocateMoney(total: int, weights: seq<Weight>, collation: string -> int)
    returns (result: Result<seq<Share>, Refusal>)
    requires -MAX_MONEY_PENCE <= total <= MAX_MONEY_PENCE
    ensures result.Err? <==> Refuses(total, weights).Some?
    ensures result.Err? ==> Some(result.error) == Refuses(total, weights)
    ensures result.Ok? && weights == [] ==> result.value == []
    ensures result.Ok? && weights != [] ==> Allocatable(weights) && result.value == Shares(total, weights, collation)
  {
    if weights == [] {
      if total != 0 {
        return Err(NonZeroTotalNeedsTargets);
      }
      return Ok([]);
    }
    if !WellFormed(weights) {
      return Err(BadTargets);
    }
    var weightTotal := WeightTotal(weights);
    if weightTotal == 0 {
      return Err(ZeroWeightTotal);
    }
    WeightTotalNonneg(weights);
    var sign, absolute := Sign(total), Abs(total);
    var rows := Rows(absolute, weights, weightTotal);
    var ranked := Ranked(rows, collation);
    RankedDistinct(absolute, weights, collation);
    var given := DealPennies(ranked, PenniesLeft(absolute, rows));
    var shares := seq(|rows|, i requires 0 <= i < |rows| => Share(rows[i].id, sign * given[rows[i]]));
    assert shares == Shares(total, weights, collation);
    return Ok(shares);
  }

  lemma RankedDistinct(absolute: nat, weights: seq<Weight>, collation: string -> int)
    requires Allocatable(weights)
    ensures var rows := Rows(absolute, weights, WeightTotal(weights));
            && Distinct(Ranked(rows, collation))
            && 0 <= PenniesLeft(absolute, rows) <= |Ranked(rows, collation)|
            && forall i :: 0 <= i < |rows| ==> rows[i] in Ranked(rows, collation)
  {
    var rows := Rows(absolute, weights, WeightTotal(weights));
    LeftoverFits(absolute, weights);
    RankedFacts(rows, collation);
    RowsDistinct(absolute, weights);
    DistinctPermuted(rows, Ranked(rows, collation));
    forall i | 0 <= i < |rows|
      ensures rows[i] in Ranked(rows, collation)
    {
      assert rows[i] in multiset(rows);
    }
  }

  /** Adds one penny to each ranked row until none is left. */
  method DealPennies(ranked: seq<Row>, pennies: nat) returns (given: map<Row, int>)
    requires Distinct(ranked) && pennies <= |ranked|
    ensures forall r :: r in ranked ==> r in given && given[r] == Magnitude(r, ranked[..pennies])
  {
    given := map r | r in ranked :: r.whole;
    var penniesLeft, next := pennies, 0;
    while next < |ranked|
      invariant 0 <= next <= |ranked| && next == pennies - penniesLeft && 0 <= penniesLeft
      invariant forall r :: r in ranked ==> r in given && given[r] == Magnitude(r, ranked[..next])
    {
      if penniesLeft == 0 {
        break;
      }
      assert ranked[..next + 1] == ranked[..next] + [ranked[next]];
      assert ranked[next] !in ranked[..next];
      given := given[ranked[next] := given[ranked[next]] + 1];
      penniesLeft := penniesLeft - 1;
      next := next + 1;
    }
  }

  lemma {:induction false} WeightTotalNonneg(weights: seq<Weight>)
    requires forall w :: w in weights ==> w.weight >= 0
    ensures WeightTotal(weights) >= 0
  {
    if weights != [] {
      assert weights[0] in weights;
      WeightTotalNonneg(weights[1..]);
    }
  }
}
