/**
 The TOPSIS kernel `run_topsis` (spk/topsis_core.py): every criteria
 column is divided by its Euclidean norm and weighted; the ideal point
 takes each column's best value (the maximum for a benefit criterion,
 the minimum for a cost one) and the anti-ideal point its worst; each
 alternative's preference Vi is its distance to the anti-ideal point
 relative to the sum of both distances; alternatives are ranked by
 descending Vi with pandas' average tie rank truncated to an integer and
 returned ordered by descending Vi.

 pandas and NumPy do not stop on a zero division; the computation fails
 later instead. An empty matrix fails in `np.max`, and a NaN preference
 fails in `astype(int)`. Both failures are the error variants below.
 */
module Topsis {
  import opened Basics
  import opened RealSqrt
  import opened Sorting
  import opened Ranking
  import opened Criteria

  /** The criteria weights W1..W4. */
  const Weights: Row := [0.35, 0.30, 0.15, 0.20]

  /** The weights are positive and sum to one. */
  lemma WeightsConvex()
    ensures forall j :: 0 <= j < 4 ==> Weights[j] > 0.0
    ensures Total(Weights) == 1.0
  {
  }

  /** Why `run_topsis` raises: no rows at all (`np.max` of an empty
      column), or a NaN preference that `astype(int)` cannot convert,
      caused either by an all-zero column (0/0 in the normalisation) or by
      a row at distance zero from both ideal points. */
  datatype TopsisError = EmptyMatrix | ZeroNorm | Degenerate

  /** One output row: the input row with its preference and rank. */
  datatype Ranked = Ranked(row: Row, vi: real, rank: int)

  /** The sum of the squares of the entries. */
  function SumSquares(s: seq<real>): (r: real)
    ensures 0.0 <= r
    ensures r == 0.0 <==> forall i :: 0 <= i < |s| ==> s[i] == 0.0
  {
    if |s| == 0 then 0.0
    else
      var rest := SumSquares(s[1..]);
      PositiveSquare(s[0]);
      assert forall i :: 1 <= i < |s| ==> s[i] == s[1..][i - 1];
      Square(s[0]) + rest
  }

  /** Each square is part of the sum. */
  lemma {:induction false} SquareBelowSum(s: seq<real>, i: nat)
    requires i < |s|
    ensures Square(s[i]) <= SumSquares(s)
  {
    if i > 0 {
      SquareBelowSum(s[1..], i - 1);
    }
  }

  /** The Euclidean norm `np.sqrt(np.sum(v**2))`. */
  function EuclideanNorm(sqrt: real -> real, s: seq<real>): (r: real)
    requires IsSqrt(sqrt)
    ensures 0.0 <= r
    ensures r == 0.0 <==> forall i :: 0 <= i < |s| ==> s[i] == 0.0
  {
    ZeroIff(sqrt, SumSquares(s));
    sqrt(SumSquares(s))
  }

  /** A non-negative entry never exceeds the norm of its vector. */
  lemma EntryBelowNorm(sqrt: real -> real, s: seq<real>, i: nat)
    requires IsSqrt(sqrt)
    requires i < |s| && 0.0 <= s[i]
    ensures s[i] <= EuclideanNorm(sqrt, s)
  {
    SquareBelowSum(s, i);
    Monotone(sqrt, Square(s[i]), SumSquares(s));
    SqrtOfSquare(sqrt, s[i]);
  }

  /** The column norms; a norm is zero exactly for an all-zero column. */
  function ColumnNorms(sqrt: real -> real, rows: seq<Row>): (n: Row)
    requires IsSqrt(sqrt)
    ensures forall j :: 0 <= j < 4 ==> n[j] == EuclideanNorm(sqrt, Column(rows, j))
    ensures forall j :: 0 <= j < 4 ==> (n[j] == 0.0 <==> ZeroColumn(rows, j))
  {
    [EuclideanNorm(sqrt, Column(rows, 0)), EuclideanNorm(sqrt, Column(rows, 1)),
     EuclideanNorm(sqrt, Column(rows, 2)), EuclideanNorm(sqrt, Column(rows, 3))]
  }

  /** For non-negative data, an entry divided by the norm of its column
      (when that column is not all zero) lies in [0, 1]. */
  lemma NormalisedInUnit(sqrt: real -> real, c: seq<real>, i: nat)
    requires IsSqrt(sqrt)
    requires i < |c|
    requires forall k :: 0 <= k < |c| ==> 0.0 <= c[k]
    requires exists k :: 0 <= k < |c| && c[k] != 0.0
    ensures 0.0 <= c[i] / EuclideanNorm(sqrt, c) <= 1.0
  {
    var n := EuclideanNorm(sqrt, c);
    EntryBelowNorm(sqrt, c, i);
    assert 0.0 < n && 0.0 <= c[i] <= n;
    QuotientInUnit(c[i], n);
  }

  /** A value between zero and its divisor, normalised and weighted, lies
      between zero and the weight. */
  lemma WeighedEntryInRange(x: real, n: real, w: real)
    requires 0.0 <= x <= n && n != 0.0 && 0.0 < w
    ensures 0.0 <= x / n * w <= w
  {
    QuotientInUnit(x, n);
    ScaleWithin(x / n, w);
  }

  /** One row normalised by the column norms and weighted: `R * WEIGHTS`.
      An entry between zero and its column's norm becomes an entry between
      zero and its column's weight. */
  function WeighRow(x: Row, norms: Row): (y: Row)
    requires forall j :: 0 <= j < 4 ==> norms[j] != 0.0
    ensures forall j :: 0 <= j < 4 && 0.0 <= x[j] <= norms[j] ==> 0.0 <= y[j] <= Weights[j]
  {
    var y: Row := [x[0] / norms[0] * Weights[0], x[1] / norms[1] * Weights[1],
                   x[2] / norms[2] * Weights[2], x[3] / norms[3] * Weights[3]];
    assert forall j :: 0 <= j < 4 && 0.0 <= x[j] <= norms[j] ==> 0.0 <= y[j] <= Weights[j] by {
      forall j | 0 <= j < 4 && 0.0 <= x[j] <= norms[j]
        ensures 0.0 <= y[j] <= Weights[j]
      {
        WeighedEntryInRange(x[j], norms[j], Weights[j]);
      }
    }
    y
  }

  /** The weighted normalised matrix Y: one weighted row per input row, each
      entry between zero and its norm weighted into [0, weight]. */
  function Weigh(rows: seq<Row>, norms: Row): (y: seq<Row>)
    requires forall j :: 0 <= j < 4 ==> norms[j] != 0.0
    ensures |y| == |rows|
    ensures forall i :: 0 <= i < |rows| ==> y[i] == WeighRow(rows[i], norms)
    ensures forall i, j :: 0 <= i < |rows| && 0 <= j < 4 && 0.0 <= rows[i][j] <= norms[j] ==>
      0.0 <= y[i][j] <= Weights[j]
  {
    seq(|rows|, i requires 0 <= i < |rows| => WeighRow(rows[i], norms))
  }

  /** With the norms of line 17 and no all-zero column, every entry of a
      non-negative matrix is weighted into [0, weight]. */
  lemma WeighedInRange(sqrt: real -> real, rows: seq<Row>)
    requires IsSqrt(sqrt)
    requires forall i, j :: 0 <= i < |rows| && 0 <= j < 4 ==> 0.0 <= rows[i][j]
    requires forall j :: 0 <= j < 4 ==> !ZeroColumn(rows, j)
    ensures var y := Weigh(rows, ColumnNorms(sqrt, rows));
      forall i, j :: 0 <= i < |rows| && 0 <= j < 4 ==> 0.0 <= y[i][j] <= Weights[j]
  {
    var norms := ColumnNorms(sqrt, rows);
    forall i, j | 0 <= i < |rows| && 0 <= j < 4
      ensures rows[i][j] <= norms[j]
    {
      EntryBelowNorm(sqrt, Column(rows, j), i);
    }
  }

  /** Dividing by a non-zero norm and multiplying by a non-zero weight
      keeps distinct values distinct. */
  lemma ScaleInjective(a: real, b: real, n: real, w: real)
    requires n != 0.0 && w != 0.0
    ensures a / n * w == b / n * w <==> a == b
  {
    if a / n * w == b / n * w {
      var qa, qb := a / n, b / n;
      CancelFactor(qa, qb, w);
      assert a == qa * n;
      assert b == qb * n;
    }
  }

  lemma CancelFactor(x: real, y: real, w: real)
    requires w != 0.0 && x * w == y * w
    ensures x == y
  {
    assert x == (x * w) / w;
    assert y == (y * w) / w;
  }

  /** One entry of the weighted matrix. */
  lemma WeighEntry(rows: seq<Row>, norms: Row, i: nat, j: nat)
    requires forall j :: 0 <= j < 4 ==> norms[j] != 0.0
    requires i < |rows| && j < 4
    ensures Weigh(rows, norms)[i][j] == rows[i][j] / norms[j] * Weights[j]
  {
    assert Weigh(rows, norms)[i] == WeighRow(rows[i], norms);
  }

  /** A column scaled entry by entry by the same non-zero factors is
      constant exactly when the original column is. */
  lemma ScaledColumnConstant(rows: seq<Row>, y: seq<Row>, n: real, j: nat)
    requires j < 4 && |y| == |rows| && n != 0.0
    requires forall i :: 0 <= i < |rows| ==> y[i][j] == rows[i][j] / n * Weights[j]
    ensures ConstantColumn(y, j) <==> ConstantColumn(rows, j)
  {
    WeightsConvex();
    forall i, k | 0 <= i < |rows| && 0 <= k < |rows|
      ensures y[i][j] == y[k][j] <==> rows[i][j] == rows[k][j]
    {
      ScaleInjective(rows[i][j], rows[k][j], n, Weights[j]);
    }
  }

  /** A weighted column is constant exactly when the input column is. */
  lemma WeighKeepsConstant(rows: seq<Row>, norms: Row, j: nat)
    requires forall j :: 0 <= j < 4 ==> norms[j] != 0.0
    requires j < 4
    ensures ConstantColumn(Weigh(rows, norms), j) <==> ConstantColumn(rows, j)
  {
    var y := Weigh(rows, norms);
    forall i | 0 <= i < |rows|
      ensures y[i][j] == rows[i][j] / norms[j] * Weights[j]
    {
      WeighEntry(rows, norms, i, j);
    }
    ScaledColumnConstant(rows, y, norms[j], j);
  }

  /** Column `j` of the ideal point A+: the maximum for a benefit
      criterion, the minimum for a cost criterion. */
  function BestOf(y: seq<Row>, j: nat): (b: real)
    requires |y| > 0 && j < 4
    ensures b in Column(y, j)
    ensures Kinds[j] == Benefit ==> forall i :: 0 <= i < |y| ==> y[i][j] <= b
    ensures Kinds[j] == Cost ==> forall i :: 0 <= i < |y| ==> b <= y[i][j]
  {
    var c := Column(y, j);
    if Kinds[j] == Benefit then MaxOf(c) else MinOf(c)
  }

  /** Column `j` of the anti-ideal point A-: the minimum for a benefit
      criterion, the maximum for a cost criterion. */
  function WorstOf(y: seq<Row>, j: nat): (w: real)
    requires |y| > 0 && j < 4
    ensures w in Column(y, j)
    ensures Kinds[j] == Benefit ==> forall i :: 0 <= i < |y| ==> w <= y[i][j]
    ensures Kinds[j] == Cost ==> forall i :: 0 <= i < |y| ==> y[i][j] <= w
  {
    var c := Column(y, j);
    if Kinds[j] == Benefit then MinOf(c) else MaxOf(c)
  }

  /** The ideal point A+. */
  function IdealBest(y: seq<Row>): (a: Row)
    requires |y| > 0
    ensures forall j :: 0 <= j < 4 ==> a[j] == BestOf(y, j)
  {
    [BestOf(y, 0), BestOf(y, 1), BestOf(y, 2), BestOf(y, 3)]
  }

  /** The anti-ideal point A-. */
  function IdealWorst(y: seq<Row>): (a: Row)
    requires |y| > 0
    ensures forall j :: 0 <= j < 4 ==> a[j] == WorstOf(y, j)
  {
    [WorstOf(y, 0), WorstOf(y, 1), WorstOf(y, 2), WorstOf(y, 3)]
  }

  /** Euclidean distance between a row and an ideal point. */
  function Separation(sqrt: real -> real, y: Row, a: Row): (d: real)
    requires IsSqrt(sqrt)
    ensures 0.0 <= d
    ensures d == 0.0 <==> y == a
  {
    var diff := [y[0] - a[0], y[1] - a[1], y[2] - a[2], y[3] - a[3]];
    assert (forall i :: 0 <= i < 4 ==> diff[i] == 0.0) ==> y == a by {
      if forall i :: 0 <= i < 4 ==> diff[i] == 0.0 {
        assert diff[0] == 0.0 && diff[1] == 0.0 && diff[2] == 0.0 && diff[3] == 0.0;
        RowEquality(y, a);
      }
    }
    EuclideanNorm(sqrt, diff)
  }

  /** The preference `D- / (D- + D+)` of a row. */
  function Closeness(dMinus: real, dPlus: real): (v: real)
    requires 0.0 <= dMinus && 0.0 <= dPlus && 0.0 < dMinus + dPlus
    ensures 0.0 <= v <= 1.0
    ensures v == 1.0 <==> dPlus == 0.0
    ensures v == 0.0 <==> dMinus == 0.0
  {
    var v := dMinus / (dMinus + dPlus);
    assert v * (dMinus + dPlus) == dMinus;
    v
  }

  /** Row `i` of Y lies at distance zero from both ideal points. */
  predicate AtBothIdeals(sqrt: real -> real, y: seq<Row>, i: nat)
    requires IsSqrt(sqrt)
    requires |y| > 0 && i < |y|
  {
    Separation(sqrt, y[i], IdealWorst(y)) + Separation(sqrt, y[i], IdealBest(y)) == 0.0
  }

  /** A row at distance zero from both ideal points forces every column
      of Y to be constant: each column's best and worst values coincide. */
  lemma BothIdealsConstant(sqrt: real -> real, y: seq<Row>, i: nat)
    requires IsSqrt(sqrt)
    requires |y| > 0 && i < |y|
    requires AtBothIdeals(sqrt, y, i)
    ensures forall j :: 0 <= j < 4 ==> ConstantColumn(y, j)
  {
    var best, worst := IdealBest(y), IdealWorst(y);
    assert y[i] == best && y[i] == worst;
    forall j | 0 <= j < 4
      ensures ConstantColumn(y, j)
    {
      assert BestOf(y, j) == WorstOf(y, j);
    }
  }

  /** In a constant column the best and the worst value are that value. */
  lemma ConstantExtremes(y: seq<Row>, j: nat)
    requires |y| > 0 && j < 4
    requires ConstantColumn(y, j)
    ensures BestOf(y, j) == y[0][j] && WorstOf(y, j) == y[0][j]
  {
    var c := Column(y, j);
    var k :| 0 <= k < |c| && c[k] == BestOf(y, j);
    var l :| 0 <= l < |c| && c[l] == WorstOf(y, j);
    assert y[k][j] == y[0][j] && y[l][j] == y[0][j];
  }

  /** When every column of Y is constant, the first row is both ideal points. */
  lemma ConstantBothIdeals(sqrt: real -> real, y: seq<Row>)
    requires IsSqrt(sqrt)
    requires |y| > 0
    requires forall j :: 0 <= j < 4 ==> ConstantColumn(y, j)
    ensures AtBothIdeals(sqrt, y, 0)
  {
    ConstantExtremes(y, 0);
    ConstantExtremes(y, 1);
    ConstantExtremes(y, 2);
    ConstantExtremes(y, 3);
    var best, worst := IdealBest(y), IdealWorst(y);
    RowEquality(y[0], best);
    RowEquality(y[0], worst);
  }

  /** Some row of Y is at distance zero from both ideal points exactly when
      every column of Y is constant. */
  lemma DegenerateIffConstant(sqrt: real -> real, y: seq<Row>)
    requires IsSqrt(sqrt)
    requires |y| > 0
    ensures (exists i :: 0 <= i < |y| && AtBothIdeals(sqrt, y, i))
        <==> forall j :: 0 <= j < 4 ==> ConstantColumn(y, j)
  {
    if exists i :: 0 <= i < |y| && AtBothIdeals(sqrt, y, i) {
      var i :| 0 <= i < |y| && AtBothIdeals(sqrt, y, i);
      BothIdealsConstant(sqrt, y, i);
    }
    if forall j :: 0 <= j < 4 ==> ConstantColumn(y, j) {
      ConstantBothIdeals(sqrt, y);
    }
  }

  /** The input is one `run_topsis` completes on. */
  ghost predicate Rankable(rows: seq<Row>) {
    && |rows| > 0
    && (forall j :: 0 <= j < 4 ==> !ZeroColumn(rows, j))
    && !(forall j :: 0 <= j < 4 ==> ConstantColumn(rows, j))
  }

  /** The preference of row `i` of Y. */
  function Preference(sqrt: real -> real, y: seq<Row>, i: nat): (v: real)
    requires IsSqrt(sqrt)
    requires |y| > 0 && i < |y|
    requires !AtBothIdeals(sqrt, y, i)
    ensures 0.0 <= v <= 1.0
    ensures v == 1.0 <==> y[i] == IdealBest(y)
    ensures v == 0.0 <==> y[i] == IdealWorst(y)
  {
    Closeness(Separation(sqrt, y[i], IdealWorst(y)), Separation(sqrt, y[i], IdealBest(y)))
  }

  /** The preferences of all rows, in input order. */
  function Preferences(sqrt: real -> real, y: seq<Row>): (v: seq<real>)
    requires IsSqrt(sqrt)
    requires |y| > 0
    requires forall i :: 0 <= i < |y| ==> !AtBothIdeals(sqrt, y, i)
    ensures |v| == |y|
    ensures forall i :: 0 <= i < |y| ==> v[i] == Preference(sqrt, y, i)
  {
    seq(|y|, i requires 0 <= i < |y| => Preference(sqrt, y, i))
  }

  /** The vectors of values `Vi` of a sequence of output rows. */
  function ViOf(s: seq<Ranked>): (v: seq<real>)
    ensures |v| == |s|
    ensures forall i :: 0 <= i < |s| ==> v[i] == s[i].vi
  {
    seq(|s|, i requires 0 <= i < |s| => s[i].vi)
  }

  /** Every input row with its preference and its truncated average rank,
      in input order. */
  function Assessments(sqrt: real -> real, rows: seq<Row>, y: seq<Row>): (s: seq<Ranked>)
    requires IsSqrt(sqrt)
    requires |rows| == |y| > 0
    requires forall i :: 0 <= i < |y| ==> !AtBothIdeals(sqrt, y, i)
    ensures |s| == |rows|
    ensures forall i :: 0 <= i < |rows| ==> s[i].row == rows[i] && 0.0 <= s[i].vi <= 1.0
    ensures forall i :: 0 <= i < |rows| ==> s[i].vi == Preference(sqrt, y, i)
    ensures forall i :: 0 <= i < |rows| ==> 1 <= s[i].rank <= |rows|
    ensures forall i :: 0 <= i < |rows| ==> s[i].rank == TruncatedAverageRank(ViOf(s), i)
  {
    var v := Preferences(sqrt, y);
    var s := seq(|rows|, i requires 0 <= i < |rows| => Ranked(rows[i], v[i], TruncatedAverageRank(v, i)));
    assert ViOf(s) == v;
    s
  }

  function Vi(r: Ranked): real {
    r.vi
  }

  /** The weighted matrix has a row at both ideal points exactly when
      every input column is constant. */
  lemma DegenerateInput(sqrt: real -> real, rows: seq<Row>, norms: Row)
    requires IsSqrt(sqrt)
    requires |rows| > 0
    requires forall j :: 0 <= j < 4 ==> norms[j] != 0.0
    ensures var y := Weigh(rows, norms);
      (exists i :: 0 <= i < |y| && AtBothIdeals(sqrt, y, i)) <==> forall j :: 0 <= j < 4 ==> ConstantColumn(rows, j)
  {
    var y := Weigh(rows, norms);
    DegenerateIffConstant(sqrt, y);
    forall j | 0 <= j < 4
      ensures ConstantColumn(y, j) <==> ConstantColumn(rows, j)
    {
      WeighKeepsConstant(rows, norms, j);
    }
  }

  /** The assessments `run_topsis` returns, in input order, for a matrix
      it completes on. */
  ghost function Expected(sqrt: real -> real, rows: seq<Row>): (s: seq<Ranked>)
    requires IsSqrt(sqrt)
    requires Rankable(rows)
    ensures |s| == |rows|
  {
    var norms := ColumnNorms(sqrt, rows);
    DegenerateInput(sqrt, rows, norms);
    Assessments(sqrt, rows, Weigh(rows, norms))
  }

  /** The ranked rows of a matrix `run_topsis` completes on, best first. */
  function RankAll(sqrt: real -> real, rows: seq<Row>, y: seq<Row>): (r: seq<Ranked>)
    requires IsSqrt(sqrt)
    requires |rows| == |y| > 0
    requires forall i :: 0 <= i < |y| ==> !AtBothIdeals(sqrt, y, i)
    ensures |r| == |rows|
    ensures SortedDesc(r, Vi)
    ensures multiset(r) == multiset(Assessments(sqrt, rows, y))
  {
    SortDesc(Assessments(sqrt, rows, y), Vi)
  }

  /** The check `run_topsis` fails on, if any: an empty matrix, an
      all-zero column, or a matrix whose every column is constant (every
      row is then both ideal points). */
  function Diagnose(sqrt: real -> real, rows: seq<Row>): (e: Option<TopsisError>)
    requires IsSqrt(sqrt)
    ensures e == Some(EmptyMatrix) <==> |rows| == 0
    ensures e == Some(ZeroNorm) <==> |rows| > 0 && exists j :: 0 <= j < 4 && ZeroColumn(rows, j)
    ensures e == Some(Degenerate) <==>
      && |rows| > 0
      && (forall j :: 0 <= j < 4 ==> !ZeroColumn(rows, j))
      && (forall j :: 0 <= j < 4 ==> ConstantColumn(rows, j))
    ensures e.None? <==> Rankable(rows)
    ensures e.None? ==> forall j :: 0 <= j < 4 ==> ColumnNorms(sqrt, rows)[j] != 0.0
    ensures e.None? ==> forall i :: 0 <= i < |rows| ==> !AtBothIdeals(sqrt, Weigh(rows, ColumnNorms(sqrt, rows)), i)
  {
    if |rows| == 0 then Some(EmptyMatrix)
    else
      var norms := ColumnNorms(sqrt, rows);
      if exists j :: 0 <= j < 4 && norms[j] == 0.0 then Some(ZeroNorm)
      else
        var y := Weigh(rows, norms);
        DegenerateInput(sqrt, rows, norms);
        if exists i :: 0 <= i < |y| && AtBothIdeals(sqrt, y, i) then Some(Degenerate)
        else None
  }

  /** `run_topsis`. It fails as `Diagnose` says; otherwise it returns every
      row once with a preference in [0, 1] and its truncated average rank,
      in descending order of preference. */
  function RunTopsis(sqrt: real -> real, rows: seq<Row>): (r: Result<seq<Ranked>, TopsisError>)
    requires IsSqrt(sqrt)
    ensures r.Err? <==> Diagnose(sqrt, rows).Some?
    ensures r.Err? ==> Diagnose(sqrt, rows) == Some(r.error)
    ensures r.Ok? <==> Rankable(rows)
    ensures r.Ok? ==>
      && |r.value| == |rows|
      && SortedDesc(r.value, Vi)
      && multiset(r.value) == multiset(Expected(sqrt, rows))
  {
    match Diagnose(sqrt, rows)
    case Some(e) => Err(e)
    case None =>
      var norms := ColumnNorms(sqrt, rows);
      Ok(RankAll(sqrt, rows, Weigh(rows, norms)))
  }

  /** Each ranked row is an input row carrying that row's preference. */
  lemma RankedPreference(sqrt: real -> real, rows: seq<Row>, y: seq<Row>, x: Ranked)
    requires IsSqrt(sqrt)
    requires |rows| == |y| > 0
    requires forall i :: 0 <= i < |y| ==> !AtBothIdeals(sqrt, y, i)
    requires x in RankAll(sqrt, rows, y)
    ensures exists i :: 0 <= i < |rows| && x.row == rows[i] && x.vi == Preference(sqrt, y, i)
  {
    var e := Assessments(sqrt, rows, y);
    assert x in multiset(e);
    var i :| 0 <= i < |e| && e[i] == x;
    assert x.row == rows[i] && x.vi == Preference(sqrt, y, i);
  }

  /** Each row `run_topsis` returns is an input row carrying that row's
      preference: its relative closeness D-/(D- + D+) on the weighted
      matrix. */
  lemma OutputPreference(sqrt: real -> real, rows: seq<Row>, x: Ranked)
    requires IsSqrt(sqrt)
    requires Diagnose(sqrt, rows).None?
    requires x in RunTopsis(sqrt, rows).value
    ensures exists i ::
      (0 <= i < |rows| && x.row == rows[i] && x.vi == Preference(sqrt, Weigh(rows, ColumnNorms(sqrt, rows)), i))
  {
    var norms := ColumnNorms(sqrt, rows);
    var y := Weigh(rows, norms);
    assert RunTopsis(sqrt, rows) == Ok(RankAll(sqrt, rows, y));
    RankedPreference(sqrt, rows, y, x);
  }

  /** A single alternative is both ideal points at once, so `run_topsis`
      fails on it unless a column is zero. */
  lemma SingleRowDegenerate(sqrt: real -> real, rows: seq<Row>)
    requires IsSqrt(sqrt)
    requires |rows| == 1
    requires forall j :: 0 <= j < 4 ==> !ZeroColumn(rows, j)
    ensures RunTopsis(sqrt, rows) == Err(Degenerate)
  {
    assert forall j :: 0 <= j < 4 ==> ConstantColumn(rows, j);
  }
}
