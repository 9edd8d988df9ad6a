/**
 The Simple Additive Weighting kernel `run_saw` (spk/saw_core.py). Each
 criteria column present in the input is normalised (a benefit value
 divided by the column maximum, a cost value turned into the column
 minimum divided by it), the normalised values are weighted and summed
 into `SAW_Score`, and the rows are returned by descending score.

 A column that is missing from the input is skipped. The model keeps
 the four-column rows of the TOPSIS kernel and marks the columns the
 input actually has with the set `present`; values in the other columns
 are never read.
 */
module Saw {
  import opened Basics
  import opened Sorting
  import opened Criteria

  /** The criteria weights for C1_Geo, C2_Sentiment, C3_CompetitorDist and
      C4_Sewa. */
  const Weights: Row := [0.35, 0.25, 0.20, 0.20]

  /** What replaces a zero column minimum in the cost formula. */
  const MinGuard: real := 0.001

  /** The weights are positive and sum to one. */
  lemma WeightsConvex()
    ensures forall j :: 0 <= j < 4 ==> Weights[j] > 0.0
    ensures Total(Weights) == 1.0
  {
  }

  /** One output row: the input row with its score. */
  datatype Scored = Scored(row: Row, score: real)

  function ScoreOf(s: Scored): real {
    s.score
  }

  /** The divisor of a benefit column: its maximum, or 1 when that is 0. */
  function BenefitDivisor(c: seq<real>): (m: real)
    requires |c| > 0
    ensures m != 0.0
    ensures m == MaxOf(c) || (m == 1.0 && MaxOf(c) == 0.0)
  {
    var top := MaxOf(c);
    if top == 0.0 then 1.0 else top
  }

  /** The numerator of a cost column: its minimum, or 0.001 when that is 0. */
  function CostNumerator(c: seq<real>): (m: real)
    requires |c| > 0
    ensures m != 0.0
    ensures m == MinOf(c) || (m == MinGuard && MinOf(c) == 0.0)
  {
    var low := MinOf(c);
    if low == 0.0 then MinGuard else low
  }

  /** The normalised value of `x` in column `j` of the matrix. A cost value
      that is not positive normalises to 0. */
  function Normalised(rows: seq<Row>, j: nat, x: real): real
    requires |rows| > 0 && j < 4
  {
    var c := Column(rows, j);
    if Kinds[j] == Benefit then x / BenefitDivisor(c)
    else if x > 0.0 then CostNumerator(c) / x
    else 0.0
  }

  /** Column `j`'s weighted contribution to row `i`'s score; nothing for a
      column the input lacks. */
  function Term(rows: seq<Row>, present: set<nat>, i: nat, j: nat): real
    requires i < |rows| && j < 4
  {
    if j in present then Normalised(rows, j, rows[i][j]) * Weights[j] else 0.0
  }

  /** `SAW_Score` of row `i`: the weighted sum over the present columns. */
  function SawScore(rows: seq<Row>, present: set<nat>, i: nat): real
    requires i < |rows|
  {
    Term(rows, present, i, 0) + Term(rows, present, i, 1) + Term(rows, present, i, 2) + Term(rows, present, i, 3)
  }

  /** Every input row with its score, in input order; on well-formed data
      every score lies in [0, 1]. */
  function Scores(rows: seq<Row>, present: set<nat>): (s: seq<Scored>)
    ensures |s| == |rows|
    ensures forall i :: 0 <= i < |rows| ==> s[i].row == rows[i] && s[i].score == SawScore(rows, present, i)
    ensures WellFormed(rows, present) ==> forall i :: 0 <= i < |rows| ==> 0.0 <= s[i].score <= 1.0
  {
    AllScoresInUnit(rows, present);
    seq(|rows|, i requires 0 <= i < |rows| => Scored(rows[i], SawScore(rows, present, i)))
  }

  /** `run_saw`: every input row once, with its score, by descending score;
      no rows give no rows. */
  function RunSaw(rows: seq<Row>, present: set<nat>): (r: seq<Scored>)
    ensures |r| == |rows|
    ensures SortedDesc(r, ScoreOf)
    ensures multiset(r) == multiset(Scores(rows, present))
    ensures |rows| == 0 ==> r == []
  {
    SortDesc(Scores(rows, present), ScoreOf)
  }

  /** For non-negative benefit data every normalised value lies in [0, 1],
      and the column maximum normalises to 1 when it is positive. */
  lemma BenefitInUnit(rows: seq<Row>, j: nat, i: nat)
    requires |rows| > 0 && j < 4 && i < |rows|
    requires Kinds[j] == Benefit
    requires forall k :: 0 <= k < |rows| ==> 0.0 <= rows[k][j]
    ensures 0.0 <= Normalised(rows, j, rows[i][j]) <= 1.0
    ensures rows[i][j] == MaxOf(Column(rows, j)) > 0.0 ==> Normalised(rows, j, rows[i][j]) == 1.0
  {
    var c := Column(rows, j);
    var top, x := MaxOf(c), rows[i][j];
    assert x == c[i] && c[0] == rows[0][j];
    if top > 0.0 {
      QuotientInUnit(x, top);
    }
  }

  /** For positive cost data every normalised value lies in (0, 1], and the
      column minimum normalises to 1. */
  lemma CostInUnit(rows: seq<Row>, j: nat, i: nat)
    requires |rows| > 0 && j < 4 && i < |rows|
    requires Kinds[j] == Cost
    requires forall k :: 0 <= k < |rows| ==> 0.0 < rows[k][j]
    ensures 0.0 < Normalised(rows, j, rows[i][j]) <= 1.0
    ensures rows[i][j] == MinOf(Column(rows, j)) ==> Normalised(rows, j, rows[i][j]) == 1.0
  {
    var c := Column(rows, j);
    var low, x := MinOf(c), rows[i][j];
    var k :| 0 <= k < |c| && c[k] == low;
    assert x == c[i];
    QuotientInUnit(low, x);
  }

  /** For non-negative cost data a normalised value exceeds 1 exactly when
      the column minimum is 0 (so the 0.001 guard is used) and the value
      lies strictly between 0 and 0.001. */
  lemma CostAboveOne(rows: seq<Row>, j: nat, i: nat)
    requires |rows| > 0 && j < 4 && i < |rows|
    requires Kinds[j] == Cost
    requires forall k :: 0 <= k < |rows| ==> 0.0 <= rows[k][j]
    ensures Normalised(rows, j, rows[i][j]) > 1.0
        <==> MinOf(Column(rows, j)) == 0.0 && 0.0 < rows[i][j] < MinGuard
  {
    var c := Column(rows, j);
    var low, x := MinOf(c), rows[i][j];
    assert x == c[i] && low <= x;
    var k :| 0 <= k < |c| && c[k] == low;
    assert 0.0 <= low;
    if x > 0.0 && low > 0.0 {
      QuotientInUnit(low, x);
    } else if 0.0 < x < MinGuard {
      QuotientAboveOne(MinGuard, x);
    } else if x > 0.0 {
      QuotientInUnit(MinGuard, x);
    }
  }

  /** A cost value of zero or less normalises to 0, the worst value, even
      though it is the lowest cost of its column. */
  lemma FreeCostScoresZero(rows: seq<Row>, j: nat, i: nat)
    requires |rows| > 0 && j < 4 && i < |rows|
    requires Kinds[j] == Cost
    requires rows[i][j] <= 0.0
    ensures Normalised(rows, j, rows[i][j]) == 0.0
  {
  }

  /** A column's contribution does not depend on columns the input lacks. */
  lemma TermIgnoresAbsent(rows: seq<Row>, other: seq<Row>, present: set<nat>, i: nat, j: nat)
    requires |rows| == |other| && i < |rows| && j < 4
    requires forall k :: 0 <= k < |rows| && j in present ==> rows[k][j] == other[k][j]
    ensures Term(rows, present, i, j) == Term(other, present, i, j)
  {
    if j in present {
      assert Column(rows, j) == Column(other, j);
    }
  }

  /** Scores never read a column the input lacks: two matrices that agree
      on the present columns give every row the same score. */
  lemma AbsentIgnored(rows: seq<Row>, other: seq<Row>, present: set<nat>, i: nat)
    requires |rows| == |other| && i < |rows|
    requires forall k, j :: 0 <= k < |rows| && 0 <= j < 4 && j in present ==> rows[k][j] == other[k][j]
    ensures SawScore(rows, present, i) == SawScore(other, present, i)
  {
    TermIgnoresAbsent(rows, other, present, i, 0);
    TermIgnoresAbsent(rows, other, present, i, 1);
    TermIgnoresAbsent(rows, other, present, i, 2);
    TermIgnoresAbsent(rows, other, present, i, 3);
  }

  /** A present column whose normalised value lies in [0, 1] contributes
      at most its weight. */
  lemma TermWithin(rows: seq<Row>, present: set<nat>, i: nat, j: nat)
    requires i < |rows| && j < 4
    requires j in present ==> 0.0 <= Normalised(rows, j, rows[i][j]) <= 1.0
    ensures 0.0 <= Term(rows, present, i, j) <= Weights[j]
  {
    if j in present {
      ScaleWithin(Normalised(rows, j, rows[i][j]), Weights[j]);
    }
  }

  /** With every present column's normalised value of a row in [0, 1], the
      row's score lies in [0, 1]. */
  lemma ScoreInUnit(rows: seq<Row>, present: set<nat>, i: nat)
    requires i < |rows|
    requires forall j :: 0 <= j < 4 && j in present ==> 0.0 <= Normalised(rows, j, rows[i][j]) <= 1.0
    ensures 0.0 <= SawScore(rows, present, i) <= 1.0
  {
    WeightsConvex();
    TermWithin(rows, present, i, 0);
    TermWithin(rows, present, i, 1);
    TermWithin(rows, present, i, 2);
    TermWithin(rows, present, i, 3);
  }

  /** The data `run_saw` is meant for: non-negative benefit values and
      positive costs. */
  ghost predicate WellFormed(rows: seq<Row>, present: set<nat>) {
    forall k, j :: 0 <= k < |rows| && 0 <= j < 4 && j in present ==>
      if Kinds[j] == Benefit then 0.0 <= rows[k][j] else 0.0 < rows[k][j]
  }

  /** On such data every row's score lies in [0, 1]. */
  lemma AllScoresInUnit(rows: seq<Row>, present: set<nat>)
    ensures WellFormed(rows, present) ==> forall i :: 0 <= i < |rows| ==> 0.0 <= SawScore(rows, present, i) <= 1.0
  {
    if WellFormed(rows, present) {
      forall i | 0 <= i < |rows|
        ensures 0.0 <= SawScore(rows, present, i) <= 1.0
      {
        forall j | 0 <= j < 4 && j in present
          ensures 0.0 <= Normalised(rows, j, rows[i][j]) <= 1.0
        {
          if Kinds[j] == Benefit {
            BenefitInUnit(rows, j, i);
          } else {
            CostInUnit(rows, j, i);
          }
        }
        ScoreInUnit(rows, present, i);
      }
    }
  }

  /** On such data every score `run_saw` returns lies in [0, 1]. */
  lemma WellFormedScoresInUnit(rows: seq<Row>, present: set<nat>)
    requires WellFormed(rows, present)
    ensures forall s :: s in RunSaw(rows, present) ==> 0.0 <= s.score <= 1.0
  {
    var scores := Scores(rows, present);
    forall s | s in RunSaw(rows, present)
      ensures 0.0 <= s.score <= 1.0
    {
      assert s in multiset(scores);
    }
  }

  /** Benefit normalisation preserves order on non-negative data. */
  lemma BenefitMonotone(rows: seq<Row>, j: nat, x: real, y: real)
    requires |rows| > 0 && j < 4
    requires Kinds[j] == Benefit
    requires forall k :: 0 <= k < |rows| ==> 0.0 <= rows[k][j]
    requires x <= y
    ensures Normalised(rows, j, x) <= Normalised(rows, j, y)
  {
    var c := Column(rows, j);
    assert c[0] == rows[0][j];
    assert 0.0 < BenefitDivisor(c);
  }

  /** Cost normalisation reverses order on positive values of a column
      with positive data. */
  lemma CostAntitone(rows: seq<Row>, j: nat, x: real, y: real)
    requires |rows| > 0 && j < 4
    requires Kinds[j] == Cost
    requires forall k :: 0 <= k < |rows| ==> 0.0 < rows[k][j]
    requires 0.0 < x <= y
    ensures Normalised(rows, j, y) <= Normalised(rows, j, x)
  {
    var c := Column(rows, j);
    var low := MinOf(c);
    var k :| 0 <= k < |c| && c[k] == low;
    QuotientAntitone(CostNumerator(c), x, y);
  }

  /** Column `j` contributes at least as much to row `a` as to row `b`
      when `a` is at least as good there. */
  lemma TermDominates(rows: seq<Row>, present: set<nat>, a: nat, b: nat, j: nat)
    requires a < |rows| && b < |rows| && j < 4
    requires WellFormed(rows, present)
    requires j in present && Kinds[j] == Benefit ==> rows[a][j] >= rows[b][j]
    requires j in present && Kinds[j] == Cost ==> rows[a][j] <= rows[b][j]
    ensures Term(rows, present, a, j) >= Term(rows, present, b, j)
  {
    if j in present {
      var u, v := Normalised(rows, j, rows[a][j]), Normalised(rows, j, rows[b][j]);
      if Kinds[j] == Benefit {
        BenefitMonotone(rows, j, rows[b][j], rows[a][j]);
      } else {
        CostAntitone(rows, j, rows[a][j], rows[b][j]);
      }
      WeightsConvex();
      ScaleMonotone(u, v, Weights[j]);
    }
  }

  /** A row at least as good as another in every present column (no lower
      benefit, no higher cost) scores at least as high. */
  lemma Dominance(rows: seq<Row>, present: set<nat>, a: nat, b: nat)
    requires a < |rows| && b < |rows|
    requires WellFormed(rows, present)
    requires forall j :: 0 <= j < 4 && j in present && Kinds[j] == Benefit ==> rows[a][j] >= rows[b][j]
    requires forall j :: 0 <= j < 4 && j in present && Kinds[j] == Cost ==> rows[a][j] <= rows[b][j]
    ensures SawScore(rows, present, a) >= SawScore(rows, present, b)
  {
    TermDominates(rows, present, a, b, 0);
    TermDominates(rows, present, a, b, 1);
    TermDominates(rows, present, a, b, 2);
    TermDominates(rows, present, a, b, 3);
  }
}
