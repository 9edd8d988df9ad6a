/**
 The decision matrix shared by the TOPSIS and SAW kernels (spk/): one row
 per alternative location and four criteria columns, C1_Geo,
 C2_Sentiment, C3_CompetitorDist and C4_Sewa. The first two are benefit
 criteria (larger is better), the last two cost criteria.
 */
module Criteria {

  /** One alternative's values for C1_Geo, C2_Sentiment, C3_CompetitorDist
      and C4_Sewa, in that order. */
  type Row = r: seq<real> | |r| == 4 witness [0.0, 0.0, 0.0, 0.0]

  datatype Kind = Benefit | Cost

  /** `['benefit', 'benefit', 'cost', 'cost']`, column by column. */
  const Kinds: seq<Kind> := [Benefit, Benefit, Cost, Cost]

  /** Column `j` of the matrix. */
  function Column(rows: seq<Row>, j: nat): (c: seq<real>)
    requires j < 4
    ensures |c| == |rows|
    ensures forall i :: 0 <= i < |rows| ==> c[i] == rows[i][j]
  {
    seq(|rows|, i requires 0 <= i < |rows| => rows[i][j])
  }

  /** Every entry of column `j` is the same value. */
  ghost predicate ConstantColumn(rows: seq<Row>, j: nat)
    requires j < 4
  {
    forall i, k :: 0 <= i < |rows| && 0 <= k < |rows| ==> rows[i][j] == rows[k][j]
  }

  /** Every entry of column `j` is zero. */
  ghost predicate ZeroColumn(rows: seq<Row>, j: nat)
    requires j < 4
  {
    forall i :: 0 <= i < |rows| ==> rows[i][j] == 0.0
  }

  /** The sum of the four entries of a weight vector. */
  function Total(w: Row): real {
    w[0] + w[1] + w[2] + w[3]
  }

  /** Rows are equal when their four entries are. */
  lemma RowEquality(x: Row, z: Row)
    requires x[0] == z[0] && x[1] == z[1] && x[2] == z[2] && x[3] == z[3]
    ensures x == z
  {
    forall i | 0 <= i < 4
      ensures x[i] == z[i]
    {
      assert i == 0 || i == 1 || i == 2 || i == 3;
    }
  }
}
