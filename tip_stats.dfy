/**
 * The summary statistics of the update callback: the number of fetched rows
 * and the mean of the tip column (position 1) and of the bill column
 * (position 0), both defined as 0 when nothing was fetched. Amounts are
 * exact reals; the floating-point rounding of the source is not modelled.
 */
module TipStats {
  import opened TipsTable

  /** Python's `sum` over a sequence of amounts, starting from 0. */
  function Sum(xs: seq<real>): real
  {
    if xs == [] then 0.0 else xs[0] + Sum(xs[1..])
  }

  /** The smallest amount of a non-empty sequence. */
  function Min(xs: seq<real>): (m: real)
    requires |xs| > 0
    ensures m in xs
    ensures forall i :: 0 <= i < |xs| ==> m <= xs[i]
  {
    if |xs| == 1 then xs[0]
    else var rest := Min(xs[1..]); if xs[0] <= rest then xs[0] else rest
  }

  /** The largest amount of a non-empty sequence. */
  function Max(xs: seq<real>): (m: real)
    requires |xs| > 0
    ensures m in xs
    ensures forall i :: 0 <= i < |xs| ==> xs[i] <= m
  {
    if |xs| == 1 then xs[0]
    else var rest := Max(xs[1..]); if xs[0] >= rest then xs[0] else rest
  }

  /** A sum of n amounts that each lie in [lo, hi] lies in [n * lo, n * hi]. */
  lemma {:induction false} SumBounds(xs: seq<real>, lo: real, hi: real)
    requires forall i :: 0 <= i < |xs| ==> lo <= xs[i] <= hi
    ensures (|xs| as real) * lo <= Sum(xs) <= (|xs| as real) * hi
  {
    if xs != [] {
      SumBounds(xs[1..], lo, hi);
      var n := |xs[1..]| as real;
      assert (n + 1.0) * lo == n * lo + lo;
      assert (n + 1.0) * hi == n * hi + hi;
    }
  }

  /** The arithmetic mean of amounts that each lie in [lo, hi] lies in [lo, hi]. */
  lemma MeanWithin(xs: seq<real>, lo: real, hi: real)
    requires |xs| > 0
    requires forall i :: 0 <= i < |xs| ==> lo <= xs[i] <= hi
    ensures lo <= Sum(xs) / (|xs| as real) <= hi
  {
    SumBounds(xs, lo, hi);
    DivideBounds(Sum(xs), |xs| as real, lo, hi);
  }

  /** The arithmetic mean lies between the smallest and the largest amount. */
  lemma MeanBetweenMinAndMax(xs: seq<real>)
    requires |xs| > 0
    ensures Min(xs) <= Sum(xs) / (|xs| as real) <= Max(xs)
  {
    MeanWithin(xs, Min(xs), Max(xs));
  }

  lemma DivideBounds(s: real, n: real, lo: real, hi: real)
    requires n > 0.0 && n * lo <= s <= n * hi
    ensures lo <= s / n <= hi
  {
    assert s / n * n == s;
  }

  /** The REAL values of column `j` of the fetched rows: Python's `row[j] for row in rows`. */
  function Column(rows: seq<Row>, j: nat): (col: seq<real>)
    requires RealColumn(rows, j)
    ensures |col| == |rows|
    ensures forall i :: 0 <= i < |rows| ==> col[i] == rows[i][j].realValue
  {
    if rows == [] then [] else [rows[0][j].realValue] + Column(rows[1..], j)
  }

  /** The values the stats block is built from: "Total tippers", "Average tip" and "Average bill". */
  datatype Stats = Stats(totalTippers: nat, averageTip: real, averageBill: real)

  const TipColumn: nat := 1
  const BillColumn: nat := 0

  /** The statistics of the fetched rows, with the zero guard on both averages. */
  function ComputeStats(rows: seq<Row>): (s: Stats)
    requires RealColumn(rows, TipColumn) && RealColumn(rows, BillColumn)
    ensures s.totalTippers == |rows|
    ensures s.totalTippers == 0 ==> s.averageTip == 0.0 && s.averageBill == 0.0
    ensures s.totalTippers > 0 ==>
      s.averageTip * (s.totalTippers as real) == Sum(Column(rows, TipColumn))
      && s.averageBill * (s.totalTippers as real) == Sum(Column(rows, BillColumn))
  {
    var totalTippers := |rows|;
    if totalTippers > 0 then
      Stats(totalTippers,
            Sum(Column(rows, TipColumn)) / (totalTippers as real),
            Sum(Column(rows, BillColumn)) / (totalTippers as real))
    else
      Stats(0, 0.0, 0.0)
  }

  /** When some row was fetched, each average lies between its column's smallest and largest value. */
  lemma AveragesWithinColumnRange(rows: seq<Row>)
    requires RealColumn(rows, TipColumn) && RealColumn(rows, BillColumn)
    requires |rows| > 0
    ensures Min(Column(rows, TipColumn)) <= ComputeStats(rows).averageTip <= Max(Column(rows, TipColumn))
    ensures Min(Column(rows, BillColumn)) <= ComputeStats(rows).averageBill <= Max(Column(rows, BillColumn))
  {
    MeanBetweenMinAndMax(Column(rows, TipColumn));
    MeanBetweenMinAndMax(Column(rows, BillColumn));
  }

  /** The tip of every record, in order. */
  function Tips(records: seq<Record>): (tips: seq<real>)
    ensures |tips| == |records|
    ensures forall i :: 0 <= i < |records| ==> tips[i] == records[i].tip
  {
    seq(|records|, i requires 0 <= i < |records| => records[i].tip)
  }

  /** The total bill of every record, in order. */
  function Bills(records: seq<Record>): (bills: seq<real>)
    ensures |bills| == |records|
    ensures forall i :: 0 <= i < |records| ==> bills[i] == records[i].totalBill
  {
    seq(|records|, i requires 0 <= i < |records| => records[i].totalBill)
  }

  /** Reading positions 1 and 0 of the fetched tuples reads the records' tips and bills. */
  lemma FetchedColumnsAreFields(records: seq<Record>)
    ensures RealColumn(Fetch(records), TipColumn) && RealColumn(Fetch(records), BillColumn)
    ensures Column(Fetch(records), TipColumn) == Tips(records)
    ensures Column(Fetch(records), BillColumn) == Bills(records)
  {
    FetchedColumns(records);
  }
}
