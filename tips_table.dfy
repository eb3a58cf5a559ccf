/**
 * The `tips` table: one record per restaurant bill, with seven columns.
 * The `CREATE TABLE tips` statement declares them, but the load that follows
 * (`to_sql(..., if_exists='replace')`) drops that table and recreates it from
 * the dataset's frame, so the column order is the frame's: total_bill, tip,
 * sex, smoker, day, time, size, which is also the declared order.
 * The table is loaded once and never written afterwards, so it is an
 * immutable sequence of records here.
 */
module TipsTable {

  /** One row of the table. `time` is the meal, "Lunch" or "Dinner" in the dataset. */
  datatype Record = Record(
    totalBill: real,
    tip: real,
    sex: string,
    smoker: string,
    day: string,
    time: string,
    size: int)

  type Table = seq<Record>

  /** An SQLite value as the driver hands it back: REAL, TEXT or INTEGER. */
  datatype Value = Real(realValue: real) | Text(textValue: string) | Integer(intValue: int)

  /** A fetched row: the column values of `SELECT *`, in column order. */
  type Row = seq<Value>

  /** The tuple `SELECT *` yields for a record: total_bill, tip, sex, smoker, day, time, size. */
  function ToRow(r: Record): Row
  {
    [Real(r.totalBill), Real(r.tip), Text(r.sex), Text(r.smoker), Text(r.day), Text(r.time), Integer(r.size)]
  }

  /** `cursor.fetchall()` on a list of selected records. */
  function Fetch(records: seq<Record>): (rows: seq<Row>)
    ensures |rows| == |records|
    ensures forall i :: 0 <= i < |rows| ==> rows[i] == ToRow(records[i])
  {
    if records == [] then [] else [ToRow(records[0])] + Fetch(records[1..])
  }

  /** A row is tuple-shaped and holds REAL values in its numeric column `j`. */
  predicate RealColumn(rows: seq<Row>, j: nat)
  {
    forall i :: 0 <= i < |rows| ==> j < |rows[i]| && rows[i][j].Real?
  }

  /**
   * Columns 0 and 1 of a fetched row are the record's `total_bill` and `tip`,
   * so the positional accesses `row[0]` and `row[1]` of the statistics read the
   * bill and the tip, and both are REAL in every fetched row.
   */
  lemma {:induction false} FetchedColumns(records: seq<Record>)
    ensures RealColumn(Fetch(records), 0) && RealColumn(Fetch(records), 1)
    ensures forall i :: 0 <= i < |records| ==>
      Fetch(records)[i][0].realValue == records[i].totalBill
      && Fetch(records)[i][1].realValue == records[i].tip
  {
    var rows: seq<Row> := Fetch(records);
    forall i | 0 <= i < |rows|
      ensures 1 < |rows[i]| && rows[i][0] == Real(records[i].totalBill) && rows[i][1] == Real(records[i].tip)
    {
      var row := ToRow(records[i]);
      assert rows[i] == row;
    }
  }
}
