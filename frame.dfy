/**
 * The one-row feature table the predictor builds per request: a fixed,
 * ordered list of column names and one numeric cell per column.
 *
 * Rows are also handled as plain values (`seq<real>` aligned with the column
 * list) so that the encoder's steps can be specified by functions.
 */
module Frame {

  /** No column name occurs twice. */
  predicate Distinct(cols: seq<string>)
  {
    forall i, j :: 0 <= i < j < |cols| ==> cols[i] != cols[j]
  }

  /** Position of a column, found by label as a table lookup does. */
  function IndexOf(cols: seq<string>, name: string): (k: nat)
    requires name in cols
    ensures k < |cols| && cols[k] == name
    ensures forall j :: 0 <= j < k ==> cols[j] != name
  {
    if cols[0] == name then 0 else 1 + IndexOf(cols[1..], name)
  }

  /** A row in which every cell holds 0. */
  function ZeroRow(n: nat): (r: seq<real>)
    ensures |r| == n
    ensures forall i :: 0 <= i < n ==> r[i] == 0.0
  {
    seq(n, _ => 0.0)
  }

  /**
   * The row after writing `v` into the cell labelled `name`: that cell, and
   * only that cell, changes.
   */
  function Assign(cols: seq<string>, row: seq<real>, name: string, v: real): (r: seq<real>)
    requires |row| == |cols| && Distinct(cols) && name in cols
    ensures |r| == |row|
    ensures forall i :: 0 <= i < |r| ==> r[i] == if cols[i] == name then v else row[i]
  {
    row[IndexOf(cols, name) := v]
  }

  /**
   * The single-row table. Its column list never changes after construction;
   * its cells are updated in place.
   */
  class InputFrame {
    const columns: seq<string>
    const cells: array<real>

    ghost predicate Valid()
      reads this
    {
      cells.Length == |columns| && Distinct(columns)
    }

    /** The current cell values, in column order. */
    function Row(): seq<real>
      reads this, cells
    {
      cells[..]
    }

    /** A table with exactly the given columns, in order, and one row of zeros. */
    constructor (expected: seq<string>)
      requires Distinct(expected)
      ensures Valid() && fresh(cells)
      ensures columns == expected
      ensures Row() == ZeroRow(|expected|)
    {
      columns := expected;
      cells := new real[|expected|](_ => 0.0);
    }

    /** Writes one cell, addressed by its column label. */
    method SetCell(name: string, v: real)
      requires Valid() && name in columns
      modifies cells
      ensures Row() == Assign(columns, old(Row()), name, v)
    {
      var k := IndexOf(columns, name);
      cells[k] := v;
    }

    /** Reads one cell, addressed by its column label. */
    method GetCell(name: string) returns (v: real)
      requires Valid() && name in columns
      ensures forall i :: 0 <= i < |columns| && columns[i] == name ==> v == Row()[i]
    {
      var k := IndexOf(columns, name);
      v := cells[k];
    }
  }
}
