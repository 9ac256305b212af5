/**
 * The encoder as the predictor runs it: it builds the one-row table and
 * updates its cells in place, step by step. Each step is proved to produce
 * the row its specification in `Encoding` describes.
 */
module Encoder {
  import opened Frame
  import opened Encoding

  /** One more pair visited: its key's cell is set to 1 if the key is a column. */
  lemma OneHotStep(cols: seq<string>, row: seq<real>, mapping: seq<(string, string)>, i: nat)
    requires |row| == |cols| && Distinct(cols) && i < |mapping|
    ensures ApplyOneHot(cols, row, mapping[..i + 1]) ==
      var prev := ApplyOneHot(cols, row, mapping[..i]);
      var key := OneHotKey(mapping[i].0, mapping[i].1);
      if key in cols then Assign(cols, prev, key, 1.0) else prev
  {
    assert mapping[..i + 1][..i] == mapping[..i];
  }

  /**
   * The one-hot loop: for each feature/value pair in order, build the key and
   * write 1 to that cell if, and only if, the key is already a column. The
   * column list cannot grow.
   */
  method FillCategorical(frame: InputFrame, mapping: seq<(string, string)>)
    requires frame.Valid()
    modifies frame.cells
    ensures frame.Row() == ApplyOneHot(frame.columns, old(frame.Row()), mapping)
  {
    var i := 0;
    while i < |mapping|
      invariant 0 <= i <= |mapping|
      invariant frame.Row() == ApplyOneHot(frame.columns, old(frame.Row()), mapping[..i])
    {
      var (feature, val) := mapping[i];
      var colName := OneHotKey(feature, val);
      OneHotStep(frame.columns, old(frame.Row()), mapping, i);
      if colName in frame.columns {
        frame.SetCell(colName, 1.0);
      }
      i := i + 1;
    }
    assert mapping[..|mapping|] == mapping;
  }

  /**
   * The scaling step: read the four scaled cells in the scaler's order, pass
   * them through the scaler and write the four results back, in that order.
   */
  method ScaleNumeric(frame: InputFrame, scaler: Scaler)
    requires frame.Valid() && WellFormed(frame.columns)
    modifies frame.cells
    ensures frame.Row() == Scale(frame.columns, old(frame.Row()), scaler)
  {
    var age := frame.GetCell("Age");
    var restingBP := frame.GetCell("RestingBP");
    var cholesterol := frame.GetCell("Cholesterol");
    var maxHR := frame.GetCell("MaxHR");
    var scaled := scaler([age, restingBP, cholesterol, maxHR]);
    frame.SetCell("Age", scaled[0]);
    frame.SetCell("RestingBP", scaled[1]);
    frame.SetCell("Cholesterol", scaled[2]);
    frame.SetCell("MaxHR", scaled[3]);
  }

  /**
   * The whole encoder: a zero row over exactly the expected columns, the five
   * numeric writes, the one-hot loop, then scaling.
   */
  method Encode(input: PatientInput, expected: seq<string>, scaler: Scaler) returns (frame: InputFrame)
    requires WellFormed(expected)
    ensures fresh(frame) && fresh(frame.cells) && frame.Valid()
    ensures frame.columns == expected
    ensures frame.Row() == Encoded(input, expected, scaler)
  {
    frame := new InputFrame(expected);
    frame.SetCell("Age", input.age as real);
    frame.SetCell("RestingBP", input.restingBP as real);
    frame.SetCell("Cholesterol", input.cholesterol as real);
    frame.SetCell("MaxHR", input.maxHR as real);
    frame.SetCell("Oldpeak", input.oldpeak);
    FillCategorical(frame, CatMapping(input));
    ScaleNumeric(frame, scaler);
  }
}
