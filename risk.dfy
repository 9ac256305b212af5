/**
 * From the encoded row to the verdict shown to the user. The trained
 * classifier is a parameter: a function from the row, in column order, to
 * the label it predicts.
 */
module Risk {
  import opened Encoding
  import opened Encoder

  datatype Verdict = HighRisk | LowRisk

  type Classifier = seq<real> -> int

  /** Label 1 means high risk; every other label means low risk. */
  function VerdictOf(prediction: int): (v: Verdict)
    ensures v == HighRisk <==> prediction == 1
    ensures v == LowRisk <==> prediction != 1
  {
    if prediction == 1 then HighRisk else LowRisk
  }

  /** One press of the predict button: encode, classify, choose the verdict. */
  method PredictRisk(input: PatientInput, expected: seq<string>, scaler: Scaler, model: Classifier)
    returns (v: Verdict)
    requires WellFormed(expected)
    ensures v == HighRisk <==> model(Encoded(input, expected, scaler)) == 1
  {
    var frame := Encode(input, expected, scaler);
    var prediction := model(frame.Row());
    v := VerdictOf(prediction);
  }
}
