/**
 * What the predictor's feature encoder computes, stated on values: the
 * patient's form answers, the keys of the one-hot columns, and the row the
 * encoder must produce for a given column list and scaler.
 */
module Encoding {
  import opened Frame

  /** The answers offered by the form's drop-down lists. */
  datatype SexValue = M | F
  datatype ChestPainValue = ATA | NAP | TA | ASY
  datatype EcgValue = Normal | ST | LVH
  datatype AnginaValue = Y | N
  datatype SlopeValue = Up | Flat | Down

  /**
   * One request's answers. The numeric fields are the sliders and number
   * boxes; `fastingBS` is the integer 0 or 1 that its drop-down yields.
   */
  datatype PatientInput = PatientInput(
    age: int,
    restingBP: int,
    cholesterol: int,
    maxHR: int,
    oldpeak: real,
    sex: SexValue,
    chestPain: ChestPainValue,
    restingECG: EcgValue,
    exerciseAngina: AnginaValue,
    fastingBS: nat,
    stSlope: SlopeValue)

  /** The six categorical attributes, under the names used to build their keys. */
  datatype Category = Sex | ChestPainType | RestingECG | ExerciseAngina | FastingBS | STSlope
  {
    function Name(): (n: string)
      ensures |n| >= 2 && '_' !in n[..2]
    {
      match this
      case Sex => "Sex"
      case ChestPainType => "ChestPainType"
      case RestingECG => "RestingECG"
      case ExerciseAngina => "ExerciseAngina"
      case FastingBS => "FastingBS"
      case STSlope => "ST_Slope"
    }
  }

  /** A scaler maps the four scaled cells, in order, to four new values. */
  type Quad = s: seq<real> | |s| == 4 witness [0.0, 0.0, 0.0, 0.0]
  type Scaler = Quad -> Quad

  /** The columns written from the numeric inputs. */
  const NumericColumns: seq<string> := ["Age", "RestingBP", "Cholesterol", "MaxHR", "Oldpeak"]

  /** The columns handed to the scaler, in the order it expects; `Oldpeak` is not among them. */
  const ScaledColumns: seq<string> := ["Age", "RestingBP", "Cholesterol", "MaxHR"]

  /** A column list the encoder can work with: no repeated name, every numeric column present. */
  predicate WellFormed(cols: seq<string>)
  {
    Distinct(cols) && forall n :: n in NumericColumns ==> n in cols
  }

  /** The number a string of decimal digits denotes, most significant digit first. */
  function DigitsValue(s: string): int
  {
    if s == [] then 0 else 10 * DigitsValue(s[..|s| - 1]) + (s[|s| - 1] as int - '0' as int)
  }

  /**
   * Decimal text of a natural number, as string formatting renders an integer:
   * a non-empty string of digits that denotes exactly `n`.
   */
  function DecimalText(n: nat): (s: string)
    ensures |s| >= 1
    ensures forall i :: 0 <= i < |s| ==> '0' <= s[i] <= '9'
    ensures DigitsValue(s) == n
  {
    var d := [('0' as int + n % 10) as char];
    if n < 10 then d else DecimalText(n / 10) + d
  }

  /** The label each drop-down shows and the key is built from; distinct options have distinct labels. */
  function SexText(v: SexValue): (t: string)
    ensures (t == "M") == (v == M) && (t == "F") == (v == F)
  {
    match v
    case M => "M"
    case F => "F"
  }

  function ChestPainText(v: ChestPainValue): (t: string)
    ensures (t == "ATA") == (v == ATA) && (t == "NAP") == (v == NAP)
    ensures (t == "TA") == (v == TA) && (t == "ASY") == (v == ASY)
  {
    match v
    case ATA => "ATA"
    case NAP => "NAP"
    case TA => "TA"
    case ASY => "ASY"
  }

  function EcgText(v: EcgValue): (t: string)
    ensures (t == "Normal") == (v == Normal) && (t == "ST") == (v == ST) && (t == "LVH") == (v == LVH)
  {
    match v
    case Normal => "Normal"
    case ST => "ST"
    case LVH => "LVH"
  }

  function AnginaText(v: AnginaValue): (t: string)
    ensures (t == "Y") == (v == Y) && (t == "N") == (v == N)
  {
    match v
    case Y => "Y"
    case N => "N"
  }

  function SlopeText(v: SlopeValue): (t: string)
    ensures (t == "Up") == (v == Up) && (t == "Flat") == (v == Flat) && (t == "Down") == (v == Down)
  {
    match v
    case Up => "Up"
    case Flat => "Flat"
    case Down => "Down"
  }

  /** The text of the answer given for one categorical attribute. */
  function ValueText(input: PatientInput, c: Category): (t: string)
    ensures |t| >= 1
  {
    match c
    case Sex => SexText(input.sex)
    case ChestPainType => ChestPainText(input.chestPain)
    case RestingECG => EcgText(input.restingECG)
    case ExerciseAngina => AnginaText(input.exerciseAngina)
    case FastingBS => DecimalText(input.fastingBS)
    case STSlope => SlopeText(input.stSlope)
  }

  /** The name of the one-hot column for a feature and its value: `feature`, an underscore, `value`. */
  function OneHotKey(feature: string, val: string): (k: string)
    ensures |k| == |feature| + 1 + |val|
    ensures k[..|feature|] == feature && k[|feature|] == '_' && k[|feature| + 1..] == val
  {
    feature + "_" + val
  }

  /** The feature/value pairs of one request, in the order the encoder visits them. */
  function CatMapping(input: PatientInput): (m: seq<(string, string)>)
    ensures |m| == 6
  {
    [ (Sex.Name(), ValueText(input, Sex)),
      (ChestPainType.Name(), ValueText(input, ChestPainType)),
      (RestingECG.Name(), ValueText(input, RestingECG)),
      (ExerciseAngina.Name(), ValueText(input, ExerciseAngina)),
      (FastingBS.Name(), ValueText(input, FastingBS)),
      (STSlope.Name(), ValueText(input, STSlope)) ]
  }

  /** The keys a mapping asks the one-hot step to set, in visiting order. */
  function Keys(mapping: seq<(string, string)>): (ks: seq<string>)
    ensures |ks| == |mapping|
    ensures forall j :: 0 <= j < |mapping| ==> ks[j] == OneHotKey(mapping[j].0, mapping[j].1)
  {
    if mapping == [] then []
    else Keys(mapping[..|mapping| - 1]) + [OneHotKey(mapping[|mapping| - 1].0, mapping[|mapping| - 1].1)]
  }

  /**
   * The one-hot step: visit the pairs in order and, for each, write 1 to the
   * cell of its key when the key is a column; a key that is not a column
   * changes nothing. A cell ends as 1 exactly when its name is one of the
   * keys, and keeps its old value otherwise.
   */
  function ApplyOneHot(cols: seq<string>, row: seq<real>, mapping: seq<(string, string)>): (r: seq<real>)
    requires |row| == |cols| && Distinct(cols)
    ensures |r| == |row|
    ensures forall i :: 0 <= i < |r| ==> r[i] == if cols[i] in Keys(mapping) then 1.0 else row[i]
  {
    if mapping == [] then row
    else
      var prev := ApplyOneHot(cols, row, mapping[..|mapping| - 1]);
      var key := OneHotKey(mapping[|mapping| - 1].0, mapping[|mapping| - 1].1);
      if key in cols then Assign(cols, prev, key, 1.0) else prev
  }

  /** The row after the five numeric writes into a zero-filled row. */
  function NumericFilled(input: PatientInput, cols: seq<string>): (r: seq<real>)
    requires WellFormed(cols)
    ensures |r| == |cols|
  {
    var r0 := ZeroRow(|cols|);
    var r1 := Assign(cols, r0, "Age", input.age as real);
    var r2 := Assign(cols, r1, "RestingBP", input.restingBP as real);
    var r3 := Assign(cols, r2, "Cholesterol", input.cholesterol as real);
    var r4 := Assign(cols, r3, "MaxHR", input.maxHR as real);
    Assign(cols, r4, "Oldpeak", input.oldpeak)
  }

  /** The four cells handed to the scaler, read from a row. */
  function Selected(cols: seq<string>, row: seq<real>): (q: Quad)
    requires |row| == |cols| && WellFormed(cols)
    ensures forall j :: 0 <= j < 4 ==> ScaledColumns[j] in cols && q[j] == row[IndexOf(cols, ScaledColumns[j])]
  {
    [ row[IndexOf(cols, "Age")], row[IndexOf(cols, "RestingBP")],
      row[IndexOf(cols, "Cholesterol")], row[IndexOf(cols, "MaxHR")] ]
  }

  /**
   * The scaling step: the j-th scaled column receives the scaler's j-th output
   * for the four selected cells, and every other cell is left as it was.
   */
  function Scale(cols: seq<string>, row: seq<real>, scaler: Scaler): (r: seq<real>)
    requires |row| == |cols| && WellFormed(cols)
    ensures |r| == |row|
    ensures forall j :: 0 <= j < 4 ==> r[IndexOf(cols, ScaledColumns[j])] == scaler(Selected(cols, row))[j]
    ensures forall i :: 0 <= i < |r| && cols[i] !in ScaledColumns ==> r[i] == row[i]
  {
    var out := scaler(Selected(cols, row));
    var r1 := Assign(cols, row, "Age", out[0]);
    var r2 := Assign(cols, r1, "RestingBP", out[1]);
    var r3 := Assign(cols, r2, "Cholesterol", out[2]);
    Assign(cols, r3, "MaxHR", out[3])
  }

  /** The encoder's output: zero-fill, numeric writes, one-hot step, scaling. */
  function Encoded(input: PatientInput, cols: seq<string>, scaler: Scaler): (r: seq<real>)
    requires WellFormed(cols)
    ensures |r| == |cols|
  {
    Scale(cols, ApplyOneHot(cols, NumericFilled(input, cols), CatMapping(input)), scaler)
  }

  /** The raw numeric answers the scaler is meant to see, in its order. */
  function RawScaled(input: PatientInput): Quad
  {
    [input.age as real, input.restingBP as real, input.cholesterol as real, input.maxHR as real]
  }

  /**
   * An independent description of the encoded row, cell by cell from the
   * column's name alone: scaled raw value for the four scaled columns, the
   * raw `oldpeak` for `Oldpeak`, 1 for a key of the request, 0 otherwise.
   */
  function ReferenceCell(input: PatientInput, scaler: Scaler, name: string): real
  {
    var scaled := scaler(RawScaled(input));
    if name == "Age" then scaled[0]
    else if name == "RestingBP" then scaled[1]
    else if name == "Cholesterol" then scaled[2]
    else if name == "MaxHR" then scaled[3]
    else if name == "Oldpeak" then input.oldpeak
    else if name in Keys(CatMapping(input)) then 1.0
    else 0.0
  }
}
