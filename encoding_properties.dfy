/**
 * Properties of the encoder's specification: one-hot keys never hit a numeric
 * column and identify their attribute and answer; the one-hot step is
 * idempotent and insensitive to visiting order; and the encoded row agrees,
 * cell by cell, with the reference description.
 */
module EncodingProperties {
  import opened Frame
  import opened Encoding

  /** No numeric column name contains an underscore. */
  lemma NumericNamesHaveNoUnderscore()
    ensures forall n :: n in NumericColumns ==> '_' !in n
  {
    assert '_' !in "Age" && '_' !in "RestingBP" && '_' !in "Cholesterol";
    assert '_' !in "MaxHR" && '_' !in "Oldpeak";
  }

  /** A one-hot key is never a numeric column, so the one-hot step cannot overwrite one. */
  lemma KeyIsNotNumeric(feature: string, val: string)
    ensures OneHotKey(feature, val) !in NumericColumns
  {
    var k := OneHotKey(feature, val);
    NumericNamesHaveNoUnderscore();
    assert '_' in k by {
      assert k[|feature|] == '_';
    }
  }

  /** No key of any mapping is a numeric column. */
  lemma KeysAreNotNumeric(mapping: seq<(string, string)>)
    ensures forall k :: k in Keys(mapping) ==> k !in NumericColumns
  {
    forall k | k in Keys(mapping)
      ensures k !in NumericColumns
    {
      var j :| 0 <= j < |mapping| && Keys(mapping)[j] == k;
      KeyIsNotNumeric(mapping[j].0, mapping[j].1);
    }
  }

  /** The first two characters of each attribute's name. */
  lemma NameStart(c: Category)
    ensures |c.Name()| >= 2
    ensures (c.Name()[0], c.Name()[1]) ==
      match c
      case Sex => ('S', 'e')
      case ChestPainType => ('C', 'h')
      case RestingECG => ('R', 'e')
      case ExerciseAngina => ('E', 'x')
      case FastingBS => ('F', 'a')
      case STSlope => ('S', 'T')
  {
  }

  /**
   * A key built from an attribute's name identifies both the attribute and the
   * answer: different (attribute, answer) pairs give different columns.
   */
  lemma KeyDeterminesAnswer(a: Category, w: string, b: Category, v: string)
    requires OneHotKey(a.Name(), w) == OneHotKey(b.Name(), v)
    ensures a == b && w == v
  {
    var k := OneHotKey(a.Name(), w);
    NameStart(a);
    NameStart(b);
    assert k[0] == a.Name()[0] && k[1] == a.Name()[1];
    assert k[0] == b.Name()[0] && k[1] == b.Name()[1];
  }

  /** Each attribute's answer contributes its key to the request's keys. */
  lemma AnswerKeyIsRequested(input: PatientInput, c: Category)
    ensures OneHotKey(c.Name(), ValueText(input, c)) in Keys(CatMapping(input))
  {
    var ks := Keys(CatMapping(input));
    match c
    case Sex => assert ks[0] == OneHotKey(c.Name(), ValueText(input, c));
    case ChestPainType => assert ks[1] == OneHotKey(c.Name(), ValueText(input, c));
    case RestingECG => assert ks[2] == OneHotKey(c.Name(), ValueText(input, c));
    case ExerciseAngina => assert ks[3] == OneHotKey(c.Name(), ValueText(input, c));
    case FastingBS => assert ks[4] == OneHotKey(c.Name(), ValueText(input, c));
    case STSlope => assert ks[5] == OneHotKey(c.Name(), ValueText(input, c));
  }

  /** Every key of the request is the key of some attribute's answer. */
  lemma RequestedKeyIsAnswerKey(input: PatientInput, k: string) returns (c: Category)
    requires k in Keys(CatMapping(input))
    ensures k == OneHotKey(c.Name(), ValueText(input, c))
  {
    var m := CatMapping(input);
    var j :| 0 <= j < 6 && Keys(m)[j] == k;
    c := if j == 0 then Sex else if j == 1 then ChestPainType else if j == 2 then RestingECG
      else if j == 3 then ExerciseAngina else if j == 4 then FastingBS else STSlope;
  }

  /** The integer answers of the fasting-blood-sugar list render as "0" and "1". */
  lemma FastingTexts()
    ensures DecimalText(0) == "0" && DecimalText(1) == "1"
  {
  }

  /** Decimal text is injective: different integers render differently. */
  lemma DecimalTextInjective(m: nat, n: nat)
    requires DecimalText(m) == DecimalText(n)
    ensures m == n
  {
  }

  /**
   * The text of an answer identifies the answer: two requests whose answers
   * for an attribute differ build different keys for it.
   */
  lemma ValueTextDeterminesAnswer(x: PatientInput, y: PatientInput, c: Category)
    requires ValueText(x, c) == ValueText(y, c)
    ensures c == Sex ==> x.sex == y.sex
    ensures c == ChestPainType ==> x.chestPain == y.chestPain
    ensures c == RestingECG ==> x.restingECG == y.restingECG
    ensures c == ExerciseAngina ==> x.exerciseAngina == y.exerciseAngina
    ensures c == FastingBS ==> x.fastingBS == y.fastingBS
    ensures c == STSlope ==> x.stSlope == y.stSlope
  {
    if c == FastingBS {
      DecimalTextInjective(x.fastingBS, y.fastingBS);
    }
  }

  /** Running the one-hot step twice gives the same row as running it once. */
  lemma OneHotIdempotent(cols: seq<string>, row: seq<real>, mapping: seq<(string, string)>)
    requires |row| == |cols| && Distinct(cols)
    ensures ApplyOneHot(cols, ApplyOneHot(cols, row, mapping), mapping) == ApplyOneHot(cols, row, mapping)
  {
  }

  /** The one-hot step depends only on which keys a mapping holds, not on their order or repetition. */
  lemma OneHotDependsOnlyOnKeys(cols: seq<string>, row: seq<real>, m1: seq<(string, string)>, m2: seq<(string, string)>)
    requires |row| == |cols| && Distinct(cols)
    requires forall k :: k in Keys(m1) <==> k in Keys(m2)
    ensures ApplyOneHot(cols, row, m1) == ApplyOneHot(cols, row, m2)
  {
  }

  /** Any reordering of the feature/value pairs yields the same row. */
  lemma OneHotOrderIrrelevant(cols: seq<string>, row: seq<real>, m1: seq<(string, string)>, m2: seq<(string, string)>)
    requires |row| == |cols| && Distinct(cols)
    requires multiset(m1) == multiset(m2)
    ensures ApplyOneHot(cols, row, m1) == ApplyOneHot(cols, row, m2)
  {
    forall k | k in Keys(m1)
      ensures k in Keys(m2)
    {
      var j :| 0 <= j < |m1| && Keys(m1)[j] == k;
      assert m1[j] in multiset(m2);
      var j2 :| 0 <= j2 < |m2| && m2[j2] == m1[j];
      assert Keys(m2)[j2] == k;
    }
    forall k | k in Keys(m2)
      ensures k in Keys(m1)
    {
      var j :| 0 <= j < |m2| && Keys(m2)[j] == k;
      assert m2[j] in multiset(m1);
      var j1 :| 0 <= j1 < |m1| && m1[j1] == m2[j];
      assert Keys(m1)[j1] == k;
    }
    OneHotDependsOnlyOnKeys(cols, row, m1, m2);
  }

  /** After the numeric writes, each numeric column holds its raw answer and every other cell is 0. */
  lemma NumericFilledCells(input: PatientInput, cols: seq<string>, i: nat)
    requires WellFormed(cols) && i < |cols|
    ensures NumericFilled(input, cols)[i] ==
      if cols[i] == "Age" then input.age as real
      else if cols[i] == "RestingBP" then input.restingBP as real
      else if cols[i] == "Cholesterol" then input.cholesterol as real
      else if cols[i] == "MaxHR" then input.maxHR as real
      else if cols[i] == "Oldpeak" then input.oldpeak
      else 0.0
  {
  }

  /** The scaler is handed the raw numeric answers: the one-hot step never touched them. */
  lemma ScalerSeesRawAnswers(input: PatientInput, cols: seq<string>)
    requires WellFormed(cols)
    ensures Selected(cols, ApplyOneHot(cols, NumericFilled(input, cols), CatMapping(input))) == RawScaled(input)
  {
    var filled := NumericFilled(input, cols);
    var hot := ApplyOneHot(cols, filled, CatMapping(input));
    KeysAreNotNumeric(CatMapping(input));
    forall j | 0 <= j < 4
      ensures hot[IndexOf(cols, ScaledColumns[j])] == RawScaled(input)[j]
    {
      var i := IndexOf(cols, ScaledColumns[j]);
      NumericFilledCells(input, cols, i);
    }
    assert ScaledColumns[0] == "Age" && ScaledColumns[1] == "RestingBP";
    assert ScaledColumns[2] == "Cholesterol" && ScaledColumns[3] == "MaxHR";
  }

  /**
   * The encoded row agrees with the reference description in every cell: it
   * is determined by each column's name, the answers and the scaler alone.
   */
  lemma EncodedMatchesReference(input: PatientInput, cols: seq<string>, scaler: Scaler)
    requires WellFormed(cols)
    ensures forall i :: 0 <= i < |cols| ==> Encoded(input, cols, scaler)[i] == ReferenceCell(input, scaler, cols[i])
  {
    var filled := NumericFilled(input, cols);
    var hot := ApplyOneHot(cols, filled, CatMapping(input));
    var r := Encoded(input, cols, scaler);
    ScalerSeesRawAnswers(input, cols);
    KeysAreNotNumeric(CatMapping(input));
    forall i | 0 <= i < |cols|
      ensures r[i] == ReferenceCell(input, scaler, cols[i])
    {
      NumericFilledCells(input, cols, i);
      var name := cols[i];
      if name in ScaledColumns {
        var j :| 0 <= j < 4 && ScaledColumns[j] == name;
        assert IndexOf(cols, ScaledColumns[j]) == i;
      }
    }
  }

  /** `Oldpeak` leaves the encoder as the raw answer, whatever the scaler does. */
  lemma OldpeakPassesThrough(input: PatientInput, cols: seq<string>, scaler: Scaler)
    requires WellFormed(cols)
    ensures "Oldpeak" in cols
    ensures Encoded(input, cols, scaler)[IndexOf(cols, "Oldpeak")] == input.oldpeak
  {
    assert "Oldpeak" in NumericColumns;
    EncodedMatchesReference(input, cols, scaler);
  }

  /** The j-th scaled column holds the scaler's j-th output for the raw answers, in the scaler's order. */
  lemma ScaledCellsHoldScalerOutput(input: PatientInput, cols: seq<string>, scaler: Scaler)
    requires WellFormed(cols)
    ensures forall j :: 0 <= j < 4 ==> ScaledColumns[j] in cols
    ensures forall j :: 0 <= j < 4 ==>
      Encoded(input, cols, scaler)[IndexOf(cols, ScaledColumns[j])] == scaler(RawScaled(input))[j]
  {
    forall j | 0 <= j < 4
      ensures ScaledColumns[j] in cols
    {
      assert ScaledColumns[j] == NumericColumns[j];
    }
    ScalerSeesRawAnswers(input, cols);
  }

  /** The column of each attribute's answer holds 1 whenever that column exists. */
  lemma AnswerColumnIsSet(input: PatientInput, cols: seq<string>, scaler: Scaler, c: Category)
    requires WellFormed(cols)
    requires OneHotKey(c.Name(), ValueText(input, c)) in cols
    ensures Encoded(input, cols, scaler)[IndexOf(cols, OneHotKey(c.Name(), ValueText(input, c)))] == 1.0
  {
    var k := OneHotKey(c.Name(), ValueText(input, c));
    AnswerKeyIsRequested(input, c);
    KeyIsNotNumeric(c.Name(), ValueText(input, c));
    EncodedMatchesReference(input, cols, scaler);
    assert k !in NumericColumns;
  }

  /**
   * Every other one-hot column of the same attribute holds 0: at most one
   * column per attribute is set, and none when the answer's column was
   * dropped from the list.
   */
  lemma SiblingColumnsAreZero(input: PatientInput, cols: seq<string>, scaler: Scaler, c: Category, w: string)
    requires WellFormed(cols)
    requires w != ValueText(input, c)
    requires OneHotKey(c.Name(), w) in cols
    ensures Encoded(input, cols, scaler)[IndexOf(cols, OneHotKey(c.Name(), w))] == 0.0
  {
    var k := OneHotKey(c.Name(), w);
    KeyIsNotNumeric(c.Name(), w);
    if k in Keys(CatMapping(input)) {
      var b := RequestedKeyIsAnswerKey(input, k);
      KeyDeterminesAnswer(c, w, b, ValueText(input, b));
      assert false;
    }
    EncodedMatchesReference(input, cols, scaler);
    assert k !in NumericColumns;
  }

  /** A column that is neither numeric nor a key of the request keeps the initial 0. */
  lemma UntouchedColumnsStayZero(input: PatientInput, cols: seq<string>, scaler: Scaler, i: nat)
    requires WellFormed(cols) && i < |cols|
    requires cols[i] !in NumericColumns && cols[i] !in Keys(CatMapping(input))
    ensures Encoded(input, cols, scaler)[i] == 0.0
  {
    EncodedMatchesReference(input, cols, scaler);
  }

  /**
   * Every column whose name contains an underscore (every one-hot column)
   * leaves the encoder as an indicator: 1 if it is a key of the request, 0
   * otherwise, whatever the scaler.
   */
  lemma UnderscoredColumnIsIndicator(input: PatientInput, cols: seq<string>, scaler: Scaler, i: nat, p: nat)
    requires WellFormed(cols) && i < |cols|
    requires p < |cols[i]| && cols[i][p] == '_'
    ensures Encoded(input, cols, scaler)[i] == if cols[i] in Keys(CatMapping(input)) then 1.0 else 0.0
  {
    NumericNamesHaveNoUnderscore();
    assert cols[i] !in NumericColumns;
    EncodedMatchesReference(input, cols, scaler);
  }
}
