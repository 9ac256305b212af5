# Heart disease risk predictor: feature encoder and verdict

This project models the part of the heart-disease prediction app that does real
work when the user presses "Predict". The app:

1. builds a one-row table whose columns are exactly the training-time column
   list, and fills it with zeros;
2. writes the five numeric answers (`Age`, `RestingBP`, `Cholesterol`, `MaxHR`,
   `Oldpeak`) into their columns;
3. one-hot encodes six categorical answers. For each feature it forms the key
   `feature_value` and writes 1 into that column only if such a column exists;
4. replaces `Age`, `RestingBP`, `Cholesterol` and `MaxHR` with the scaler's
   output. `Oldpeak` is deliberately left unscaled;
5. runs the classifier on the row and shows "high risk" for label 1 and
   "low risk" otherwise.

The model has five modules:

- `Frame` (`frame.dfy`): the table. `InputFrame` is a class with a constant
  column list and an array of cells that its methods update in place.
  `Assign`, `ZeroRow` and `IndexOf` describe the same operations on row values.
- `Encoding` (`encoding.dfy`): the form's answers, the key construction, and the
  encoder's steps as functions on rows. `ApplyOneHot` is the one-hot step,
  `Scale` the scaling step and `Encoded` the whole encoder. `ReferenceCell` is an
  independent description of the encoded row, worked out cell by cell from the
  column's name alone.
- `EncodingProperties` (`encoding_properties.dfy`): what the encoder
  guarantees. One-hot keys never clash with a numeric column. The one-hot step
  is idempotent and does not depend on order. The encoded row equals the
  reference description, and the `Oldpeak`, scaled, one-hot, sibling and
  untouched cells follow from that.
- `Encoder` (`encoder.dfy`): the encoder as the app runs it. Each step changes
  the table in place and is proved to produce the row that `Encoding` specifies.
- `Risk` (`risk.dfy`): the choice of verdict, and the whole predict action.

The trained scaler is a parameter of type `Quad -> Quad`, a function from four
values to four values. The trained classifier is a parameter of type
`seq<real> -> int`. The column list is also a parameter. Cells hold `real`
values.

## Model

| member | source | states |
|---|---|---|
| `Frame.IndexOf` | app.py:40-44 | Looking up a label that is present gives a position inside the table that holds that label. No earlier position holds it. |
| `Frame.ZeroRow` | app.py:36 | The initial row has one cell per column, and every cell is 0. |
| `Frame.Assign` | app.py:40-44 | Writing a value to a labelled cell changes that cell only. All other cells keep their value, and the row keeps its length. |
| `Frame.InputFrame.constructor` | app.py:35-36 | The new table has exactly the expected columns, in order, and a single row of zeros. |
| `Frame.InputFrame.SetCell` | app.py:40-44 | An in-place `.loc` write. The new row is the old row with only the named cell replaced. |
| `Frame.InputFrame.GetCell` | app.py:62 | Reading a labelled cell returns the value held in that column. |
| `Encoding.DecimalText` | app.py:57 | Formatting an integer answer gives a non-empty string of decimal digits whose value is exactly that integer. |
| `Encoding.Category.Name` | app.py:48-53 | The six feature names used as key prefixes. Each has at least two characters and no `_` among its first two. `NameStart` states the prefixes, which are pairwise different. |
| `Encoding.SexText` | app.py:23 | The sex answer is rendered as "M" or "F", and each text belongs to exactly one option. |
| `Encoding.ChestPainText` | app.py:24 | The chest pain answer is rendered as "ATA", "NAP", "TA" or "ASY", and each text belongs to exactly one option. |
| `Encoding.EcgText` | app.py:25 | The resting ECG answer is rendered as "Normal", "ST" or "LVH", and each text belongs to exactly one option. |
| `Encoding.AnginaText` | app.py:26 | The exercise angina answer is rendered as "Y" or "N", and each text belongs to exactly one option. |
| `Encoding.SlopeText` | app.py:28 | The ST slope answer is rendered as "Up", "Flat" or "Down", and each text belongs to exactly one option. |
| `Encoding.ValueText` | app.py:47-54 | The value placed in the key for each feature is a non-empty text. `ValueTextDeterminesAnswer` states that it identifies the answer. |
| `Encoding.OneHotKey` | app.py:57 | A key is the feature name, then `_`, then the value text. Each part can be recovered from the key. |
| `Encoding.CatMapping` | app.py:47-54 | The request yields six feature/value pairs. |
| `Encoding.Keys` | app.py:56-57 | The j-th key comes from the j-th feature/value pair. |
| `Encoding.ApplyOneHot` | app.py:56-59 | The one-hot step keeps the row length. A cell ends as 1 exactly when its column name is one of the keys. Every other cell keeps its value. |
| `Encoding.NumericFilled` | app.py:40-44 | The five numeric writes keep one cell per column. `NumericFilledCells` states the value of every cell. |
| `Encoding.Selected` | app.py:62 | The scaler's input is the cells of `Age`, `RestingBP`, `Cholesterol` and `MaxHR`, read by name, in that order. |
| `Encoding.Scale` | app.py:62 | The j-th of `Age`, `RestingBP`, `Cholesterol`, `MaxHR` receives the scaler's j-th output for those four cells. Every other cell, including `Oldpeak`, is unchanged. |
| `Encoding.Encoded` | app.py:35-62 | The encoded row has exactly one cell per expected column. |
| `EncodingProperties.NumericNamesHaveNoUnderscore` | app.py:40-44 | None of the five numeric column names contains `_`. |
| `EncodingProperties.KeyIsNotNumeric` | app.py:57-59 | A one-hot key never equals a numeric column name. |
| `EncodingProperties.KeysAreNotNumeric` | app.py:56-59 | No key that the one-hot loop tries is a numeric column, so the loop cannot overwrite a numeric write. |
| `EncodingProperties.NameStart` | app.py:48-53 | The six feature names begin with six different two-character prefixes. |
| `EncodingProperties.KeyDeterminesAnswer` | app.py:57 | Two keys are equal only if their features are equal and their values are equal. Different answers therefore hit different columns. |
| `EncodingProperties.AnswerKeyIsRequested` | app.py:47-57 | Each categorical answer contributes its key `feature_value` to the keys the loop tries. |
| `EncodingProperties.RequestedKeyIsAnswerKey` | app.py:47-57 | Every key that the loop tries is the key of one of the six answers. |
| `EncodingProperties.FastingTexts` | app.py:27 | The fasting blood sugar answers 0 and 1 are rendered as "0" and "1" in the key. |
| `EncodingProperties.DecimalTextInjective` | app.py:57 | Different integers are rendered as different texts. |
| `EncodingProperties.ValueTextDeterminesAnswer` | app.py:47-57 | Two requests with the same text for a feature gave the same answer for it. Different answers therefore build different keys. |
| `EncodingProperties.OneHotIdempotent` | app.py:56-59 | Running the one-hot loop twice gives the same row as running it once. |
| `EncodingProperties.OneHotDependsOnlyOnKeys` | app.py:56-59 | Two mappings that try the same set of keys produce the same row. |
| `EncodingProperties.OneHotOrderIrrelevant` | app.py:47-59 | Reordering the feature/value pairs does not change the result. |
| `EncodingProperties.NumericFilledCells` | app.py:36-44 | After the numeric writes, each numeric column holds its raw answer. Every other cell is still 0. |
| `EncodingProperties.ScalerSeesRawAnswers` | app.py:40-62 | The scaler receives exactly the raw age, resting BP, cholesterol and max HR, in that order. |
| `EncodingProperties.EncodedMatchesReference` | app.py:35-62 | Every encoded cell equals the reference value for its column name: scaled output, raw `oldpeak`, 1 for a matched key, 0 otherwise. |
| `EncodingProperties.OldpeakPassesThrough` | app.py:44-62 | For any scaler, the `Oldpeak` cell equals the raw `oldpeak` answer. |
| `EncodingProperties.ScaledCellsHoldScalerOutput` | app.py:39-62 | The four scaled columns hold the scaler's four outputs for the raw answers, in the scaler's order. |
| `EncodingProperties.AnswerColumnIsSet` | app.py:56-59 | If the column `feature_value` exists for a given answer, that cell is 1. |
| `EncodingProperties.SiblingColumnsAreZero` | app.py:56-59 | A one-hot column for the same feature but a different value is 0. So at most one column per feature is 1, and none when the answer's column was dropped. |
| `EncodingProperties.UntouchedColumnsStayZero` | app.py:36-59 | A column that is neither numeric nor a key of the request is still 0 after encoding. |
| `EncodingProperties.UnderscoredColumnIsIndicator` | app.py:56-62 | Every column whose name contains `_` ends as 1 if the request tried its key and as 0 otherwise, whatever the scaler. |
| `Encoder.OneHotStep` | app.py:56-59 | Visiting one more pair sets that pair's key cell to 1 if the key is a column, and otherwise leaves the row as it was. |
| `Encoder.FillCategorical` | app.py:56-59 | The in-place one-hot loop leaves the table holding exactly `ApplyOneHot` of the old row. The column list cannot change. |
| `Encoder.ScaleNumeric` | app.py:62 | The in-place scaling leaves the table holding exactly `Scale` of the old row. |
| `Encoder.Encode` | app.py:35-62 | The in-place encoder returns a new table with exactly the expected columns, in order, holding `Encoded` of the answers. |
| `Risk.VerdictOf` | app.py:68-71 | The verdict is high risk if and only if the label is 1. Any other label gives low risk. |
| `Risk.PredictRisk` | app.py:65-71 | The verdict is high risk exactly when the classifier returns label 1 on the encoded row. |

## Left out

- The Streamlit interface: title, text, sliders, drop-downs, button and result messages (app.py:12-28, 32, 69, 71). The answers arrive as a `PatientInput` value, and the verdict is returned as a `Verdict` value.
- Widget ranges such as age 18-100 and oldpeak 0.0-6.0 (app.py:16-28). The UI enforces them, and the encoder does not depend on them, so they are neither checked nor required.
- Loading the model, the scaler and the column list from pickle files (app.py:6-8). These three artifacts are parameters.
- The scaler's standardisation arithmetic (app.py:62). It is an arbitrary function from four values to four values.
- The classifier (app.py:65). It is an arbitrary function from the row to an integer label. It sees the values in column order but not the column names.
- Floating point. Cells are exact `real` numbers, so the integer-to-float conversions and `oldpeak` pass through without rounding. pandas dtypes, such as an object-typed row, are not modelled.
- Encoding.Encoded: requires the five numeric column names to be present in the column list. For a missing name, pandas `.loc` would append that column to the table. The scaler would still receive its four columns, read by name, but the classifier would get a table whose layout differs from the training one. Neither behaviour is modelled.
- Encoding.Encoded, Encoding.ApplyOneHot, Frame.Assign, Frame.InputFrame.constructor: require the column names to be distinct. With a repeated label, pandas would write every copy of it. If the repeated name is one of the four scaled names, the scaler would also receive more than four columns. This is not modelled.
- An empty column list, or a scaler whose columns are missing from the list, is excluded by the same precondition. The code has no check for either case, so the model adds no error path.
- A strict mode that rejects answers whose one-hot column is missing. The code has no such mode: a missing column just leaves every cell of that feature at 0, as `SiblingColumnsAreZero` shows.
- Determinism across runs needs no lemma. `Encoded` is a function of the answers, the column list and the scaler, so repeated runs give equal rows.
