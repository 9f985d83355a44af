# SurveyJS datasource for Grafana: a Dafny model of the response shaper

This project models the logic of the SurveyJS datasource plugin for Grafana
(`src/datasource.ts`). The model covers three parts.

- **`query`.** Every query target is stamped in place with the survey id from
  the instance settings. The request carrying the stamped targets goes to the
  backend, which answers
  with one answer summary per target. Each summary becomes one columnar frame,
  chosen by the summary's `type` tag:
  - `single_choice` / `multiple_choice`: a "Choice"/"Count" frame. Each count
    is wrapped in a one-element list, as the code does it.
  - `number` / `rating` with `queryText` equal to `"values"`: the raw values.
  - `date` with `queryText` equal to `"values"`: parsed times and a constant 1.
  - `number` / `date` / `rating` otherwise: six one-row aggregate columns.
  - Anything else: a one-row "Count" column holding `count || 0`.

  Frame *i* takes the refId of target *i*.
- **The item mapping of `getQuestions`.** Each backend item becomes a
  `{label, value}` pair. Each half is the first truthy property of a chain of
  property names, and otherwise the item itself.
- **The values involved.** These are JSON values with JavaScript
  truthiness, where absent, `null`, `false`, `0`, `NaN` and `""` are falsy.
  An object or array nested in a value is kept only by identity, and it is
  always truthy.
  Frames hold named, typed columns of cells.

Modules:

- `Wrappers`: `Option` and `Result`.
- `JsValues`: primitives, `Truthy`, `||`.
- `Frames`: cells, columns and frames.
- `Shaper`: per-summary dispatch and the batch map.
- `ShapeProperties`: what the shaper promises.
- `Questions` and `QuestionProperties`: the question mapping and what it
  promises.
- `DataSources`: the `Target` class and a `DataSource` class with
  `StampSurveyId` and `Query`.

Two things `query` calls on are function parameters of the model.
`Date.parse` is `parse: Value -> Value`. The HTTP round trip of `doRequest` is
`backend: seq<SurveyQuery> -> seq<Summary>`.

Some error paths throw a `TypeError` in the code. The model returns these as
`Err`:

- `Object.keys` of a missing `choices`.
- `.map` of a missing `values` in the raw date case.
- A `null` question item.

A missing `values` in the raw number/rating case does not throw. It is passed
to the frame as it is: the column has no array.

Where the response has more summaries than there are targets,
`defaults(undefined, {})` gives `{}`. The frame then has no refId and is shaped
as a query without `queryText` (`Shaper.QueryAt`). So this case needs no
precondition.

The code compares `type` with `===`, so a non-string or absent tag falls to the
generic branch; the model keeps `type` as an optional primitive.

## Model

| member | source | states |
|---|---|---|
| `JsValues.FalsyExactly` | src/datasource.ts:30-31 | a present value is falsy exactly when it is null, false, 0, NaN or the empty string |
| `JsValues.Or` | src/datasource.ts:109 | the or-expression of a read and a default yields the read when it is truthy, and in every case either the default or the read itself; its result is truthy exactly when the read or the default is |
| `Shaper.Shape` | src/datasource.ts:60-112 | a frame that is produced carries the refId of the target at its position |
| `Shaper.ShapeAll` | src/datasource.ts:60-61 | the map succeeds iff every summary shapes; then it has one frame per summary and frame i is the shape of summary i with target i; on failure the error is the one thrown by the first failing summary, every earlier one having succeeded |
| `Shaper.LookupAt` | src/datasource.ts:66 | reading `choices[key]` for a key of the object yields exactly the count stored under that key |
| `ShapeProperties.ShapeFailsIff` | src/datasource.ts:62-112 | the shaper throws the `Object.keys` error iff a choice summary has no `choices`, the `.map` error iff a raw date summary has no `values`, and succeeds in every other case, including unknown types |
| `ShapeProperties.ShapeLayout` | src/datasource.ts:62-112 | every frame has exactly the column names, column types and visualisation hint of its layout in the dispatch table, and all its columns have the same length |
| `ShapeProperties.ChoiceShape` | src/datasource.ts:62-72 | a choice summary gives exactly the columns "Choice" (string) then "Count" (number), both as long as the choice map; entry k is key k and the one-element list of key k's count; hint graph; refId of the target |
| `ShapeProperties.ChoicesRoundTrip` | src/datasource.ts:62-72 | zipping the two columns of a choice frame back together gives the original choices, in order, entry for entry |
| `ShapeProperties.DateValuesShape` | src/datasource.ts:75-82 | a raw date summary gives "Time" (time) then "Value" (number), as long as `values`; Time[i] is the parse of values[i], Value[i] is 1; no hint |
| `ShapeProperties.RawValuesShape` | src/datasource.ts:84-89 | a raw number or rating summary gives one "Values" column holding the input values unchanged and in order (no array when `values` is missing); no hint |
| `ShapeProperties.AggregateShape` | src/datasource.ts:92-105 | a number, date or rating summary without `queryText` "values" gives six one-row number columns Count, Average, Min, Max, Median, Mode, each holding its summary field or undefined; hint table |
| `ShapeProperties.FallbackShape` | src/datasource.ts:107-112 | any other or absent type never throws and gives one one-row "Count" column holding `count` when it is truthy and 0 otherwise; no hint |
| `ShapeProperties.BatchOkIff` | src/datasource.ts:60-112 | the whole response shapes iff no summary, taken with the target at its position, is one of the two throwing cases |
| `ShapeProperties.BatchCorrelation` | src/datasource.ts:60-61 | a shaped response has one frame per summary; frame i carries target i's refId (none past the last target), whatever the mix of types, and is the shape of summary i with target i, or with the empty query `{}` past the last target |
| `Questions.FirstTruthy` | src/datasource.ts:30-31 | a JavaScript or-chain over the property reads, ending in the item itself, yields the item iff no read is truthy; otherwise the value of a truthy read such that every earlier read is falsy |
| `Questions.ToSelectable` | src/datasource.ts:29-32 | mapping one item throws exactly when the item is `null`; otherwise it gives the label pick and the value pick |
| `Questions.QuestionOptions` | src/datasource.ts:29-32 | the mapping succeeds iff no item is `null`; then it keeps the list's length and pair i is the mapping of item i |
| `QuestionProperties.FirstTruthyStep` | src/datasource.ts:30-31 | one step of the chain: a truthy head wins, otherwise the rest of the chain decides |
| `QuestionProperties.LabelPrecedence` | src/datasource.ts:30 | the label is the first truthy of label, name, title, text, value, id, and otherwise the raw item |
| `QuestionProperties.ValuePrecedence` | src/datasource.ts:31 | the value is the first truthy of value, id, and otherwise the raw item |
| `QuestionProperties.LabelFallsBackToValue` | src/datasource.ts:30-31 | when label, name, title and text are all falsy, the label is the same pick as the value |
| `QuestionProperties.ScalarIsItsOwnOption` | src/datasource.ts:30-31 | a non-null primitive item is both its own label and its own value |
| `DataSources.DataSource.constructor` | src/datasource.ts:46-49 | the instance keeps the configured survey id |
| `DataSources.DataSource.StampSurveyId` | src/datasource.ts:52-54 | afterwards every target's `surveyId` is the configured one, the targets keep their positions, and no other property of any target changes |
| `DataSources.DataSource.Query` | src/datasource.ts:51-146 | the targets in the request body are the targets each stamped with the configured survey id, in order, and the result is the batch shaping of the backend's answer to those targets |

## Left out

- `DataSources.DataSource.constructor`: copies `jsonData.surveyId` into a
  constant at construction, whereas the code keeps the settings object and
  reads `jsonData.surveyId` again on every query. The two differ if the host
  changes the settings object after construction; the model does not capture
  that.
- The request body is the whole request object: the targets plus range,
  interval and the other request fields. Only the targets are modelled, so the
  backend's answer is taken to depend on the stamped targets alone.
- HTTP transport. `doRequest`, URL building, headers, credentials and
  `getBackendSrv().datasourceRequest` are left out as I/O. The answer is a
  function parameter, and the `getQuestions` model starts from the list of
  items.
- `async`/`await` sequencing of promises.
- `testDatasource`: an I/O round trip whose only logic compares the status
  with 200.
- `Date.parse`: a foreign parser, passed in as a parameter.
- The numeric meaning of the aggregate fields. The shaper does no arithmetic,
  so numbers are opaque reals with NaN apart, and -0 is not distinguished
  from 0.
- `MutableDataFrame` internals, among them what it does with a field whose
  values are `undefined`. The model's frame is what the shaper hands to the
  constructor.
- `FieldType` beyond the three tags used.
- lodash `defaults` with the empty default query. It returns the target
  itself, and `{}` past the end of the list.
- Summaries that are `null` or primitives rather than objects. They are not
  modelled (the first would throw, the second would take the generic branch).
- A `choices` value that is an array, a string, a number or a boolean
  (`Object.keys` would then give index keys or none).
- A `values` value that is not an array.
- Nested objects or arrays as cell values are carried as an opaque `Obj`
  whose contents are not modelled. The only lists whose elements are modelled
  are the ones the shaper builds.
- `Questions.Item`: an object-valued property that the label or value chain
  reads is represented as an opaque, always-truthy `Obj` (for example a
  localisable `title: {default: "..."}`), so the pick is that object by
  identity. An item that is itself an array, or an object that has none of
  the six properties, is a bare `Scalar(Obj(..))`. The contents of such
  objects are not modelled.
- `null` is not told apart from `undefined` for `choices` and `values`: both
  throw in the same places and both are passed through in the raw
  number/rating case.
- Property order of `Object.keys` itself (integer-like keys first). The
  choices are taken in the order the object reports them.
- src/QueryEditor.tsx is not part of this model (React UI and its
  mount/unmount lifecycle).
- src/module.ts is not part of this model (plugin registration only).
- src/types.ts holds interface declarations only. They give the shapes of
  `SurveyQuery` and `Target`.
- The commented-out code in `query`.
