/**
 * The response shaper of `DataSource.query`: each answer summary returned by
 * the backend is turned into one frame, dispatching on its `type` tag, and
 * frame i is paired with query target i by position.
 */
module Shaper {
  import opened Wrappers
  import opened JsValues
  import opened Frames

  /** No key occurs twice: a JavaScript object has each own property once. */
  predicate DistinctKeys(m: seq<(string, Value)>)
  {
    forall i, j | 0 <= i < j < |m| :: m[i].0 != m[j].0
  }

  /**
   * A `choices` object as its own properties, in the order `Object.keys`
   * reports them.
   */
  type Choices = m: seq<(string, Value)> | DistinctKeys(m)

  /**
   * One answer summary. Every property may be absent; for `choices` and
   * `values`, `None` stands for `undefined` or `null`, which fail alike.
   */
  datatype Summary = Summary(
    kind: Option<Value>,             // the `type` property
    choices: Option<Choices>,
    values: Option<seq<Value>>,
    count: Option<Value>,
    average: Option<Value>,
    min: Option<Value>,
    max: Option<Value>,
    median: Option<Value>,
    mode: Option<Value>)

  /** A query target as the shaper reads it; every property may be absent. */
  datatype SurveyQuery = SurveyQuery(
    refId: Option<string>,
    surveyId: Option<string>,
    questionId: Option<string>,
    queryText: Option<string>)

  /** The `TypeError`s the shaper can throw. */
  datatype ShapeError =
    | KeysOfMissing   // `Object.keys` of an undefined or null `choices`
    | MapOfMissing    // `.map` on an undefined or null `values`

  /** `defaults(targets[i], {})`: the target itself, or `{}` past the end. */
  function QueryAt(qs: seq<SurveyQuery>, i: nat): SurveyQuery
  {
    if i < |qs| then qs[i] else SurveyQuery(None, None, None, None)
  }

  predicate IsChoiceKind(kind: Option<Value>)
  {
    kind == Some(Str("single_choice")) || kind == Some(Str("multiple_choice"))
  }

  predicate IsStatKind(kind: Option<Value>)
  {
    kind == Some(Str("number")) || kind == Some(Str("date")) || kind == Some(Str("rating"))
  }

  predicate WantsValues(q: SurveyQuery)
  {
    q.queryText == Some("values")
  }

  /** `Object.keys(choices)`. */
  function Keys(m: Choices): seq<string>
  {
    seq(|m|, k requires 0 <= k < |m| => m[k].0)
  }

  /** `choices[key]`: the value of the first property named `key`. */
  function Lookup(m: seq<(string, Value)>, key: string): Option<Value>
  {
    if m == [] then None
    else if m[0].0 == key then Some(m[0].1)
    else Lookup(m[1..], key)
  }

  /** Looking a key of the object up finds the value stored beside it. */
  lemma {:induction false} LookupAt(m: seq<(string, Value)>, k: nat)
    requires DistinctKeys(m)
    requires k < |m|
    ensures Lookup(m, m[k].0) == Some(m[k].1)
  {
    if k > 0 {
      assert m[0].0 != m[k].0;
      assert m[1..][k - 1] == m[k];
      LookupAt(m[1..], k - 1);
    }
  }

  /** The choice frame: a "Choice" column of keys and a "Count" column of `[choices[key]]`. */
  function ChoiceFrame(m: Choices, refId: Option<string>): Frame
  {
    var keys := Keys(m);
    Frame(
      [ Column("Choice", StringType, Some(seq(|keys|, k requires 0 <= k < |keys| => Val(Str(keys[k]))))),
        Column("Count", NumberType, Some(seq(|keys|, k requires 0 <= k < |keys| => List([CellOf(Lookup(m, keys[k]))])))) ],
      refId, Some(Graph))
  }

  /** The raw date frame: `Date.parse` of each value, and a constant 1 beside it. */
  function DateValuesFrame(vs: seq<Value>, parse: Value -> Value, refId: Option<string>): Frame
  {
    Frame(
      [ Column("Time", TimeType, Some(seq(|vs|, i requires 0 <= i < |vs| => Val(parse(vs[i]))))),
        Column("Value", NumberType, Some(seq(|vs|, i requires 0 <= i < |vs| => Val(Num(1.0))))) ],
      refId, None)
  }

  /** The `values` property handed to the frame constructor as it is. */
  function Samples(o: Option<seq<Value>>): Option<seq<Cell>>
  {
    match o
    case None => None
    case Some(vs) => Some(seq(|vs|, i requires 0 <= i < |vs| => Val(vs[i])))
  }

  /** The six one-row aggregate columns. */
  function AggregateFrame(s: Summary, refId: Option<string>): Frame
  {
    Frame(
      [ Column("Count", NumberType, Some([CellOf(s.count)])),
        Column("Average", NumberType, Some([CellOf(s.average)])),
        Column("Min", NumberType, Some([CellOf(s.min)])),
        Column("Max", NumberType, Some([CellOf(s.max)])),
        Column("Median", NumberType, Some([CellOf(s.median)])),
        Column("Mode", NumberType, Some([CellOf(s.mode)])) ],
      refId, Some(Table))
  }

  /** The frame for one summary and the target at its position. */
  function Shape(q: SurveyQuery, s: Summary, parse: Value -> Value): (r: Result<Frame, ShapeError>)
    ensures r.Ok? ==> r.value.refId == q.refId
  {
    if IsChoiceKind(s.kind) then
      match s.choices
      case None => Err(KeysOfMissing)
      case Some(m) => Ok(ChoiceFrame(m, q.refId))
    else if IsStatKind(s.kind) then
      if WantsValues(q) then
        if s.kind == Some(Str("date")) then
          match s.values
          case None => Err(MapOfMissing)
          case Some(vs) => Ok(DateValuesFrame(vs, parse, q.refId))
        else
          Ok(Frame([Column("Values", NumberType, Samples(s.values))], q.refId, None))
      else
        Ok(AggregateFrame(s, q.refId))
    else
      Ok(Frame([Column("Count", NumberType, Some([Val(Or(s.count, Num(0.0)))]))], q.refId, None))
  }

  /**
   * `response.data.map(...)`: one frame per summary, summary i shaped with
   * target i; the first summary that throws makes the whole map throw.
   */
  function ShapeAll(qs: seq<SurveyQuery>, ss: seq<Summary>, parse: Value -> Value): (r: Result<seq<Frame>, ShapeError>)
    ensures r.Ok? <==> forall i | 0 <= i < |ss| :: Shape(QueryAt(qs, i), ss[i], parse).Ok?
    ensures r.Ok? ==> |r.value| == |ss|
    ensures r.Ok? ==> forall i | 0 <= i < |ss| :: r.value[i] == Shape(QueryAt(qs, i), ss[i], parse).value
    ensures r.Err? ==> exists i | 0 <= i < |ss| ::
      Shape(QueryAt(qs, i), ss[i], parse) == Err(r.error) &&
      forall j | 0 <= j < i :: Shape(QueryAt(qs, j), ss[j], parse).Ok?
  {
    if ss == [] then Ok([])
    else
      var n := |ss| - 1;
      match ShapeAll(qs, ss[..n], parse)
      case Err(e) => Err(e)
      case Ok(fs) =>
        match Shape(QueryAt(qs, n), ss[n], parse)
        case Err(e) => Err(e)
        case Ok(f) => Ok(fs + [f])
  }

  /** The frame layouts the dispatch can produce. */
  datatype Layout = ChoiceCounts | DateSamples | RawSamples | Aggregates | CountOnly

  /** Which layout a summary and its target call for. */
  function LayoutOf(q: SurveyQuery, s: Summary): Layout
  {
    if s.kind == Some(Str("single_choice")) || s.kind == Some(Str("multiple_choice")) then ChoiceCounts
    else if s.kind == Some(Str("date")) && q.queryText == Some("values") then DateSamples
    else if (s.kind == Some(Str("number")) || s.kind == Some(Str("rating"))) && q.queryText == Some("values") then RawSamples
    else if s.kind == Some(Str("number")) || s.kind == Some(Str("date")) || s.kind == Some(Str("rating")) then Aggregates
    else CountOnly
  }

  function ColumnsOf(l: Layout): seq<string>
  {
    match l
    case ChoiceCounts => ["Choice", "Count"]
    case DateSamples => ["Time", "Value"]
    case RawSamples => ["Values"]
    case Aggregates => ["Count", "Average", "Min", "Max", "Median", "Mode"]
    case CountOnly => ["Count"]
  }

  function KindsOf(l: Layout): seq<FieldType>
  {
    match l
    case ChoiceCounts => [StringType, NumberType]
    case DateSamples => [TimeType, NumberType]
    case RawSamples => [NumberType]
    case Aggregates => [NumberType, NumberType, NumberType, NumberType, NumberType, NumberType]
    case CountOnly => [NumberType]
  }

  function HintOf(l: Layout): Option<Visualisation>
  {
    match l
    case ChoiceCounts => Some(Graph)
    case Aggregates => Some(Table)
    case _ => None
  }
}
