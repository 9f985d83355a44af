/**
 * The item mapping of `DataSource.getQuestions`: each item of the backend's
 * question list becomes a `{label, value}` pair, each picked as the first
 * truthy of a chain of property names, falling back to the item itself.
 */
module Questions {
  import opened Wrappers
  import opened JsValues

  /**
   * One item of the question list: an object with the properties the chain
   * looks at (any of them absent), or a bare value such as a string. A bare
   * `Obj` stands for an array, or an object that has none of the six
   * properties.
   */
  datatype Item =
    | Record(labelProp: Option<Value>, nameProp: Option<Value>, titleProp: Option<Value>,
             textProp: Option<Value>, valueProp: Option<Value>, idProp: Option<Value>)
    | Scalar(v: Value)

  /** What a chain yields: one property's value, or the whole item. */
  datatype Pick = Field(v: Value) | Whole(item: Item)

  /** The `{label, value}` pair (`label` is a reserved word in Dafny, hence the field names). */
  datatype SelectableValue = SelectableValue(labelPick: Pick, valuePick: Pick)

  /** Reading a property of a `null` item throws a `TypeError`. */
  datatype QuestionError = PropertyOfNull

  /** `q.label || q.name || q.title || q.text || q.value || q.id`, as the reads in order. */
  function LabelChain(q: Item): seq<Option<Value>>
  {
    match q
    case Record(label', name, title, text, value, id) => [label', name, title, text, value, id]
    case Scalar(_) => []   // a bare value has none of these properties
  }

  /** `q.value || q.id`, as the reads in order. */
  function ValueChain(q: Item): seq<Option<Value>>
  {
    match q
    case Record(_, _, _, _, value, id) => [value, id]
    case Scalar(_) => []
  }

  /** `cs[0] || cs[1] || ... || q`: the first truthy read, otherwise the item. */
  function FirstTruthy(cs: seq<Option<Value>>, q: Item): (r: Pick)
    ensures r.Whole? <==> forall j | 0 <= j < |cs| :: !Present(cs[j])
    ensures r.Whole? ==> r.item == q
    ensures r.Field? ==> exists k | 0 <= k < |cs| ::
      Present(cs[k]) && r.v == cs[k].value && forall j | 0 <= j < k :: !Present(cs[j])
  {
    if cs == [] then Whole(q)
    else if Present(cs[0]) then Field(cs[0].value)
    else
      var r := FirstTruthy(cs[1..], q);
      assert forall j | 1 <= j < |cs| :: cs[j] == cs[1..][j - 1];
      r
  }

  /** One item as a `{label, value}` pair. */
  function ToSelectable(q: Item): (r: Result<SelectableValue, QuestionError>)
    ensures r.Err? <==> q == Scalar(Null)
  {
    if q == Scalar(Null) then Err(PropertyOfNull)
    else Ok(SelectableValue(FirstTruthy(LabelChain(q), q), FirstTruthy(ValueChain(q), q)))
  }

  /** `response.data.map(...)`: one pair per item, in order; a `null` item makes the map throw. */
  function QuestionOptions(items: seq<Item>): (r: Result<seq<SelectableValue>, QuestionError>)
    ensures r.Ok? <==> forall i | 0 <= i < |items| :: items[i] != Scalar(Null)
    ensures r.Ok? ==> |r.value| == |items|
    ensures r.Ok? ==> forall i | 0 <= i < |items| :: Ok(r.value[i]) == ToSelectable(items[i])
  {
    if items == [] then Ok([])
    else
      var n := |items| - 1;
      match QuestionOptions(items[..n])
      case Err(e) => Err(e)
      case Ok(ps) =>
        match ToSelectable(items[n])
        case Err(e) => Err(e)
        case Ok(p) => Ok(ps + [p])
  }
}
