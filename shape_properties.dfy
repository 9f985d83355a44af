/**
 * What the shaper promises: the error cases, the column names, types and
 * order of every layout, equal column lengths, what each cell holds, the
 * fallback default, and the positional pairing of frames with targets.
 */
module ShapeProperties {
  import opened Wrappers
  import opened JsValues
  import opened Frames
  import opened Shaper

  /** The two inputs on which the shaper throws. */
  predicate Throws(q: SurveyQuery, s: Summary)
  {
    || (IsChoiceKind(s.kind) && s.choices.None?)
    || (s.kind == Some(Str("date")) && WantsValues(q) && s.values.None?)
  }

  /** The shaper fails exactly on a choice summary without choices and a raw date summary without values. */
  lemma ShapeFailsIff(q: SurveyQuery, s: Summary, parse: Value -> Value)
    ensures Shape(q, s, parse) == Err(KeysOfMissing) <==> IsChoiceKind(s.kind) && s.choices.None?
    ensures Shape(q, s, parse) == Err(MapOfMissing) <==> s.kind == Some(Str("date")) && WantsValues(q) && s.values.None?
    ensures Shape(q, s, parse).Ok? <==> !Throws(q, s)
  {
  }

  /** Every frame has the column names, types and hint of its layout, and columns of equal length. */
  lemma ShapeLayout(q: SurveyQuery, s: Summary, parse: Value -> Value)
    requires Shape(q, s, parse).Ok?
    ensures Names(Shape(q, s, parse).value) == ColumnsOf(LayoutOf(q, s))
    ensures Kinds(Shape(q, s, parse).value) == KindsOf(LayoutOf(q, s))
    ensures Shape(q, s, parse).value.hint == HintOf(LayoutOf(q, s))
    ensures Rectangular(Shape(q, s, parse).value)
  {
    var f := Shape(q, s, parse).value;
    match LayoutOf(q, s)
    case ChoiceCounts =>
      assert HasRows(f, |s.choices.value|);
    case DateSamples =>
      assert HasRows(f, |s.values.value|);
    case RawSamples =>
      assert |f.fields| == 1;
    case Aggregates =>
      assert HasRows(f, 1);
    case CountOnly =>
      assert HasRows(f, 1);
  }

  /**
   * A choice summary gives exactly "Choice" then "Count"; the keys in order,
   * and beside key k the one-element list holding its count.
   */
  lemma ChoiceShape(q: SurveyQuery, s: Summary, parse: Value -> Value)
    requires IsChoiceKind(s.kind) && s.choices.Some?
    ensures Shape(q, s, parse).Ok?
    ensures var f := Shape(q, s, parse).value; var m := s.choices.value;
      && |f.fields| == 2
      && f.fields[0] == Column("Choice", StringType, f.fields[0].values)
      && f.fields[1] == Column("Count", NumberType, f.fields[1].values)
      && f.fields[0].values.Some? && |f.fields[0].values.value| == |m|
      && f.fields[1].values.Some? && |f.fields[1].values.value| == |m|
      && (forall k | 0 <= k < |m| ::
            f.fields[0].values.value[k] == Val(Str(m[k].0)) &&
            f.fields[1].values.value[k] == List([Val(m[k].1)]))
      && f.refId == q.refId
      && f.hint == Some(Graph)
  {
    var m := s.choices.value;
    forall k | 0 <= k < |m|
      ensures Lookup(m, m[k].0) == Some(m[k].1)
    {
      LookupAt(m, k);
    }
  }

  /** A frame read back as a choice map: key column zipped with the wrapped counts. */
  function ReadChoices(f: Frame): Option<seq<(string, Value)>>
  {
    if |f.fields| == 2 && f.fields[0].values.Some? && f.fields[1].values.Some? then
      var keys := f.fields[0].values.value;
      var counts := f.fields[1].values.value;
      if |keys| == |counts| &&
         forall k | 0 <= k < |keys| ::
           keys[k].Val? && keys[k].v.Str? && counts[k].List? && |counts[k].items| == 1 && counts[k].items[0].Val?
      then
        Some(seq(|keys|, k requires 0 <= k < |keys| && keys[k].Val? && keys[k].v.Str? &&
                                     counts[k].List? && |counts[k].items| == 1 && counts[k].items[0].Val? =>
                 (keys[k].v.s, counts[k].items[0].v)))
      else None
    else None
  }

  /** A choice frame loses nothing: reading it back gives the choices object, entry for entry. */
  lemma ChoicesRoundTrip(q: SurveyQuery, s: Summary, parse: Value -> Value)
    requires IsChoiceKind(s.kind) && s.choices.Some?
    ensures Shape(q, s, parse).Ok?
    ensures ReadChoices(Shape(q, s, parse).value) == Some(s.choices.value)
  {
    ChoiceShape(q, s, parse);
    var m := s.choices.value;
    var r := ReadChoices(Shape(q, s, parse).value);
    assert r.Some?;
    assert |r.value| == |m|;
    forall k | 0 <= k < |m|
      ensures r.value[k] == m[k]
    {
    }
    assert r.value == m;
  }

  /** A raw date summary gives "Time" = `Date.parse` of each value and "Value" = 1, row for row. */
  lemma DateValuesShape(q: SurveyQuery, s: Summary, parse: Value -> Value)
    requires s.kind == Some(Str("date")) && WantsValues(q) && s.values.Some?
    ensures Shape(q, s, parse).Ok?
    ensures var f := Shape(q, s, parse).value; var vs := s.values.value;
      && |f.fields| == 2
      && f.fields[0] == Column("Time", TimeType, f.fields[0].values)
      && f.fields[1] == Column("Value", NumberType, f.fields[1].values)
      && f.fields[0].values.Some? && |f.fields[0].values.value| == |vs|
      && f.fields[1].values.Some? && |f.fields[1].values.value| == |vs|
      && (forall i | 0 <= i < |vs| ::
            f.fields[0].values.value[i] == Val(parse(vs[i])) &&
            f.fields[1].values.value[i] == Val(Num(1.0)))
      && f.refId == q.refId
      && f.hint == None
  {
  }

  /** A raw number or rating summary gives one "Values" column holding the values unchanged and in order. */
  lemma RawValuesShape(q: SurveyQuery, s: Summary, parse: Value -> Value)
    requires s.kind == Some(Str("number")) || s.kind == Some(Str("rating"))
    requires WantsValues(q)
    ensures Shape(q, s, parse).Ok?
    ensures var f := Shape(q, s, parse).value;
      && |f.fields| == 1
      && f.fields[0].name == "Values" && f.fields[0].kind == NumberType
      && (s.values.None? <==> f.fields[0].values.None?)
      && (s.values.Some? ==>
            && |f.fields[0].values.value| == |s.values.value|
            && forall i | 0 <= i < |s.values.value| :: f.fields[0].values.value[i] == Val(s.values.value[i]))
      && f.refId == q.refId
      && f.hint == None
  {
  }

  /** The summary fields the aggregate columns report, in column order. */
  function AggregateFields(s: Summary): seq<Option<Value>>
  {
    [s.count, s.average, s.min, s.max, s.median, s.mode]
  }

  /** An aggregate summary gives six one-row columns, each holding its field or `undefined`. */
  lemma AggregateShape(q: SurveyQuery, s: Summary, parse: Value -> Value)
    requires IsStatKind(s.kind) && !WantsValues(q)
    ensures Shape(q, s, parse).Ok?
    ensures var f := Shape(q, s, parse).value;
      && Names(f) == ["Count", "Average", "Min", "Max", "Median", "Mode"]
      && |f.fields| == 6
      && (forall c | 0 <= c < 6 ::
            f.fields[c].kind == NumberType &&
            f.fields[c].values == Some([CellOf(AggregateFields(s)[c])]))
      && f.refId == q.refId
      && f.hint == Some(Table)
  {
    var f := Shape(q, s, parse).value;
    assert Names(f) == ["Count", "Average", "Min", "Max", "Median", "Mode"];
  }

  /**
   * Any other or absent type gives one "Count" cell holding `count` when it is
   * truthy and 0 otherwise; it never throws.
   */
  lemma FallbackShape(q: SurveyQuery, s: Summary, parse: Value -> Value)
    requires !IsChoiceKind(s.kind) && !IsStatKind(s.kind)
    ensures Shape(q, s, parse).Ok?
    ensures var f := Shape(q, s, parse).value;
      && |f.fields| == 1
      && f.fields[0].name == "Count" && f.fields[0].kind == NumberType
      && f.fields[0].values == Some([if Present(s.count) then Val(s.count.value) else Val(Num(0.0))])
      && f.refId == q.refId
      && f.hint == None
  {
  }

  /** The batch succeeds exactly when no summary throws. */
  lemma BatchOkIff(qs: seq<SurveyQuery>, ss: seq<Summary>, parse: Value -> Value)
    ensures ShapeAll(qs, ss, parse).Ok? <==> forall i | 0 <= i < |ss| :: !Throws(QueryAt(qs, i), ss[i])
  {
    forall i | 0 <= i < |ss|
      ensures Shape(QueryAt(qs, i), ss[i], parse).Ok? <==> !Throws(QueryAt(qs, i), ss[i])
    {
      ShapeFailsIff(QueryAt(qs, i), ss[i], parse);
    }
  }

  /**
   * One frame per summary; frame i carries the refId of target i, and none
   * past the last target, whatever mix of types the summaries have.
   */
  lemma BatchCorrelation(qs: seq<SurveyQuery>, ss: seq<Summary>, parse: Value -> Value)
    requires ShapeAll(qs, ss, parse).Ok?
    ensures |ShapeAll(qs, ss, parse).value| == |ss|
    ensures forall i | 0 <= i < |ss| ::
      ShapeAll(qs, ss, parse).value[i].refId == (if i < |qs| then qs[i].refId else None)
    ensures forall i | 0 <= i < |ss| ::
      ShapeAll(qs, ss, parse).value[i] ==
        Shape(if i < |qs| then qs[i] else SurveyQuery(None, None, None, None), ss[i], parse).value
  {
  }
}
