/** What the question mapping promises about labels and values. */
module QuestionProperties {
  import opened Wrappers
  import opened JsValues
  import opened Questions

  /** One step of the `||` chain: a truthy head wins, otherwise the rest decides. */
  lemma FirstTruthyStep(c: Option<Value>, cs: seq<Option<Value>>, q: Item)
    ensures FirstTruthy([c] + cs, q) == if Present(c) then Field(c.value) else FirstTruthy(cs, q)
  {
    assert ([c] + cs)[1..] == cs;
  }

  /**
   * The label is `label` when truthy, else `name`, else `title`, else `text`,
   * else `value`, else `id`, else the raw item.
   */
  lemma LabelPrecedence(q: Item)
    requires q.Record?
    ensures ToSelectable(q).Ok?
    ensures ToSelectable(q).value.labelPick ==
      if Present(q.labelProp) then Field(q.labelProp.value)
      else if Present(q.nameProp) then Field(q.nameProp.value)
      else if Present(q.titleProp) then Field(q.titleProp.value)
      else if Present(q.textProp) then Field(q.textProp.value)
      else if Present(q.valueProp) then Field(q.valueProp.value)
      else if Present(q.idProp) then Field(q.idProp.value)
      else Whole(q)
  {
    var s4 := [q.valueProp, q.idProp];
    var s3 := [q.textProp] + s4;
    var s2 := [q.titleProp] + s3;
    var s1 := [q.nameProp] + s2;
    var s0 := [q.labelProp] + s1;
    assert LabelChain(q) == s0;
    ValuePrecedence(q);
    assert FirstTruthy(s4, q) == ToSelectable(q).value.valuePick;
    FirstTruthyStep(q.textProp, s4, q);
    FirstTruthyStep(q.titleProp, s3, q);
    FirstTruthyStep(q.nameProp, s2, q);
    FirstTruthyStep(q.labelProp, s1, q);
  }

  /** The value is `value` when truthy, else `id`, else the raw item. */
  lemma ValuePrecedence(q: Item)
    requires q.Record?
    ensures ToSelectable(q).Ok?
    ensures ToSelectable(q).value.valuePick ==
      if Present(q.valueProp) then Field(q.valueProp.value)
      else if Present(q.idProp) then Field(q.idProp.value)
      else Whole(q)
  {
    FirstTruthyStep(q.idProp, [], q);
    FirstTruthyStep(q.valueProp, [q.idProp], q);
    assert [q.idProp] + [] == [q.idProp];
    assert ValueChain(q) == [q.valueProp] + [q.idProp];
  }

  /** With no truthy label, name, title or text, the label falls back to the same pick as the value. */
  lemma LabelFallsBackToValue(q: Item)
    requires q != Scalar(Null)
    requires q.Record? ==> !Present(q.labelProp) && !Present(q.nameProp) && !Present(q.titleProp) && !Present(q.textProp)
    ensures ToSelectable(q).Ok?
    ensures ToSelectable(q).value.labelPick == ToSelectable(q).value.valuePick
  {
    if q.Record? {
      LabelPrecedence(q);
      ValuePrecedence(q);
    }
  }

  /** A bare item other than `null` is its own label and its own value. */
  lemma ScalarIsItsOwnOption(q: Item)
    requires q.Scalar? && q.v != Null
    ensures ToSelectable(q) == Ok(SelectableValue(Whole(q), Whole(q)))
  {
  }
}
