/**
 * The columnar frame handed to the charting host: an ordered sequence of
 * named, typed columns, the refId of the target it answers and an optional
 * preferred visualisation. A column holds the cells given to the frame
 * constructor, or no array at all when the shaper passed `undefined`.
 */
module Frames {
  import opened Wrappers
  import opened JsValues

  /** One cell: `undefined`, a primitive, or a JavaScript array of cells. */
  datatype Cell = Undefined | Val(v: Value) | List(items: seq<Cell>)

  /** The cell a property read yields: `undefined` when absent. */
  function CellOf(o: Option<Value>): Cell
  {
    match o
    case None => Undefined
    case Some(v) => Val(v)
  }

  /** The host's field type tag, reduced to the three the shaper uses. */
  datatype FieldType = StringType | NumberType | TimeType

  /** The value of `meta.preferredVisualisationType`. */
  datatype Visualisation = Graph | Table

  datatype Column = Column(name: string, kind: FieldType, values: Option<seq<Cell>>)

  datatype Frame = Frame(fields: seq<Column>, refId: Option<string>, hint: Option<Visualisation>)

  /** The column names of a frame, in order. */
  function Names(f: Frame): seq<string>
  {
    seq(|f.fields|, i requires 0 <= i < |f.fields| => f.fields[i].name)
  }

  /** The column types of a frame, in order. */
  function Kinds(f: Frame): seq<FieldType>
  {
    seq(|f.fields|, i requires 0 <= i < |f.fields| => f.fields[i].kind)
  }

  /** Every column that holds an array holds exactly `n` cells. */
  predicate HasRows(f: Frame, n: nat)
  {
    forall i | 0 <= i < |f.fields| :: f.fields[i].values.Some? ==> |f.fields[i].values.value| == n
  }

  /** All columns that hold an array have the same length. */
  predicate Rectangular(f: Frame)
  {
    forall i, j | 0 <= i < |f.fields| && 0 <= j < |f.fields| ::
      f.fields[i].values.Some? && f.fields[j].values.Some? ==>
        |f.fields[i].values.value| == |f.fields[j].values.value|
  }
}
