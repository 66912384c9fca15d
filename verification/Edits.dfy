/** The values both sides exchange: shapes, edits and the checks the server makes on an edit. */
module Edits {

  import opened Wrappers

  /** A UUID, seen only through equality. */
  datatype Uuid = Uuid(bits: nat)

  /** `look` stands for the attributes that nothing in the model inspects (colour, position, points, ...). */
  datatype Shape = Shape(
    shapeId: Uuid,
    lineSize: real,
    height: real,
    width: real,
    radiusX: real,
    radiusY: real,
    scaleX: real,
    scaleY: real,
    urlLength: nat,
    look: int)

  datatype Edit =
    | Add(id: Uuid, shape: Option<Shape>)
    | Remove(id: Uuid, shapes: seq<Shape>)
    | Modify(id: Uuid, current: seq<Shape>, initial: seq<Shape>)

  datatype PushError = WrongValue(message: string)

  const MAX_DIMENSION_SIZE := 10_000
  const MAX_IMAGE_LENGTH: nat := 65_534

  predicate ValidShape(shape: Shape) {
    var limit := MAX_DIMENSION_SIZE as real;
    && shape.lineSize <= limit
    && shape.height <= limit && shape.width <= limit
    && shape.radiusX <= limit && shape.radiusY <= limit
    && shape.scaleX <= limit && shape.scaleY <= limit
    && shape.urlLength <= MAX_IMAGE_LENGTH
  }

  /** Every shape an edit lists. */
  function ShapesOf(edit: Edit): set<Shape> {
    match edit
    case Add(_, shape) => if shape.Some? then {shape.value} else {}
    case Remove(_, shapes) => set s <- shapes
    case Modify(_, current, initial) => (set s <- current) + (set s <- initial)
  }

  predicate ValidEdit(edit: Edit) {
    match edit
    case Add(_, shape) => shape.Some? && ValidShape(shape.value)
    case Remove(_, shapes) => forall s <- shapes :: ValidShape(s)
    case Modify(_, current, initial) =>
      (forall s <- current :: ValidShape(s)) && (forall s <- initial :: ValidShape(s))
  }

  /** An edit is valid exactly when every shape it lists is within the numeric limits, and an Add has a shape. */
  lemma {:induction false} ValidEditIff(edit: Edit)
    ensures ValidEdit(edit) <==> (edit.Add? ==> edit.shape.Some?) && forall shape <- ShapesOf(edit) ::
              && shape.lineSize <= 10_000.0 && shape.height <= 10_000.0 && shape.width <= 10_000.0
              && shape.radiusX <= 10_000.0 && shape.radiusY <= 10_000.0
              && shape.scaleX <= 10_000.0 && shape.scaleY <= 10_000.0 && shape.urlLength <= 65_534
  {
    match edit
    case Add(_, shape) => assert shape.Some? ==> shape.value in ShapesOf(edit);
    case Remove(_, shapes) => assert forall s <- shapes :: s in ShapesOf(edit);
    case Modify(_, current, initial) =>
      assert forall s <- current :: s in ShapesOf(edit);
      assert forall s <- initial :: s in ShapesOf(edit);
  }
}
