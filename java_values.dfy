/** The Java values that flow through the table model's cells.
    A cell is read and written as a `java.lang.Object`; the model keeps the
    four kinds the row record stores and lumps every other class together. */
module JavaValues {

  datatype Option<T> = None | Some(value: T)

  /** A Java `int`, and so the range of a non-null `Integer`. */
  type Int32 = x: int | -0x8000_0000 <= x < 0x8000_0000

  /** A reference of static type `Object`: null, a `String`, an `Integer`,
      a `Double`, or an object of any other class (told apart by `id`).
      A `Double` is only stored and handed back, so it is kept as a `real`. */
  datatype Value =
    | Null
    | Str(s: string)
    | Integer(i: Int32)
    | Double(d: real)
    | Other(id: nat)

  /** References of static type `String`, `Integer` and `Double`: each may be null. */
  type StringValue = v: Value | v.Null? || v.Str? witness Null
  type IntegerValue = v: Value | v.Null? || v.Integer? witness Null
  type DoubleValue = v: Value | v.Null? || v.Double? witness Null

  /** The classes a column can report to the view. */
  datatype ColumnClass = ObjectClass | IntegerClass | DoubleClass | StringClass

  /** Java's `instanceof`: null is an instance of no class. */
  predicate InstanceOf(v: Value, k: ColumnClass) {
    match k
    case ObjectClass => !v.Null?
    case IntegerClass => v.Integer?
    case DoubleClass => v.Double?
    case StringClass => v.Str?
  }

  /** A reference cast `(C) v` succeeds exactly when `v` is null or an instance of `C`. */
  predicate CastSucceeds(v: Value, k: ColumnClass) {
    v.Null? || InstanceOf(v, k)
  }
}
