/**
 * What the four schemas share: how a document's fields arrive (each may be
 * missing), and the built-in `required` check of Mongoose for each field type.
 */
module SchemaTypes {
  import opened Wrappers

  /** A reference to another document (`Schema.Types.ObjectId`). */
  type ObjectId = nat

  /** A `Date`, as milliseconds since the epoch; the clock is a parameter. */
  type Timestamp = int

  /** `required` on a String path: the value is present and not the empty string. */
  predicate RequiredString(v: Option<string>)
  {
    v.Some? && v.value != ""
  }

  /** `required` on a Number, ObjectId or Date path: the value is present. */
  predicate Required<T>(v: Option<T>)
  {
    v.Some?
  }

  /** An `enum` check passes a missing value and otherwise needs one of the listed values. */
  predicate InEnum(v: Option<string>, values: set<string>)
  {
    v.None? || v.value in values
  }

  /** A `default` fills in a missing value. */
  function WithDefault<T>(v: Option<T>, d: T): (r: T)
    ensures v.Some? ==> r == v.value
    ensures v.None? ==> r == d
  {
    match v
    case Some(x) => x
    case None => d
  }
}
