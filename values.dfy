/** The `unknown` values a connection hands out for its request data (params,
    query, body, headers), as far as the core inspects them: the JavaScript
    `typeof` classification and property lookup on objects. */
module Values {

  /** A JavaScript value. Arrays are objects whose properties are their index
      strings and `length`, which is all that property access sees of them;
      numbers are kept as reals and functions and symbols are opaque. */
  datatype Unknown =
    | Undefined
    | Null
    | Boolean(truth: bool)
    | Number(numeric: real)
    | BigInt(integer: int)
    | String(text: string)
    | Symbol(description: string)
    | Function
    | Object(properties: map<string, Unknown>)

  /** The JavaScript `typeof` operator; note that `typeof null` is "object". */
  function TypeOf(u: Unknown): string {
    match u
    case Undefined => "undefined"
    case Null => "object"
    case Boolean(_) => "boolean"
    case Number(_) => "number"
    case BigInt(_) => "bigint"
    case String(_) => "string"
    case Symbol(_) => "symbol"
    case Function => "function"
    case Object(_) => "object"
  }

  /** The core's `isUnknownRecord` guard: `u !== null && typeof u === 'object'`.
      It holds for exactly the object values. */
  function IsUnknownRecord(u: Unknown): (b: bool)
    ensures b <==> u.Object?
  {
    u != Null && TypeOf(u) == "object"
  }

  /** Property access `record[name]` on an object: a missing own property
      reads as `undefined`. */
  function Property(record: Unknown, name: string): Unknown
    requires record.Object?
  {
    if name in record.properties then record.properties[name] else Undefined
  }
}
