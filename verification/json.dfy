/**
 * The few JSON shapes the data manager handles, JavaScript truthiness over
 * them, and what reading one key of the browser's key-value store yields.
 */
module Json {

  datatype Option<+T> = None | Some(value: T)

  /** A scalar JSON value, as stored under one configuration key. */
  datatype Value = Null | Bool(b: bool) | Num(x: real) | Str(s: string)

  /** JavaScript truthiness: `null`, `false`, `0` and `""` are falsy. */
  predicate Truthy(v: Value) {
    match v
    case Null => false
    case Bool(b) => b
    case Num(x) => x != 0.0
    case Str(s) => s != ""
  }

  /**
   * What `getItem` followed by `JSON.parse` gives for one key: nothing stored
   * (`null`, or the falsy empty string), text that does not parse, or a
   * parsed payload.
   */
  datatype Slot<+T> = Missing | Unparseable | Parsed(value: T) {

    /** The load rule of every section: a parsed payload, else the default. */
    function GetOr(default: T): (r: T)
      ensures Parsed? ==> r == value
      ensures !Parsed? ==> r == default
    {
      if Parsed? then value else default
    }
  }
}
