/** The Python side of the wrapper: the friendly enumerations `Blahtex.SPACING`
    and `Blahtex.ENCODING`, the values a caller can hand to an option, and the
    exceptions the wrapper raises. */
module Values {

  datatype Option<+T> = None | Some(value: T)

  datatype Result<+T, +E> = Ok(value: T) | Err(error: E)

  /** `Blahtex.SPACING` (a plain `enum.Enum`: its members equal only themselves). */
  datatype Spacing = STRICT | MODERATE | RELAXED

  /** `Blahtex.ENCODING`. */
  datatype Encoding = RAW | NUMERIC | SHORT | LONG

  /** A Python object passed as an option value or returned by an option read.
      `DictV` is a `dict` with string keys, in insertion order; `OtherV` is any
      other object, described only by its truth value. */
  datatype PyValue =
    | SpacingV(spacing: Spacing)
    | EncodingV(encoding: Encoding)
    | BoolV(b: bool)
    | StrV(s: string)
    | DictV(items: seq<(string, PyValue)>)
    | NoneV
    | OtherV(truthy: bool)

  /** One `key: value` entry of an options dictionary. */
  type Item = (string, PyValue)

  /** What a call on the wrapper can raise. `TypeError` is the binding's refusal
      to store a value of the wrong type in a typed engine field; `NoOutput` is
      the engine's refusal to hand out MathML before any conversion succeeded. */
  datatype PyError =
    | ValueError(message: string)
    | TypeError
    | BlahtexException(message: string)
    | NoOutput

  /** Python truthiness, as used by `not value`. Enum members are always true. */
  predicate Truthy(v: PyValue)
  {
    match v
    case SpacingV(_) => true
    case EncodingV(_) => true
    case BoolV(b) => b
    case StrV(s) => |s| > 0
    case DictV(items) => |items| > 0
    case NoneV => false
    case OtherV(t) => t
  }
}
