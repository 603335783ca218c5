/** The structured values that cross the method channel (flutter::EncodableValue),
    and the conversions the delegate applies to optional C++ values. */
module Values {

  datatype Option<+T> = None | Some(value: T)

  newtype int32 = x: int | -0x8000_0000 <= x < 0x8000_0000
  newtype int64 = x: int | -0x8000_0000_0000_0000 <= x < 0x8000_0000_0000_0000

  /** An encodable value. Floating-point and typed-list variants are not modelled;
      map keys are strings, which is all this delegate ever builds or reads. */
  datatype Value =
    | Null
    | Bool(b: bool)
    | I32(i: int32)
    | I64(l: int64)
    | Str(s: string)
    | List(items: seq<Value>)
    | Map(entries: map<string, Value>)

  /** Reads a value back as an optional string: Null is "no string", anything
      other than Null or Str is not an optional string at all. */
  function StringOrNull(v: Value): Option<Option<string>>
  {
    match v
    case Null => Some(None)
    case Str(s) => Some(Some(s))
    case _ => None
  }

  /** Reads a value back as an optional bool. */
  function BoolOrNull(v: Value): Option<Option<bool>>
  {
    match v
    case Null => Some(None)
    case Bool(b) => Some(Some(b))
    case _ => None
  }

  /** make_fl_value on a std::optional<std::string>: nullopt becomes Null.
      The conversion loses nothing. */
  function OptionalString(s: Option<string>): (v: Value)
    ensures v.Null? || v.Str?
    ensures StringOrNull(v) == Some(s)
  {
    match s
    case None => Null
    case Some(x) => Str(x)
  }

  /** make_fl_value on a std::optional<bool>. */
  function OptionalBool(b: Option<bool>): (v: Value)
    ensures v.Null? || v.Bool?
    ensures BoolOrNull(v) == Some(b)
  {
    match b
    case None => Null
    case Some(x) => Bool(x)
  }
}
