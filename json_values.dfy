/**
 * The loosely typed records the coordinate pipeline passes around: a decoded
 * JSON value, and a box, which is a Python dict from key to value.
 */
module JsonValues {

  /** A decoded JSON value; numbers stay `int` or `float` as the decoder gives them. */
  datatype Json =
    | JNull
    | JBool(b: bool)
    | JInt(i: int)
    | JFloat(f: real)
    | JString(s: string)
    | JArray(items: seq<Json>)
    | JObject(fields: map<string, Json>)

  /**
   * What `json.loads` does with a text: the decoded object, a `JSONDecodeError`,
   * or another exception, such as a `RecursionError` on deeply nested input or a
   * `ValueError` on an integer with too many digits.
   */
  datatype Decoded = Document(data: map<string, Json>) | DecodeError | OtherError

  /** A candidate or tracked box: a dict that should carry `x`, `y`, `width` and `height`. */
  type Box = map<string, Json>

  /** The four keys every box is checked for, in the order the program lists them. */
  const BoxKeys: seq<string> := ["x", "y", "width", "height"]

  /** `isinstance(v, (int, float))`; Python's `bool` is a subclass of `int`, so it passes too. */
  predicate IsNumber(v: Json) {
    v.JInt? || v.JFloat? || v.JBool?
  }

  /** The number Python computes with: `True` and `False` act as 1 and 0. */
  function NumberValue(v: Json): real
    requires IsNumber(v)
  {
    match v
    case JInt(i) => i as real
    case JFloat(f) => f
    case JBool(b) => if b then 1.0 else 0.0
  }

  /** All four keys are present, whatever their values (`all(key in d for key in ...)`). */
  predicate HasAllKeys(b: Box) {
    "x" in b && "y" in b && "width" in b && "height" in b
  }

  /** All four keys are present and hold numbers. */
  predicate HasNumericFields(b: Box) {
    HasAllKeys(b) && IsNumber(b["x"]) && IsNumber(b["y"]) && IsNumber(b["width"]) && IsNumber(b["height"])
  }

  /** All four keys hold Python ints. */
  predicate HasIntFields(b: Box) {
    HasAllKeys(b) && b["x"].JInt? && b["y"].JInt? && b["width"].JInt? && b["height"].JInt?
  }

  /** The numeric value under `key`. */
  function Coord(b: Box, key: string): real
    requires key in b && IsNumber(b[key])
  {
    NumberValue(b[key])
  }

  /** The dict `{'x': x, 'y': y, 'width': width, 'height': height}` of Python ints. */
  function IntBox(x: int, y: int, width: int, height: int): (b: Box)
    ensures HasIntFields(b) && HasNumericFields(b) && b.Keys == {"x", "y", "width", "height"}
    ensures Coord(b, "x") == x as real && Coord(b, "y") == y as real
    ensures Coord(b, "width") == width as real && Coord(b, "height") == height as real
  {
    map["x" := JInt(x), "y" := JInt(y), "width" := JInt(width), "height" := JInt(height)]
  }
}
