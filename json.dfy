/**
 * Decoded JSON values and Python dictionaries keyed by strings, as the
 * application reads them from the geolocation service and builds them for
 * its own responses and documents.
 */
module Json {

  /**
   * A decoded JSON scalar. A number keeps the text Python's `str()` gives for
   * it: numbers are only ever passed through or interpolated, never computed on.
   */
  datatype Value = Str(s: string) | Number(text: string) | Bool(b: bool) | Null

  /** A Python `dict` with string keys. */
  type Object = map<string, Value>

  /** Python's `d.get(key, default)`. */
  function Get(d: Object, key: string, default: Value): Value {
    if key in d then d[key] else default
  }

  /** Python's `str(v)`, as an f-string interpolates `v`. */
  function Display(v: Value): string {
    match v
    case Str(s) => s
    case Number(text) => text
    case Bool(b) => if b then "True" else "False"
    case Null => "None"
  }
}
