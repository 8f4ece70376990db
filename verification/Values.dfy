/** JavaScript values of the kinds that rules and filters compare, and what is left open about comparing them. */
module Values {
  import opened Strings

  /** A number is held by the text that `String(n)` prints for it. */
  datatype Value = Str(s: string) | Num(text: string) | Bool(b: bool) | Null | Undefined

  const ONE := Num("1")
  const ZERO := Num("0")

  type Row = map<string, Value>

  function Column(row: Row, field: string): Value {
    if field in row then row[field] else Undefined
  }

  /** Not an SQL NULL: a row without the column, or with null in it, has nothing stored there. */
  predicate Stored(v: Value) {
    !v.Null? && !v.Undefined?
  }

  /** `String(v ?? '')` */
  function TextOf(v: Value, w: World): string {
    if Stored(v) then w.text(v) else ""
  }

  /** `String(v)` of a value read from a filter, where null is a word. */
  function StringOf(v: Value, w: World): string {
    if v.Null? then "null" else w.text(v)
  }

  /**
   * The parts of the two runtimes that stay opaque: comparing two values in JavaScript (`jsCompare`) and a column
   * with a bound parameter in SQLite (`sqlCompare`), truthiness, the text of a stored value inside `~`, case folding,
   * and which texts `Number` accepts (with the text of the number read).
   */
  datatype World = World(
    jsCompare: (string, Value, Value) -> bool,
    sqlCompare: (string, Value, Value) -> bool,
    truthy: Value -> bool,
    text: Value -> string,
    fold: char -> char,
    number: string -> Option<string>)
}
