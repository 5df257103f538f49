/** JSON-like values as the redactor meets them, and how text becomes a number. */
module JsonValues {

  datatype Json =
    | Null
    | Bool(truth: bool)
    | Number(value: real)
    | Text(content: string)
    | List(items: seq<Json>)
    | Dict(fields: map<string, Json>)

  /** A number, if there is one. */
  datatype Figure = Missing | Figure(value: real)

  /** `float(text.strip())`: what text a number is written as is left open. */
  type Parser = string -> Figure

  /** `source.get(key)` on a dictionary. */
  function Get(fields: map<string, Json>, key: string): Json {
    if key in fields then fields[key] else Null
  }

  /** Python's truth value. */
  predicate Truthy(v: Json) {
    match v
    case Null => false
    case Bool(truth) => truth
    case Number(value) => value != 0.0
    case Text(content) => content != []
    case List(items) => items != []
    case Dict(fields) => fields != map[]
  }

  /** `_num`. */
  function Num(v: Json, parse: Parser): Figure {
    match v
    case Number(value) => Figure(value)
    case Text(content) => parse(content)
    case _ => Missing
  }

  /** `_is_quantity`. */
  predicate IsQuantity(v: Json, parse: Parser) { Num(v, parse).Figure? }

  /** A step that may raise. */
  datatype Attempt<+T> = Raises | Works(value: T)

  /** What iterating over `value or []` gives; numbers and True raise.  The keys of a dictionary
      are text, which every consumer of the rows skips, so only their number matters. */
  function Rows(v: Json): Attempt<seq<Json>> {
    if !Truthy(v) then Works([])
    else match v
      case List(items) => Works(items)
      case Text(content) => Works(seq(|content|, _ => Text("")))
      case Dict(fields) => Works(seq(|fields|, _ => Text("")))
      case _ => Raises
  }

  /** The dictionary behind `value or {}`; anything else that is truthy raises on `.get`. */
  function Fields(v: Json): Attempt<map<string, Json>> {
    if !Truthy(v) then Works(map[])
    else if v.Dict? then Works(v.fields)
    else Raises
  }
}
