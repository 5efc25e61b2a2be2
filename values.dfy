/**
  Dynamically typed configuration values, as the JSON decoder hands them to the
  option code (Go's `interface{}`), and the two renderings of them that Go's fmt
  package produces and the option code relies on.
 */
module GoValues {

  /**
    One decoded configuration value. `Map` lists its entries in the order in which
    one `range` over the Go map visits them (Go leaves that order unspecified and
    randomises it); `Other` is any remaining dynamic type (a JSON number decodes to
    a float64), carrying its Go type name and its fmt `%v` text.
   */
  datatype Value =
    | Nil
    | Bool(b: bool)
    | Str(s: string)
    | List(elems: seq<Value>)
    | Map(entries: seq<(string, Value)>)
    | Other(goType: string, text: string)

  /** A Go map never holds one key twice. */
  predicate DistinctKeys(entries: seq<(string, Value)>)
  {
    forall i, j :: 0 <= i < j < |entries| ==> entries[i].0 != entries[j].0
  }

  function Join(parts: seq<string>, sep: string): string
  {
    if |parts| == 0 then ""
    else if |parts| == 1 then parts[0]
    else parts[0] + sep + Join(parts[1..], sep)
  }

  function BoolText(b: bool): string
  {
    if b then "true" else "false"
  }

  /** fmt's `%v` verb, which is also what `fmt.Sprint` produces. */
  function FormatV(v: Value): string
  {
    match v
    case Nil => "<nil>"
    case Bool(b) => BoolText(b)
    case Str(s) => s
    case Other(_, text) => text
    case List(xs) =>
      "[" + Join(seq(|xs|, i requires 0 <= i < |xs| => FormatV(xs[i])), " ") + "]"
    case Map(es) =>
      "map[" + Join(seq(|es|, i requires 0 <= i < |es| => es[i].0 + ":" + FormatV(es[i].1)), " ") + "]"
  }

  /**
    fmt's `%s` verb: a string is itself, lists and maps apply the verb to their
    elements, and any other value prints as a `%!s(type=value)` complaint.
   */
  function FormatS(v: Value): string
  {
    match v
    case Nil => "%!s(<nil>)"
    case Bool(b) => "%!s(bool=" + BoolText(b) + ")"
    case Str(s) => s
    case Other(t, text) => "%!s(" + t + "=" + text + ")"
    case List(xs) =>
      "[" + Join(seq(|xs|, i requires 0 <= i < |xs| => FormatS(xs[i])), " ") + "]"
    case Map(es) =>
      "map[" + Join(seq(|es|, i requires 0 <= i < |es| => es[i].0 + ":" + FormatS(es[i].1)), " ") + "]"
  }
}
