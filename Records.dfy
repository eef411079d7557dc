/** The dictionaries the backend passes around: database rows, JSON objects
    and programme records, each a map from field names to dynamically typed
    values. The helpers give Python's `dict.get`, truthiness, `a or b` and
    `str(v)` their meaning on these values. */
module Records {
  import opened Wrappers
  import opened Text

  /** A JSON-like value; `Null` is Python's `None`. */
  datatype Value =
    | Null
    | Bool(b: bool)
    | Int(i: int)
    | Str(s: string)
    | List(items: seq<Value>)
    | Dict(fields: map<string, Value>)

  type Record = map<string, Value>

  /** Errors Python raises on malformed records. */
  datatype Error =
    | KeyError(key: string)
    | TypeError
    | ValueError(text: string)
    | AttributeError

  /** `r.get(k)`. */
  function Get(r: Record, k: string): Value {
    if k in r then r[k] else Null
  }

  /** `r.get(k, d)`. */
  function GetOr(r: Record, k: string, d: Value): Value {
    if k in r then r[k] else d
  }

  /** Python truthiness. */
  predicate Truthy(v: Value) {
    match v
    case Null => false
    case Bool(b) => b
    case Int(i) => i != 0
    case Str(s) => s != ""
    case List(xs) => xs != []
    case Dict(m) => m != map[]
  }

  /** Python's `a or b`: the first operand if it is truthy, else the second. */
  function Or(a: Value, b: Value): (r: Value)
    ensures Truthy(r) <==> Truthy(a) || Truthy(b)
    ensures r == a || r == b
  {
    if Truthy(a) then a else b
  }

  /** `str(v)` for the scalar values the rows hold. */
  function StrOf(v: Value): string {
    match v
    case Null => "None"
    case Bool(b) => if b then "True" else "False"
    case Int(i) => IntToString(i)
    case Str(s) => s
    case List(_) => "[...]"
    case Dict(_) => "{...}"
  }

  /** A channel number column holds a usable number: truthy, not blank
      after stripping, and not "0". */
  predicate ValidNumber(v: Value) {
    Truthy(v) && Strip(StrOf(v)) != "" && Strip(StrOf(v)) != "0"
  }

  /** Python can hash the value: a list or a dict is neither a dictionary
      key nor a set member, and using one as such raises `TypeError`. */
  predicate Hashable(v: Value) { !v.List? && !v.Dict? }

  /** `None` or a text that is blank after stripping. */
  predicate Blank(v: Value) {
    v == Null || (v.Str? && Strip(v.s) == "")
  }

  /** The record with the given keys popped. */
  function Without(r: Record, keys: set<string>): (q: Record)
    ensures q.Keys == r.Keys - keys
    ensures forall k | k in q :: q[k] == r[k]
  {
    map k | k in r && k !in keys :: r[k]
  }

  /** `datetime.fromisoformat(program[key])`, with `parse` the parser:
      KeyError for a missing key, TypeError for a value that is not text,
      ValueError for text `parse` rejects. */
  function IsoField<T>(p: Record, key: string, parse: string -> Option<T>): (r: Result<T, Error>)
    ensures key !in p ==> r == Failure(KeyError(key))
    ensures key in p && !p[key].Str? ==> r == Failure(TypeError)
    ensures key in p && p[key].Str? && parse(p[key].s).None? ==> r == Failure(ValueError(p[key].s))
    ensures r.Success? <==> key in p && p[key].Str? && parse(p[key].s).Some?
    ensures r.Success? ==> Some(r.value) == parse(p[key].s)
  {
    if key !in p then Failure(KeyError(key))
    else match p[key]
      case Str(s) =>
        (match parse(s)
         case Some(t) => Success(t)
         case None => Failure(ValueError(s)))
      case _ => Failure(TypeError)
  }
}
