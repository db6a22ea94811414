/**
 * The Python values that travel through the core: what `json.loads` produces (None, bool,
 * int, str, list, dict), plus the few Python operations the core applies to them.
 * `json.loads` and `json.dumps` themselves are library code and enter as an oracle (`Codec`).
 */
module Json {
  import opened Wrappers
  import PyDict
  import PyStr

  datatype Json =
    | JNull
    | JBool(b: bool)
    | JInt(i: int)
    | JStr(s: string)
    | JList(items: seq<Json>)
    | JObj(fields: PyDict.Entries<Json>)

  /** Python truthiness (`if v:`, `v or w`). */
  predicate Truthy(v: Json) {
    match v
    case JNull => false
    case JBool(b) => b
    case JInt(i) => i != 0
    case JStr(s) => s != ""
    case JList(xs) => xs != []
    case JObj(fs) => fs != []
  }

  /** `a or b`. */
  function Or(a: Json, b: Json): Json {
    if Truthy(a) then a else b
  }

  /** `type(v).__name__`. */
  function TypeName(v: Json): string {
    match v
    case JNull => "NoneType"
    case JBool(_) => "bool"
    case JInt(_) => "int"
    case JStr(_) => "str"
    case JList(_) => "list"
    case JObj(_) => "dict"
  }

  /**
   * `str(v)` (and `f"{v}"`): scalars are written out; for lists and dicts Python's `repr`
   * is passed in.
   */
  function Str(v: Json, reprOf: Json -> string): string {
    match v
    case JNull => "None"
    case JBool(b) => if b then "True" else "False"
    case JInt(i) => PyStr.IntToString(i)
    case JStr(s) => s
    case _ => reprOf(v)
  }

  /** The message of the AttributeError raised by `v.attr` on a value without it. */
  function NoAttribute(v: Json, attr: string): string {
    "'" + TypeName(v) + "' object has no attribute '" + attr + "'"
  }

  /** `v.get(k, default)`: only a dict has `get`. */
  function GetOr(v: Json, k: string, default: Json): Result<Json, string> {
    if v.JObj? then Success(PyDict.GetOr(v.fields, k, default)) else Failure(NoAttribute(v, "get"))
  }

  /** `v.get(k)`, whose default is None. */
  function Get(v: Json, k: string): Result<Json, string> {
    GetOr(v, k, JNull)
  }

  /** An `int` operand of arithmetic: Python's bool is an int subclass. */
  predicate IsNumber(v: Json) {
    v.JInt? || v.JBool?
  }

  function NumberValue(v: Json): int
    requires IsNumber(v)
  {
    if v.JInt? then v.i else if v.b then 1 else 0
  }

  predicate IsSequence(v: Json) {
    v.JStr? || v.JList?
  }

  function RepeatSeq<T>(s: seq<T>, n: int): (r: seq<T>)
    ensures |r| == if n <= 0 then 0 else n * |s|
    decreases if n <= 0 then 0 else n
  {
    if n <= 0 then [] else s + RepeatSeq(s, n - 1)
  }

  function Repeat(v: Json, n: int): Json
    requires IsSequence(v)
  {
    if v.JStr? then JStr(RepeatSeq(v.s, n)) else JList(RepeatSeq(v.items, n))
  }

  /** `a * b`, with the TypeError messages CPython gives when it is undefined. */
  function Mul(a: Json, b: Json): Result<Json, string> {
    if IsNumber(a) && IsNumber(b) then Success(JInt(NumberValue(a) * NumberValue(b)))
    else if IsSequence(a) && IsNumber(b) then Success(Repeat(a, NumberValue(b)))
    else if IsNumber(a) && IsSequence(b) then Success(Repeat(b, NumberValue(a)))
    else if IsSequence(a) then Failure("can't multiply sequence by non-int of type '" + TypeName(b) + "'")
    else if IsSequence(b) then Failure("can't multiply sequence by non-int of type '" + TypeName(a) + "'")
    else Failure("unsupported operand type(s) for *: '" + TypeName(a) + "' and '" + TypeName(b) + "'")
  }

  /** `v == 0` (False equals 0 in Python). */
  predicate EqualsZero(v: Json) {
    v == JInt(0) || v == JBool(false)
  }

  /** `v > 0`, a TypeError unless `v` is a number. */
  function GreaterThanZero(v: Json): Result<bool, string> {
    if IsNumber(v) then Success(NumberValue(v) > 0)
    else Failure("'>' not supported between instances of '" + TypeName(v) + "' and 'int'")
  }

  /** `key in v` for a string key: dict keys, substrings, list members. */
  function ContainsKey(v: Json, key: string): Result<bool, string> {
    match v
    case JObj(fs) => Success(key in PyDict.Keys(fs))
    case JStr(s) => Success(PyStr.Contains(s, key))
    case JList(xs) => Success(JStr(key) in xs)
    case _ => Failure("argument of type '" + TypeName(v) + "' is not iterable")
  }

  /** The keyword arguments of `json.dumps` the core uses. */
  datatype Style =
    | Ascii                        // json.dumps(v)
    | Unicode                      // json.dumps(v, ensure_ascii=False)
    | UnicodeIndented(indent: nat) // json.dumps(v, ensure_ascii=False, indent=n)

  /**
   * The `json` library: `loads` either gives a value or the text of its `JSONDecodeError`;
   * `dumps` renders a value in a style.
   */
  datatype Codec = Codec(loads: string -> Result<Json, string>, dumps: (Json, Style) -> string)
}
