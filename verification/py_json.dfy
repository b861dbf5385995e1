/** Python's view of a decoded JSON document, and the handful of Python
    operations the webhook handlers and lookups apply to it: truthiness,
    `dict.get`, `dict[key]`, the `in` operator, `==` and `str()`.

    Numbers are integers: floating-point values are not modelled. */
module PyJson {

  datatype Option<+T> = None | Some(value: T)

  /** A Python evaluation that either produces a value or raises.  The
      exception's class and text are not modelled; where the source tells
      exception classes apart, the model uses a dedicated datatype. */
  datatype Eval<+T> = Ok(value: T) | Raised {
    predicate IsFailure() { Raised? }
    function PropagateFailure<U>(): Eval<U> requires Raised? { Raised }
    function Extract(): T requires Ok? { value }
  }

  datatype Json =
    | Null
    | Bool(b: bool)
    | Num(n: int)
    | Str(s: string)
    | Arr(items: seq<Json>)
    | Obj(fields: map<string, Json>)

  const EmptyObj: Json := Obj(map[])

  /** Python truthiness: None, False, 0, "", [] and {} are falsy. */
  predicate Truthy(j: Json) {
    match j
    case Null => false
    case Bool(b) => b
    case Num(n) => n != 0
    case Str(s) => |s| > 0
    case Arr(items) => |items| > 0
    case Obj(fields) => |fields| > 0
  }

  /** `d.get(key, default)` on a dict. */
  function GetOr(fields: map<string, Json>, key: string, default: Json): Json {
    if key in fields then fields[key] else default
  }

  /** `j.get(key, default)`: only a dict has `.get`; on anything else the
      attribute lookup raises. */
  function Get(j: Json, key: string, default: Json): Eval<Json> {
    if !j.Obj? then Raised else Ok(GetOr(j.fields, key, default))
  }

  /** `j[key]` with a string key: raises unless `j` is a dict holding `key`. */
  function Index(j: Json, key: string): Eval<Json> {
    if j.Obj? && key in j.fields then Ok(j.fields[key]) else Raised
  }

  /** `needle` occurs as a contiguous piece of `s`. */
  predicate IsInfix(needle: string, s: string)
    decreases |s|
  {
    (|needle| <= |s| && s[..|needle|] == needle)
    || (|s| > 0 && IsInfix(needle, s[1..]))
  }

  /** `needle in j` for a string `needle`: key membership for a dict,
      element equality for a list, substring search for a string, and a
      TypeError for None, booleans and numbers. */
  function Contains(j: Json, needle: string): Eval<bool> {
    match j
    case Obj(fields) => Ok(needle in fields)
    case Arr(items) => Ok(Str(needle) in items)
    case Str(s) => Ok(IsInfix(needle, s))
    case _ => Raised
  }

  /** The integer a number or boolean compares as (`True == 1`). */
  function NumericValue(j: Json): Option<int> {
    match j
    case Num(n) => Some(n)
    case Bool(b) => Some(if b then 1 else 0)
    case _ => None
  }

  /** Python `==` on decoded JSON values.  Numbers and booleans compare
      numerically; every other pair compares structurally. */
  predicate PyEq(a: Json, b: Json) {
    if NumericValue(a).Some? && NumericValue(b).Some? then NumericValue(a) == NumericValue(b)
    else a == b
  }

  /** Values Python can use as dict keys. */
  predicate Hashable(j: Json) {
    !j.Arr? && !j.Obj?
  }

  /** The dict key a hashable value stands for: `True` and `1`, and
      `False` and `0`, are the same key. */
  function HashKey(j: Json): Json {
    match j
    case Bool(b) => Num(if b then 1 else 0)
    case _ => j
  }

  /** Two hashable values are the same dict key exactly when they are
      equal. */
  lemma HashKeyIsPyEq(a: Json, b: Json)
    requires Hashable(a) && Hashable(b)
    ensures HashKey(a) == HashKey(b) <==> PyEq(a, b)
  {
  }

  function DigitChar(d: nat): char
    requires d < 10
  {
    ('0' as int + d) as char
  }

  /** Decimal digits of a natural number, most significant first. */
  function NatToString(n: nat): (s: string)
    ensures |s| > 0
    decreases n
  {
    if n < 10 then [DigitChar(n)] else NatToString(n / 10) + [DigitChar(n % 10)]
  }

  function IntToString(n: int): string {
    if n < 0 then "-" + NatToString(-n) else NatToString(n)
  }

  /** `str(j)`.  Lists and dicts render as a fixed marker rather than as
      Python's repr. */
  function PyStr(j: Json): string {
    match j
    case Null => "None"
    case Bool(b) => if b then "True" else "False"
    case Num(n) => IntToString(n)
    case Str(s) => s
    case Arr(_) => "<list>"
    case Obj(_) => "<dict>"
  }
}
