/**
 * PHP values as the library sees them: scalars and (associative) arrays,
 * the outcome of an operation that may throw a `FlutterwaveException`,
 * and PHP's notion of truthiness (`empty`, `??`, `isset`).
 */
module Values {

  datatype Option<+T> = None | Some(value: T)

  /**
   * What an operation throws: a `FlutterwaveException` with its message and
   * its code, or the `TypeError` PHP 8 raises when an array is passed as an
   * exception's message.
   */
  datatype Failure = Failure(message: string, code: int) | MessageTypeError

  /** Either the value an operation returns or the exception it throws. */
  datatype Result<+T> = Ok(value: T) | Err(error: Failure)

  /**
   * A decoded JSON / PHP value. Arrays are keyed by strings; the order of
   * their entries is not modelled.
   */
  datatype Value =
    | Null
    | Bool(b: bool)
    | Int(i: int)
    | Str(s: string)
    | Arr(m: map<string, Value>)

  type Dict = map<string, Value>

  /** `!empty($v)`: false for null, false, 0, "", "0" and the empty array. */
  predicate Truthy(v: Value)
  {
    match v
    case Null => false
    case Bool(b) => b
    case Int(i) => i != 0
    case Str(s) => s != "" && s != "0"
    case Arr(m) => m != map[]
  }

  /** `!empty($s)` for a value that is a string or null. */
  predicate TruthyText(o: Option<string>)
  {
    o.Some? && o.value != "" && o.value != "0"
  }

  /** `isset($m[$k])`: the key is present and its value is not null. */
  predicate Isset(m: Dict, k: string)
  {
    k in m && m[k] != Null
  }

  /** `$m[$k] ?? $d` */
  function Coalesce(m: Dict, k: string, d: Value): (r: Value)
    ensures Isset(m, k) ==> r == m[k]
    ensures !Isset(m, k) ==> r == d
  {
    if Isset(m, k) then m[k] else d
  }

  /** `$o ?? $d` for a string or null. */
  function TextOr(o: Option<string>, d: string): string
  {
    match o
    case Some(s) => s
    case None => d
  }

  /** `$o ?? $d` for an integer or null. */
  function IntOr(o: Option<int>, d: int): (r: int)
    ensures o.Some? ==> r == o.value
    ensures o.None? ==> r == d
  {
    if o.Some? then o.value else d
  }
}
