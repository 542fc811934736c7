/** The Python values the validators inspect, the error kinds they raise, and
    the small wrappers (optional value, result) the model threads through. */
module PyValues {

  /** An optional value (named apart from the Option validator). */
  datatype Maybe<T> = None | Some(value: T)

  /** The three array-like containers a List validator admits: `list`,
      `tuple` and a numpy `ndarray` (seen as the sequence `list(arr)` yields). */
  datatype SeqKind = PyList | PyTuple | NdArray

  /** A runtime argument value. `NoneValue` is Python's `None`; floats are
      modelled as exact reals (infinities and NaN are not values here). */
  datatype Value =
    | NoneValue
    | Int(i: int)
    | Float(r: real)
    | Str(s: string)
    | Sequence(kind: SeqKind, items: seq<Value>)
    | Object(cls: string)

  /** The class of a value, as `isinstance` tests it (without subclassing). */
  datatype TypeTag =
    | NoneType | IntType | FloatType | StrType
    | ListType | TupleType | ArrayType
    | ClassType(name: string)

  function TypeOf(v: Value): TypeTag
  {
    match v
    case NoneValue => NoneType
    case Int(_) => IntType
    case Float(_) => FloatType
    case Str(_) => StrType
    case Sequence(PyList, _) => ListType
    case Sequence(PyTuple, _) => TupleType
    case Sequence(NdArray, _) => ArrayType
    case Object(c) => ClassType(c)
  }

  /** The three errors of the validation framework, plus the Python built-in
      errors that some operations raise on inputs they do not handle. */
  datatype Error =
    | ArgumentNotProvided(name: string)
    | InvalidArgument
    | InvalidMethod
    | KeyError(key: string)
    | IndexError
    | TypeError

  datatype Result<T> = Ok(value: T) | Err(error: Error)

  /** A number as a real, for comparisons with the bounds (Python compares
      ints and floats exactly). */
  function AsReal(v: Value): real
    requires v.Int? || v.Float?
  {
    if v.Int? then v.i as real else v.r
  }

  /** Python's `x % 2 == 0`. For ints Python's floored `%` and Dafny's
      Euclidean `%` agree on a positive divisor; for floats `x % 2.0` is zero
      exactly when `x / 2` is a whole number. */
  predicate IsEven(v: Value)
    requires v.Int? || v.Float?
  {
    if v.Int? then v.i % 2 == 0 else (v.r / 2.0).Floor as real == v.r / 2.0
  }

  /** Python's `xs[i]` position for a sequence of length `n`: negative indices
      count from the end, anything else outside the range raises IndexError. */
  function PyIndex(n: nat, i: int): (r: Maybe<nat>)
    ensures r.Some? <==> -(n as int) <= i < n
    ensures r.Some? ==> r.value < n && (r.value as int - i) % n == 0
  {
    if 0 <= i < n then Some(i) else if -(n as int) <= i < 0 then Some(n + i) else None
  }
}
