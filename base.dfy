/** Small value types shared by every module of the model. */
module Base {

  /** An optional value: a nullable column, a missing dictionary entry, Python's None. */
  datatype Option<+T> = None | Some(value: T) {
    function GetOr(default: T): T {
      match this
      case Some(v) => v
      case None => default
    }
  }

  /** A key of a decoded JSON object as Python code sees it: missing (`'k' not in d`),
      present with null, or present with a value. The handlers treat the three differently
      (`'k' in d`, `d.get(k, default)`, `if d[k]:`). */
  datatype Field<+T> = Absent | Null | Value(value: T) {
    /** `d.get(k)`: a missing key and a null value both read as None. */
    function Get(): Option<T> {
      match this
      case Value(v) => Some(v)
      case _ => None
    }
    /** `d.get(k, default)`: only a missing key yields the default. */
    function GetOr(default: T): Option<T> {
      match this
      case Absent => Some(default)
      case Null => None
      case Value(v) => Some(v)
    }
  }

  datatype Result<+T, +E> = Ok(value: T) | Err(error: E) {
    predicate IsFailure() { Err? }
    function PropagateFailure<U>(): Result<U, E>
      requires Err?
    {
      Err(error)
    }
    function Extract(): T
      requires Ok?
    {
      value
    }
  }

  /** An `HTTPException(status_code, detail)` raised by an endpoint. */
  datatype HttpError = HttpError(status: int, detail: string)

  /** Python truthiness of an optional string: neither None nor "". */
  predicate Filled(s: Option<string>) {
    s.Some? && s.value != ""
  }

  function Min(a: int, b: int): int { if a <= b then a else b }
  function Max(a: int, b: int): int { if a <= b then b else a }

  /** Python's slice `s[:n]`, including its reading of a negative `n` as "all but the last -n". */
  function PyPrefix<T>(s: seq<T>, n: int): (r: seq<T>)
    ensures |r| == if n >= 0 then Min(n, |s|) else Max(0, |s| + n)
    ensures r == s[..|r|]
  {
    if n >= 0 then s[..Min(n, |s|)] else s[..Max(0, |s| + n)]
  }

  /** Number of positions of `s` that hold `x`. */
  function Count<T(==)>(s: seq<T>, x: T): nat {
    if s == [] then 0 else (if s[|s| - 1] == x then 1 else 0) + Count(s[..|s| - 1], x)
  }

  lemma {:induction false} CountIn<T>(s: seq<T>, x: T)
    ensures Count(s, x) > 0 <==> x in s
  {
    if s != [] {
      CountIn(s[..|s| - 1], x);
      assert s == s[..|s| - 1] + [s[|s| - 1]];
    }
  }
}
