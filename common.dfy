/** Success/failure values, standing in for Go's `(value, error)` result pairs. */
module Wrappers {

  datatype Option<+T> = None | Some(value: T)

  datatype Result<+R, +E> = Success(value: R) | Failure(error: E) {
    predicate IsFailure() {
      Failure?
    }

    function PropagateFailure<U>(): Result<U, E>
      requires Failure?
    {
      Failure(error)
    }

    function Extract(): R
      requires Success?
    {
      value
    }
  }

  /** An `error` result with no value: `nil` or an error. */
  datatype Outcome<+E> = Pass | Fail(error: E)
}

/** Raw bytes, Go's `byte`. */
module Bytes {
  newtype byte = x: int | 0 <= x < 256
}

/** The decimal and byte-string renderings of Go's `%d` and `%s` verbs. */
module Formatting {
  import opened Bytes

  /** Decimal digits of a natural number, most significant first. */
  function NatToString(n: nat): string
    decreases n
  {
    var digit := ['0' + (n % 10) as char];
    if n < 10 then digit else NatToString(n / 10) + digit
  }

  /** `%d` of an integer: a minus sign for negative numbers, then the digits. */
  function IntToString(n: int): string
  {
    if n < 0 then "-" + NatToString(-n) else NatToString(n)
  }

  /** `%s` of a byte slice: each byte as the character with that code. */
  function BytesText(b: seq<byte>): string
  {
    seq(|b|, i requires 0 <= i < |b| => b[i] as int as char)
  }
}

/**
 * The order in which the coordinator's state-changing calls on the external
 * stores are issued, shared by the blob store and the key-value store.
 */
module Journal {

  /** One state-changing call on an external store, by the key it targets. */
  datatype Effect =
    | PutObject(objectKey: string)
    | DeleteObject(objectKey: string)
    | SetKey(key: string)
    | DelKey(key: string)

  class Journal {
    ghost var effects: seq<Effect>

    constructor ()
      ensures effects == []
    {
      effects := [];
    }
  }
}
