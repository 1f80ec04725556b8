/** Shared value types: optional values, results, byte strings and the errors a workflow can raise. */
module Prelude {

  datatype Option<+T> = None | Some(value: T)

  datatype Result<+T, +E> = Ok(value: T) | Err(error: E)

  newtype Byte = x: int | 0 <= x < 256

  /** Serialized task inputs and outputs. */
  type Bytes = seq<Byte>

  /** Failures that stop a workflow on either engine. */
  datatype Error =
    | TaskError(message: string)
    | CodecError(message: string)
    | BranchKeyNotFound(branchId: string, key: string)
    | MaxIterationsExceeded(loopId: string, maxIterations: nat)
    | UnknownLoopTag(tag: string)
    | UnsupportedSignal(signalId: string)

  /** Lookup in a finite map. */
  function Get<K, V>(m: map<K, V>, k: K): Option<V> {
    if k in m then Some(m[k]) else None
  }

  /** Decimal notation. */
  function Digits(n: nat): string {
    (if n < 10 then "" else Digits(n / 10)) + [['0', '1', '2', '3', '4', '5', '6', '7', '8', '9'][n % 10]]
  }

  lemma Regroup<T>(a: seq<T>, b: seq<T>, c: seq<T>)
    ensures (a + b) + c == a + (b + c)
  {
  }
}
