/** The serializable form of a tree: ids and structure only, durations in milliseconds. */
module Serial {
  import opened Prelude
  import opened Continuation

  type U64 = n: nat | n < 0x1_0000_0000_0000_0000

  datatype SCont =
    | STask(id: string, timeoutMs: Option<U64>, retry: Option<RetryPolicy>, version: Option<string>,
            priority: Option<nat>, tags: seq<string>, next: Option<SCont>)
    | SFork(id: string, branches: seq<SCont>, join: Option<SCont>)
    | SDelay(id: string, durationMs: U64, next: Option<SCont>)
    | SAwaitSignal(id: string, signalName: string, timeoutMs: Option<U64>, next: Option<SCont>)
    | SBranch(id: string, routes: map<string, SCont>, default: Option<SCont>, next: Option<SCont>)
    | SLoop(id: string, body: SCont, maxIterations: nat, onMax: OnMax, next: Option<SCont>)
    | SChildWorkflow(id: string, child: SCont, next: Option<SCont>)

  function SNext(c: SCont): (n: Option<SCont>)
    ensures n.Some? ==> n.value < c
  {
    if c.SFork? then c.join else c.next
  }

  /** Milliseconds of a nanosecond count, truncated to 64 bits. */
  function Millis(nanos: nat): U64 {
    (nanos / 1_000_000) % 0x1_0000_0000_0000_0000
  }

  function MillisOpt(nanos: Option<nat>): Option<U64> {
    if nanos.Some? then Some(Millis(nanos.value)) else None
  }

  function NanosOpt(ms: Option<U64>): Option<nat> {
    if ms.Some? then Some(ms.value * 1_000_000) else None
  }
}
