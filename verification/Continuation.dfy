/** The workflow continuation tree and its elementary accessors. */
module Continuation {
  import opened Prelude

  /** What a loop does when it reaches its iteration limit. */
  datatype OnMax = Fail | ExitWithLast

  /** `initialDelay` and `maxDelay` are in nanoseconds; `backoff` is the printed multiplier. */
  datatype RetryPolicy = RetryPolicy(maxRetries: nat, initialDelay: nat, backoff: string, maxDelay: Option<nat>)

  /** The per-task configuration stored on a task node; `timeout` is in nanoseconds. */
  datatype TaskMeta = TaskMeta(
    timeout: Option<nat>,
    retry: Option<RetryPolicy>,
    version: Option<string>,
    priority: Option<nat>,
    tags: seq<string>)

  /** A handle to a registered task implementation. */
  type Func = nat

  datatype Cont =
    | Task(id: string, func: Option<Func>, meta: TaskMeta, next: Option<Cont>)
    | Fork(id: string, branches: seq<Cont>, join: Option<Cont>)
    | Delay(id: string, duration: nat, next: Option<Cont>)
    | AwaitSignal(id: string, signalName: string, timeout: Option<nat>, next: Option<Cont>)
    | Branch(id: string, keyFn: Option<Func>, routes: map<string, Cont>, default: Option<Cont>, next: Option<Cont>)
    | Loop(id: string, body: Cont, maxIterations: nat, onMax: OnMax, next: Option<Cont>)
    | ChildWorkflow(id: string, child: Cont, next: Option<Cont>)

  /** The successor in the chain; a fork is followed by its join. */
  function Next(c: Cont): (n: Option<Cont>)
    ensures n.Some? ==> n.value < c
  {
    if c.Fork? then c.join else c.next
  }

  /** The node the workflow really starts with: forks, loops and children delegate inwards. */
  function FirstTaskId(c: Cont): string {
    match c
    case Fork(_, branches, _) => if branches == [] then "unknown" else FirstTaskId(branches[0])
    case Loop(_, body, _, _, _) => FirstTaskId(body)
    case ChildWorkflow(_, child, _) => FirstTaskId(child)
    case _ => c.id
  }

  /** The registry name of a branch node's key function. */
  function KeyFnId(branchId: string): string {
    branchId + "::key_fn"
  }

  /** The continuation a routing key selects: a named route, else the default. */
  function Route(c: Cont, key: string): (r: Option<Cont>)
    requires c.Branch?
    ensures r.Some? ==> r.value < c
  {
    if key in c.routes then Some(c.routes[key]) else c.default
  }
}
