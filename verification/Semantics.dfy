/**
 The reference semantics: what a workflow tree computes on an input, and which task calls it
 makes in which order. Task implementations and codec operations are parameters.
 */
module Semantics {
  import opened Prelude
  import opened Continuation

  /**
   The outside world a workflow runs against. Loop results decode to a tag and an inner value;
   `admits` says which payloads may be sent for a signal of a given name.
   */
  datatype Env = Env(
    task: (string, Bytes) -> Result<Bytes, Error>,
    encodeNamed: seq<(string, Bytes)> -> Result<Bytes, Error>,
    encodeEnvelope: (string, Bytes) -> Result<Bytes, Error>,
    decodeKey: Bytes -> Result<string, Error>,
    decodeLoop: Bytes -> Result<(string, Bytes), Error>,
    admits: (string, Bytes) -> bool)

  /** Under which name a fork reports a branch: the branch node's id, or its first task's id. */
  datatype Labels = ByNodeId | ByFirstTask

  function Label(labels: Labels, c: Cont): string {
    if labels.ByNodeId? then c.id else FirstTaskId(c)
  }

  /** What may answer a wait: a payload that may be sent or, if the wait is timed, nothing. */
  predicate MayAnswer(env: Env, name: string, timed: bool, v: Bytes) {
    env.admits(name, v) || (timed && v == [])
  }

  /** One invocation of a foreign task (or key function). */
  datatype Call = Call(id: string, input: Bytes)

  /** `Blocked` names a signal whose payload is not known yet. */
  datatype Outcome = Done(value: Bytes) | Failed(error: Error) | Blocked(signalId: string)

  datatype Run = Run(out: Outcome, calls: seq<Call>)

  /** The outcome of evaluating a fork's branches one after the other. */
  datatype Gathered = Gathered(stop: Option<Outcome>, results: seq<(string, Bytes)>, calls: seq<Call>)

  function FromResult(r: Result<Bytes, Error>): Outcome {
    match r
    case Ok(v) => Done(v)
    case Err(e) => Failed(e)
  }

  function After(calls: seq<Call>, r: Run): Run {
    Run(r.out, calls + r.calls)
  }

  function Invoke(env: Env, id: string, x: Bytes): Run {
    Run(FromResult(env.task(id, x)), [Call(id, x)])
  }

  /** The routing key decoded from the key function's answer, and the continuation it selects. */
  function Choose(env: Env, c: Cont, answer: Bytes): (r: Result<(string, Cont), Error>)
    requires c.Branch?
    ensures r.Ok? ==> r.value.1 < c && Route(c, r.value.0) == Some(r.value.1)
  {
    var key := env.decodeKey(answer);
    if key.Err? then Err(key.error) else
    var route := Route(c, key.value);
    if route.None? then Err(BranchKeyNotFound(c.id, key.value)) else Ok((key.value, route.value))
  }

  /** A finished route's result in its `{branch, result}` envelope. */
  function Wrapped(env: Env, key: string, r: Run): Run {
    if r.out.Done? then Run(FromResult(env.encodeEnvelope(key, r.out.value)), r.calls) else r
  }

  /** Evaluates the whole chain starting at `c`. `signals` holds the payloads received so far. */
  function Eval(env: Env, labels: Labels, signals: map<string, Bytes>, c: Cont, x: Bytes): Run
    decreases c, 2
  {
    var r := EvalNode(env, labels, signals, c, x);
    if r.out.Done? && Next(c).Some? then
      After(r.calls, Eval(env, labels, signals, Next(c).value, r.out.value))
    else
      r
  }

  /** Evaluates the node `c` alone, without its successors. */
  function EvalNode(env: Env, labels: Labels, signals: map<string, Bytes>, c: Cont, x: Bytes): Run
    decreases c, 1
  {
    match c
    case Task(id, _, _, _) => Invoke(env, id, x)
    case Delay(_, _, _) => Run(Done(x), [])
    case AwaitSignal(id, name, timeout, _) =>
      var answered := id in signals && MayAnswer(env, name, timeout.Some?, signals[id]);
      Run(if answered then Done(signals[id]) else Blocked(id), [])
    case Fork(_, branches, _) =>
      var g := EvalBranches(env, labels, signals, branches, x);
      Run(if g.stop.Some? then g.stop.value else FromResult(env.encodeNamed(g.results)), g.calls)
    case Branch(id, _, _, _, _) =>
      var k := Invoke(env, KeyFnId(id), x);
      if !k.out.Done? then k else
      var chosen := Choose(env, c, k.out.value);
      if chosen.Err? then Run(Failed(chosen.error), k.calls) else
      After(k.calls, Wrapped(env, chosen.value.0, Eval(env, labels, signals, chosen.value.1, x)))
    case Loop(_, _, _, _, _) => EvalLoop(env, labels, signals, c, 0, x)
    case ChildWorkflow(_, child, _) => Eval(env, labels, signals, child, x)
  }

  /** Every branch gets the fork's input; the first branch that does not finish stops the fork. */
  function EvalBranches(env: Env, labels: Labels, signals: map<string, Bytes>, branches: seq<Cont>, x: Bytes): Gathered
    decreases branches, 3
  {
    if branches == [] then Gathered(None, [], []) else
    var r := Eval(env, labels, signals, branches[0], x);
    if !r.out.Done? then Gathered(Some(r.out), [], r.calls) else
    var g := EvalBranches(env, labels, signals, branches[1..], x);
    Gathered(g.stop, [(Label(labels, branches[0]), r.out.value)] + g.results, r.calls + g.calls)
  }

  /** Iterations `i`, `i + 1`, ... of the loop `c`, starting from the loop value `x`. */
  function EvalLoop(env: Env, labels: Labels, signals: map<string, Bytes>, c: Cont, i: nat, x: Bytes): Run
    requires c.Loop?
    decreases c, 0, c.maxIterations - i
  {
    if i >= c.maxIterations then
      Run(if c.onMax.Fail? then Failed(MaxIterationsExceeded(c.id, c.maxIterations)) else Done(x), [])
    else
      var r := Eval(env, labels, signals, c.body, x);
      if !r.out.Done? then r else
      var d := env.decodeLoop(r.out.value);
      if d.Err? then Run(Failed(d.error), r.calls)
      else if d.value.0 == "done" then Run(Done(d.value.1), r.calls)
      else if d.value.0 == "again" then After(r.calls, EvalLoop(env, labels, signals, c, i + 1, d.value.1))
      else Run(Failed(UnknownLoopTag(d.value.0)), r.calls)
  }
}
