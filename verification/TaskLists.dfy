/**
 What a list of builder tasks means, without looking at the tree it is built into: how it is read back from
 the tree, what it computes, and which lists cannot be built.
 */
module TaskLists {
  import opened Prelude
  import opened Continuation
  import opened Keys
  import opened FlowBuilders

  // ----- reading a tree back -----

  const NO_SETTINGS := TaskMeta(None, None, None, None, [])

  /** The tasks of a chain, with their settings. */
  function ChainTasks(c: Cont): TaskChain {
    if !c.Task? then [] else [(c.id, c.meta)] + if c.next.Some? then ChainTasks(c.next.value) else []
  }

  function BranchChains(branches: seq<Cont>): seq<TaskChain> {
    if branches == [] then [] else [ChainTasks(branches[0])] + BranchChains(branches[1..])
  }

  function RouteChains(routes: map<string, Cont>, keys: seq<string>): seq<(string, TaskChain)>
    requires forall k :: k in keys ==> k in routes
  {
    if keys == [] then [] else [(keys[0], ChainTasks(routes[keys[0]]))] + RouteChains(routes, keys[1..])
  }

  /** Nanoseconds, as seconds. */
  function ToSeconds(nanos: nat): Seconds {
    Finite(nanos as real / 1_000_000_000.0)
  }

  /** The builder tasks a tree stands for, with routes in the order `order` lists their keys. */
  ghost function TasksOf(order: Order, c: Cont): seq<BuilderTask>
    requires Enumerates(order)
    decreases c, 1
  {
    match c
    case Task(id, _, meta, next) => [Sequential(id, meta)] + TasksOfOpt(order, next)
    case Fork(_, branches, join) =>
      if join.Some? && join.value.Task? then
        [ForkTask(BranchChains(branches), join.value.id, join.value.meta)] + TasksOfOpt(order, join.value.next)
      else
        [ForkTask(BranchChains(branches), "", NO_SETTINGS)]
    case Delay(id, duration, next) => [DelayTask(id, ToSeconds(duration))] + TasksOfOpt(order, next)
    case AwaitSignal(id, name, timeout, next) =>
      var limit := if timeout.Some? then Some(ToSeconds(timeout.value)) else None;
      [AwaitSignalTask(id, name, limit)] + TasksOfOpt(order, next)
    case Branch(id, _, routes, default, next) =>
      assert Lists(order(routes.Keys), routes.Keys);
      var other := if default.Some? then Some(ChainTasks(default.value)) else None;
      [BranchTask(id, RouteChains(routes, order(routes.Keys)), other)] + TasksOfOpt(order, next)
    case Loop(id, body, max, onMax, next) =>
      [LoopTask(id, body.id, if body.Task? then body.meta else NO_SETTINGS, max, onMax)] + TasksOfOpt(order, next)
    case ChildWorkflow(id, child, next) => [ChildTask(id, TasksOf(order, child))] + TasksOfOpt(order, next)
  }

  ghost function TasksOfOpt(order: Order, c: Option<Cont>): seq<BuilderTask>
    requires Enumerates(order)
    decreases c, 2
  {
    if c.None? then [] else TasksOf(order, c.value)
  }

  // ----- what is kept -----

  /** `d'` is `d` in whole nanoseconds, rounded down. */
  predicate Rounded(d: Seconds, d': Seconds) {
    ValidDuration(d) ==> d'.Finite? && d'.value <= d.value < d'.value + 0.000000001
  }

  /** The chain given last for the key. */
  ghost predicate Wins(routes: seq<(string, TaskChain)>, key: string, chain: TaskChain) {
    exists i :: 0 <= i < |routes| && routes[i] == (key, chain) && forall j :: i < j < |routes| ==> routes[j].0 != key
  }

  /** The same task, up to rounding and to routes that were given again. */
  ghost predicate SameTask(t: BuilderTask, u: BuilderTask)
    decreases t, 0
  {
    match t
    case DelayTask(id, d) => u.DelayTask? && u.delayId == id && Rounded(d, u.duration)
    case AwaitSignalTask(id, name, timeout) =>
      && u.AwaitSignalTask? && u.signalId == id && u.signalName == name && u.timeout.Some? == timeout.Some?
      && (timeout.Some? ==> Rounded(timeout.value, u.timeout.value))
    case BranchTask(id, routes, default) =>
      && u.BranchTask? && u.branchId == id && u.default == default
      && forall key, chain :: Wins(u.routes, key, chain) <==> Wins(routes, key, chain)
    case ChildTask(id, tasks) => u.ChildTask? && u.childId == id && SameTasks(tasks, u.childTasks)
    case _ => u == t
  }

  ghost predicate SameTasks(ts: seq<BuilderTask>, us: seq<BuilderTask>)
    decreases ts, 1
  {
    |ts| == |us| && (ts != [] ==> SameTask(ts[0], us[0]) && SameTasks(ts[1..], us[1..]))
  }

  /** A second has a thousand million nanoseconds, and a duration loses less than one. */
  lemma NanosExact(d: Seconds)
    requires ValidDuration(d)
    ensures Nanos(d) as real <= d.value * 1_000_000_000.0 < Nanos(d) as real + 1.0
    ensures Rounded(d, ToSeconds(Nanos(d))) && Nanos(Finite(1.0)) == 1_000_000_000
  {
    var n := Nanos(d) as real;
    assert ToSeconds(Nanos(d)).value * 1_000_000_000.0 == n;
  }

  lemma {:induction false} ChainRead(chain: TaskChain)
    requires chain != []
    ensures ChainTasks(ChainOf(chain).value) == chain
  {
    if |chain| > 1 {
      ChainRead(chain[1..]);
    }
    assert chain == [chain[0]] + chain[1..];
  }

  lemma {:induction false} ChainsRead(chains: seq<TaskChain>)
    requires ChainsOf(chains).Some?
    ensures BranchChains(ChainsOf(chains).value) == chains
  {
    if chains != [] {
      ChainRead(chains[0]);
      ChainsRead(chains[1..]);
      assert chains == [chains[0]] + chains[1..];
    }
  }

  /** The map of routes holds what was given last for each key. */
  lemma {:induction false} RoutesWin(routes: seq<(string, TaskChain)>, key: string, chain: TaskChain)
    requires RoutesOf(routes).Some?
    ensures var m := RoutesOf(routes).value; Wins(routes, key, chain) <==> key in m && ChainTasks(m[key]) == chain
    decreases |routes|
  {
    if routes != [] {
      var n := |routes| - 1;
      ChainRead(routes[n].1);
      RoutesWin(routes[..n], key, chain);
      if routes[n].0 != key {
        WinsEarlier(routes, n, key, chain);
      } else if Wins(routes, key, chain) {
        var i :| 0 <= i < |routes| && routes[i] == (key, chain) && forall j :: i < j < |routes| ==> routes[j].0 != key;
        assert i == n;
      } else {
        assert routes[n] != (key, chain);
      }
    }
  }

  lemma WinsEarlier(routes: seq<(string, TaskChain)>, n: nat, key: string, chain: TaskChain)
    requires n + 1 == |routes| && routes[n].0 != key
    ensures Wins(routes, key, chain) <==> Wins(routes[..n], key, chain)
  {
    if Wins(routes, key, chain) {
      var i :| 0 <= i < |routes| && routes[i] == (key, chain) && forall j :: i < j < |routes| ==> routes[j].0 != key;
      assert routes[..n][i] == (key, chain);
    }
    if Wins(routes[..n], key, chain) {
      var i :| 0 <= i < n && routes[..n][i] == (key, chain) && forall j :: i < j < n ==> routes[..n][j].0 != key;
      assert forall j :: i < j < n ==> routes[j] == routes[..n][j];
    }
  }

  /** Read back in any order, every route is there once. */
  lemma {:induction false} RoutesRead(routes: map<string, Cont>, keys: seq<string>, key: string, chain: TaskChain)
    requires forall k :: k in keys ==> k in routes
    requires forall i, j :: 0 <= i < j < |keys| ==> keys[i] != keys[j]
    ensures Wins(RouteChains(routes, keys), key, chain) <==> key in keys && ChainTasks(routes[key]) == chain
  {
    RouteChainsAt(routes, keys);
    var rs := RouteChains(routes, keys);
    if key in keys && ChainTasks(routes[key]) == chain {
      var i :| 0 <= i < |keys| && keys[i] == key;
      assert rs[i] == (key, chain);
    }
  }

  lemma {:induction false} RouteChainsAt(routes: map<string, Cont>, keys: seq<string>)
    requires forall k :: k in keys ==> k in routes
    ensures
      var rs := RouteChains(routes, keys);
      |rs| == |keys| && forall i :: 0 <= i < |keys| ==> rs[i] == (keys[i], ChainTasks(routes[keys[i]]))
  {
    if keys != [] {
      RouteChainsAt(routes, keys[1..]);
    }
  }

  lemma {:induction false} OneRead(order: Order, t: BuilderTask, next: Option<Cont>)
    requires Enumerates(order) && BuildOne(t, next).Ok?
    ensures
      var us := TasksOf(order, BuildOne(t, next).value);
      us != [] && SameTask(t, us[0]) && us[1..] == TasksOfOpt(order, next)
    decreases t, 0
  {
    match t
    case DelayTask(_, d) =>
      if ValidDuration(d) {
        NanosExact(d);
      }
    case AwaitSignalTask(_, _, timeout) =>
      if timeout.Some? && ValidDuration(timeout.value) {
        NanosExact(timeout.value);
      }
    case ForkTask(branches, _, _) => ChainsRead(branches);
    case BranchTask(_, routes, default) =>
      if default.Some? {
        ChainRead(default.value);
      }
      var m := RoutesOf(routes).value;
      var keys := order(m.Keys);
      assert Lists(keys, m.Keys);
      forall key, chain ensures Wins(RouteChains(m, keys), key, chain) <==> Wins(routes, key, chain) {
        RoutesRead(m, keys, key, chain);
        RoutesWin(routes, key, chain);
      }
    case ChildTask(_, tasks) => ListRead(order, tasks);
    case _ =>
  }

  lemma {:induction false} ListRead(order: Order, tasks: seq<BuilderTask>)
    requires Enumerates(order) && BuildList(tasks).Ok?
    ensures SameTasks(tasks, TasksOfOpt(order, BuildList(tasks).value))
    decreases tasks, 1
  {
    if tasks != [] {
      var rest := BuildList(tasks[1..]).value;
      ListRead(order, tasks[1..]);
      OneRead(order, tasks[0], rest);
      hide TasksOf, BuildOne;
      assert BuildList(tasks).value == Some(BuildOne(tasks[0], rest).value);
    }
  }

  /**
   A built tree holds exactly what was added: ids, settings, branches, routes, limits and policies can all
   be read back, durations in nanoseconds.
   */
  lemma BuiltTreeReadsBack(order: Order, tasks: seq<BuilderTask>)
    requires Enumerates(order) && TreeOf(tasks).Ok?
    ensures SameTasks(tasks, TasksOf(order, TreeOf(tasks).value))
  {
    ListRead(order, tasks);
  }
}
