/**
 Staging task outputs: a backend takes the outputs out of a snapshot to store it without them, and
 puts them back afterwards. Every snapshot the mutators can reach survives this unchanged, because every
 result is stored under its own task id; that is also why `Snapshots` may map ids straight to outputs.
 */
module Staging {
  import opened Prelude
  import opened Keys

  datatype TaskResult = TaskResult(taskId: string, output: Bytes)

  type Entries = map<string, TaskResult>

  /** The states that carry task results, and those that do not. */
  datatype State =
    | InProgress(entries: Entries, last: Option<string>)
    | Paused(entries: Entries, last: Option<string>)
    | Cancelled(entries: Entries)
    | Completed
    | Failed

  function EntriesOf(s: State): Entries {
    match s
    case InProgress(entries, _) => entries
    case Paused(entries, _) => entries
    case Cancelled(entries) => entries
    case _ => map[]
  }

  function WithEntries(s: State, entries: Entries): State {
    match s
    case InProgress(_, last) => InProgress(entries, last)
    case Paused(_, last) => Paused(entries, last)
    case Cancelled(_) => Cancelled(entries)
    case _ => s
  }

  /** Every result is stored under its own task id. */
  predicate Keyed(entries: Entries) {
    forall k :: k in entries ==> entries[k].taskId == k
  }

  /** The same results with empty outputs. */
  function Stripped(entries: Entries): Entries {
    map k | k in entries :: TaskResult(entries[k].taskId, [])
  }

  /** The outputs emptied so far. */
  function StrippedAt(entries: Entries, keys: seq<string>): Entries {
    map k | k in entries :: if k in keys then TaskResult(entries[k].taskId, []) else entries[k]
  }

  lemma StripOne(entries: Entries, keys: seq<string>, k: string)
    requires k in entries && k !in keys
    ensures k in StrippedAt(entries, keys) && StrippedAt(entries, keys)[k] == entries[k]
    ensures StrippedAt(entries, keys)[k := TaskResult(entries[k].taskId, [])] == StrippedAt(entries, keys + [k])
  {
  }

  /** The non-empty outputs of the listed results. */
  function Outputs(entries: Entries, keys: seq<string>): seq<(string, Bytes)> {
    if keys == [] then [] else
    var n := |keys| - 1;
    var k := keys[n];
    Outputs(entries, keys[..n]) +
    if k in entries && entries[k].output != [] then [(entries[k].taskId, entries[k].output)] else []
  }

  /** Outputs for unknown ids are dropped. */
  function Patched(entries: Entries, outputs: seq<(string, Bytes)>): Entries {
    if outputs == [] then entries else
    var n := |outputs| - 1;
    var (k, v) := outputs[n];
    var m := Patched(entries, outputs[..n]);
    if k in m then m[k := TaskResult(m[k].taskId, v)] else m
  }

  lemma StripAll(entries: Entries, keys: seq<string>)
    requires Lists(keys, entries.Keys)
    ensures StrippedAt(entries, keys) == Stripped(entries)
  {
  }

  method EmptyOutputs(all: Entries, order: Order) returns (taken: seq<(string, Bytes)>, entries: Entries)
    requires Enumerates(order)
    ensures taken == Outputs(all, order(all.Keys)) && entries == Stripped(all)
  {
    hide StrippedAt, Stripped, Enumerates, Outputs;
    var keys := order(all.Keys);
    StripStart(all, order);
    StripAll(all, keys);
    entries, taken := all, [];
    for i := 0 to |keys|
      invariant taken == Outputs(all, keys[..i]) && entries == StrippedAt(all, keys[..i])
    {
      var k := keys[i];
      assert k in keys && k !in keys[..i];
      StripOne(all, keys[..i], k);
      OutputsStep(all, keys[..i], k);
      var output := entries[k].output;
      entries := entries[k := TaskResult(entries[k].taskId, [])];
      if output != [] {
        taken := taken + [(entries[k].taskId, output)];
      }
      assert keys[..i + 1] == keys[..i] + [k];
    }
    assert keys[..|keys|] == keys;
  }

  lemma StripStart(all: Entries, order: Order)
    requires Enumerates(order)
    ensures Lists(order(all.Keys), all.Keys) && StrippedAt(all, []) == all && Outputs(all, []) == []
  {
  }

  lemma OutputsStep(all: Entries, keys: seq<string>, k: string)
    requires k in all
    ensures Outputs(all, keys + [k]) ==
      Outputs(all, keys) + if all[k].output != [] then [(all[k].taskId, all[k].output)] else []
  {
    assert (keys + [k])[..|keys|] == keys;
  }

  class StagedSnapshot {
    var state: State

    ghost predicate Valid()
      reads this
    {
      Keyed(EntriesOf(state))
    }

    constructor ()
      ensures Valid() && state == InProgress(map[], None)
    {
      state := InProgress(map[], None);
    }

    method MarkTaskCompleted(id: string, output: Bytes)
      requires Valid()
      modifies this
      ensures Valid()
      ensures old(state).InProgress? ==> state == InProgress(old(state).entries[id := TaskResult(id, output)], Some(id))
      ensures !old(state).InProgress? ==> state == old(state)
    {
      if state.InProgress? {
        state := InProgress(state.entries[id := TaskResult(id, output)], Some(id));
      }
    }

    method RemoveTaskResult(id: string)
      requires Valid()
      modifies this
      ensures Valid()
      ensures old(state).InProgress? ==> state == InProgress(old(state).entries - {id}, old(state).last)
      ensures !old(state).InProgress? ==> state == old(state)
    {
      if state.InProgress? {
        state := InProgress(state.entries - {id}, state.last);
      }
    }

    method MarkPaused()
      requires Valid()
      modifies this
      ensures Valid() && EntriesOf(state) == EntriesOf(old(state))
      ensures state == if old(state).InProgress? then Paused(old(state).entries, old(state).last) else old(state)
    {
      if state.InProgress? {
        state := Paused(state.entries, state.last);
      }
    }

    method MarkUnpaused()
      requires Valid()
      modifies this
      ensures Valid() && EntriesOf(state) == EntriesOf(old(state))
      ensures state == if old(state).Paused? then InProgress(old(state).entries, old(state).last) else old(state)
    {
      if state.Paused? {
        state := InProgress(state.entries, state.last);
      }
    }

    method MarkCancelled()
      requires Valid()
      modifies this
      ensures Valid() && state == Cancelled(if old(state).InProgress? then old(state).entries else map[])
    {
      state := Cancelled(if state.InProgress? then state.entries else map[]);
    }

    method MarkFinished(ok: bool)
      modifies this
      ensures Valid() && state == if ok then Completed else Failed
    {
      state := if ok then Completed else Failed;
    }

    /** Empties every output and returns the non-empty ones with their task ids. */
    method TakeTaskOutputs(order: Order) returns (taken: seq<(string, Bytes)>)
      requires Valid() && Enumerates(order)
      modifies this
      ensures Valid() && state == WithEntries(old(state), Stripped(EntriesOf(old(state))))
      ensures taken == Outputs(EntriesOf(old(state)), order(EntriesOf(old(state)).Keys))
    {
      var entries;
      taken, entries := EmptyOutputs(EntriesOf(state), order);
      state := WithEntries(state, entries);
    }

    method HydrateTaskOutputs(outputs: seq<(string, Bytes)>)
      requires Valid()
      modifies this
      ensures Valid() && state == WithEntries(old(state), Patched(EntriesOf(old(state)), outputs))
    {
      var entries := EntriesOf(state);
      for i := 0 to |outputs|
        invariant Keyed(entries) && entries == Patched(EntriesOf(state), outputs[..i])
      {
        var (k, v) := outputs[i];
        assert outputs[..i + 1][..i] == outputs[..i];
        if k in entries {
          entries := entries[k := TaskResult(entries[k].taskId, v)];
        }
      }
      assert outputs[..|outputs|] == outputs;
      state := WithEntries(state, entries);
    }
  }

  // ----- the round trip -----

  /** Each listed output belongs to the entry it is labelled with. */
  ghost predicate Labelled(entries: Entries, outputs: seq<(string, Bytes)>) {
    forall p :: p in outputs ==> p.0 in entries && entries[p.0].output == p.1
  }

  lemma {:induction false} OutputsExact(entries: Entries, keys: seq<string>)
    requires Keyed(entries)
    ensures Labelled(entries, Outputs(entries, keys))
    ensures forall k :: k in keys && k in entries && entries[k].output != [] ==>
      (k, entries[k].output) in Outputs(entries, keys)
    decreases |keys|
  {
    if keys != [] {
      var n := |keys| - 1;
      OutputsExact(entries, keys[..n]);
      assert keys == keys[..n] + [keys[n]];
    }
  }

  lemma {:induction false} PatchedExact(entries: Entries, outputs: seq<(string, Bytes)>)
    requires Labelled(entries, outputs)
    ensures
      var m := Patched(Stripped(entries), outputs);
      && m.Keys == entries.Keys
      && (forall k :: k in entries ==> m[k].taskId == entries[k].taskId)
      && (forall k :: k in entries ==> m[k].output == entries[k].output || m[k].output == [])
      && (forall p :: p in outputs ==> m[p.0].output == p.1)
    decreases |outputs|
  {
    if outputs != [] {
      var n := |outputs| - 1;
      assert forall p :: p in outputs[..n] ==> p in outputs;
      PatchedExact(entries, outputs[..n]);
      assert outputs == outputs[..n] + [outputs[n]] && outputs[n] in outputs;
    }
  }

  /** Putting the taken outputs back, in any order, restores the snapshot. */
  lemma StagingRoundTrip(order: Order, s: State, given: seq<(string, Bytes)>)
    requires Enumerates(order) && Keyed(EntriesOf(s))
    requires multiset(given) == multiset(Outputs(EntriesOf(s), order(EntriesOf(s).Keys)))
    ensures
      var stripped := WithEntries(s, Stripped(EntriesOf(s)));
      WithEntries(stripped, Patched(EntriesOf(stripped), given)) == s
  {
    var entries := EntriesOf(s);
    var keys := order(entries.Keys);
    var taken := Outputs(entries, keys);
    assert Lists(keys, entries.Keys);
    OutputsExact(entries, keys);
    forall p ensures p in given <==> p in taken {
      assert p in multiset(given) <==> p in multiset(taken);
    }
    PatchedExact(entries, given);
    var m := Patched(Stripped(entries), given);
    forall k | k in entries ensures m[k] == entries[k] {
      if entries[k].output != [] {
        assert (k, entries[k].output) in given;
      }
    }
    assert m == entries;
    var stripped := WithEntries(s, Stripped(entries));
    assert EntriesOf(stripped) == Stripped(entries) || (s.Completed? || s.Failed?);
  }
}
