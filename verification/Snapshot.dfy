/** Workflow snapshots: the checkpointed execution state and the operations that change it. */
module Snapshots {
  import opened Prelude

  /** Where execution stands; task, delay and signal ids are node ids, times are in nanoseconds. */
  datatype Position =
    | NotStarted
    | AtTask(taskId: string)
    | AtFork(forkId: string, completedBranches: map<string, Bytes>, wakeAt: int)
    | AtDelay(delayId: string, enteredAt: int, wakeAt: int, nextTaskId: Option<string>)
    | AtSignal(signalId: string, signalName: string, deadline: Option<int>, nextTaskId: Option<string>)
    | InLoop(loopId: string, iteration: nat, nextTaskId: Option<string>)

  datatype State =
    | InProgress(position: Position, completed: map<string, Bytes>, last: Option<string>)
    | Completed(output: Bytes)
    | Errored
    | Cancelled(completed: map<string, Bytes>, interruptedAt: Option<string>)
    | Paused(position: Position, completed: map<string, Bytes>, last: Option<string>)

  datatype Snapshot = Snapshot(state: State, initialInput: Option<Bytes>, loops: map<string, nat>)

  /** A new instance, positioned at its first task. */
  function Fresh(input: Bytes, firstTask: string): Snapshot {
    Snapshot(InProgress(AtTask(firstTask), map[], None), Some(input), map[])
  }

  /** The task results the state carries; terminal states other than cancellation have dropped them. */
  function Results(s: Snapshot): map<string, Bytes> {
    match s.state
    case InProgress(_, completed, _) => completed
    case Cancelled(completed, _) => completed
    case Paused(_, completed, _) => completed
    case _ => map[]
  }

  function TaskResult(s: Snapshot, id: string): Option<Bytes> {
    Get(Results(s), id)
  }

  function MarkTaskCompleted(s: Snapshot, id: string, output: Bytes): Snapshot {
    if s.state.InProgress? then
      s.(state := InProgress(s.state.position, s.state.completed[id := output], Some(id)))
    else s
  }

  function UpdatePosition(s: Snapshot, p: Position): Snapshot {
    if s.state.InProgress? then s.(state := InProgress(p, s.state.completed, s.state.last)) else s
  }

  function RemoveTaskResults(s: Snapshot, ids: set<string>): Snapshot {
    if s.state.InProgress? then
      s.(state := InProgress(s.state.position, s.state.completed - ids, s.state.last))
    else s
  }

  function LastTaskOutput(s: Snapshot): Option<Bytes> {
    if s.state.InProgress? && s.state.last.Some? then Get(s.state.completed, s.state.last.value) else None
  }

  function LoopIteration(s: Snapshot, id: string): nat {
    if id in s.loops then s.loops[id] else 0
  }

  function SetLoopIteration(s: Snapshot, id: string, i: nat): Snapshot {
    s.(loops := s.loops[id := i])
  }

  function ClearLoopIteration(s: Snapshot, id: string): Snapshot {
    s.(loops := s.loops - {id})
  }

  function MarkCompleted(s: Snapshot, output: Bytes): Snapshot {
    s.(loops := map[], state := Completed(output))
  }

  function MarkFailed(s: Snapshot): Snapshot {
    s.(loops := map[], state := Errored)
  }

  function MarkPaused(s: Snapshot): Snapshot {
    if s.state.InProgress? then
      s.(state := Paused(s.state.position, s.state.completed, s.state.last))
    else s
  }

  function MarkUnpaused(s: Snapshot): Snapshot {
    if s.state.Paused? then
      s.(state := InProgress(s.state.position, s.state.completed, s.state.last))
    else s
  }

  function MarkCancelled(s: Snapshot, interruptedAt: Option<string>): Snapshot {
    s.(state := Cancelled(if s.state.InProgress? then s.state.completed else map[], interruptedAt))
  }
}
