/**
 The executor as an object: it mutates its snapshot, saves it through the backend and loops over the
 chain. Its methods are proved equal to the functions of module Durable; launching and resuming an
 instance are proved to keep its store faithful to the reference semantics.
 */
module Executors {
  import opened Prelude
  import opened Continuation
  import opened Semantics
  import opened Snapshots
  import opened Keys
  import opened Definition
  import opened Rehydration
  import opened Durable
  import opened Lifecycle
  import opened CrashResume
  import opened Redeployment

  /** `Break` = completed or stopped; `Continue` = advance to the next node. */
  datatype StepResult = Continue(next: Cont, input: Bytes) | Break(result: ExecResult)

  function AdvanceOrBreak(c: Cont, r: ExecResult): StepResult {
    if r.Ok? && Next(c).Some? then Continue(Next(c).value, r.value) else Break(r)
  }

  class Executor {
    const env: Env
    const oracle: Oracle
    var snapshot: Snapshot
    var stored: Snapshot
    var tick: nat
    var trace: seq<Event>
    /** The definition stored with the instance. */
    var definition: string

    constructor (env: Env, oracle: Oracle, w: World)
      ensures State() == w && this.env == env && this.oracle == oracle
    {
      this.env, this.oracle, definition := env, oracle, "";
      snapshot, stored, tick, trace := w.snap, w.saved, w.tick, w.trace;
    }

    ghost function State(): World
      reads this
    {
      World(snapshot, stored, tick, trace)
    }

    method Save(s: Snapshot)
      modifies `snapshot, `stored, `tick, `trace
      ensures State() == Store(old(State()), s)
    {
      stored := s;
      trace := trace + [Saved(s)];
    }

    method CheckGuards(scope: Option<string>) returns (stop: Option<Stop>)
      modifies `snapshot, `stored, `tick, `trace
      ensures (stop, State()) == Guard(oracle, scope, old(State()))
    {
      var verdict := oracle.guard(tick);
      tick := tick + 1;
      match verdict {
        case CancelRequested =>
          if stored.state.InProgress? {
            Save(MarkCancelled(stored, scope));
            return Some(CancelledByUser);
          }
        case PauseRequested =>
          if stored.state.InProgress? {
            Save(MarkPaused(stored));
            return Some(PausedByUser);
          }
        case GuardFails => return Some(BackendFailure);
        case GuardCrashes => return Some(Crash);
        case Pass =>
      }
      return None;
    }

    method SaveSnapshot() returns (stop: Option<Stop>)
      modifies `snapshot, `stored, `tick, `trace
      ensures (stop, State()) == Checkpoint(oracle, old(State()))
    {
      var fate := oracle.save(tick);
      tick := tick + 1;
      if fate.Works? || fate.RefusedAfter? || fate.DiesAfter? {
        Save(snapshot);
      }
      return if fate.Works? then None
             else if fate.RefusedBefore? || fate.RefusedAfter? then Some(BackendFailure) else Some(Crash);
    }

    method CallJsTask(id: string, input: Bytes, keyFn: bool) returns (r: ExecResult)
      modifies `snapshot, `stored, `tick, `trace
      ensures (r, State()) == CallTask(env, oracle, id, input, keyFn, old(State()))
    {
      var fate, now := oracle.call(tick), oracle.clock(tick);
      tick := tick + 1;
      if fate.LostBefore? {
        return Err(Crash);
      }
      trace := trace + [Called(id, input, keyFn, now)];
      if fate.LostAfter? {
        return Err(Crash);
      }
      match env.task(id, input) {
        case Ok(v) => return Ok(v);
        case Err(e) => return Err(Raised(e));
      }
    }

    /** Marks a node completed and saves. */
    method Complete(id: string, output: Bytes) returns (r: ExecResult)
      modifies `snapshot, `stored, `tick, `trace
      ensures (r, State()) == Record(oracle, id, output, old(State()))
    {
      snapshot := MarkTaskCompleted(snapshot, id, output);
      var stop := SaveSnapshot();
      return if stop.Some? then Err(stop.value) else Ok(output);
    }

    /** Marks a node completed, moves on to its successor and saves. */
    method CompleteStep(c: Cont, output: Bytes) returns (r: ExecResult)
      modifies `snapshot, `stored, `tick, `trace
      ensures (r, State()) == RecordStep(oracle, c, output, old(State()))
    {
      snapshot := MarkTaskCompleted(snapshot, c.id, output);
      if Next(c).Some? {
        snapshot := UpdatePosition(snapshot, AtTask(FirstTaskId(Next(c).value)));
      }
      var stop := SaveSnapshot();
      return if stop.Some? then Err(stop.value) else Ok(output);
    }

    method Run(cont: Cont, input: Bytes) returns (r: ExecResult)
      modifies `snapshot, `stored, `tick, `trace
      ensures (r, State()) == Exec(env, oracle, cont, input, old(State()))
      decreases cont, 3
    {
      var current, currentInput := cont, input;
      while true
        invariant current == cont || current < cont
        invariant Exec(env, oracle, current, currentInput, State()) == Exec(env, oracle, cont, input, old(State()))
        decreases current
      {
        var s := Step(current, currentInput);
        match s {
          case Continue(next, nextInput) => current, currentInput := next, nextInput;
          case Break(result) => return result;
        }
      }
    }

    method Step(cont: Cont, input: Bytes) returns (s: StepResult)
      modifies `snapshot, `stored, `tick, `trace
      ensures var (r, w) := ExecNode(env, oracle, cont, input, old(State()));
        State() == w && s == AdvanceOrBreak(cont, r)
      decreases cont, 2
    {
      var r: ExecResult;
      match cont {
        case Task(_, _, _, _) => r := HandleTask(cont, input);
        case Delay(_, _, _) => r := HandleDelay(cont, input);
        case AwaitSignal(_, _, _, _) => r := HandleAwaitSignal(cont);
        case Fork(_, _, _) => r := HandleFork(cont, input);
        case Branch(_, _, _, _, _) => r := HandleBranch(cont, input);
        case Loop(_, _, _, _, _) => r := HandleLoop(cont, input);
        case ChildWorkflow(_, _, _) => r := HandleChildWorkflow(cont, input);
      }
      return AdvanceOrBreak(cont, r);
    }

    method HandleTask(c: Cont, input: Bytes) returns (r: ExecResult)
      requires c.Task?
      modifies `snapshot, `stored, `tick, `trace
      ensures (r, State()) == ExecTask(env, oracle, c, input, old(State()))
    {
      var stop := CheckGuards(Some(c.id));
      if stop.Some? {
        return Err(stop.value);
      }
      var cached := TaskResult(snapshot, c.id);
      if cached.Some? {
        return Ok(cached.value);
      }
      r := CallJsTask(c.id, input, false);
      if r.Err? {
        return;
      }
      r := CompleteStep(c, r.value);
      if r.Err? {
        return;
      }
      stop := CheckGuards(None);
      if stop.Some? {
        return Err(stop.value);
      }
    }

    method HandleDelay(c: Cont, input: Bytes) returns (r: ExecResult)
      requires c.Delay?
      modifies `snapshot, `stored, `tick, `trace
      ensures (r, State()) == ExecDelay(oracle, c, input, old(State()))
    {
      var stop := CheckGuards(Some(c.id));
      if stop.Some? {
        return Err(stop.value);
      }
      if TaskResult(snapshot, c.id).Some? {
        return Ok(input);
      }
      var now := oracle.clock(tick);
      var wakeAt := now + Span(c.duration);
      snapshot := UpdatePosition(snapshot, AtDelay(c.id, now, wakeAt, SuccessorId(c)));
      snapshot := MarkTaskCompleted(snapshot, c.id, input);
      stop := SaveSnapshot();
      return Err(if stop.Some? then stop.value else Waiting(wakeAt));
    }

    method HandleAwaitSignal(c: Cont) returns (r: ExecResult)
      requires c.AwaitSignal?
      modifies `snapshot, `stored, `tick, `trace
      ensures (r, State()) == ExecSignal(oracle, c, old(State()))
    {
      var stop := CheckGuards(Some(c.id));
      if stop.Some? {
        return Err(stop.value);
      }
      var cached := TaskResult(snapshot, c.id);
      if cached.Some? {
        return Ok(cached.value);
      }
      var mail := oracle.mail(tick, c.signalName);
      tick := tick + 1;
      match mail {
        case Delivered(payload) =>
          r := CompleteStep(c, payload);
        case NoMail =>
          var deadline := if c.timeout.Some? then Some(oracle.clock(tick) + Span(c.timeout.value)) else None;
          snapshot := UpdatePosition(snapshot, AtSignal(c.id, c.signalName, deadline, SuccessorId(c)));
          stop := SaveSnapshot();
          r := Err(if stop.Some? then stop.value else AwaitingSignal(c.id, c.signalName, deadline));
        case MailFails => r := Err(BackendFailure);
        case MailCrashes => r := Err(Crash);
      }
    }

    method HandleFork(c: Cont, input: Bytes) returns (r: ExecResult)
      requires c.Fork?
      modifies `snapshot, `stored, `tick, `trace
      ensures (r, State()) == ExecNode(env, oracle, c, input, old(State()))
      decreases c, 1
    {
      var stop := CheckGuards(None);
      if stop.Some? {
        return Err(stop.value);
      }
      ghost var start := State();
      var results, wake, i := [], None, 0;
      assert c.branches[0..] == c.branches;
      while i < |c.branches|
        invariant i <= |c.branches|
        invariant ExecBranches(env, oracle, c.branches, input, [], None, start)
               == ExecBranches(env, oracle, c.branches[i..], input, results, wake, State())
      {
        var b := c.branches[i];
        assert c.branches[i..][0] == b && c.branches[i..][1..] == c.branches[i + 1..];
        i := i + 1;
        var cached := TaskResult(snapshot, b.id);
        if cached.Some? {
          results := results + [(b.id, cached.value)];
          continue;
        }
        var out := Run(b, input);
        if out.Ok? {
          var done := Complete(b.id, out.value);
          if done.Err? {
            return Err(done.error);
          }
          results := results + [(b.id, out.value)];
        } else if out.error.Waiting? {
          wake := Later(wake, out.error.wakeAt);
        } else {
          return Err(out.error);
        }
      }
      if wake.Some? {
        snapshot := UpdatePosition(snapshot, AtFork(c.id, ToMap(results), wake.value));
        stop := SaveSnapshot();
        return Err(if stop.Some? then stop.value else Waiting(wake.value));
      }
      match env.encodeNamed(results) {
        case Ok(v) => return Ok(v);
        case Err(e) => return Err(Raised(e));
      }
    }

    method HandleBranch(c: Cont, input: Bytes) returns (r: ExecResult)
      requires c.Branch?
      modifies `snapshot, `stored, `tick, `trace
      ensures (r, State()) == ExecNode(env, oracle, c, input, old(State()))
      decreases c, 1
    {
      var stop := CheckGuards(Some(c.id));
      if stop.Some? {
        return Err(stop.value);
      }
      var cached := TaskResult(snapshot, c.id);
      if cached.Some? {
        return Ok(cached.value);
      }
      var answer := CallJsTask(KeyFnId(c.id), input, true);
      if answer.Err? {
        return answer;
      }
      var chosen := Choose(env, c, answer.value);
      if chosen.Err? {
        return Err(Raised(chosen.error));
      }
      var out := Run(chosen.value.1, input);
      if out.Err? {
        return out;
      }
      match env.encodeEnvelope(chosen.value.0, out.value) {
        case Ok(v) => r := Complete(c.id, v);
        case Err(e) => r := Err(Raised(e));
      }
    }

    method HandleLoop(c: Cont, input: Bytes) returns (r: ExecResult)
      requires c.Loop?
      modifies `snapshot, `stored, `tick, `trace
      ensures (r, State()) == ExecNode(env, oracle, c, input, old(State()))
      decreases c, 1
    {
      hide Exec, Ids, FirstTaskId, Guard, Record, Checkpoint, RemoveTaskResults, ClearLoopIteration;
      var stop := CheckGuards(Some(c.id));
      if stop.Some? {
        return Err(stop.value);
      }
      var cached := TaskResult(snapshot, c.id);
      if cached.Some? {
        return Ok(cached.value);
      }
      ghost var start := State();
      ghost var first := LoopIteration(snapshot, c.id);
      var iteration, loopInput := LoopIteration(snapshot, c.id), input;
      while iteration < c.maxIterations
        invariant ExecLoop(env, oracle, c, first, input, start) ==
          ExecLoop(env, oracle, c, iteration, loopInput, State())
      {
        var out := Run(c.body, loopInput);
        if out.Err? {
          return out;
        }
        snapshot := RemoveTaskResults(snapshot, Ids(c.body));
        var d := env.decodeLoop(out.value);
        if d.Err? {
          return Err(Raised(d.error));
        }
        if d.value.0 == "done" {
          snapshot := ClearLoopIteration(snapshot, c.id);
          r := Complete(c.id, d.value.1);
          return;
        } else if d.value.0 == "again" {
          iteration := iteration + 1;
          snapshot := SetLoopIteration(snapshot, c.id, iteration);
          snapshot := UpdatePosition(snapshot, InLoop(c.id, iteration, Some(FirstTaskId(c.body))));
          stop := SaveSnapshot();
          if stop.Some? {
            return Err(stop.value);
          }
          loopInput := d.value.1;
        } else {
          return Err(Raised(UnknownLoopTag(d.value.0)));
        }
      }
      if c.onMax.Fail? {
        return Err(Raised(MaxIterationsExceeded(c.id, c.maxIterations)));
      }
      snapshot := ClearLoopIteration(snapshot, c.id);
      r := Complete(c.id, loopInput);
    }

    method HandleChildWorkflow(c: Cont, input: Bytes) returns (r: ExecResult)
      requires c.ChildWorkflow?
      modifies `snapshot, `stored, `tick, `trace
      ensures (r, State()) == ExecNode(env, oracle, c, input, old(State()))
      decreases c, 1
    {
      var stop := CheckGuards(Some(c.id));
      if stop.Some? {
        return Err(stop.value);
      }
      var cached := TaskResult(snapshot, c.id);
      if cached.Some? {
        return Ok(cached.value);
      }
      r := Run(c.child, input);
      if r.Err? {
        return;
      }
      r := Complete(c.id, r.value);
    }

    // ----- lifecycle -----

    method SaveOrReport() returns (hold: Option<Report>)
      modifies `snapshot, `stored, `tick, `trace
      ensures (hold, State()) == SaveOrFail(oracle, old(State()))
    {
      var stop := SaveSnapshot();
      return if stop.Some? then Some(ResumeFailed) else None;
    }

    method CompleteParked(output: Bytes) returns (hold: Option<Report>)
      modifies `snapshot, `stored, `tick, `trace
      ensures (hold, State()) == CompleteAtWait(oracle, output, old(State()))
    {
      snapshot := MarkCompleted(snapshot, output);
      hold := SaveOrReport();
      return Some(if hold.Some? then hold.value else CompletedAtWait);
    }

    method AcceptPayload(p: Position, payload: Bytes) returns (hold: Option<Report>)
      requires p.AtSignal?
      modifies `snapshot, `stored, `tick, `trace
      ensures (hold, State()) == AnswerSignal(oracle, p, payload, old(State()))
    {
      snapshot := MarkTaskCompleted(snapshot, p.signalId, payload);
      if p.nextTaskId.Some? {
        snapshot := UpdatePosition(snapshot, AtTask(p.nextTaskId.value));
        hold := SaveOrReport();
      } else {
        hold := CompleteParked(payload);
      }
    }

    method ResolveParkedPosition() returns (hold: Option<Report>)
      requires snapshot.state.InProgress?
      modifies `snapshot, `stored, `tick, `trace
      ensures (hold, State()) == ResolveParked(oracle, old(State()))
    {
      var p := snapshot.state.position;
      match p {
        case AtDelay(delayId, _, wakeAt, next) =>
          var stop := CheckGuards(Some(delayId));
          if stop.Some? {
            return Some(Halted);
          }
          if oracle.clock(tick) < wakeAt {
            return Some(NotReady);
          }
          if next.Some? {
            snapshot := UpdatePosition(snapshot, AtTask(next.value));
            hold := SaveOrReport();
          } else {
            var output := TaskResult(snapshot, delayId);
            hold := CompleteParked(if output.Some? then output.value else []);
          }
        case AtFork(forkId, _, wakeAt) =>
          var stop := CheckGuards(Some(forkId));
          if stop.Some? {
            return Some(Halted);
          }
          if oracle.clock(tick) < wakeAt {
            return Some(NotReady);
          }
          hold := SaveOrReport();
        case AtSignal(signalId, signalName, deadline, _) =>
          var stop := CheckGuards(Some(signalId));
          if stop.Some? {
            return Some(Halted);
          }
          var mail := oracle.mail(tick, signalName);
          tick := tick + 1;
          match mail {
            case Delivered(payload) => hold := AcceptPayload(p, payload);
            case NoMail =>
              if deadline.Some? && oracle.clock(tick) >= deadline.value {
                hold := AcceptPayload(p, []);
              } else {
                hold := Some(NotReady);
              }
            case MailFails => hold := Some(ResumeFailed);
            case MailCrashes => hold := Some(Halted);
          }
        case _ => hold := None;
      }
    }

    method FinalizeExecution(r: ExecResult)
      modifies `snapshot, `stored, `tick, `trace
      ensures State() == Finalize(oracle, r, old(State()))
    {
      if r.Ok? {
        snapshot := MarkCompleted(snapshot, r.value);
        var _ := SaveSnapshot();
      } else if r.error.BackendFailure? || r.error.Raised? {
        snapshot := MarkFailed(snapshot);
        var _ := SaveSnapshot();
      }
    }

    /**
     Launches an instance that has just been stored. On a supported tree the store then holds only what it
     should: if the instance completed, the result of the semantics.
     */
    method Launch(order: Order, cont: Cont, input: Bytes) returns (r: ExecResult)
      modifies this
      ensures (r, State()) == Walk(env, oracle, cont, input, Created(cont, input)) && definition == TextOf(order, cont)
      ensures Honest(env, oracle) && Supported(cont) ==> Trustworthy(env, oracle, cont, input, State())
    {
      snapshot := Fresh(input, FirstTaskId(cont));
      stored, tick, trace, definition := snapshot, 0, [Saved(snapshot)], TextOf(order, cont);
      r := Run(cont, input);
      FinalizeExecution(r);
      assert (r, State()) == Walk(env, oracle, cont, input, Created(cont, input));
      hide Walk, Exec, Trustworthy, Supported, Honest, TextOf;
      if Honest(env, oracle) && Supported(cont) {
        LaunchFaithful(env, oracle, cont, input);
      }
    }

    /**
     Loads the stored snapshot and resumes it with a tree of its own, which must have the stored
     definition. Whatever tree is brought, the store stays faithful to the tree `launched` on `x`.
     */
    method ResumeInstance(order: Order, cont: Cont, ghost launched: Cont, ghost x: Bytes) returns (report: Report)
      modifies `snapshot, `stored, `tick, `trace
      ensures State() == Served(env, oracle, order, definition, ResumeWith(cont), old(State()))
      ensures report ==
        if TextOf(order, cont) != definition then DefinitionMismatch else Attempt(env, oracle, cont, old(State())).0
      ensures
        var sound :=
          && Honest(env, oracle) && Redeployable(order, definition, launched, cont)
          && Faithful(env, oracle, launched, x, old(State()));
        sound ==> Trustworthy(env, oracle, launched, x, State())
    {
      ghost var start := State();
      report := ResumeChecked(order, cont);
      hide Served, Attempt, Faithful, Trustworthy, Honest, TextOf, Redeployable;
      ghost var sound := Redeployable(order, definition, launched, cont) && Faithful(env, oracle, launched, x, start);
      if Honest(env, oracle) && sound {
        ResumeFaithful(env, oracle, order, definition, launched, x, cont, start);
      }
    }

    method ResumeChecked(order: Order, cont: Cont) returns (report: Report)
      modifies `snapshot, `stored, `tick, `trace
      ensures State() == Served(env, oracle, order, definition, ResumeWith(cont), old(State()))
      ensures report ==
        if TextOf(order, cont) != definition then DefinitionMismatch else Attempt(env, oracle, cont, old(State())).0
    {
      hide TextOf, Exec, ResolveParked, Finalize;
      snapshot := stored;
      if TextOf(order, cont) != definition {
        return DefinitionMismatch;
      }
      if !snapshot.state.InProgress? {
        return AlreadyOver;
      }
      var hold := ResolveParkedPosition();
      if hold.Some? {
        return hold.value;
      }
      var input := ResumeInput(snapshot);
      if input.None? {
        return ResumeFailed;
      }
      var r := Run(cont, input.value);
      FinalizeExecution(r);
      return Ended(r);
    }

    /** Puts a paused instance back in progress. */
    method UnpauseInstance(order: Order, ghost launched: Cont, ghost x: Bytes)
      modifies `snapshot, `stored, `tick, `trace
      ensures State() == Served(env, oracle, order, definition, UnpauseIt, old(State()))
      ensures Faithful(env, oracle, launched, x, old(State())) ==> Faithful(env, oracle, launched, x, State())
    {
      ghost var start := State();
      if stored.state.Paused? {
        snapshot := MarkUnpaused(stored);
        var _ := SaveSnapshot();
      }
      hide Faithful, Checkpoint;
      if Faithful(env, oracle, launched, x, start) {
        UnpauseFaithful(env, oracle, launched, x, start);
      }
    }
  }

  /** The store is faithful; in particular a completed instance holds the result of the semantics. */
  ghost predicate Trustworthy(env: Env, o: Oracle, c: Cont, x: Bytes, w: World) {
    && Faithful(env, o, c, x, w)
    && (w.saved.state.Completed? ==> Eval(env, ByNodeId, Answers(w), c, x).out == Done(w.saved.state.output))
  }

  lemma LaunchFaithful(env: Env, o: Oracle, c: Cont, x: Bytes)
    requires Honest(env, o) && Supported(c)
    ensures Trustworthy(env, o, c, x, Walk(env, o, c, x, Created(c, x)).1)
  {
    hide Walk, Supported, Eval;
    CreatedSound(env, c, x);
    WalkFaithful(env, o, c, x, Created(c, x));
  }

  /** A supported tree was launched and its definition stored; all names avoid the delimiters. */
  ghost predicate Redeployable(order: Order, definition: string, launched: Cont, c: Cont) {
    && Enumerates(order) && Supported(launched) && definition == TextOf(order, launched)
    && Clean(ToSerializable(launched)) && Clean(ToSerializable(c))
  }

  lemma ResumeFaithful(
      env: Env, o: Oracle, order: Order, definition: string, launched: Cont, x: Bytes, c: Cont, w: World)
    requires Honest(env, o) && Redeployable(order, definition, launched, c) && Faithful(env, o, launched, x, w)
    ensures Trustworthy(env, o, launched, x, Served(env, o, order, definition, ResumeWith(c), w))
  {
    hide Supported, Eval, Served, TextOf, Clean;
    ServedFaithful(env, o, order, launched, x, ResumeWith(c), w);
  }
}
