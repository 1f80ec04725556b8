/** What a launch or a resume reports is what it has left in the store. */
module Reports {
  import opened Prelude
  import opened Continuation
  import opened Semantics
  import opened Snapshots
  import opened Durable
  import opened Lifecycle
  import opened Parts
  import opened Walks

  /** The reason a walk has stopped is the one its store shows. */
  predicate Shows(s: Stop, saved: Snapshot) {
    match s
    case Waiting(t) =>
      && saved.state.InProgress?
      && (saved.state.position.AtDelay? || saved.state.position.AtFork?) && saved.state.position.wakeAt == t
    case AwaitingSignal(id, name, deadline) =>
      && saved.state.InProgress? && saved.state.position.AtSignal? && saved.state.position.signalId == id
      && saved.state.position.signalName == name && saved.state.position.deadline == deadline
    case CancelledByUser => saved.state.Cancelled?
    case PausedByUser => saved.state.Paused?
    case _ => true
  }

  ghost function ReportLaw(): Law {
    (alarm, stop: Option<Stop>, w: World) =>
      && (stop.None? || stop.value.Waiting? ==> w.snap.state.InProgress?)
      && (stop.Some? ==> Shows(stop.value, w.saved))
  }

  lemma ShownEdits(o: Oracle, root: Cont)
    ensures KeptByRecords(o, root, ReportLaw()) && KeptByLoops(o, root, ReportLaw())
  {
    hide Inside, FirstTaskId;
  }

  lemma ShownParks(env: Env, o: Oracle, root: Cont)
    ensures KeptByParks(env, o, root, ReportLaw())
  {
    hide Inside, SuccessorId, Span, ToMap;
  }

  lemma ReportsKept(env: Env, o: Oracle, root: Cont)
    ensures Kept(Setting(env, o, root, ReportLaw(), false))
  {
    hide KeptByRecords, KeptByLoops, KeptByParks;
    ShownEdits(o, root);
    ShownParks(env, o, root);
  }

  /** A walk's result is what the store shows; an end is stored by the last save, if that works. */
  predicate Told(o: Oracle, r: ExecResult, w: World) {
    match r
    case Ok(v) => w.tick > 0 && (o.save(w.tick - 1).Works? ==> w.saved.state == Completed(v))
    case Err(s) =>
      if s.Raised? || s.BackendFailure? then
        w.tick > 0 && (o.save(w.tick - 1).Works? ==> w.saved.state.Errored?)
      else Shows(s, w.saved)
  }

  lemma WalkTells(env: Env, o: Oracle, c: Cont, x: Bytes, w: World)
    requires w.snap.state.InProgress?
    ensures var (r, w') := Walk(env, o, c, x, w); Told(o, r, w')
  {
    hide Kept, Exec;
    var k := Setting(env, o, c, ReportLaw(), false);
    ReportsKept(env, o, c);
    assert Inside(c, c);
    ExecEnds(k, 0, c, x, false, w);
    var (r, w1) := Exec(env, o, c, x, w);
    assert k.law(0, StopOf(r), w1);
  }

  /** The wait in the store is not over yet. */
  predicate NotYet(o: Oracle, s: Snapshot, t: nat)
    requires s.state.InProgress?
  {
    var p := s.state.position;
    || ((p.AtDelay? || p.AtFork?) && o.clock(t + 1) < p.wakeAt)
    || (&& p.AtSignal? && o.mail(t + 1, p.signalName).NoMail?
        && (p.deadline.Some? ==> o.clock(t + 2) < p.deadline.value))
  }

  /** A request was seen at the wait, and is what the store shows; or a guard or the mailbox could not be read. */
  predicate Stopped(o: Oracle, s: Snapshot, t: nat, s': Snapshot)
    requires s.state.InProgress?
  {
    || (o.guard(t).CancelRequested? && s'.state.Cancelled?)
    || (o.guard(t).PauseRequested? && s'.state.Paused?)
    || o.guard(t).GuardFails? || o.guard(t).GuardCrashes?
    || (s.state.position.AtSignal? && o.mail(t + 1, s.state.position.signalName).MailCrashes?)
  }

  /**
   Resumes tell the truth: that an instance is over or its wait is not, in which case nothing has changed; that
   it was stopped at its wait, or completed there; or, if they came to a walk, how that ended.
   */
  lemma ResumesTell(env: Env, o: Oracle, c: Cont, w: World)
    ensures
      var (report, w') := Attempt(env, o, c, w);
      match report
      case AlreadyOver => !w.saved.state.InProgress? && w'.saved == w.saved && w'.trace == w.trace
      case NotReady =>
        w.saved.state.InProgress? && NotYet(o, w.saved, w.tick) && w'.saved == w.saved && w'.trace == w.trace
      case Halted => w.saved.state.InProgress? && Stopped(o, w.saved, w.tick, w'.saved)
      case CompletedAtWait => w'.saved.state.Completed?
      case Ended(r) => Told(o, r, w')
      case _ => true
  {
    var w1 := w.(snap := w.saved);
    if w1.snap.state.InProgress? {
      ResolveTells(o, w1);
      hide Walk, ResolveParked;
      var (hold, w2) := ResolveParked(o, w1);
      if hold.None? && ResumeInput(w2.snap).Some? {
        WalkTells(env, o, c, ResumeInput(w2.snap).value, w2);
      }
    }
  }

  lemma ResolveTells(o: Oracle, w: World)
    requires w.snap == w.saved && w.saved.state.InProgress?
    ensures
      var (hold, w') := ResolveParked(o, w);
      && (hold == Some(NotReady) ==> NotYet(o, w.saved, w.tick) && w'.saved == w.saved && w'.trace == w.trace)
      && (hold == Some(Halted) ==> Stopped(o, w.saved, w.tick, w'.saved))
      && (hold == Some(CompletedAtWait) ==> w'.saved.state.Completed?)
      && (hold.Some? ==> !hold.value.AlreadyOver? && !hold.value.Ended?) && (hold.None? ==> w'.snap.state.InProgress?)
  {
  }
}
