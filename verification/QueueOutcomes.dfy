/** From what Do answered to how the task ends (module/queue/queue.go, `run` and the loop of `work`): the status
    changes a worker attempts after an iteration, over every run. */
module QueueOutcomes {
  import opened Options
  import opened Tasks
  import opened QueueProtocol
  import opened QueueInvariant
  import opened QueueTheorems
  import opened QueueGauge

  // What a worker attempts along a run.

  /** The status change the step attempts for the task of worker w. */
  function AttemptBy(s: State, step: Step, w: WorkerId): seq<Status> {
    if !step.Work? || step.w != w || w !in s.workers then []
    else
      match step.action
      case Enter(_) => [Processing]
      case Cancel(_) => [Canceled]
      case Fail(_) => [Error]
      case Blame(_) => [Error]
      case Advance(_, _) => if s.workers[w].phase.Advancing? then [s.workers[w].phase.next] else []
      case _ => []
  }

  function AttemptsBy(c: Config, s: State, steps: seq<Step>, w: WorkerId): seq<Status>
    requires Run(c, s, steps).Some?
    decreases |steps|
  {
    if steps == [] then []
    else
      var front := steps[..|steps| - 1];
      AttemptsBy(c, s, front, w) + AttemptBy(Run(c, s, front).value, steps[|steps| - 1], w)
  }

  /** The worker judged a result, and its task was marked then, or was not. */
  predicate Judged(c: Config, s: State, steps: seq<Step>, w: WorkerId, marked: bool)
    requires Run(c, s, steps).Some?
    decreases |steps|
  {
    steps != [] &&
    var front, last := steps[..|steps| - 1], steps[|steps| - 1];
    var before := Run(c, s, front).value;
    || Judged(c, s, front, w, marked)
    || (last == Work(w, Judge) && w in before.workers && (before.workers[w].task in before.marks) == marked)
  }

  predicate Launches(steps: seq<Step>, w: WorkerId) {
    exists i :: 0 <= i < |steps| && steps[i] == Work(w, Launch)
  }

  function Saved(action: Action): bool {
    match action
    case Enter(saved) => saved
    case Cancel(saved) => saved
    case Fail(saved) => saved
    case Blame(saved) => saved
    case Advance(saved, _) => saved
    case _ => false
  }

  /** The task after an attempted change of its status, as far as its status and what it counted are concerned. */
  predicate Made(before: TaskState, after: TaskState, to: Status, saved: bool) {
    var allowed := Allowed(before.record.status, to);
    && after.record.status == (if allowed && saved then to else before.record.status)
    && (after.succeeded <==> before.succeeded || (allowed && to.Completed?))
    && (after.failed <==> before.failed || (allowed && (to.Error? || to.Canceled?)))
    && (after.clean <==> before.clean && (!allowed || saved || Unsaved(before.record.status, to)))
  }

  lemma AttemptMakes(ts: TaskState, to: Status, saved: bool)
    ensures Made(ts, Attempt(ts, to, saved), to, saved)
  {
    TableShape(ts.record.status, to);
  }

  lemma TransitMakes(c: Config, s: State, w: WorkerId, action: Action)
    requires DoWork(c, s, w, action).Some? && (action.Enter? || action.Cancel? || action.Fail? || action.Blame?)
    ensures var s', t := DoWork(c, s, w, action).value, s.workers[w].task;
            && t in s.tasks && t in s'.tasks
            && Made(s.tasks[t], s'.tasks[t], AttemptBy(s, Work(w, action), w)[0], Saved(action))
  {
    AttemptMakes(s.tasks[s.workers[w].task], AttemptBy(s, Work(w, action), w)[0], Saved(action));
  }

  lemma AdvanceMakes(s: State, w: WorkerId, saved: bool, manual: bool)
    requires w in s.workers && s.workers[w].task in s.tasks && DoAdvance(s, w, saved, manual).Some?
    ensures var s', t := DoAdvance(s, w, saved, manual).value, s.workers[w].task;
            && s.workers[w].phase.Advancing? && t in s'.tasks
            && Made(s.tasks[t], s'.tasks[t], s.workers[w].phase.next, saved)
  {
    AttemptMakes(s.tasks[s.workers[w].task], s.workers[w].phase.next, saved);
  }

  /** The activation is over, with no further iteration. */
  predicate Over(c: Config, s: State, steps: seq<Step>, w: WorkerId)
    requires Run(c, s, steps).Some?
  {
    var s' := Run(c, s, steps).value;
    !Launches(steps, w) && w in s'.workers && Ended(s'.workers[w].phase)
  }

  /** An attempted change is made if the table has it and it is saved, and counted if the table has it. */
  lemma AttemptIsMade(c: Config, s: State, w: WorkerId, action: Action)
    requires Next(c, s, Work(w, action)).Some? && AttemptBy(s, Work(w, action), w) != []
    ensures var s', t := Next(c, s, Work(w, action)).value, s.workers[w].task;
            && t in s.tasks && t in s'.tasks
            && Made(s.tasks[t], s'.tasks[t], AttemptBy(s, Work(w, action), w)[0], Saved(action))
  {
    assert Next(c, s, Work(w, action)) == DoWork(c, s, w, action);
    if action.Advance? {
      AdvanceMakes(s, w, action.saved, action.manual);
    } else {
      TransitMakes(c, s, w, action);
    }
  }

  // The stages between the result of an iteration and the end of the activation.

  /** The worker and its task, after the attempts made since the iteration returned.  `marked` is whether the task
      was marked when the result was judged, if it was judged. */
  datatype Stage =
    | Failed                     // an error that is no cancellation, or the time is over
    | Withdrawn                  // cancelled
    | Panicked                   // a panic
    | Answered(next: Status)     // a result without error, before it is judged
    | Marked                     // judged, and the task was marked
    | Unmarked(next: Status)     // judged, and the task was not marked

  /** The activation is over, after one attempt that gave the task its last status. */
  predicate Last(k: Worker, ts: TaskState, w: WorkerId, to: Status, made: seq<Status>) {
    && Ended(k.phase) && made == [to] && ts.place == HeldBy(w)
    && (ts.succeeded <==> to.Completed?) && (ts.failed <==> to.Error? || to.Canceled?)
    && (ts.clean ==> ts.record.status == to)
  }

  predicate AtStage(k: Worker, ts: TaskState, w: WorkerId, stage: Stage, made: seq<Status>) {
    match stage
    case Failed => (k.phase.Failing? && made == []) || Last(k, ts, w, Error, made)
    case Withdrawn => ((k.phase.Withdrawing? || k.phase.Canceling?) && made == []) || Last(k, ts, w, Canceled, made)
    case Panicked => (Unblamed(k) && made == []) || Last(k, ts, w, Error, made)
    case Answered(next) => k.phase == Judging(next) && made == []
    case Marked => (k.phase.Canceling? && made == []) || Last(k, ts, w, Canceled, made)
    case Unmarked(next) =>
      || (k.phase == Advancing(next) && made == [])
      || (made == [next] && (next.Processing? ==> k.phase.Launching?)
          && (!next.Processing? ==> Ended(k.phase) || (next.Suspending? && (k.phase.Requeueing? || k.phase.Pushing?)))
          && (Terminal(next) ==> Last(k, ts, w, next, made)))
  }

  predicate WorkerAt(s: State, w: WorkerId, stage: Stage, made: seq<Status>) {
    && w in s.workers && s.workers[w].task in s.tasks
    && AtStage(s.workers[w], s.tasks[s.workers[w].task], w, stage, made)
  }

  /** The stage after a step of the worker. */
  function NextStage(s: State, w: WorkerId, stage: Stage, action: Action): Stage
    requires w in s.workers
  {
    if stage.Answered? && action.Judge? then
      if s.workers[w].task in s.marks then Marked else Unmarked(stage.next)
    else stage
  }

  lemma FailedStep(c: Config, s: State, w: WorkerId, action: Action, made: seq<Status>)
    requires Local(c, s, w) && WorkerAt(s, w, Failed, made) && DoWork(c, s, w, action).Some?
    requires !Ended(s.workers[w].phase)
    ensures WorkerAt(DoWork(c, s, w, action).value, w, Failed, made + AttemptBy(s, Work(w, action), w))
  {
    if action.Fail? {
      TransitMakes(c, s, w, action);
    }
  }

  lemma WithdrawnStep(c: Config, s: State, w: WorkerId, action: Action, made: seq<Status>)
    requires Local(c, s, w) && WorkerAt(s, w, Withdrawn, made) && DoWork(c, s, w, action).Some?
    requires !Ended(s.workers[w].phase)
    ensures WorkerAt(DoWork(c, s, w, action).value, w, Withdrawn, made + AttemptBy(s, Work(w, action), w))
  {
    if action.Cancel? {
      TransitMakes(c, s, w, action);
    }
  }

  lemma PanickedStep(c: Config, s: State, w: WorkerId, action: Action, made: seq<Status>)
    requires Local(c, s, w) && WorkerAt(s, w, Panicked, made) && DoWork(c, s, w, action).Some?
    requires !Ended(s.workers[w].phase)
    ensures WorkerAt(DoWork(c, s, w, action).value, w, Panicked, made + AttemptBy(s, Work(w, action), w))
  {
    if action.Blame? {
      TransitMakes(c, s, w, action);
    }
  }

  lemma MarkedStep(c: Config, s: State, w: WorkerId, action: Action, made: seq<Status>)
    requires Local(c, s, w) && WorkerAt(s, w, Marked, made) && DoWork(c, s, w, action).Some?
    requires !Ended(s.workers[w].phase)
    ensures WorkerAt(DoWork(c, s, w, action).value, w, Marked, made + AttemptBy(s, Work(w, action), w))
  {
    if action.Cancel? {
      TransitMakes(c, s, w, action);
    }
  }

  lemma AnsweredStep(c: Config, s: State, w: WorkerId, action: Action, next: Status, made: seq<Status>)
    requires Local(c, s, w) && WorkerAt(s, w, Answered(next), made) && DoWork(c, s, w, action).Some?
    ensures action.Judge?
    ensures WorkerAt(DoWork(c, s, w, action).value, w, NextStage(s, w, Answered(next), action),
                     made + AttemptBy(s, Work(w, action), w))
  {
  }

  lemma UnmarkedStep(c: Config, s: State, w: WorkerId, action: Action, next: Status, made: seq<Status>)
    requires Local(c, s, w) && WorkerAt(s, w, Unmarked(next), made) && DoWork(c, s, w, action).Some?
    requires !Ended(s.workers[w].phase) && !action.Launch?
    ensures WorkerAt(DoWork(c, s, w, action).value, w, Unmarked(next), made + AttemptBy(s, Work(w, action), w))
  {
    if action.Advance? {
      UnmarkedAdvance(c, s, w, action.saved, action.manual, next);
    } else {
      UnmarkedReturn(c, s, w, action, next, made);
    }
  }

  lemma UnmarkedReturn(c: Config, s: State, w: WorkerId, action: Action, next: Status, made: seq<Status>)
    requires Local(c, s, w) && WorkerAt(s, w, Unmarked(next), made) && DoWork(c, s, w, action).Some?
    requires !Ended(s.workers[w].phase) && !action.Launch? && !action.Advance?
    ensures WorkerAt(DoWork(c, s, w, action).value, w, Unmarked(next), made + AttemptBy(s, Work(w, action), w))
  {
    assert action.Requeue? || action.Push?;
  }

  lemma UnmarkedAdvance(c: Config, s: State, w: WorkerId, saved: bool, manual: bool, next: Status)
    requires Local(c, s, w) && s.workers[w].phase == Advancing(next) && DoAdvance(s, w, saved, manual).Some?
    ensures WorkerAt(DoAdvance(s, w, saved, manual).value, w, Unmarked(next), [next])
  {
    AdvanceMakes(s, w, saved, manual);
  }

  /** What a worker that has ended still does changes nothing that was decided. */
  lemma EndedKeepsTask(c: Config, s: State, w: WorkerId, action: Action)
    requires DoWork(c, s, w, action).Some? && Ended(s.workers[w].phase)
    ensures var s', t := DoWork(c, s, w, action).value, s.workers[w].task;
            && w in s'.workers && s'.workers[w].task == t && Ended(s'.workers[w].phase) && t in s'.tasks
            && var before, after := s.tasks[t], s'.tasks[t];
               && after.place == before.place && after.clean == before.clean
               && after.record.status == before.record.status
               && after.succeeded == before.succeeded && after.failed == before.failed
    ensures AttemptBy(s, Work(w, action), w) == []
  {
  }

  lemma EndedStep(c: Config, s: State, w: WorkerId, action: Action, stage: Stage, made: seq<Status>)
    requires WorkerAt(s, w, stage, made) && DoWork(c, s, w, action).Some? && Ended(s.workers[w].phase)
    ensures WorkerAt(DoWork(c, s, w, action).value, w, stage, made + AttemptBy(s, Work(w, action), w))
    ensures NextStage(s, w, stage, action) == stage
  {
    EndedKeepsTask(c, s, w, action);
    assert made + [] == made;
  }

  lemma OwnStep(c: Config, s: State, w: WorkerId, action: Action, stage: Stage, made: seq<Status>)
    requires Local(c, s, w) && WorkerAt(s, w, stage, made) && DoWork(c, s, w, action).Some? && !action.Launch?
    ensures WorkerAt(DoWork(c, s, w, action).value, w, NextStage(s, w, stage, action),
                     made + AttemptBy(s, Work(w, action), w))
  {
    if Ended(s.workers[w].phase) {
      EndedStep(c, s, w, action, stage, made);
    } else {
      match stage
      case Failed => FailedStep(c, s, w, action, made);
      case Withdrawn => WithdrawnStep(c, s, w, action, made);
      case Panicked => PanickedStep(c, s, w, action, made);
      case Answered(next) => AnsweredStep(c, s, w, action, next, made);
      case Marked => MarkedStep(c, s, w, action, made);
      case Unmarked(next) => UnmarkedStep(c, s, w, action, next, made);
    }
  }

  /** Steps of others leave the worker where it is, or its epilogue in the epilogue. */
  lemma OthersKeepPhase(c: Config, s: State, step: Step, w: WorkerId)
    requires Inv(c, s) && Next(c, s, step).Some? && w in s.workers && (step.Work? ==> step.w != w)
    ensures var s' := Next(c, s, step).value;
            && w in s'.workers && s'.workers[w].task == s.workers[w].task
            && (s'.workers[w] == s.workers[w] || (Ended(s.workers[w].phase) && Ended(s'.workers[w].phase)))
  {
    if step.Work? {
      WorkIsLocal(c, s, step.w, step.action);
    } else if step.CheckBusy? || step.Signal? {
      EndedOrSame(c, s, step.agent, w);
    } else if step.Spawn? {
      assert Next(c, s, step) == DoSpawn(s, step.w);
    } else {
      OtherStepsLeaveWorkers(c, s, step);
    }
  }

  lemma EndedOrSame(c: Config, s: State, agent: Agent, w: WorkerId)
    requires w in s.workers
    ensures DoCheckBusy(c, s, agent).Some? ==>
              var k := s.workers[w];
              w in DoCheckBusy(c, s, agent).value.workers
              && var k' := DoCheckBusy(c, s, agent).value.workers[w];
                 k'.task == k.task && (k' == k || (Ended(k.phase) && Ended(k'.phase)))
    ensures DoSignal(s, agent).Some? ==>
              var k := s.workers[w];
              w in DoSignal(s, agent).value.workers
              && var k' := DoSignal(s, agent).value.workers[w];
                 k'.task == k.task && (k' == k || (Ended(k.phase) && Ended(k'.phase)))
  {
  }

  lemma OthersStep(c: Config, s: State, step: Step, w: WorkerId, stage: Stage, made: seq<Status>)
    requires Inv(c, s) && WorkerAt(s, w, stage, made) && Next(c, s, step).Some? && (step.Work? ==> step.w != w)
    ensures WorkerAt(Next(c, s, step).value, w, stage, made)
  {
    var t := s.workers[w].task;
    LocalPart(c, s, w);
    OthersKeepPhase(c, s, step, w);
    TasksStay(c, s, step, t);
    if s.tasks[t].place == HeldBy(w) {
      HeldIsLeftAlone(c, s, step, t, w);
    }
  }

  lemma TasksStay(c: Config, s: State, step: Step, t: TaskId)
    requires Inv(c, s) && Next(c, s, step).Some? && t in s.tasks
    ensures t in Next(c, s, step).value.tasks
  {
    if step.Work? {
      WorkIsLocal(c, s, step.w, step.action);
    } else if step.CheckBusy? || step.Signal? {
      ScheduleLeavesTasks(c, s, step.agent);
    } else if step.Spawn? {
      assert Next(c, s, step) == DoSpawn(s, step.w);
    }
  }

  /** The stage after a run, and what it has to do with the judgement. */
  predicate Reached(c: Config, s: State, steps: seq<Step>, w: WorkerId, from: Stage, stage: Stage)
    requires Run(c, s, steps).Some?
  {
    && (!from.Answered? ==> stage == from)
    && (from.Answered? ==>
          && (stage == from || stage == Marked || stage == Unmarked(from.next))
          && (stage == Marked <==> Judged(c, s, steps, w, true))
          && (stage == Unmarked(from.next) <==> Judged(c, s, steps, w, false)))
  }

  lemma JudgesOnce(c: Config, s: State, w: WorkerId, stage: Stage, made: seq<Status>)
    requires WorkerAt(s, w, stage, made) && !stage.Answered?
    ensures DoJudge(s, w).None?
  {
  }

  lemma JudgeStep(c: Config, s: State, steps: seq<Step>, w: WorkerId, from: Stage, stage: Stage, made: seq<Status>)
    requires steps != [] && Run(c, s, steps).Some?
    requires var front := steps[..|steps| - 1];
             Reached(c, s, front, w, from, stage) && WorkerAt(Run(c, s, front).value, w, stage, made)
    ensures var before, last := Run(c, s, steps[..|steps| - 1]).value, steps[|steps| - 1];
            var next := if last.Work? && last.w == w then NextStage(before, w, stage, last.action) else stage;
            Reached(c, s, steps, w, from, next)
  {
    var before, last := Run(c, s, steps[..|steps| - 1]).value, steps[|steps| - 1];
    if last == Work(w, Judge) && !stage.Answered? {
      JudgesOnce(c, before, w, stage, made);
    }
  }

  lemma StageStep(c: Config, s: State, step: Step, w: WorkerId, from: Stage, made: seq<Status>) returns (stage: Stage)
    requires Inv(c, s) && WorkerAt(s, w, from, made) && Next(c, s, step).Some? && step != Work(w, Launch)
    ensures WorkerAt(Next(c, s, step).value, w, stage, made + AttemptBy(s, step, w))
    ensures stage == if step.Work? && step.w == w then NextStage(s, w, from, step.action) else from
  {
    if step.Work? && step.w == w {
      stage := NextStage(s, w, from, step.action);
      LocalPart(c, s, w);
      OwnStep(c, s, w, step.action, from, made);
    } else {
      stage := from;
      OthersStep(c, s, step, w, from, made);
      assert made + [] == made;
    }
  }

  lemma {:induction false} StageRun(c: Config, s: State, steps: seq<Step>, w: WorkerId, from: Stage)
    returns (stage: Stage)
    requires c.workerCount >= 1 && Good(c, s) && WorkerAt(s, w, from, [])
    requires Run(c, s, steps).Some? && !Launches(steps, w)
    ensures WorkerAt(Run(c, s, steps).value, w, stage, AttemptsBy(c, s, steps, w))
    ensures Reached(c, s, steps, w, from, stage)
  {
    if steps == [] {
      stage := from;
    } else {
      var front, last := steps[..|steps| - 1], steps[|steps| - 1];
      assert last == steps[|steps| - 1] && forall i | 0 <= i < |front| :: front[i] == steps[i];
      var earlier := StageRun(c, s, front, w, from);
      RunKeeps(c, s, front);
      JudgeStep(c, s, steps, w, from, earlier, AttemptsBy(c, s, front, w));
      stage := StageStep(c, Run(c, s, front).value, last, w, earlier, AttemptsBy(c, s, front, w));
    }
  }

  // The main result.

  /** The worker takes a result without error. */
  predicate Answers(job: Job, choice: Choice) {
    choice.TakeResult? && job.Finished? && job.err.None?
  }

  /** The iteration was cancelled: its context is done, or Do reports just that. */
  predicate Cancels(job: Job, choice: Choice) {
    choice.ContextDone? || (choice.TakeResult? && job.Finished? && job.err.Some? && job.err.value.canceled)
  }

  /** The iteration failed: time over, a panic, or an error of another kind. */
  predicate Fails(job: Job, choice: Choice) {
    || choice.TimeOut? || choice.TakePanic?
    || (choice.TakeResult? && job.Finished? && job.err.Some? && !job.err.value.canceled)
  }

  lemma SelectStage(s: State, w: WorkerId, choice: Choice) returns (stage: Stage)
    requires w in s.workers && s.workers[w].task in s.tasks && DoSelect(s, w, choice).Some?
    ensures WorkerAt(DoSelect(s, w, choice).value, w, stage, [])
    ensures Answers(s.workers[w].job, choice) ==> stage == Answered(s.workers[w].job.next)
    ensures Cancels(s.workers[w].job, choice) ==> stage == Withdrawn
    ensures Fails(s.workers[w].job, choice) ==> stage == Failed || stage == Panicked
    ensures Answers(s.workers[w].job, choice) || Cancels(s.workers[w].job, choice) || Fails(s.workers[w].job, choice)
  {
    var job := s.workers[w].job;
    stage := if Answers(job, choice) then Answered(job.next) else if Cancels(job, choice) then Withdrawn
             else if choice.TakePanic? then Panicked else Failed;
  }

  /** However the run goes on after an iteration of worker w, once the activation is over, with no further
      iteration, exactly one status change was attempted: to what Do answered, if the answer was taken and the task
      was not marked when it was judged; to Canceled, if it was, or if the iteration was cancelled; and to Error, if
      it failed.  A completed, failed or cancelled task has counted just that, and has the status if saving worked. */
  lemma OutcomeDecides(c: Config, s: State, s1: State, w: WorkerId, choice: Choice, steps: seq<Step>)
    requires c.workerCount >= 1 && Reachable(c, s) && Next(c, s, Work(w, Select(choice))) == Some(s1)
    requires Run(c, s1, steps).Some? && Over(c, s1, steps, w)
    ensures var job, made, marked := s.workers[w].job, AttemptsBy(c, s1, steps, w), Judged(c, s1, steps, w, true);
            && |made| == 1
            && (Answers(job, choice) ==> (marked <==> !Judged(c, s1, steps, w, false)))
            && (Answers(job, choice) && !marked ==> made == [job.next] && !job.next.Processing?)
            && (!(Answers(job, choice) && !marked) ==>
                  && (made == [Canceled] <==> Answers(job, choice) || Cancels(job, choice))
                  && (made == [Error] <==> Fails(job, choice)))
    ensures var made, s', t := AttemptsBy(c, s1, steps, w), Run(c, s1, steps).value, s.workers[w].task;
            && s'.workers[w].task == t && t in s'.tasks
            && var ts := s'.tasks[t];
               Terminal(made[0]) ==>
                 && ts.place == HeldBy(w) && (ts.succeeded <==> made == [Completed])
                 && (ts.failed <==> made == [Error] || made == [Canceled]) && (ts.clean ==> ts.record.status == made[0])
  {
    var from := SelectLeads(c, s, s1, w, choice);
    OutcomeFrom(c, s1, w, steps, from);
  }

  lemma SelectLeads(c: Config, s: State, s1: State, w: WorkerId, choice: Choice) returns (from: Stage)
    requires c.workerCount >= 1 && Reachable(c, s) && Next(c, s, Work(w, Select(choice))) == Some(s1)
    ensures w in s.workers && Good(c, s1) && WorkerAt(s1, w, from, []) && s1.workers[w].task == s.workers[w].task
    ensures var job := s.workers[w].job;
            && (Answers(job, choice) ==> from == Answered(job.next))
            && (Cancels(job, choice) ==> from == Withdrawn)
            && (Fails(job, choice) ==> from == Failed || from == Panicked)
            && (Answers(job, choice) || Cancels(job, choice) || Fails(job, choice))
  {
    ReachableIsGood(c, s);
    StepKeeps(c, s, Work(w, Select(choice)));
    assert DoSelect(s, w, choice) == Some(s1);
    from := SelectStage(s, w, choice);
    SelectKeepsTask(s, w, choice);
  }

  lemma OutcomeFrom(c: Config, s: State, w: WorkerId, steps: seq<Step>, from: Stage)
    requires c.workerCount >= 1 && Good(c, s) && WorkerAt(s, w, from, []) && !from.Marked? && !from.Unmarked?
    requires Run(c, s, steps).Some? && Over(c, s, steps, w)
    ensures var made, marked := AttemptsBy(c, s, steps, w), Judged(c, s, steps, w, true);
            && |made| == 1
            && (from.Answered? ==>
                  && (marked <==> !Judged(c, s, steps, w, false))
                  && (if marked then made == [Canceled] else made == [from.next] && !from.next.Processing?))
            && (from.Withdrawn? ==> made == [Canceled])
            && (from.Failed? || from.Panicked? ==> made == [Error])
    ensures var made, s', t := AttemptsBy(c, s, steps, w), Run(c, s, steps).value, s.workers[w].task;
            && s'.workers[w].task == t && t in s'.tasks
            && (Terminal(made[0]) ==> Last(s'.workers[w], s'.tasks[t], w, made[0], made))
  {
    var stage := StageRun(c, s, steps, w, from);
    RunKeepsTask(c, s, steps, w);
    var s' := Run(c, s, steps).value;
    StageEnds(s'.workers[w], s'.tasks[s'.workers[w].task], w, stage, AttemptsBy(c, s, steps, w));
  }

  lemma SelectKeepsTask(s: State, w: WorkerId, choice: Choice)
    requires w in s.workers && DoSelect(s, w, choice).Some?
    ensures var s' := DoSelect(s, w, choice).value; w in s'.workers && s'.workers[w].task == s.workers[w].task
  {
  }

  /** Where the stages lead to. */
  lemma StageEnds(k: Worker, ts: TaskState, w: WorkerId, stage: Stage, made: seq<Status>)
    requires AtStage(k, ts, w, stage, made) && Ended(k.phase)
    ensures !stage.Answered? && |made| == 1
    ensures stage.Unmarked? ==> made == [stage.next] && !stage.next.Processing?
    ensures stage.Withdrawn? || stage.Marked? ==> made == [Canceled]
    ensures stage.Failed? || stage.Panicked? ==> made == [Error]
    ensures Terminal(made[0]) ==> Last(k, ts, w, made[0], made)
  {
  }

  lemma {:induction false} RunKeepsTask(c: Config, s: State, steps: seq<Step>, w: WorkerId)
    requires c.workerCount >= 1 && Good(c, s) && Run(c, s, steps).Some? && w in s.workers
    ensures var s' := Run(c, s, steps).value; w in s'.workers && s'.workers[w].task == s.workers[w].task
  {
    if steps != [] {
      var front := steps[..|steps| - 1];
      RunKeepsTask(c, s, front, w);
      RunKeeps(c, s, front);
      StepRemembers(c, Run(c, s, front).value, steps[|steps| - 1], w);
    }
  }

  // The start of an activation.

  /** A saved start goes on to the iterations with the task Processing.  After one that was not saved the worker
      attempts nothing but the move to Error, over every run. */
  lemma StartDecides(c: Config, s: State, s1: State, w: WorkerId, saved: bool, steps: seq<Step>)
    requires c.workerCount >= 1 && Reachable(c, s) && Next(c, s, Work(w, Enter(saved))) == Some(s1)
    requires Run(c, s1, steps).Some?
    ensures w in s1.workers && s1.workers[w].task == s.workers[w].task && s1.workers[w].task in s1.tasks
    ensures saved ==> s1.workers[w].phase.Launching? && s1.tasks[s1.workers[w].task].record.status.Processing?
    ensures !saved && Over(c, s1, steps, w) ==> AttemptsBy(c, s1, steps, w) == [Error]
  {
    GoodAfter(c, s, s1, Work(w, Enter(saved)));
    ReachableIsLocal(c, s, w);
    StartStage(c, s, s1, w, saved);
    if !saved && Over(c, s1, steps, w) {
      OutcomeFrom(c, s1, w, steps, Panicked);
    }
  }

  lemma StartStage(c: Config, s: State, s1: State, w: WorkerId, saved: bool)
    requires Local(c, s, w) && Next(c, s, Work(w, Enter(saved))) == Some(s1)
    ensures w in s1.workers && s1.workers[w].task == s.workers[w].task && s1.workers[w].task in s1.tasks
    ensures saved ==> s1.workers[w].phase.Launching? && s1.tasks[s1.workers[w].task].record.status.Processing?
    ensures !saved ==> WorkerAt(s1, w, Panicked, [])
  {
    assert DoWork(c, s, w, Enter(saved)) == Some(s1);
    AttemptMakes(s.tasks[s.workers[w].task], Processing, saved);
  }

  /** A worker that finds its task marked attempts nothing but its cancellation, over every run; one that does not
      goes on to the start. */
  lemma CheckDecides(c: Config, s: State, s1: State, w: WorkerId, steps: seq<Step>)
    requires c.workerCount >= 1 && Reachable(c, s) && Next(c, s, Work(w, CheckMark)) == Some(s1)
    requires Run(c, s1, steps).Some?
    ensures w in s.workers && w in s1.workers
    ensures s1.workers[w].phase.Entering? <==> s.workers[w].task !in s.marks
    ensures s.workers[w].task in s.marks && Over(c, s1, steps, w) ==> AttemptsBy(c, s1, steps, w) == [Canceled]
  {
    GoodAfter(c, s, s1, Work(w, CheckMark));
    CheckStage(c, s, s1, w);
    if s.workers[w].task in s.marks && Over(c, s1, steps, w) {
      OutcomeFrom(c, s1, w, steps, Withdrawn);
    }
  }

  lemma CheckStage(c: Config, s: State, s1: State, w: WorkerId)
    requires Next(c, s, Work(w, CheckMark)) == Some(s1)
    ensures w in s.workers && w in s1.workers
    ensures s1.workers[w].phase.Entering? <==> s.workers[w].task !in s.marks
    ensures s.workers[w].task in s.marks ==> WorkerAt(s1, w, Withdrawn, [])
  {
    assert DoWork(c, s, w, CheckMark) == Some(s1);
  }

  // From the answer of Do to the result that is taken.

  /** What the select of `run` may take: a result or a panic that is there, the timeout at any time, and the end of
      the context once it was cancelled, by a cancellation of the task or by a shutdown. */
  lemma ChoicesAre(c: Config, s: State, w: WorkerId)
    requires !s.crashed && w in s.workers && s.workers[w].task in s.tasks && s.workers[w].phase.Running?
    ensures Next(c, s, Work(w, Select(TakeResult))).Some? <==> s.workers[w].job.Finished?
    ensures Next(c, s, Work(w, Select(TakePanic))).Some? <==> s.workers[w].job.Burst?
    ensures Next(c, s, Work(w, Select(TimeOut))).Some?
    ensures Next(c, s, Work(w, Select(ContextDone))).Some? <==> w in s.signalled || s.shutdown >= 2
  {
  }

  lemma SuspensionMade(ts: TaskState, saved: bool)
    requires ts.record.status.Processing?
    ensures Attempt(ts, Suspending, saved).record.status == if saved then Suspending else Processing
  {
    AttemptMakes(ts, Suspending, saved);
  }

  /** A suspension that was saved, of a task that waits for its client: the activation is over, and the client can
      resume the task. */
  lemma LeftForTheClient(s: State, s1: State, w: WorkerId)
    requires w in s.workers && s.workers[w].task in s.tasks && s.workers[w].phase == Advancing(Suspending)
    requires s.tasks[s.workers[w].task].record.status.Processing? && DoAdvance(s, w, true, true) == Some(s1)
    ensures var t := s.workers[w].task;
            && w in s1.workers && s1.workers[w].phase == Leaving(false)
            && t in s1.tasks && s1.tasks[t].record.status.Suspending? && s1.lock == s.lock
            && (s.lock.None? ==> DoResume(s1, t).Some? && t in DoResume(s1, t).value.submitting)
  {
    SuspensionMade(s.tasks[s.workers[w].task], true);
  }

  /** A suspension that was saved, of another task: it goes back to the queue at once. */
  lemma GoesBack(s: State, s1: State, w: WorkerId)
    requires w in s.workers && s.workers[w].task in s.tasks && s.workers[w].phase == Advancing(Suspending)
    requires s.tasks[s.workers[w].task].record.status.Processing? && DoAdvance(s, w, true, false) == Some(s1)
    ensures var t := s.workers[w].task;
            && w in s1.workers && s1.workers[w].phase.Requeueing?
            && t in s1.tasks && s1.tasks[t].record.status.Suspending? && s1.tasks[t].parked == s.tasks[t].parked
  {
    SuspensionMade(s.tasks[s.workers[w].task], true);
  }

  /** A suspension that was not saved: the activation is over, and the task is where it was. */
  lemma NotSuspended(s: State, s1: State, w: WorkerId, manual: bool)
    requires w in s.workers && s.workers[w].task in s.tasks && s.workers[w].phase == Advancing(Suspending)
    requires s.tasks[s.workers[w].task].record.status.Processing? && DoAdvance(s, w, false, manual) == Some(s1)
    ensures var t := s.workers[w].task;
            && w in s1.workers && s1.workers[w].phase == Leaving(false)
            && t in s1.tasks && s1.tasks[t].record.status.Processing? && s1.tasks[t].parked == s.tasks[t].parked
  {
    SuspensionMade(s.tasks[s.workers[w].task], false);
  }

  /** Do's answer is retried if it is an error that is not critical, with a retry left and no shutdown begun. */
  predicate Retried(c: Config, s: State, t: TaskId, outcome: Outcome)
    requires t in s.tasks
  {
    && outcome.Returns? && outcome.err.Some? && !outcome.err.value.critical
    && s.tasks[t].record.retries < c.maxRetry && s.shutdown == 0
  }

  /** A retry is decided exactly then; any other answer is passed on as it is. */
  lemma AnswerIsPassedOn(c: Config, s: State, s1: State, w: WorkerId, outcome: Outcome, resumeAfter: Option<int>)
    requires Next(c, s, Work(w, JobReturn(outcome, resumeAfter))) == Some(s1)
    ensures w in s.workers && s.workers[w].job.Doing? && s.workers[w].task in s.tasks && w in s1.workers
    ensures var job, retried := s1.workers[w].job, Retried(c, s, s.workers[w].task, outcome);
            && (job.Deciding? <==> retried) && (retried ==> job.cause == outcome.err.value)
            && (job.Burst? <==> outcome.Panics?)
            && (job.Finished? <==> outcome.Returns? && !retried)
            && (job.Finished? ==> job.next == outcome.next && job.err == outcome.err)
    ensures s1.workers == s.workers[w := s.workers[w].(job := s1.workers[w].job)]
    ensures var t := s.workers[w].task;
            && t in s1.tasks && s1.tasks == s.tasks[t := s1.tasks[t]]
            && s1.tasks[t].record == s.tasks[t].record.(resumeAt := s1.tasks[t].record.resumeAt)
            && s1.tasks[t].record.resumeAt ==
               if resumeAfter.Some? then resumeAfter.value else s.tasks[t].record.resumeAt
  {
    assert DoJobReturn(c, s, w, outcome, resumeAfter) == Some(s1);
  }

  /** A retry counts, records its cause and asks to be resumed at second floor(T + d); its result is a suspension
      without error. */
  lemma RetryIsASuspension(c: Config, s: State, s1: State, w: WorkerId, delay: nat)
    requires Next(c, s, Work(w, JobRetry(delay))) == Some(s1)
    ensures w in s.workers && s.workers[w].job.Deciding?
    ensures s.workers[w].task in s.tasks && s.workers[w].task in s1.tasks
    ensures var t := s.workers[w].task;
            var before, after := s.tasks[t].record, s1.tasks[t].record;
            && s1.workers == s.workers[w := s.workers[w].(job := Finished(Suspending, None))]
            && after.retries == before.retries + 1 && after.history == before.history + [s.workers[w].job.cause.text]
            && after.resumeAt == (s.now + delay) / 1_000_000_000 && after.status == before.status
  {
    assert DoJobRetry(s, w, delay) == Some(s1);
  }

  predicate Selects(steps: seq<Step>, w: WorkerId) {
    exists i :: 0 <= i < |steps| && steps[i].Work? && steps[i].w == w && steps[i].action.Select?
  }

  /** Until it is taken, a result or a panic waits, and a decided retry becomes its suspension. */
  predicate JobCourse(from: Job, to: Job) {
    to == from || (from.Deciding? && to == Finished(Suspending, None))
  }

  lemma JobStep(c: Config, s: State, w: WorkerId, action: Action)
    requires Local(c, s, w) && s.workers[w].phase.Running? && DoWork(c, s, w, action).Some? && !action.Select?
    requires s.workers[w].job.Finished? || s.workers[w].job.Burst? || s.workers[w].job.Deciding?
    ensures var s' := DoWork(c, s, w, action).value;
            && w in s'.workers && s'.workers[w].phase.Running? && s'.workers[w].task == s.workers[w].task
            && JobCourse(s.workers[w].job, s'.workers[w].job)
  {
  }

  /** A result or a panic, or a retry on its way to its result. */
  predicate Due(k: Worker) {
    k.phase.Running? && (k.job.Finished? || k.job.Burst? || k.job.Deciding?)
  }

  lemma ResultWaitsStep(c: Config, s: State, step: Step, w: WorkerId)
    requires Inv(c, s) && Next(c, s, step).Some? && w in s.workers && Due(s.workers[w])
    requires step.Work? && step.w == w ==> !step.action.Select?
    ensures var s' := Next(c, s, step).value;
            && w in s'.workers && s'.workers[w].phase.Running? && s'.workers[w].task == s.workers[w].task
            && JobCourse(s.workers[w].job, s'.workers[w].job)
  {
    if step.Work? && step.w == w {
      LocalPart(c, s, w);
      JobStep(c, s, w, step.action);
    } else {
      OthersKeepPhase(c, s, step, w);
    }
  }

  lemma {:induction false} ResultWaits(c: Config, s: State, steps: seq<Step>, w: WorkerId)
    requires c.workerCount >= 1 && Good(c, s) && Run(c, s, steps).Some? && !Selects(steps, w)
    requires w in s.workers && Due(s.workers[w])
    ensures var s' := Run(c, s, steps).value;
            && w in s'.workers && s'.workers[w].phase.Running? && s'.workers[w].task == s.workers[w].task
            && JobCourse(s.workers[w].job, s'.workers[w].job)
  {
    if steps != [] {
      var front, last := steps[..|steps| - 1], steps[|steps| - 1];
      assert last == steps[|steps| - 1] && forall i | 0 <= i < |front| :: front[i] == steps[i];
      var before := Run(c, s, front).value;
      ResultWaits(c, s, front, w);
      RunKeeps(c, s, front);
      ResultWaitsStep(c, before, last, w);
    }
  }

  /** What a worker attempts once Do has answered, the answer is taken, and the task is not marked: what Do answered,
      if it did so without error; suspension, if the answer is retried; cancellation, if the error is one; and the
      move to Error otherwise, a panic included. */
  function EndOf(c: Config, s: State, t: TaskId, outcome: Outcome): Status
    requires t in s.tasks
  {
    if outcome.Panics? then Error
    else if Retried(c, s, t, outcome) then Suspending
    else if outcome.err.None? then outcome.next
    else if outcome.err.value.canceled then Canceled
    else Error
  }

  lemma AnswerDecides(c: Config, s: State, s1: State, w: WorkerId, outcome: Outcome, resumeAfter: Option<int>,
                      waiting: seq<Step>, s2: State, choice: Choice, s3: State, steps: seq<Step>)
    requires c.workerCount >= 1 && Reachable(c, s) && Next(c, s, Work(w, JobReturn(outcome, resumeAfter))) == Some(s1)
    requires s.workers[w].phase.Running? && Run(c, s1, waiting) == Some(s2) && !Selects(waiting, w)
    requires (choice.TakeResult? || choice.TakePanic?) && Next(c, s2, Work(w, Select(choice))) == Some(s3)
    requires Run(c, s3, steps).Some? && Over(c, s3, steps, w) && !Judged(c, s3, steps, w, true)
    ensures s.workers[w].task in s.tasks && AttemptsBy(c, s3, steps, w) == [EndOf(c, s, s.workers[w].task, outcome)]
  {
    AnswerWaits(c, s, s1, w, outcome, resumeAfter, waiting, s2);
    TakenDecides(c, s2, s3, w, choice, steps);
  }

  /** What is attempted after a job's result or panic was taken, the task unmarked. */
  function EndOfJob(job: Job): Status {
    if !job.Finished? then Error
    else if job.err.None? then job.next
    else if job.err.value.canceled then Canceled
    else Error
  }

  lemma TakenDecides(c: Config, s: State, s1: State, w: WorkerId, choice: Choice, steps: seq<Step>)
    requires c.workerCount >= 1 && Reachable(c, s) && Next(c, s, Work(w, Select(choice))) == Some(s1)
    requires choice.TakeResult? || choice.TakePanic?
    requires Run(c, s1, steps).Some? && Over(c, s1, steps, w) && !Judged(c, s1, steps, w, true)
    ensures w in s.workers && (s.workers[w].job.Finished? || s.workers[w].job.Burst?)
    ensures AttemptsBy(c, s1, steps, w) == [EndOfJob(s.workers[w].job)]
  {
    TakenJob(c, s, s1, w, choice);
    var from := SelectLeads(c, s, s1, w, choice);
    StageEnd(s.workers[w].job, choice, from);
    OutcomeFrom(c, s1, w, steps, from);
  }

  lemma StageEnd(job: Job, choice: Choice, from: Stage)
    requires if choice.TakeResult? then job.Finished? else choice.TakePanic? && job.Burst?
    requires (Answers(job, choice) ==> from == Answered(job.next)) && (Cancels(job, choice) ==> from == Withdrawn)
    requires Fails(job, choice) ==> from == Failed || from == Panicked
    ensures from.Answered? ==> from.next == EndOfJob(job)
    ensures from.Withdrawn? ==> EndOfJob(job) == Canceled
    ensures from.Failed? || from.Panicked? ==> EndOfJob(job) == Error
    ensures !from.Marked? && !from.Unmarked?
  {
  }

  lemma TakenJob(c: Config, s: State, s1: State, w: WorkerId, choice: Choice)
    requires Next(c, s, Work(w, Select(choice))) == Some(s1) && (choice.TakeResult? || choice.TakePanic?)
    ensures w in s.workers && if choice.TakeResult? then s.workers[w].job.Finished? else s.workers[w].job.Burst?
  {
    assert DoSelect(s, w, choice) == Some(s1);
  }

  lemma AnswerWaits(c: Config, s: State, s1: State, w: WorkerId, outcome: Outcome, resumeAfter: Option<int>,
                    waiting: seq<Step>, s2: State)
    requires c.workerCount >= 1 && Reachable(c, s) && Next(c, s, Work(w, JobReturn(outcome, resumeAfter))) == Some(s1)
    requires s.workers[w].phase.Running? && Run(c, s1, waiting) == Some(s2) && !Selects(waiting, w)
    ensures Reachable(c, s2) && w in s2.workers && s.workers[w].task in s.tasks
    ensures var job, retried := s2.workers[w].job, Retried(c, s, s.workers[w].task, outcome);
            && (outcome.Panics? ==> job.Burst?)
            && (retried ==> job.Deciding? || job == Finished(Suspending, None))
            && (outcome.Returns? && !retried ==> job == Finished(outcome.next, outcome.err))
  {
    AnswerIsPassedOn(c, s, s1, w, outcome, resumeAfter);
    GoodAfter(c, s, s1, Work(w, JobReturn(outcome, resumeAfter)));
    ResultWaits(c, s1, waiting, w);
    StillReachable(c, s, s1, Work(w, JobReturn(outcome, resumeAfter)), waiting);
  }

  lemma GoodAfter(c: Config, s: State, s1: State, step: Step)
    requires c.workerCount >= 1 && Reachable(c, s) && Next(c, s, step) == Some(s1)
    ensures Good(c, s1)
  {
    ReachableIsGood(c, s);
    StepKeeps(c, s, step);
  }

  lemma StillReachable(c: Config, s: State, s1: State, step: Step, steps: seq<Step>)
    requires Reachable(c, s) && Next(c, s, step) == Some(s1) && Run(c, s1, steps).Some?
    ensures Reachable(c, Run(c, s1, steps).value)
  {
    var before :| Run(c, Initial, before) == Some(s);
    assert (before + [step])[..|before + [step]| - 1] == before;
    assert Run(c, Initial, before + [step]) == Some(s1);
    RunConcat(c, Initial, before + [step], steps);
  }

  lemma {:induction false} RunConcat(c: Config, s: State, first: seq<Step>, second: seq<Step>)
    requires Run(c, s, first).Some?
    ensures Run(c, s, first + second) == Run(c, Run(c, s, first).value, second)
  {
    if second == [] {
      assert first + second == first;
    } else {
      RunConcat(c, s, first, second[..|second| - 1]);
      assert (first + second)[..|first + second| - 1] == first + second[..|second| - 1];
    }
  }
}
