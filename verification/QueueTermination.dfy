/** A task whose Do always fails in the ordinary way comes to an end (module/queue/queue.go, `run` and `work`): each
    of its own steps lowers a measure led by the retries left, and as long as it is neither in error, parked,
    removed nor waiting its turn, such a step can be made. */
module QueueTermination {
  import opened Options
  import opened Tasks
  import opened FifoSchedulers
  import opened QueueProtocol
  import opened QueueInvariant
  import opened QueueDispatch
  import opened QueueTheorems
  import opened QueueRetries
  import opened QueueGauge
  import opened QueueFailing

  const ROUND := 23  // steps of one iteration, from its result to the next

  /** How far the worker is from the result of its next iteration, or from giving the task up. */
  function WorkerRank(k: Worker): nat {
    match k.phase
    case Judging(_) => 21
    case Advancing(_) => 20
    case Requeueing => 19
    case Pushing => 18
    case Starting => 13
    case Entering => 12
    case Launching => 11
    case Running => JobRank(k.job)
    case Failing => 6
    case _ => 0
  }

  function JobRank(job: Job): nat {
    match job
    case Finished(_, err) => if err.None? then 22 else 7
    case Spawned => 10
    case Doing => 9
    case Deciding(_) => 8
    case _ => 0
  }

  function Rank(ts: TaskState, workers: map<WorkerId, Worker>): nat {
    match ts.place
    case Nowhere => if ts.parked then 17 else 0
    case Submitting => 16
    case Waiting => 15
    case HandedOff => 14
    case HeldBy(w) => if w in workers then WorkerRank(workers[w]) else 0
  }

  /** Retries left first, then the way to the next result. */
  function Measure(c: Config, s: State, t: TaskId): int
    requires t in s.tasks
  {
    (c.maxRetry - s.tasks[t].record.retries) * ROUND + Rank(s.tasks[t], s.workers)
  }

  /** The step is one of task t: of the worker that works on it, or one that moves it from place to place. */
  predicate Own(s: State, step: Step, t: TaskId)
    requires t in s.tasks
  {
    match step
    case Work(w, _) => s.tasks[t].place == HeldBy(w) && w in s.workers && !Ended(s.workers[w].phase)
    case Resume(u) => u == t
    case Enqueue(u, _) => u == t
    case CancelWaiting(targets) => t in targets && s.tasks[t].place.Waiting?
    case Spawn(_) => s.handoff == Some(t)
    case Pop => s.waiting != [] && s.waiting[|s.waiting| - 1] == t && s.tasks[t].record.resumeAt <= Second(s.now)
    case _ => false
  }

  /** The places of t are where its state says, and a worker that ended with it left it in error. */
  predicate Tracked(s: State, t: TaskId) {
    t in s.tasks ==>
      match s.tasks[t].place
      case Nowhere => true
      case Submitting => t in s.submitting
      case Waiting => t in s.waiting
      case HandedOff => s.handoff == Some(t)
      case HeldBy(w) =>
        && w in s.workers && s.workers[w].task == t
        && (Ended(s.workers[w].phase) ==> s.tasks[t].record.status.Error?)
  }

  // One worker and the task it works on.

  /** The worker's own step: lower, and traceable. */
  predicate Lowered(c: Config, s: State, s': State, w: WorkerId) {
    && w in s.workers && s.workers[w].task in s.tasks && s.workers[w].task in s'.tasks
    && var t := s.workers[w].task;
       && Measure(c, s', t) < Measure(c, s, t) && s'.tasks[t].record.retries <= c.maxRetry && Tracked(s', t)
  }

  predicate Working(c: Config, s: State, w: WorkerId) {
    && Local(c, s, w) && FailingPair(c, s, w) && !Ended(s.workers[w].phase)
    && s.tasks[s.workers[w].task].place == HeldBy(w)
    && s.tasks[s.workers[w].task].record.retries <= c.maxRetry
    && s.shutdown == 0 && s.workers[w].task !in s.marks
  }

  lemma TransitLowers(c: Config, s: State, w: WorkerId, action: Action)
    requires Working(c, s, w) && PlainAction(action) && DoWork(c, s, w, action).Some?
    requires action.Enter? || action.Fail?
    ensures Lowered(c, s, DoWork(c, s, w, action).value, w)
  {
    var ts := s.tasks[s.workers[w].task];
    var to := if action.Enter? then Processing else Error;
    AttemptHistory(ts, to, true);
    assert StatusAfter(ts.record.status, to, true) == to;
  }

  lemma AdvanceLowers(c: Config, s: State, w: WorkerId, manual: bool)
    requires Working(c, s, w) && DoAdvance(s, w, true, manual).Some?
    ensures Lowered(c, s, DoAdvance(s, w, true, manual).value, w)
  {
    AttemptHistory(s.tasks[s.workers[w].task], Suspending, true);
  }

  lemma CallLowers(c: Config, s: State, w: WorkerId)
    requires Working(c, s, w)
    ensures DoSelect(s, w, TakeResult).Some? ==> Lowered(c, s, DoSelect(s, w, TakeResult).value, w)
    ensures DoSelect(s, w, TakePanic).None?
    ensures DoJudge(s, w).Some? ==> Lowered(c, s, DoJudge(s, w).value, w)
  {
  }

  lemma RequeueLowers(c: Config, s: State, w: WorkerId, refused: bool)
    requires Working(c, s, w) && DoRequeue(s, w, refused).Some?
    ensures Lowered(c, s, DoRequeue(s, w, refused).value, w)
  {
  }

  lemma PushLowers(c: Config, s: State, w: WorkerId, refused: bool)
    requires Working(c, s, w) && DoPush(s, w, refused).Some?
    ensures Lowered(c, s, DoPush(s, w, refused).value, w)
  {
    var s', t := DoPush(s, w, refused).value, s.workers[w].task;
    assert s'.waiting == WithoutIds(s.waiting, {t}) + [t];
  }

  lemma JobLowers(c: Config, s: State, w: WorkerId, action: Action)
    requires Working(c, s, w) && PlainAction(action)
    ensures action.JobBegin? && DoJobBegin(s, w).Some? ==> Lowered(c, s, DoJobBegin(s, w).value, w)
    ensures action.JobReturn? && DoJobReturn(c, s, w, action.outcome, action.resumeAfter).Some? ==>
              Lowered(c, s, DoJobReturn(c, s, w, action.outcome, action.resumeAfter).value, w)
  {
  }

  lemma RetryLowers(c: Config, s: State, w: WorkerId, delay: nat)
    requires Working(c, s, w) && DoJobRetry(s, w, delay).Some?
    ensures Lowered(c, s, DoJobRetry(s, w, delay).value, w)
  {
  }

  lemma PlainLowers(c: Config, s: State, w: WorkerId, action: Action)
    requires Working(c, s, w) && DoWork(c, s, w, action).Some?
    requires action.CheckMark? || action.Launch? || action.Withdraw? || action.Cancel? || action.Blame? || action.Leave?
             || action.Unregister?
    ensures Lowered(c, s, DoWork(c, s, w, action).value, w)
  {
  }

  lemma WorkLowers(c: Config, s: State, w: WorkerId, action: Action)
    requires Working(c, s, w) && PlainAction(action) && DoWork(c, s, w, action).Some?
    ensures Lowered(c, s, DoWork(c, s, w, action).value, w)
  {
    if action.Enter? || action.Fail? {
      TransitLowers(c, s, w, action);
    } else if action.Advance? {
      AdvanceLowers(c, s, w, action.manual);
    } else if action.Select? || action.Judge? {
      CallLowers(c, s, w);
    } else if action.Requeue? {
      RequeueLowers(c, s, w, action.refused);
    } else if action.Push? {
      PushLowers(c, s, w, action.refused);
    } else if action.JobRetry? {
      RetryLowers(c, s, w, action.delay);
    } else if action.JobBegin? || action.JobReturn? {
      JobLowers(c, s, w, action);
    } else {
      PlainLowers(c, s, w, action);
    }
  }

  // Every step, for the task followed.

  predicate Followed(c: Config, s: State, t: TaskId) {
    && FailingInv(c, s, t) && Tracked(s, t)
    && (t in s.tasks ==> s.tasks[t].record.retries <= c.maxRetry)
  }

  lemma PlaceLowers(c: Config, s: State, step: Step, t: TaskId)
    requires Inv(c, s) && Followed(c, s, t) && t in s.tasks && Next(c, s, step).Some? && Own(s, step, t)
    requires step.Resume? || step.Enqueue? || step.Pop? || step.Spawn?
    ensures var s' := Next(c, s, step).value;
            && t in s'.tasks && Measure(c, s', t) < Measure(c, s, t) && Tracked(s', t)
            && s'.tasks[t].record == s.tasks[t].record
  {
    assert TaskOk(c, s.tasks[t], s.now);
    if step.Enqueue? {
      assert Next(c, s, step) == DoEnqueue(s, t, step.refused);
      assert s.tasks[t].place.Submitting?;
    } else if step.Pop? {
      assert s.tasks[s.waiting[|s.waiting| - 1]].place.Waiting?;
    } else if step.Spawn? {
      assert Next(c, s, step) == DoSpawn(s, step.w) && s.tasks[t].place.HandedOff?;
    }
  }

  lemma RemovalLowers(c: Config, s: State, targets: set<TaskId>, t: TaskId)
    requires t in s.tasks && t in targets && s.tasks[t].place.Waiting? && TaskOk(c, s.tasks[t], s.now)
    ensures var s' := DoCancelWaiting(s, targets).value;
            && t in s'.tasks && Measure(c, s', t) < Measure(c, s, t) && Tracked(s', t)
            && s'.tasks[t].record == s.tasks[t].record
  {
  }

  /** Every own step of the task in an undisturbed run lowers the measure. */
  lemma OwnStepLowers(c: Config, s: State, step: Step, t: TaskId)
    requires Inv(c, s) && Followed(c, s, t) && t in s.tasks && Next(c, s, step).Some?
    requires Own(s, step, t) && Undisturbed(s, step, t)
    ensures var s' := Next(c, s, step).value;
            && t in s'.tasks && Measure(c, s', t) < Measure(c, s, t)
            && Tracked(s', t) && s'.tasks[t].record.retries <= c.maxRetry
  {
    match step
    case Work(w, action) =>
      LocalPart(c, s, w);
      WorkLowers(c, s, w, action);
    case CancelWaiting(targets) =>
      assert TaskOk(c, s.tasks[t], s.now);
      RemovalLowers(c, s, targets, t);
    case _ => PlaceLowers(c, s, step, t);
  }

  /** Nothing about the task has moved. */
  predicate Unmoved(s: State, s': State, t: TaskId)
    requires t in s.tasks
  {
    && t in s'.tasks && s'.tasks[t] == s.tasks[t] && Tracked(s', t)
    && Rank(s'.tasks[t], s'.workers) == Rank(s.tasks[t], s.workers)
  }

  lemma EndedWorkKeeps(c: Config, s: State, v: WorkerId, action: Action)
    requires Local(c, s, v) && FailingPair(c, s, v) && Ended(s.workers[v].phase) && DoWork(c, s, v, action).Some?
    ensures var s' := DoWork(c, s, v, action).value;
            && s'.tasks == s.tasks && SameContainers(s, s')
            && v in s'.workers && s'.workers == s.workers[v := s'.workers[v]]
            && s'.workers[v].task == s.workers[v].task && Ended(s'.workers[v].phase)
  {
  }

  lemma EndedRank(k: Worker)
    requires Ended(k.phase)
    ensures WorkerRank(k) == 0
  {
  }

  lemma WaitingOrMore(c: Config, s: State, w: WorkerId, action: Action, t: TaskId)
    requires DoWork(c, s, w, action).Some? && s.workers[w].task != t
    ensures var s' := DoWork(c, s, w, action).value;
            && (t in s.waiting ==> t in s'.waiting) && s'.handoff == s.handoff && s'.submitting == s.submitting
  {
    if action.Push? {
      WithoutIdsMeaning(s.waiting, {s.workers[w].task});
      assert DoWork(c, s, w, action) == DoPush(s, w, action.refused);
    } else if action.Advance? {
      assert DoWork(c, s, w, action) == DoAdvance(s, w, action.saved, action.manual);
    } else if action.Select? {
      assert DoWork(c, s, w, action) == DoSelect(s, w, action.choice);
    }
  }

  /** A worker that is done with the task, whether it still has it or not. */
  lemma EndedWorkKeepsCourse(c: Config, s: State, w: WorkerId, action: Action, t: TaskId)
    requires Local(c, s, w) && Followed(c, s, t) && t in s.tasks && DoWork(c, s, w, action).Some?
    requires s.workers[w].task == t && Ended(s.workers[w].phase)
    ensures Unmoved(s, DoWork(c, s, w, action).value, t)
  {
    EndedWorkKeeps(c, s, w, action);
    EndedRank(s.workers[w]);
    EndedRank(DoWork(c, s, w, action).value.workers[w]);
  }

  lemma ForeignWorkKeepsCourse(c: Config, s: State, w: WorkerId, action: Action, t: TaskId)
    requires Inv(c, s) && Followed(c, s, t) && t in s.tasks && DoWork(c, s, w, action).Some?
    requires s.workers[w].task != t
    ensures Unmoved(s, DoWork(c, s, w, action).value, t)
  {
    WorkIsLocal(c, s, w, action);
    WaitingOrMore(c, s, w, action, t);
  }

  lemma OtherWorkKeeps(c: Config, s: State, w: WorkerId, action: Action, t: TaskId)
    requires Inv(c, s) && Followed(c, s, t) && t in s.tasks && DoWork(c, s, w, action).Some?
    requires !Own(s, Work(w, action), t)
    ensures Unmoved(s, DoWork(c, s, w, action).value, t)
  {
    if s.workers[w].task == t {
      LocalPart(c, s, w);
      EndedWorkKeepsCourse(c, s, w, action, t);
    } else {
      ForeignWorkKeepsCourse(c, s, w, action, t);
    }
  }

  lemma ScheduleKeepsCourse(c: Config, s: State, agent: Agent, t: TaskId)
    requires Followed(c, s, t) && t in s.tasks
    ensures DoCheckBusy(c, s, agent).Some? ==> Unmoved(s, DoCheckBusy(c, s, agent).value, t)
    ensures DoSignal(s, agent).Some? ==> Unmoved(s, DoSignal(s, agent).value, t)
  {
  }

  lemma SpawnKeepsCourse(c: Config, s: State, w: WorkerId, t: TaskId)
    requires Inv(c, s) && Followed(c, s, t) && t in s.tasks && DoSpawn(s, w).Some? && s.handoff != Some(t)
    ensures Unmoved(s, DoSpawn(s, w).value, t)
  {
  }

  lemma PopKeepsCourse(c: Config, s: State, t: TaskId)
    requires Inv(c, s) && RequesterOk(s) && Followed(c, s, t) && t in s.tasks && DoPop(s).Some? && !Own(s, Pop, t)
    ensures Unmoved(s, DoPop(s).value, t)
  {
    if s.waiting != [] {
      var top := s.waiting[|s.waiting| - 1];
      assert s.waiting == s.waiting[..|s.waiting| - 1] + [top];
    }
  }

  lemma ClientsKeepCourse(c: Config, s: State, step: Step, t: TaskId)
    requires Inv(c, s) && Followed(c, s, t) && t in s.tasks && Next(c, s, step).Some? && !Own(s, step, t)
    requires step.Submit? || step.LoadSuspended? || step.Resume? || step.Mark?
    ensures Unmoved(s, Next(c, s, step).value, t)
  {
  }

  lemma EnqueueKeepsCourse(c: Config, s: State, u: TaskId, refused: bool, t: TaskId)
    requires Inv(c, s) && Followed(c, s, t) && t in s.tasks && DoEnqueue(s, u, refused).Some? && u != t
    ensures Unmoved(s, DoEnqueue(s, u, refused).value, t)
  {
    WithoutIdsMeaning(s.waiting, {u});
  }

  lemma RemovalKeepsCourse(c: Config, s: State, targets: set<TaskId>, t: TaskId)
    requires Followed(c, s, t) && t in s.tasks && !Own(s, CancelWaiting(targets), t)
    ensures Unmoved(s, DoCancelWaiting(s, targets).value, t)
  {
    WithoutIdsMeaning(s.waiting, targets);
  }

  /** Every other step leaves it as it is. */
  lemma OtherStepKeeps(c: Config, s: State, step: Step, t: TaskId)
    requires Inv(c, s) && RequesterOk(s) && Followed(c, s, t) && t in s.tasks && Next(c, s, step).Some?
    requires !Own(s, step, t)
    ensures Unmoved(s, Next(c, s, step).value, t)
  {
    match step
    case Work(w, action) => OtherWorkKeeps(c, s, w, action, t);
    case CheckBusy(agent) => ScheduleKeepsCourse(c, s, agent, t);
    case Signal(agent) => ScheduleKeepsCourse(c, s, agent, t);
    case Spawn(w) => SpawnKeepsCourse(c, s, w, t);
    case Pop => PopKeepsCourse(c, s, t);
    case Enqueue(u, refused) => EnqueueKeepsCourse(c, s, u, refused, t);
    case CancelWaiting(targets) => RemovalKeepsCourse(c, s, targets, t);
    case Submit(_, _, _) => ClientsKeepCourse(c, s, step, t);
    case LoadSuspended(_, _, _) => ClientsKeepCourse(c, s, step, t);
    case Resume(_) => ClientsKeepCourse(c, s, step, t);
    case Mark(_) => ClientsKeepCourse(c, s, step, t);
    case Tick(_) =>
    case ShutdownStep =>
    case EndLoading =>
    case TakeToken =>
    case StopDispatcher =>
    case Glance =>
    case CloseTasks =>
  }

  // Whole runs.

  lemma OriginStays(c: Config, s: State, step: Step, t: TaskId)
    requires Inv(c, s) && Next(c, s, step).Some? && t in s.tasks
    ensures t in Next(c, s, step).value.tasks && Next(c, s, step).value.tasks[t].origin == s.tasks[t].origin
  {
    if !Touches(s, step, t) {
      StepHistory(c, s, step, t);
    } else if step.action.JobBegin? {
      assert Next(c, s, step) == DoJobBegin(s, step.w);
    } else {
      assert Next(c, s, step) == DoJobRetry(s, step.w, step.action.delay);
    }
  }

  lemma TrackedAtEntry(c: Config, s: State, step: Step, t: TaskId)
    requires Inv(c, s) && FailingInv(c, s, t) && Next(c, s, step).Some? && t !in s.tasks && Undisturbed(s, step, t)
    ensures Tracked(Next(c, s, step).value, t)
  {
    var s' := Next(c, s, step).value;
    if step.Submit? && step.t == t {
      var entered := TaskState(step.record, step.record, Nowhere, false, true, false, false, false, 0, None);
      AttemptHistory(entered, Queued, true);
    } else if step.LoadSuspended? && step.t == t {
      assert t in s'.tasks;
    } else {
      NoOtherEntry(c, s, step, t);
    }
  }

  lemma NoOtherEntry(c: Config, s: State, step: Step, t: TaskId)
    requires Inv(c, s) && Next(c, s, step).Some? && t !in s.tasks
    requires step.Submit? || step.LoadSuspended? ==> step.t != t
    ensures t !in Next(c, s, step).value.tasks
  {
    if step.Work? {
      WorkIsLocal(c, s, step.w, step.action);
    } else if step.CheckBusy? || step.Signal? {
      ScheduleLeavesTasks(c, s, step.agent);
    } else if step.Spawn? {
      assert Next(c, s, step) == DoSpawn(s, step.w);
    }
  }

  lemma FollowedStep(c: Config, s: State, step: Step, t: TaskId)
    requires Inv(c, s) && RequesterOk(s) && Followed(c, s, t) && Next(c, s, step).Some? && Undisturbed(s, step, t)
    requires t in Next(c, s, step).value.tasks ==> Next(c, s, step).value.tasks[t].record.retries <= c.maxRetry
    ensures Followed(c, Next(c, s, step).value, t)
  {
    FailingStep(c, s, step, t);
    if t !in s.tasks {
      TrackedAtEntry(c, s, step, t);
    } else if Own(s, step, t) {
      OwnStepLowers(c, s, step, t);
    } else {
      OtherStepKeeps(c, s, step, t);
    }
  }

  lemma RetriesWithin(c: Config, s: State, t: TaskId)
    requires Inv(c, s) && t in s.tasks && s.tasks[t].origin.retries <= c.maxRetry
    ensures s.tasks[t].record.retries <= c.maxRetry
  {
    assert TaskOk(c, s.tasks[t], s.now);
  }

  /** In undisturbed runs the task can be followed from the start, unless it came with too many retries. */
  lemma {:induction false} FollowedAlong(c: Config, steps: seq<Step>, t: TaskId)
    requires c.workerCount >= 1 && Run(c, Initial, steps).Some? && UndisturbedRun(c, steps, t)
    requires var s := Run(c, Initial, steps).value; t in s.tasks ==> s.tasks[t].origin.retries <= c.maxRetry
    ensures Good(c, Run(c, Initial, steps).value) && Followed(c, Run(c, Initial, steps).value, t)
  {
    ReachableIsGood(c, Run(c, Initial, steps).value);
    if steps != [] {
      var front, step := steps[..|steps| - 1], steps[|steps| - 1];
      var before := Run(c, Initial, front).value;
      ReachableIsGood(c, before);
      if t in before.tasks {
        OriginStays(c, before, step, t);
      }
      FollowedAlong(c, front, t);
      if t in Run(c, Initial, steps).value.tasks {
        RetriesWithin(c, Run(c, Initial, steps).value, t);
      }
      FollowedStep(c, before, step, t);
    }
  }

  function OwnSteps(c: Config, s: State, steps: seq<Step>, t: TaskId): nat
    requires Run(c, s, steps).Some?
    decreases |steps|
  {
    if steps == [] then 0
    else
      var front := steps[..|steps| - 1];
      var before := Run(c, s, front).value;
      OwnSteps(c, s, front, t) + if t in before.tasks && Own(before, steps[|steps| - 1], t) then 1 else 0
  }

  lemma MeasureRange(c: Config, s: State, t: TaskId)
    requires t in s.tasks && s.tasks[t].record.retries <= c.maxRetry
    ensures 0 <= Measure(c, s, t) <= (c.maxRetry - s.tasks[t].record.retries) * ROUND + 22
  {
  }

  /** However an undisturbed run goes on, the task makes no more steps of its own than the measure says, at most
      23 for each retry left and 22 more. */
  lemma {:induction false} OwnStepsBounded(c: Config, s: State, steps: seq<Step>, t: TaskId)
    requires c.workerCount >= 1 && Good(c, s) && Followed(c, s, t) && t in s.tasks
    requires Run(c, s, steps).Some? && UndisturbedFrom(c, s, steps, t)
    ensures var s' := Run(c, s, steps).value;
            && Good(c, s') && Followed(c, s', t) && t in s'.tasks
            && OwnSteps(c, s, steps, t) + Measure(c, s', t) <= Measure(c, s, t)
    ensures OwnSteps(c, s, steps, t) <= (c.maxRetry - s.tasks[t].record.retries) * ROUND + 22
  {
    MeasureRange(c, s, t);
    if steps != [] {
      var front, step := steps[..|steps| - 1], steps[|steps| - 1];
      var before := Run(c, s, front).value;
      OwnStepsBounded(c, s, front, t);
      if Own(before, step, t) {
        OwnStepLowers(c, before, step, t);
      } else {
        OtherStepKeeps(c, before, step, t);
      }
      FailingStep(c, before, step, t);
      RunKeeps(c, s, steps);
      MeasureRange(c, Run(c, s, steps).value, t);
    }
  }
}
