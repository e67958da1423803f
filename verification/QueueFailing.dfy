/** A task whose Do always fails with an ordinary error, left alone by cancellation, timeouts and shutdown. */
module QueueFailing {
  import opened Options
  import opened Tasks
  import opened QueueProtocol
  import opened QueueInvariant
  import opened QueueTheorems
  import opened QueueRetries

  /** Do returns an error that is neither critical nor a cancellation. */
  predicate OrdinaryFailure(outcome: Outcome) {
    outcome.Returns? && outcome.err.Some? && !outcome.err.value.critical && !outcome.err.value.canceled
  }

  predicate PlainAction(action: Action) {
    match action
    case JobReturn(outcome, _) => OrdinaryFailure(outcome)
    case Select(choice) => choice.TakeResult? || choice.TakePanic?
    case Enter(saved) => saved
    case Fail(saved) => saved
    case Advance(saved, _) => saved
    case _ => true
  }

  /** The step does not disturb task t: nobody cancels it, it does not time out, saving it works, and its Do
      only ever fails in the ordinary way. */
  predicate Undisturbed(s: State, step: Step, t: TaskId) {
    && !step.ShutdownStep?
    && (step.Mark? ==> step.t != t)
    && (step.Submit? && step.t == t ==> step.saved)
    && (step.Work? && step.w in s.workers && s.workers[step.w].task == t ==> PlainAction(step.action))
  }

  predicate UndisturbedFrom(c: Config, s: State, steps: seq<Step>, t: TaskId)
    requires Run(c, s, steps).Some?
    decreases |steps|
  {
    steps == [] ||
    var front := steps[..|steps| - 1];
    UndisturbedFrom(c, s, front, t) && Undisturbed(Run(c, s, front).value, steps[|steps| - 1], t)
  }

  predicate UndisturbedRun(c: Config, steps: seq<Step>, t: TaskId)
    requires Run(c, Initial, steps).Some?
  {
    UndisturbedFrom(c, Initial, steps, t)
  }

  /** Retries made since the task was handed to the queue. */
  function Made(ts: TaskState): int {
    ts.record.retries - ts.origin.retries
  }

  predicate FailingTask(c: Config, ts: TaskState) {
    && Made(ts) <= ts.dos <= Made(ts) + 1
    && !ts.record.status.Completed? && !ts.record.status.Canceled?
    && (ts.record.status.Error? ==> ts.dos == Made(ts) + 1 && ts.record.retries >= c.maxRetry)
    && (!ts.place.HeldBy? ==> ts.dos == Made(ts) && (ts.record.status.Queued? || ts.record.status.Suspending?))
  }

  predicate FailingJob(c: Config, job: Job, ts: TaskState) {
    match job
    case NoJob => false
    case Spawned => ts.dos == Made(ts)
    case Doing => ts.dos == Made(ts) + 1
    case Deciding(_) => ts.dos == Made(ts) + 1
    case Finished(next, err) =>
      if err.None? then next.Suspending? && ts.dos == Made(ts)
      else !err.value.canceled && ts.dos == Made(ts) + 1 && ts.record.retries >= c.maxRetry
    case Burst => false
  }

  predicate FailingWorker(c: Config, k: Worker, ts: TaskState) {
    && !k.preMarked
    && match k.phase
       case Starting => ts.dos == Made(ts)
       case Entering => ts.dos == Made(ts)
       case Launching => ts.dos == Made(ts)
       case Running => FailingJob(c, k.job, ts)
       case Judging(next) => next.Suspending? && ts.dos == Made(ts)
       case Advancing(next) => next.Suspending? && ts.dos == Made(ts)
       case Requeueing => ts.dos == Made(ts)
       case Pushing => ts.dos == Made(ts)
       case Failing => ts.dos == Made(ts) + 1 && ts.record.retries >= c.maxRetry && k.job.NoJob?
       case Withdrawing => false
       case Canceling => false
       case Blaming => false
       case Leaving(panicked) => !panicked && k.job.NoJob?
       case _ => k.job.NoJob?
  }

  predicate FailingInv(c: Config, s: State, t: TaskId) {
    && s.shutdown == 0 && t !in s.marks
    && (t in s.tasks ==> FailingTask(c, s.tasks[t]))
    && (forall w | w in s.workers && s.workers[w].task == t ::
        t in s.tasks && FailingWorker(c, s.workers[w], s.tasks[t]))
  }

  // One worker and the task.

  predicate FailingPair(c: Config, s: State, w: WorkerId) {
    && w in s.workers && s.workers[w].task in s.tasks
    && FailingTask(c, s.tasks[s.workers[w].task]) && FailingWorker(c, s.workers[w], s.tasks[s.workers[w].task])
  }

  lemma FailingTransit(c: Config, s: State, w: WorkerId, action: Action)
    requires Local(c, s, w) && FailingPair(c, s, w) && PlainAction(action) && DoWork(c, s, w, action).Some?
    requires action.Enter? || action.Fail?
    ensures FailingPair(c, DoWork(c, s, w, action).value, w)
  {
    var ts := s.tasks[s.workers[w].task];
    AttemptHistory(ts, if action.Enter? then Processing else Error, true);
    var to := if action.Enter? then Processing else Error;
    assert StatusAfter(ts.record.status, to, true) == to;
  }

  lemma FailingAdvance(c: Config, s: State, w: WorkerId, manual: bool)
    requires Local(c, s, w) && FailingPair(c, s, w) && DoAdvance(s, w, true, manual).Some?
    ensures FailingPair(c, DoAdvance(s, w, true, manual).value, w)
  {
    AttemptHistory(s.tasks[s.workers[w].task], Suspending, true);
  }

  lemma FailingCalls(c: Config, s: State, w: WorkerId)
    requires Local(c, s, w) && FailingPair(c, s, w) && s.shutdown == 0 && s.workers[w].task !in s.marks
    ensures DoSelect(s, w, TakeResult).Some? ==> FailingPair(c, DoSelect(s, w, TakeResult).value, w)
    ensures DoSelect(s, w, TakePanic).None?
    ensures DoJudge(s, w).Some? ==> FailingPair(c, DoJudge(s, w).value, w)
    ensures forall refused :: DoRequeue(s, w, refused).Some? ==> FailingPair(c, DoRequeue(s, w, refused).value, w)
  {
  }

  lemma FailingPush(c: Config, s: State, w: WorkerId, refused: bool)
    requires Local(c, s, w) && FailingPair(c, s, w) && s.shutdown == 0 && DoPush(s, w, refused).Some?
    ensures FailingPair(c, DoPush(s, w, refused).value, w)
  {
  }

  lemma FailingJobs(c: Config, s: State, w: WorkerId, action: Action)
    requires Local(c, s, w) && FailingPair(c, s, w) && s.shutdown == 0 && PlainAction(action)
    ensures action.JobBegin? && DoJobBegin(s, w).Some? ==> FailingPair(c, DoJobBegin(s, w).value, w)
    ensures action.JobReturn? && DoJobReturn(c, s, w, action.outcome, action.resumeAfter).Some? ==>
              FailingPair(c, DoJobReturn(c, s, w, action.outcome, action.resumeAfter).value, w)
    ensures action.JobRetry? && DoJobRetry(s, w, action.delay).Some? ==>
              FailingPair(c, DoJobRetry(s, w, action.delay).value, w)
  {
  }

  lemma FailingPlain(c: Config, s: State, w: WorkerId, action: Action)
    requires Local(c, s, w) && FailingPair(c, s, w) && s.workers[w].task !in s.marks && DoWork(c, s, w, action).Some?
    requires action.CheckMark? || action.Launch? || action.Withdraw? || action.Cancel? || action.Blame?
             || action.Leave? || action.Unregister?
    ensures FailingPair(c, DoWork(c, s, w, action).value, w)
  {
  }

  lemma FailingWork(c: Config, s: State, w: WorkerId, action: Action)
    requires Local(c, s, w) && FailingPair(c, s, w) && s.shutdown == 0 && s.workers[w].task !in s.marks
    requires PlainAction(action) && DoWork(c, s, w, action).Some?
    ensures FailingPair(c, DoWork(c, s, w, action).value, w)
  {
    if action.Enter? || action.Fail? {
      FailingTransit(c, s, w, action);
    } else if action.Advance? {
      FailingAdvance(c, s, w, action.manual);
    } else if action.Select? || action.Judge? || action.Requeue? {
      FailingCalls(c, s, w);
    } else if action.Push? {
      FailingPush(c, s, w, action.refused);
    } else if action.JobBegin? || action.JobReturn? || action.JobRetry? {
      FailingJobs(c, s, w, action);
    } else {
      FailingPlain(c, s, w, action);
    }
  }

  // The whole state.

  lemma WorkKeepsShutdown(c: Config, s: State, w: WorkerId, action: Action)
    requires DoWork(c, s, w, action).Some?
    ensures DoWork(c, s, w, action).value.shutdown == s.shutdown
  {
  }

  /** Another worker that once had t has given it up, and left no job behind. */
  lemma FailingBystander(c: Config, s: State, s': State, w: WorkerId, v: WorkerId)
    requires Local(c, s, w) && Local(c, s, v) && LocalStep(c, s, s', w) && v != w
    requires s.workers[v].task == s.workers[w].task
    requires FailingWorker(c, s.workers[v], s.tasks[s.workers[v].task])
    ensures v in s'.workers && FailingWorker(c, s'.workers[v], s'.tasks[s.workers[v].task])
  {
    assert s'.workers[v] == s.workers[v];
  }

  lemma FailingOwnWork(c: Config, s: State, w: WorkerId, action: Action, t: TaskId)
    requires Inv(c, s) && FailingInv(c, s, t) && DoWork(c, s, w, action).Some?
    requires s.workers[w].task == t && PlainAction(action)
    ensures FailingInv(c, DoWork(c, s, w, action).value, t)
  {
    var s' := DoWork(c, s, w, action).value;
    WorkIsLocal(c, s, w, action);
    WorkKeepsShutdown(c, s, w, action);
    FailingWork(c, s, w, action);
    forall v | v in s'.workers && s'.workers[v].task == t
      ensures FailingWorker(c, s'.workers[v], s'.tasks[t])
    {
      if v != w {
        LocalPart(c, s, v);
        FailingBystander(c, s, s', w, v);
      }
    }
  }

  lemma FailingOtherWork(c: Config, s: State, w: WorkerId, action: Action, t: TaskId)
    requires Inv(c, s) && FailingInv(c, s, t) && DoWork(c, s, w, action).Some?
    requires s.workers[w].task != t
    ensures FailingInv(c, DoWork(c, s, w, action).value, t)
  {
    var s' := DoWork(c, s, w, action).value;
    WorkIsLocal(c, s, w, action);
    WorkKeepsShutdown(c, s, w, action);
    assert t in s'.tasks <==> t in s.tasks;
    forall v | v in s'.workers && s'.workers[v].task == t
      ensures t in s'.tasks && FailingWorker(c, s'.workers[v], s'.tasks[t])
    {
      assert v != w && s'.workers[v] == s.workers[v];
    }
  }

  /** Steps that leave the workers and what is counted of t alone. */
  lemma FailingElsewhere(c: Config, s: State, s': State, t: TaskId)
    requires FailingInv(c, s, t)
    requires s'.shutdown == s.shutdown && s'.workers == s.workers && t !in s'.marks
    requires t in s'.tasks ==> FailingTask(c, s'.tasks[t])
    requires t in s.tasks ==> SameHistory(s, s', t)
    ensures FailingInv(c, s', t)
  {
    forall w | w in s'.workers && s'.workers[w].task == t
      ensures t in s'.tasks && FailingWorker(c, s'.workers[w], s'.tasks[t])
    {
      assert w in s.workers && s.workers[w].task == t;
    }
  }

  lemma FailingSubmit(c: Config, s: State, t: TaskId, u: TaskId, record: Record, saved: bool)
    requires Inv(c, s) && FailingInv(c, s, t) && DoSubmit(s, u, record, saved).Some? && (u == t ==> saved)
    ensures FailingInv(c, DoSubmit(s, u, record, saved).value, t)
  {
    if t in s.tasks {
      NewTaskHistory(s, t, u, record, saved);
    } else if u == t {
      AttemptHistory(TaskState(record, record, Nowhere, false, true, false, false, false, 0, None), Queued, saved);
      SubmittedTask(c, record, saved, s.now);
    }
    FailingElsewhere(c, s, DoSubmit(s, u, record, saved).value, t);
  }

  lemma FailingLoad(c: Config, s: State, t: TaskId, u: TaskId, record: Record, refused: bool)
    requires Inv(c, s) && FailingInv(c, s, t) && DoLoadSuspended(s, u, record, refused).Some?
    ensures FailingInv(c, DoLoadSuspended(s, u, record, refused).value, t)
  {
    if t in s.tasks {
      NewTaskHistory(s, t, u, record, refused);
    }
    FailingElsewhere(c, s, DoLoadSuspended(s, u, record, refused).value, t);
  }

  lemma FailingQueueing(c: Config, s: State, t: TaskId, u: TaskId, refused: bool)
    requires Inv(c, s) && FailingInv(c, s, t)
    ensures DoResume(s, u).Some? ==> FailingInv(c, DoResume(s, u).value, t)
    ensures DoEnqueue(s, u, refused).Some? ==> FailingInv(c, DoEnqueue(s, u, refused).value, t)
  {
    if DoResume(s, u).Some? {
      assert TaskOk(c, s.tasks[u], s.now);
      if t in s.tasks {
        QueueingHistory(s, t, u, refused);
      }
      FailingElsewhere(c, s, DoResume(s, u).value, t);
    }
    if DoEnqueue(s, u, refused).Some? {
      assert s.tasks[u].place.Submitting?;
      if t in s.tasks {
        QueueingHistory(s, t, u, refused);
      }
      FailingElsewhere(c, s, DoEnqueue(s, u, refused).value, t);
    }
  }

  lemma FailingRemoval(c: Config, s: State, t: TaskId, targets: set<TaskId>)
    requires Inv(c, s) && FailingInv(c, s, t)
    ensures FailingInv(c, DoCancelWaiting(s, targets).value, t)
  {
    if t in s.tasks {
      CancelWaitingHistory(s, t, targets);
    }
    FailingElsewhere(c, s, DoCancelWaiting(s, targets).value, t);
  }

  lemma FailingPop(c: Config, s: State, t: TaskId)
    requires Inv(c, s) && FailingInv(c, s, t) && DoPop(s).Some?
    ensures FailingInv(c, DoPop(s).value, t)
  {
    if t in s.tasks {
      PopHistory(s, t);
    }
    if s.waiting != [] {
      assert s.tasks[s.waiting[|s.waiting| - 1]].place.Waiting?;
    }
    FailingElsewhere(c, s, DoPop(s).value, t);
  }

  lemma FailingSpawn(c: Config, s: State, t: TaskId, w: WorkerId)
    requires Inv(c, s) && FailingInv(c, s, t) && DoSpawn(s, w).Some?
    ensures FailingInv(c, DoSpawn(s, w).value, t)
  {
    var s' := DoSpawn(s, w).value;
    assert s.tasks[s.handoff.value].place.HandedOff?;
    forall v | v in s'.workers && s'.workers[v].task == t
      ensures t in s'.tasks && FailingWorker(c, s'.workers[v], s'.tasks[t])
    {
      if v != w {
        assert v in s.workers && s.workers[v].task == t;
      }
    }
  }

  lemma FailingEnded(c: Config, s: State, s': State, t: TaskId, w: WorkerId, phase: Phase)
    requires FailingInv(c, s, t) && w in s.workers
    requires Ended(s.workers[w].phase) && Ended(phase) && s'.workers == s.workers[w := s.workers[w].(phase := phase)]
    requires s'.tasks == s.tasks && s'.marks == s.marks && s'.shutdown == s.shutdown
    ensures FailingInv(c, s', t)
  {
  }

  lemma FailingSchedule(c: Config, s: State, t: TaskId, agent: Agent)
    requires FailingInv(c, s, t)
    ensures DoCheckBusy(c, s, agent).Some? ==> FailingInv(c, DoCheckBusy(c, s, agent).value, t)
    ensures DoSignal(s, agent).Some? ==> FailingInv(c, DoSignal(s, agent).value, t)
  {
    match agent
    case TheDispatcher =>
    case TheWorker(w) =>
      if DoCheckBusy(c, s, agent).Some? {
        var phase := if s.counters.busy >= c.workerCount then Exited else Signalling;
        FailingEnded(c, s, DoCheckBusy(c, s, agent).value, t, w, phase);
      }
      if DoSignal(s, agent).Some? {
        FailingEnded(c, s, DoSignal(s, agent).value, t, w, Exited);
      }
  }

  lemma FailingStep(c: Config, s: State, step: Step, t: TaskId)
    requires Inv(c, s) && FailingInv(c, s, t) && Undisturbed(s, step, t) && Next(c, s, step).Some?
    ensures FailingInv(c, Next(c, s, step).value, t)
  {
    if step.Work? {
      if s.workers[step.w].task == t {
        FailingOwnWork(c, s, step.w, step.action, t);
      } else {
        FailingOtherWork(c, s, step.w, step.action, t);
      }
    } else if step.Submit? {
      FailingSubmit(c, s, t, step.t, step.record, step.saved);
    } else if step.LoadSuspended? {
      FailingLoad(c, s, t, step.t, step.record, step.refused);
    } else if step.Resume? || step.Enqueue? {
      FailingQueueing(c, s, t, step.t, step.Enqueue? && step.refused);
    } else if step.CancelWaiting? {
      FailingRemoval(c, s, t, step.targets);
    } else if step.Pop? {
      FailingPop(c, s, t);
    } else if step.Spawn? {
      FailingSpawn(c, s, t, step.w);
    } else if step.CheckBusy? || step.Signal? {
      FailingSchedule(c, s, t, step.agent);
    } else {
      assert Next(c, s, step).value.tasks == s.tasks && Next(c, s, step).value.workers == s.workers;
      FailingElsewhere(c, s, Next(c, s, step).value, t);
    }
  }

  lemma {:induction false} FailingRun(c: Config, steps: seq<Step>, t: TaskId)
    requires c.workerCount >= 1 && Run(c, Initial, steps).Some? && UndisturbedRun(c, steps, t)
    ensures FailingInv(c, Run(c, Initial, steps).value, t)
  {
    if steps != [] {
      var front := steps[..|steps| - 1];
      FailingRun(c, front, t);
      ReachableIsGood(c, Run(c, Initial, front).value);
      FailingStep(c, Run(c, Initial, front).value, steps[|steps| - 1], t);
    }
  }

  /** In every such run Do is started at most once more than there are retries left, the task never completes
      or is cancelled, and if it has ended then in error, after exactly maxRetry + 1 starts less the retries it
      came with. */
  lemma AlwaysFailingRunsExactly(c: Config, steps: seq<Step>, t: TaskId)
    requires c.workerCount >= 1 && Run(c, Initial, steps).Some? && UndisturbedRun(c, steps, t)
    requires t in Run(c, Initial, steps).value.tasks
    requires Run(c, Initial, steps).value.tasks[t].origin.retries <= c.maxRetry
    ensures var ts := Run(c, Initial, steps).value.tasks[t];
            && ts.dos <= c.maxRetry - ts.origin.retries + 1
            && (Terminal(ts.record.status) ==>
                  && ts.record.status.Error? && ts.record.retries == c.maxRetry
                  && ts.dos == c.maxRetry - ts.origin.retries + 1)
  {
    FailingRun(c, steps, t);
    ReachableIsGood(c, Run(c, Initial, steps).value);
    assert TaskOk(c, Run(c, Initial, steps).value.tasks[t], Run(c, Initial, steps).value.now);
  }
}
