/** What holds in every reachable state of the queue and along every run. */
module QueueTheorems {
  import opened Options
  import opened Tasks
  import opened FifoSchedulers
  import opened QueueProtocol
  import opened QueueInvariant
  import opened QueueDispatch
  import opened QueueAccounting

  ghost predicate Good(c: Config, s: State) {
    Inv(c, s) && DispatchInv(c, s) && AccountInv(s)
  }

  lemma WorkStays(c: Config, s: State, w: WorkerId, action: Action)
    requires Local(c, s, w) && DoWork(c, s, w, action).Some? && !action.Push? && !action.Advance?
    ensures StayingStep(c, s, DoWork(c, s, w, action).value, w)
  {
    match action
    case CheckMark => CheckMarkLocal(c, s, w);
    case Enter(saved) => EnterLocal(c, s, w, saved);
    case Launch => LaunchLocal(c, s, w);
    case Select(choice) => SelectLocal(c, s, w, choice);
    case Judge => JudgeLocal(c, s, w);
    case Withdraw => WithdrawLocal(c, s, w);
    case Cancel(saved) => CancelLocal(c, s, w, saved);
    case Fail(saved) => FailLocal(c, s, w, saved);
    case Requeue(refused) => RequeueLocal(c, s, w, refused);
    case Leave => LeaveLocal(c, s, w);
    case Blame(saved) => BlameLocal(c, s, w, saved);
    case Unregister => EndedLocal(c, s, DoWork(c, s, w, action).value, w, Scheduling);
    case JobBegin => JobBeginLocal(c, s, w);
    case JobReturn(outcome, resumeAfter) => JobReturnLocal(c, s, w, outcome, resumeAfter);
    case JobRetry(delay) => JobRetryLocal(c, s, w, delay);
  }

  lemma WorkKeeps(c: Config, s: State, w: WorkerId, action: Action)
    requires Inv(c, s) && DoWork(c, s, w, action).Some?
    ensures Inv(c, DoWork(c, s, w, action).value)
  {
    var s' := DoWork(c, s, w, action).value;
    LocalPart(c, s, w);
    if action.Push? {
      PushKeeps(c, s, w, action.refused);
    } else if action.Advance? {
      if action.saved && action.manual && s.workers[w].phase.next.Suspending? {
        ParkKeeps(c, s, w);
      } else {
        AdvanceLocal(c, s, w, action.saved, action.manual);
        StayingStepKeeps(c, s, s', w);
      }
    } else {
      WorkStays(c, s, w, action);
      StayingStepKeeps(c, s, s', w);
    }
  }

  lemma CheckBusyLocal(c: Config, s: State, w: WorkerId)
    requires Local(c, s, w) && DoCheckBusy(c, s, TheWorker(w)).Some?
    ensures StayingStep(c, s, DoCheckBusy(c, s, TheWorker(w)).value, w)
  {
    var s' := DoCheckBusy(c, s, TheWorker(w)).value;
    EndedLocal(c, s, s', w, if s.counters.busy >= c.workerCount then Exited else Signalling);
  }

  lemma SignalLocal(c: Config, s: State, w: WorkerId)
    requires Local(c, s, w) && DoSignal(s, TheWorker(w)).Some?
    ensures StayingStep(c, s, DoSignal(s, TheWorker(w)).value, w)
  {
    EndedLocal(c, s, DoSignal(s, TheWorker(w)).value, w, Exited);
  }

  lemma DispatcherCheckKeeps(c: Config, s: State)
    requires Inv(c, s) && DoCheckBusy(c, s, TheDispatcher).Some?
    ensures Inv(c, DoCheckBusy(c, s, TheDispatcher).value)
  {
    IdleKeeps(c, s, DoCheckBusy(c, s, TheDispatcher).value);
  }

  lemma DispatcherSignalKeeps(c: Config, s: State)
    requires Inv(c, s) && DoSignal(s, TheDispatcher).Some?
    ensures Inv(c, DoSignal(s, TheDispatcher).value)
  {
    IdleKeeps(c, s, DoSignal(s, TheDispatcher).value);
  }

  lemma CheckBusyKeeps(c: Config, s: State, w: WorkerId)
    requires Inv(c, s) && DoCheckBusy(c, s, TheWorker(w)).Some?
    ensures Inv(c, DoCheckBusy(c, s, TheWorker(w)).value)
  {
    LocalPart(c, s, w);
    CheckBusyLocal(c, s, w);
    StayingStepKeeps(c, s, DoCheckBusy(c, s, TheWorker(w)).value, w);
  }

  lemma SignalKeeps(c: Config, s: State, w: WorkerId)
    requires Inv(c, s) && DoSignal(s, TheWorker(w)).Some?
    ensures Inv(c, DoSignal(s, TheWorker(w)).value)
  {
    LocalPart(c, s, w);
    SignalLocal(c, s, w);
    StayingStepKeeps(c, s, DoSignal(s, TheWorker(w)).value, w);
  }

  lemma StepKeepsInv(c: Config, s: State, step: Step)
    requires Inv(c, s) && RequesterOk(s) && Next(c, s, step).Some?
    ensures Inv(c, Next(c, s, step).value)
  {
    var s' := Next(c, s, step).value;
    match step
    case Work(w, action) => WorkKeeps(c, s, w, action);
    case Submit(t, record, saved) => SubmitKeeps(c, s, t, record, saved);
    case LoadSuspended(t, record, refused) => LoadKeeps(c, s, t, record, refused);
    case Resume(t) => ResumeKeeps(c, s, t);
    case Enqueue(t, refused) => EnqueueKeeps(c, s, t, refused);
    case CancelWaiting(targets) => CancelWaitingKeeps(c, s, targets);
    case Mark(t) => MarkKeeps(c, s, t);
    case Pop => PopKeeps(c, s);
    case Spawn(w) => SpawnKeeps(c, s, w);
    case CheckBusy(TheDispatcher) => DispatcherCheckKeeps(c, s);
    case CheckBusy(TheWorker(w)) => CheckBusyKeeps(c, s, w);
    case Signal(TheDispatcher) => DispatcherSignalKeeps(c, s);
    case Signal(TheWorker(w)) => SignalKeeps(c, s, w);
    case Tick(_) => IdleKeeps(c, s, s');
    case ShutdownStep => IdleKeeps(c, s, s');
    case EndLoading => IdleKeeps(c, s, s');
    case TakeToken => IdleKeeps(c, s, s');
    case StopDispatcher => IdleKeeps(c, s, s');
    case Glance => IdleKeeps(c, s, s');
    case CloseTasks => IdleKeeps(c, s, s');
  }

  lemma StepKeeps(c: Config, s: State, step: Step)
    requires c.workerCount >= 1 && Good(c, s) && Next(c, s, step).Some?
    ensures Good(c, Next(c, s, step).value)
  {
    StepKeepsInv(c, s, step);
    StepDispatch(c, s, step);
    StepAccount(c, s, step);
  }

  lemma {:induction false} RunKeeps(c: Config, s: State, steps: seq<Step>)
    requires c.workerCount >= 1 && Good(c, s) && Run(c, s, steps).Some?
    ensures Good(c, Run(c, s, steps).value)
  {
    if steps != [] {
      var front := steps[..|steps| - 1];
      RunKeeps(c, s, front);
      StepKeeps(c, Run(c, s, front).value, steps[|steps| - 1]);
    }
  }

  lemma ReachableIsGood(c: Config, s: State)
    requires c.workerCount >= 1 && Reachable(c, s)
    ensures Good(c, s)
  {
    var steps :| Run(c, Initial, steps) == Some(s);
    assert Good(c, Initial) by {
      assert BusyWorkers(map[]) == {};
      assert Succeeded(map[]) == {} && Failed(map[]) == {} && Gauged(map[]) == {};
    }
    RunKeeps(c, Initial, steps);
  }

  lemma ReachableIsLocal(c: Config, s: State, w: WorkerId)
    requires c.workerCount >= 1 && Reachable(c, s) && w in s.workers
    ensures Local(c, s, w)
  {
    ReachableIsGood(c, s);
    LocalPart(c, s, w);
  }

  // Workers.

  /** In every reachable state the busy counter is the number of activations that were started and have not
      decremented it, at most one above the configured number, and it never wraps round. */
  lemma BusyWorkersBounded(c: Config, s: State)
    requires c.workerCount >= 1 && Reachable(c, s)
    ensures s.counters.busy == |BusyWorkers(s.workers)| <= c.workerCount + 1
    ensures forall w | DoWork(c, s, w, Leave).Some? ::
              s.counters.busy >= 1 && DoWork(c, s, w, Leave).value.counters.busy == s.counters.busy - 1
  {
    ReachableIsGood(c, s);
    forall w | DoWork(c, s, w, Leave).Some?
      ensures s.counters.busy >= 1 && DoWork(c, s, w, Leave).value.counters.busy == s.counters.busy - 1
    {
      assert w in BusyWorkers(s.workers);
    }
  }

  /** The dispatcher is never left asleep: while it waits without a token, some activation has not finished,
      and if a worker slot is free that activation is on its way to schedule(). */
  lemma NoLostWakeUp(c: Config, s: State)
    requires c.workerCount >= 1 && Reachable(c, s)
    requires s.dispatcher.AtReady? && !s.token
    ensures exists w :: w in s.workers && !s.workers[w].phase.Exited?
                        && (s.counters.busy < c.workerCount ==> Waking(s.workers[w].phase))
  {
    ReachableIsGood(c, s);
    if s.counters.busy < c.workerCount {
      var w :| w in s.workers && Waking(s.workers[w].phase);
    } else {
      var w :| w in BusyWorkers(s.workers);
      assert w in s.workers && !s.workers[w].phase.Exited?;
    }
  }

  // Ownership.

  /** The task is with this worker's loop, or inside a Do that this worker started. */
  predicate Has(k: Worker, t: TaskId) {
    k.task == t && (!Ended(k.phase) || Active(k.job))
  }

  /** Stated on the containers alone: nobody shares a task with anybody. */
  predicate OneHolder(s: State) {
    && (forall i, j | 0 <= i < j < |s.waiting| :: s.waiting[i] != s.waiting[j])
    && (forall t | t in s.waiting :: t !in s.submitting && s.handoff != Some(t))
    && (forall t | t in s.submitting :: s.handoff != Some(t))
    && (forall w | w in s.workers && (!Ended(s.workers[w].phase) || Active(s.workers[w].job)) ::
          s.workers[w].task !in s.waiting && s.workers[w].task !in s.submitting && s.handoff != Some(s.workers[w].task))
    && (forall v, w | v in s.workers && w in s.workers && v != w && Has(s.workers[v], s.workers[v].task)
                      && Has(s.workers[w], s.workers[w].task) ::
          s.workers[v].task != s.workers[w].task)
  }

  /** Every task is in at most one of the scheduler, a client's call, the hand-off, one worker's loop, or one
      running Do; so Do never runs twice at a time for one task, abandoned runs included. */
  lemma TasksHaveOneHolder(c: Config, s: State)
    requires c.workerCount >= 1 && Reachable(c, s)
    ensures OneHolder(s)
    ensures forall v, w | v in s.workers && w in s.workers && v != w
                          && s.workers[v].job.Doing? && s.workers[w].job.Doing? ::
              s.workers[v].task != s.workers[w].task
  {
    ReachableIsGood(c, s);
    forall w | w in s.workers
      ensures WorkerOk(c, s, w)
    {
    }
    forall t | t in s.waiting
      ensures t in s.tasks && s.tasks[t].place.Waiting?
    {
    }
  }

  // Counters.

  function WithStatus(tasks: map<TaskId, TaskState>, status: Status): set<TaskId> {
    set t | t in tasks && tasks[t].record.status == status
  }

  /** No attempt to persist a task has failed. */
  predicate AllClean(s: State) {
    forall t | t in s.tasks :: s.tasks[t].clean
  }

  lemma CleanSets(c: Config, s: State)
    requires Inv(c, s) && AllClean(s)
    ensures Succeeded(s.tasks) == WithStatus(s.tasks, Completed)
    ensures Failed(s.tasks) == WithStatus(s.tasks, Error) + WithStatus(s.tasks, Canceled)
    ensures Gauged(s.tasks) == WithStatus(s.tasks, Suspending)
    ensures s.tasks.Keys == Succeeded(s.tasks) + Failed(s.tasks) + Gauged(s.tasks)
                            + WithStatus(s.tasks, Queued) + WithStatus(s.tasks, Processing)
  {
    forall t | t in s.tasks
      ensures TaskOk(c, s.tasks[t], s.now) && s.tasks[t].clean
    {
    }
  }

  /** As long as persisting works: success counts the completed tasks, failure the tasks in error and the
      cancelled ones, the gauge the suspended ones, and submitted is what these and the queued and processing
      tasks add up to.  Tasks that start-up loads from the store are included. */
  lemma CountersMatchStatuses(c: Config, s: State)
    requires c.workerCount >= 1 && Reachable(c, s) && AllClean(s)
    ensures s.counters.success == |WithStatus(s.tasks, Completed)|
    ensures s.counters.failure == |WithStatus(s.tasks, Error)| + |WithStatus(s.tasks, Canceled)|
    ensures s.counters.suspending == |WithStatus(s.tasks, Suspending)|
    ensures s.counters.submitted == s.counters.success + s.counters.failure + s.counters.suspending
                                    + |WithStatus(s.tasks, Queued)| + |WithStatus(s.tasks, Processing)|
  {
    ReachableIsGood(c, s);
    CleanSets(c, s);
    var failed := WithStatus(s.tasks, Error) + WithStatus(s.tasks, Canceled);
    assert WithStatus(s.tasks, Error) !! WithStatus(s.tasks, Canceled);
    assert Succeeded(s.tasks) !! failed;
    assert Succeeded(s.tasks) + failed !! Gauged(s.tasks);
    assert Succeeded(s.tasks) + failed + Gauged(s.tasks) !! WithStatus(s.tasks, Queued);
    var counted := Succeeded(s.tasks) + failed + Gauged(s.tasks);
    assert counted + WithStatus(s.tasks, Queued) !! WithStatus(s.tasks, Processing);
  }

  /** Even when persisting fails: no task is counted both as a success and as a failure, and the gauge never
      wraps round when a suspended task is started or cancelled. */
  lemma CountersWithoutPersistence(c: Config, s: State)
    requires c.workerCount >= 1 && Reachable(c, s)
    ensures s.counters.success == |Succeeded(s.tasks)| && s.counters.failure == |Failed(s.tasks)|
    ensures s.counters.submitted == |s.tasks| && s.counters.suspending == |Gauged(s.tasks)|
    ensures Succeeded(s.tasks) !! Failed(s.tasks)
    ensures s.counters.success + s.counters.failure <= s.counters.submitted
  {
    ReachableIsGood(c, s);
    forall t | t in s.tasks
      ensures TaskOk(c, s.tasks[t], s.now)
    {
    }
    assert Succeeded(s.tasks) !! Failed(s.tasks);
    assert |Succeeded(s.tasks) + Failed(s.tasks)| == |Succeeded(s.tasks)| + |Failed(s.tasks)|;
    SubsetIsSmaller(Succeeded(s.tasks) + Failed(s.tasks), s.tasks.Keys);
  }

  lemma SubsetIsSmaller(a: set<TaskId>, b: set<TaskId>)
    requires a <= b
    ensures |a| <= |b|
  {
    assert b == a + (b - a);
  }

  /** A worker that starts a suspended task lowers the gauge by exactly one, whether or not the move to
      Processing is persisted; if it is not, the task stays suspended without a unit and the worker panics. */
  lemma StartLowersGauge(c: Config, s: State, w: WorkerId, saved: bool)
    requires c.workerCount >= 1 && Reachable(c, s)
    requires DoWork(c, s, w, Enter(saved)).Some? && s.tasks[s.workers[w].task].record.status.Suspending?
    ensures var s', t := DoWork(c, s, w, Enter(saved)).value, s.workers[w].task;
            && s.counters.suspending >= 1 && s'.counters.suspending == s.counters.suspending - 1
            && t in Gauged(s.tasks) && t !in Gauged(s'.tasks)
            && (!saved ==> s'.tasks[t].record.status.Suspending? && s'.workers[w].phase == Leaving(true))
  {
    ReachableIsGood(c, s);
    LocalPart(c, s, w);
    assert s.workers[w].task in Gauged(s.tasks);
  }

  /** The error that follows such a panic counts one failure and leaves the gauge alone, although the table
      is entered from Suspending. */
  lemma BlameKeepsGauge(c: Config, s: State, w: WorkerId, saved: bool)
    requires c.workerCount >= 1 && Reachable(c, s) && DoWork(c, s, w, Blame(saved)).Some?
    ensures var s', t := DoWork(c, s, w, Blame(saved)).value, s.workers[w].task;
            && s'.counters.suspending == s.counters.suspending && s'.counters.failure == s.counters.failure + 1
            && t !in Gauged(s.tasks) && t !in Failed(s.tasks) && t in Failed(s'.tasks)
  {
    ReachableIsLocal(c, s, w);
    BlameEffect(s.tasks[s.workers[w].task]);
    assert DoWork(c, s, w, Blame(saved)).value == Goto(Transit(s, s.workers[w].task, Error, saved), w, Unregistering);
  }

  lemma BlameEffect(ts: TaskState)
    requires !Terminal(ts.record.status) && !ts.record.status.Fresh?
    ensures Transition(ts.record.status, Error).Some?
    ensures var e := Transition(ts.record.status, Error).value;
            e.failure && !e.success && !e.gaugeUp && !e.gaugeDown
  {
  }

  // Histories of workers.

  lemma WorkIsLocal(c: Config, s: State, w: WorkerId, action: Action)
    requires Inv(c, s) && DoWork(c, s, w, action).Some?
    ensures Local(c, s, w) && LocalStep(c, s, DoWork(c, s, w, action).value, w)
  {
    LocalPart(c, s, w);
    if action.Push? {
      PushLocal(c, s, w, action.refused);
    } else if action.Advance? {
      if action.saved && action.manual && s.workers[w].phase.next.Suspending? {
        ParkLocal(c, s, w);
      } else {
        AdvanceLocal(c, s, w, action.saved, action.manual);
      }
    } else {
      WorkStays(c, s, w, action);
    }
  }

  lemma ScheduleRemembers(c: Config, s: State, agent: Agent, w: WorkerId)
    requires w in s.workers
    ensures DoCheckBusy(c, s, agent).Some? ==>
              var s' := DoCheckBusy(c, s, agent).value;
              w in s'.workers && Remembers(s.workers[w], s'.workers[w])
    ensures DoSignal(s, agent).Some? ==>
              w in DoSignal(s, agent).value.workers && Remembers(s.workers[w], DoSignal(s, agent).value.workers[w])
  {
  }

  lemma OtherStepsLeaveWorkers(c: Config, s: State, step: Step)
    requires Next(c, s, step).Some? && !step.Work? && !step.CheckBusy? && !step.Signal? && !step.Spawn?
    ensures Next(c, s, step).value.workers == s.workers
  {
  }

  lemma StepRemembers(c: Config, s: State, step: Step, w: WorkerId)
    requires Inv(c, s) && Next(c, s, step).Some? && w in s.workers
    ensures w in Next(c, s, step).value.workers && Remembers(s.workers[w], Next(c, s, step).value.workers[w])
  {
    if step.Work? {
      WorkIsLocal(c, s, step.w, step.action);
    } else if step.CheckBusy? || step.Signal? {
      ScheduleRemembers(c, s, step.agent, w);
    } else if step.Spawn? {
      assert Next(c, s, step) == DoSpawn(s, step.w);
    } else {
      OtherStepsLeaveWorkers(c, s, step);
    }
  }

  lemma {:induction false} RunRemembers(c: Config, s: State, steps: seq<Step>, w: WorkerId)
    requires c.workerCount >= 1 && Good(c, s) && Run(c, s, steps).Some? && w in s.workers
    requires s.workers[w].preMarked || (s.workers[w].markedAtReturn && !s.workers[w].phase.Running?)
    ensures var s' := Run(c, s, steps).value;
            w in s'.workers && s'.workers[w].task == s.workers[w].task
            && (s.workers[w].preMarked ==> s'.workers[w].preMarked)
            && (s.workers[w].markedAtReturn && !s.workers[w].phase.Running? ==>
                  s'.workers[w].markedAtReturn && !s'.workers[w].phase.Running?)
  {
    if steps != [] {
      var front := steps[..|steps| - 1];
      RunRemembers(c, s, front, w);
      var before := Run(c, s, front).value;
      RunKeeps(c, s, front);
      StepRemembers(c, before, steps[|steps| - 1], w);
      RunKeeps(c, s, steps);
      assert WorkerOk(c, Run(c, s, steps).value, w);
    }
  }

  /** One step out of a reachable state, and any run after it. */
  lemma AfterStep(c: Config, s: State, step: Step, steps: seq<Step>, w: WorkerId)
    requires c.workerCount >= 1 && Reachable(c, s) && Next(c, s, step).Some?
    requires Run(c, Next(c, s, step).value, steps).Some?
    requires w in Next(c, s, step).value.workers
    requires var k := Next(c, s, step).value.workers[w];
             k.preMarked || (k.markedAtReturn && !k.phase.Running?)
    ensures var k, s' := Next(c, s, step).value.workers[w], Run(c, Next(c, s, step).value, steps).value;
            && Local(c, s', w) && s'.workers[w].task == k.task
            && (k.preMarked ==> s'.workers[w].preMarked)
            && (k.markedAtReturn && !k.phase.Running? ==> s'.workers[w].markedAtReturn && !s'.workers[w].phase.Running?)
  {
    ReachableIsGood(c, s);
    StepKeeps(c, s, step);
    RunRemembers(c, Next(c, s, step).value, steps, w);
    RunKeeps(c, Next(c, s, step).value, steps);
    LocalPart(c, Run(c, Next(c, s, step).value, steps).value, w);
  }

  /** A task marked when a worker makes its start check: however the run goes on, that activation never starts
      Do, and once it is over the task was counted as a failure and, if persisting worked, is cancelled. */
  lemma MarkedBeforeStart(c: Config, s: State, w: WorkerId, steps: seq<Step>)
    requires c.workerCount >= 1 && Reachable(c, s) && Next(c, s, Work(w, CheckMark)).Some?
    requires s.workers[w].task in s.marks
    requires Run(c, Next(c, s, Work(w, CheckMark)).value, steps).Some?
    ensures var s', t := Run(c, Next(c, s, Work(w, CheckMark)).value, steps).value, s.workers[w].task;
            && w in s'.workers && s'.workers[w].task == t && t in s'.tasks
            && !s'.workers[w].launched && s'.workers[w].job.NoJob?
            && (Ended(s'.workers[w].phase) ==>
                  s'.tasks[t].failed && (s'.tasks[t].clean ==> s'.tasks[t].record.status.Canceled?))
  {
    CheckMarkMarks(c, s, w);
    AfterStep(c, s, Work(w, CheckMark), steps, w);
  }

  lemma CheckMarkMarks(c: Config, s: State, w: WorkerId)
    requires DoWork(c, s, w, CheckMark).Some? && s.workers[w].task in s.marks
    ensures var s' := DoWork(c, s, w, CheckMark).value;
            w in s'.workers && s'.workers[w].preMarked && s'.workers[w].task == s.workers[w].task
  {
  }

  /** A task marked when `run` returns: however the run goes on, that activation starts no other iteration and
      does not suspend or complete the task; once it is over the task is cancelled or in error. */
  lemma MarkedAtReturn(c: Config, s: State, w: WorkerId, choice: Choice, steps: seq<Step>)
    requires c.workerCount >= 1 && Reachable(c, s) && Next(c, s, Work(w, Select(choice))).Some?
    requires s.workers[w].task in s.marks
    requires Run(c, Next(c, s, Work(w, Select(choice))).value, steps).Some?
    ensures var s', t := Run(c, Next(c, s, Work(w, Select(choice))).value, steps).value, s.workers[w].task;
            && w in s'.workers && s'.workers[w].task == t && t in s'.tasks
            && var p := s'.workers[w].phase;
               && !p.Launching? && !p.Running? && !p.Advancing? && !p.Requeueing? && !p.Pushing?
               && (Ended(p) ==>
                     && s'.tasks[t].failed
                     && (s'.tasks[t].clean ==> s'.tasks[t].record.status.Canceled? || s'.tasks[t].record.status.Error?))
  {
    SelectMarks(s, w, choice);
    AfterStep(c, s, Work(w, Select(choice)), steps, w);
  }

  lemma SelectMarks(s: State, w: WorkerId, choice: Choice)
    requires w in s.workers && DoSelect(s, w, choice).Some? && s.workers[w].task in s.marks
    ensures var s' := DoSelect(s, w, choice).value;
            && w in s'.workers && s'.workers[w].markedAtReturn && !s'.workers[w].phase.Running?
            && s'.workers[w].task == s.workers[w].task
  {
  }

  /** But a cancellation can be lost: a mark set while the task is on its way back to the queue is consumed
      without effect, and the task is queued again as if nothing had happened. */
  lemma MarkDroppedOnRequeue(c: Config, s: State, w: WorkerId)
    requires c.workerCount >= 1 && Reachable(c, s)
    requires w in s.workers && s.workers[w].phase.Requeueing? && s.workers[w].task in s.marks && s.lock.None?
    ensures s.workers[w].task in s.tasks && DoRequeue(s, w, false).Some?
    ensures var s1, t := DoRequeue(s, w, false).value, s.workers[w].task;
            && t !in s1.marks && w in s1.workers && t in s1.tasks && s1.workers[w].task == t
            && DoPush(s1, w, false).Some?
            && var s2 := DoPush(s1, w, false).value;
               s2.waiting == s.waiting + [t] && t !in s2.marks && Ready(s2.tasks[t])
  {
    ReachableIsLocal(c, s, w);
    NotWaiting(c, s, w);
  }

  lemma NotWaiting(c: Config, s: State, w: WorkerId)
    requires c.workerCount >= 1 && Reachable(c, s)
    requires w in s.workers && s.workers[w].phase.Requeueing?
    ensures WithoutIds(s.waiting, {s.workers[w].task}) == s.waiting
  {
    ReachableIsGood(c, s);
    LocalPart(c, s, w);
    PushPlaces(c, s, s.workers[w].task);
  }

  // Retries.

  /** Retry count and error history move together, and retrying stops at the configured maximum. */
  lemma RetriesBounded(c: Config, s: State, t: TaskId)
    requires c.workerCount >= 1 && Reachable(c, s) && t in s.tasks
    ensures var ts := s.tasks[t];
            && ts.record.retries - ts.origin.retries == |ts.record.history| - |ts.origin.history|
            && (ts.origin.retries == 0 && ts.origin.history == [] && c.maxRetry >= 0 ==>
                  ts.record.retries == |ts.record.history| <= c.maxRetry)
  {
    ReachableIsGood(c, s);
    assert TaskOk(c, s.tasks[t], s.now);
  }
}
