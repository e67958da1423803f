/** Retries over whole runs: when Do may start again, how often it runs, and when the requester may crash. */
module QueueRetries {
  import opened Options
  import opened Tasks
  import opened QueueProtocol
  import opened QueueInvariant
  import opened QueueTheorems

  /** The task's retries, error history and Do count are as before. */
  predicate SameHistory(s: State, s': State, t: TaskId)
    requires t in s.tasks
  {
    && t in s'.tasks
    && var before, after := s.tasks[t], s'.tasks[t];
       && after.origin == before.origin && after.dos == before.dos && after.retryDue == before.retryDue
       && after.record.retries == before.record.retries && after.record.history == before.record.history
  }

  lemma AttemptHistory(ts: TaskState, to: Status, saved: bool)
    ensures var after := Attempt(ts, to, saved);
            && after.origin == ts.origin && after.dos == ts.dos && after.retryDue == ts.retryDue
            && after.place == ts.place
            && after.record == ts.record.(status := StatusAfter(ts.record.status, to, saved))
  {
  }

  lemma TransitHistory(c: Config, s: State, w: WorkerId, action: Action)
    requires DoWork(c, s, w, action).Some? && (action.Enter? || action.Cancel? || action.Fail? || action.Blame?)
    ensures SameHistory(s, DoWork(c, s, w, action).value, s.workers[w].task)
  {
    var ts := s.tasks[s.workers[w].task];
    match action
    case Enter(saved) => AttemptHistory(ts, Processing, saved);
    case Cancel(saved) => AttemptHistory(ts, Canceled, saved);
    case Fail(saved) => AttemptHistory(ts, Error, saved);
    case Blame(saved) => AttemptHistory(ts, Error, saved);
  }

  lemma AdvanceHistory(s: State, w: WorkerId, saved: bool, manual: bool)
    requires w in s.workers && s.workers[w].task in s.tasks && DoAdvance(s, w, saved, manual).Some?
    ensures SameHistory(s, DoAdvance(s, w, saved, manual).value, s.workers[w].task)
  {
    AttemptHistory(s.tasks[s.workers[w].task], s.workers[w].phase.next, saved);
  }

  lemma PlainHistory(c: Config, s: State, w: WorkerId, action: Action)
    requires DoWork(c, s, w, action).Some?
    requires action.CheckMark? || action.Launch? || action.Withdraw? || action.Unregister? || action.Leave?
    ensures SameHistory(s, DoWork(c, s, w, action).value, s.workers[w].task)
  {
  }

  lemma CallHistory(c: Config, s: State, w: WorkerId, action: Action)
    requires w in s.workers && s.workers[w].task in s.tasks
    ensures action.Select? && DoSelect(s, w, action.choice).Some? ==>
              SameHistory(s, DoSelect(s, w, action.choice).value, s.workers[w].task)
    ensures action.Judge? && DoJudge(s, w).Some? ==> SameHistory(s, DoJudge(s, w).value, s.workers[w].task)
    ensures action.Requeue? && DoRequeue(s, w, action.refused).Some? ==>
              SameHistory(s, DoRequeue(s, w, action.refused).value, s.workers[w].task)
    ensures action.Push? && DoPush(s, w, action.refused).Some? ==>
              SameHistory(s, DoPush(s, w, action.refused).value, s.workers[w].task)
    ensures action.JobReturn? && DoJobReturn(c, s, w, action.outcome, action.resumeAfter).Some? ==>
              SameHistory(s, DoJobReturn(c, s, w, action.outcome, action.resumeAfter).value, s.workers[w].task)
  {
  }

  /** Only the start of Do and a decided retry touch the history of the task a worker has. */
  lemma WorkHistory(c: Config, s: State, w: WorkerId, action: Action)
    requires DoWork(c, s, w, action).Some? && !action.JobBegin? && !action.JobRetry?
    ensures SameHistory(s, DoWork(c, s, w, action).value, s.workers[w].task)
  {
    if action.Enter? || action.Cancel? || action.Fail? || action.Blame? {
      TransitHistory(c, s, w, action);
    } else if action.Advance? {
      AdvanceHistory(s, w, action.saved, action.manual);
    } else if action.Select? || action.Judge? || action.Requeue? || action.Push? || action.JobReturn? {
      CallHistory(c, s, w, action);
    } else {
      PlainHistory(c, s, w, action);
    }
  }

  lemma NewTaskHistory(s: State, t: TaskId, u: TaskId, record: Record, flag: bool)
    requires t in s.tasks
    ensures DoSubmit(s, u, record, flag).Some? ==> SameHistory(s, DoSubmit(s, u, record, flag).value, t)
    ensures DoLoadSuspended(s, u, record, flag).Some? ==> SameHistory(s, DoLoadSuspended(s, u, record, flag).value, t)
  {
    if DoSubmit(s, u, record, flag).Some? {
      assert u != t && DoSubmit(s, u, record, flag).value.tasks[t] == s.tasks[t];
    }
  }

  lemma QueueingHistory(s: State, t: TaskId, u: TaskId, refused: bool)
    requires t in s.tasks
    ensures DoResume(s, u).Some? ==> SameHistory(s, DoResume(s, u).value, t)
    ensures DoEnqueue(s, u, refused).Some? ==> SameHistory(s, DoEnqueue(s, u, refused).value, t)
  {
  }

  lemma CancelWaitingHistory(s: State, t: TaskId, targets: set<TaskId>)
    requires t in s.tasks
    ensures SameHistory(s, DoCancelWaiting(s, targets).value, t)
  {
  }

  lemma PopHistory(s: State, t: TaskId)
    requires t in s.tasks && DoPop(s).Some?
    ensures SameHistory(s, DoPop(s).value, t)
  {
  }

  lemma SpawnHistory(s: State, t: TaskId, w: WorkerId)
    requires t in s.tasks && DoSpawn(s, w).Some?
    ensures SameHistory(s, DoSpawn(s, w).value, t)
  {
  }

  lemma ScheduleHistory(c: Config, s: State, t: TaskId, agent: Agent)
    requires t in s.tasks
    ensures DoCheckBusy(c, s, agent).Some? ==> SameHistory(s, DoCheckBusy(c, s, agent).value, t)
    ensures DoSignal(s, agent).Some? ==> SameHistory(s, DoSignal(s, agent).value, t)
  {
  }

  /** The step is one of task t's two history steps. */
  predicate Touches(s: State, step: Step, t: TaskId) {
    step.Work? && (step.action.JobBegin? || step.action.JobRetry?) && step.w in s.workers && s.workers[step.w].task == t
  }

  lemma StepHistory(c: Config, s: State, step: Step, t: TaskId)
    requires Inv(c, s) && Next(c, s, step).Some? && t in s.tasks && !Touches(s, step, t)
    ensures SameHistory(s, Next(c, s, step).value, t)
  {
    if step.Work? {
      WorkIsLocal(c, s, step.w, step.action);
      if s.workers[step.w].task == t {
        WorkHistory(c, s, step.w, step.action);
      }
    } else if step.Submit? {
      NewTaskHistory(s, t, step.t, step.record, step.saved);
    } else if step.LoadSuspended? {
      NewTaskHistory(s, t, step.t, step.record, step.refused);
    } else if step.Resume? || step.Enqueue? {
      QueueingHistory(s, t, step.t, step.Enqueue? && step.refused);
    } else if step.CancelWaiting? {
      CancelWaitingHistory(s, t, step.targets);
    } else if step.Pop? {
      PopHistory(s, t);
    } else if step.Spawn? {
      SpawnHistory(s, t, step.w);
    } else if step.CheckBusy? || step.Signal? {
      ScheduleHistory(c, s, t, step.agent);
    } else {
      assert Next(c, s, step).value.tasks == s.tasks;
    }
  }

  // When Do may start again.

  predicate StartsDo(s: State, step: Step, t: TaskId) {
    step.Work? && step.action.JobBegin? && step.w in s.workers && s.workers[step.w].task == t
  }

  /** No step of the run starts Do for t. */
  predicate NoStart(c: Config, s: State, steps: seq<Step>, t: TaskId)
    requires Run(c, s, steps).Some?
    decreases |steps|
  {
    steps == [] ||
    var front := steps[..|steps| - 1];
    NoStart(c, s, front, t) && !StartsDo(Run(c, s, front).value, steps[|steps| - 1], t)
  }

  /** While a retry is pending no job of the task is deciding another one. */
  lemma PendingRetryStep(c: Config, s: State, step: Step, t: TaskId)
    requires Inv(c, s) && Next(c, s, step).Some? && t in s.tasks && s.tasks[t].retryDue.Some?
    requires !StartsDo(s, step, t)
    ensures var s' := Next(c, s, step).value;
            t in s'.tasks && s'.tasks[t].retryDue == s.tasks[t].retryDue
  {
    if Touches(s, step, t) {
      LocalPart(c, s, step.w);
      NotDeciding(c, s, step.w);
      assert false;
    }
    StepHistory(c, s, step, t);
  }

  lemma NotDeciding(c: Config, s: State, w: WorkerId)
    requires Local(c, s, w) && s.tasks[s.workers[w].task].retryDue.Some?
    ensures forall delay :: DoJobRetry(s, w, delay).None?
  {
  }

  /** A decided retry is remembered until Do starts. */
  lemma {:induction false} RetryIsRemembered(c: Config, s: State, steps: seq<Step>, t: TaskId)
    requires c.workerCount >= 1 && Good(c, s) && Run(c, s, steps).Some?
    requires t in s.tasks && s.tasks[t].retryDue.Some? && NoStart(c, s, steps, t)
    ensures var s' := Run(c, s, steps).value;
            t in s'.tasks && s'.tasks[t].retryDue == s.tasks[t].retryDue
  {
    if steps != [] {
      var front, step := steps[..|steps| - 1], steps[|steps| - 1];
      RetryIsRemembered(c, s, front, t);
      RunKeeps(c, s, front);
      PendingRetryStep(c, Run(c, s, front).value, step, t);
    }
  }

  lemma DueAtStart(c: Config, s: State, w: WorkerId)
    requires Local(c, s, w) && DoJobBegin(s, w).Some?
    ensures var due := s.tasks[s.workers[w].task].retryDue;
            due.Some? ==> due.value <= Second(s.now)
  {
  }

  lemma LessThanASecond(now: nat, due: nat)
    requires Second(now) >= Second(due)
    ensures now + NANOS > due
  {
  }

  /** A retry decided at time T with delay d: whatever happens in between, and whichever worker gets the task,
      Do does not start again before second floor(T + d), hence less than a second before T + d. */
  lemma NoEarlyRestart(c: Config, s: State, w: WorkerId, delay: nat, steps: seq<Step>, v: WorkerId)
    requires c.workerCount >= 1 && Reachable(c, s) && Next(c, s, Work(w, JobRetry(delay))).Some?
    requires var s0 := Next(c, s, Work(w, JobRetry(delay))).value;
             && Run(c, s0, steps).Some?
             && NoStart(c, s0, steps, s.workers[w].task)
             && StartsDo(Run(c, s0, steps).value, Work(v, JobBegin), s.workers[w].task)
             && Next(c, Run(c, s0, steps).value, Work(v, JobBegin)).Some?
    ensures var now := Run(c, Next(c, s, Work(w, JobRetry(delay))).value, steps).value.now;
            Second(now) >= Second(s.now + delay) && now + NANOS > s.now + delay
  {
    var s' := Run(c, Next(c, s, Work(w, JobRetry(delay))).value, steps).value;
    RetryNotesDue(s, w, delay);
    AfterRetry(c, s, w, delay, steps, v);
    StartIsDue(c, s', v, s.workers[w].task, Second(s.now + delay));
    LessThanASecond(s'.now, s.now + delay);
  }

  lemma StartIsDue(c: Config, s: State, v: WorkerId, t: TaskId, due: int)
    requires Local(c, s, v) && StartsDo(s, Work(v, JobBegin), t) && Next(c, s, Work(v, JobBegin)).Some?
    requires t in s.tasks && s.tasks[t].retryDue == Some(due)
    ensures due <= Second(s.now)
  {
    assert DoJobBegin(s, v).Some?;
    DueAtStart(c, s, v);
  }

  lemma AfterRetry(c: Config, s: State, w: WorkerId, delay: nat, steps: seq<Step>, v: WorkerId)
    requires c.workerCount >= 1 && Reachable(c, s) && Next(c, s, Work(w, JobRetry(delay))).Some?
    requires var s0 := Next(c, s, Work(w, JobRetry(delay))).value;
             && Run(c, s0, steps).Some? && NoStart(c, s0, steps, s.workers[w].task)
             && s.workers[w].task in s0.tasks && s0.tasks[s.workers[w].task].retryDue.Some?
             && v in Run(c, s0, steps).value.workers
    ensures var s0, t := Next(c, s, Work(w, JobRetry(delay))).value, s.workers[w].task;
            var s' := Run(c, s0, steps).value;
            Local(c, s', v) && t in s'.tasks && s'.tasks[t].retryDue == s0.tasks[t].retryDue
  {
    var s0 := Next(c, s, Work(w, JobRetry(delay))).value;
    ReachableIsGood(c, s);
    StepKeeps(c, s, Work(w, JobRetry(delay)));
    RetryIsRemembered(c, s0, steps, s.workers[w].task);
    RunKeeps(c, s0, steps);
    LocalPart(c, Run(c, s0, steps).value, v);
  }

  lemma RetryNotesDue(s: State, w: WorkerId, delay: nat)
    requires w in s.workers && s.workers[w].task in s.tasks && DoJobRetry(s, w, delay).Some?
    ensures var s', t := DoJobRetry(s, w, delay).value, s.workers[w].task;
            t in s'.tasks && s'.tasks[t].retryDue == Some(Second(s.now + delay))
  {
  }

  // When the requester may meet a nil slot.

  predicate TopIsThere(s: State) {
    !s.crashed && (s.requester.Committed? ==> s.waiting != [])
  }

  lemma TopStays(c: Config, s: State, step: Step)
    requires TopIsThere(s) && Next(c, s, step).Some? && !step.CancelWaiting?
    ensures TopIsThere(Next(c, s, step).value)
  {
    if step.Work? {
      if DoWork(c, s, step.w, step.action).Some? {
        WaitingOnlyGrows(c, s, step.w, step.action);
      }
    }
  }

  lemma WaitingOnlyGrows(c: Config, s: State, w: WorkerId, action: Action)
    requires DoWork(c, s, w, action).Some?
    ensures var s' := DoWork(c, s, w, action).value;
            s'.crashed == s.crashed && s'.requester == s.requester && (s.waiting != [] ==> s'.waiting != [])
  {
  }

  predicate NoneCancelsWaiting(steps: seq<Step>) {
    forall i | 0 <= i < |steps| :: !steps[i].CancelWaiting?
  }

  /** Without cancellations of waiting tasks the requester never dereferences a nil slot: any number of
      QueueTask calls and requeues between its two halves leaves a task on top. */
  lemma {:induction false} NoCrashWithoutCancel(c: Config, steps: seq<Step>)
    requires Run(c, Initial, steps).Some? && NoneCancelsWaiting(steps)
    ensures TopIsThere(Run(c, Initial, steps).value)
  {
    if steps != [] {
      var front := steps[..|steps| - 1];
      NoCrashWithoutCancel(c, front);
      TopStays(c, Run(c, Initial, front).value, steps[|steps| - 1]);
    }
  }
}
