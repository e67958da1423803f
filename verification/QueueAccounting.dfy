/** The success, failure, submitted and suspending counters against the tasks (module/queue/task.go, metric.go). */
module QueueAccounting {
  import opened Options
  import opened Tasks
  import opened QueueProtocol
  import opened QueueInvariant

  function Succeeded(tasks: map<TaskId, TaskState>): set<TaskId> {
    set t | t in tasks && tasks[t].succeeded
  }

  function Failed(tasks: map<TaskId, TaskState>): set<TaskId> {
    set t | t in tasks && tasks[t].failed
  }

  function Gauged(tasks: map<TaskId, TaskState>): set<TaskId> {
    set t | t in tasks && tasks[t].gauged
  }

  /** Every counter counts tasks, each once, whether or not persisting works. */
  predicate AccountInv(s: State) {
    && s.counters.submitted == |s.tasks|
    && s.counters.success == |Succeeded(s.tasks)|
    && s.counters.failure == |Failed(s.tasks)|
    && s.counters.suspending == |Gauged(s.tasks)|
  }

  /** The attempt does not count anything twice, and lowers the gauge only for a task that raised it. */
  predicate Countable(ts: TaskState, to: Status) {
    var e := Transition(ts.record.status, to);
    e.Some? ==>
      && (e.value.success || e.value.failure ==> Open(ts))
      && (e.value.gaugeUp ==> !ts.gauged)
      && (e.value.gaugeDown ==> ts.gauged)
  }

  lemma SetsAfter(tasks: map<TaskId, TaskState>, t: TaskId, ts: TaskState)
    ensures Succeeded(tasks[t := ts]) == if ts.succeeded then Succeeded(tasks) + {t} else Succeeded(tasks) - {t}
    ensures Failed(tasks[t := ts]) == if ts.failed then Failed(tasks) + {t} else Failed(tasks) - {t}
    ensures Gauged(tasks[t := ts]) == if ts.gauged then Gauged(tasks) + {t} else Gauged(tasks) - {t}
  {
  }

  /** The flags of the task after an attempt, without the table. */
  lemma FlagsAfter(ts: TaskState, to: Status, saved: bool, e: Effect)
    requires Transition(ts.record.status, to) == Some(e)
    ensures var after := Attempt(ts, to, saved);
            && after.succeeded == (ts.succeeded || e.success)
            && after.failed == (ts.failed || e.failure)
            && after.gauged == ((ts.gauged || e.gaugeUp) && !e.gaugeDown)
    ensures !(e.gaugeUp && e.gaugeDown)
  {
  }

  lemma EffectAccount(s: State, s': State, t: TaskId, ts: TaskState, e: Effect)
    requires AccountInv(s) && t in s.tasks
    requires s'.tasks == s.tasks[t := ts]
    requires s'.counters == Count(s.counters, e).(busy := s'.counters.busy)
    requires ts.succeeded == (s.tasks[t].succeeded || e.success)
    requires ts.failed == (s.tasks[t].failed || e.failure)
    requires ts.gauged == ((s.tasks[t].gauged || e.gaugeUp) && !e.gaugeDown) && !(e.gaugeUp && e.gaugeDown)
    requires (e.success ==> !s.tasks[t].succeeded) && (e.failure ==> !s.tasks[t].failed)
    requires (e.gaugeUp ==> !s.tasks[t].gauged) && (e.gaugeDown ==> s.tasks[t].gauged)
    ensures AccountInv(s')
    ensures e.gaugeDown ==> s.counters.suspending >= 1 && s'.counters.suspending == s.counters.suspending - 1
  {
    SetsAfter(s.tasks, t, ts);
    assert s'.tasks.Keys == s.tasks.Keys;
    assert s.tasks[t].gauged ==> t in Gauged(s.tasks);
  }

  /** The state after a status change of t, up to where the task is put afterwards. */
  lemma TransitAccount(s: State, s': State, t: TaskId, to: Status, saved: bool)
    requires AccountInv(s) && t in s.tasks && t in s'.tasks && Countable(s.tasks[t], to)
    requires s'.tasks == s.tasks[t := s'.tasks[t]]
    requires var ts := Attempt(s.tasks[t], to, saved);
             s'.tasks[t].succeeded == ts.succeeded && s'.tasks[t].failed == ts.failed && s'.tasks[t].gauged == ts.gauged
    requires s'.counters == CountersAfter(s.counters, s.tasks[t].record.status, to)
    ensures AccountInv(s')
  {
    match Transition(s.tasks[t].record.status, to)
    case Some(e) =>
      FlagsAfter(s.tasks[t], to, saved, e);
      EffectAccount(s, s', t, s'.tasks[t], e);
    case None =>
      SetsAfter(s.tasks, t, s'.tasks[t]);
      assert s'.tasks.Keys == s.tasks.Keys;
  }

  /** A step that leaves the counted flags of every task as they are. */
  predicate SameFlags(s: State, s': State) {
    && s'.tasks.Keys == s.tasks.Keys
    && (forall t | t in s.tasks ::
          s'.tasks[t].succeeded == s.tasks[t].succeeded && s'.tasks[t].failed == s.tasks[t].failed
          && s'.tasks[t].gauged == s.tasks[t].gauged)
    && s'.counters == s.counters.(busy := s'.counters.busy)
  }

  lemma SameAccount(s: State, s': State)
    requires AccountInv(s) && SameFlags(s, s')
    ensures AccountInv(s')
  {
    forall t
      ensures t in Succeeded(s'.tasks) <==> t in Succeeded(s.tasks)
      ensures t in Failed(s'.tasks) <==> t in Failed(s.tasks)
      ensures t in Gauged(s'.tasks) <==> t in Gauged(s.tasks)
    {
      assert t in s'.tasks.Keys <==> t in s.tasks.Keys;
      if t in s.tasks {
        assert s'.tasks[t].succeeded == s.tasks[t].succeeded;
      }
    }
    assert Succeeded(s'.tasks) == Succeeded(s.tasks);
    assert Failed(s'.tasks) == Failed(s.tasks);
    assert Gauged(s'.tasks) == Gauged(s.tasks);
    assert s'.tasks.Keys == s.tasks.Keys;
  }

  lemma NewTaskSets(tasks: map<TaskId, TaskState>, t: TaskId, ts: TaskState)
    requires t !in tasks && Open(ts)
    ensures |tasks[t := ts]| == |tasks| + 1
    ensures Succeeded(tasks[t := ts]) == Succeeded(tasks) && Failed(tasks[t := ts]) == Failed(tasks)
    ensures |Gauged(tasks[t := ts])| == |Gauged(tasks)| + if ts.gauged then 1 else 0
  {
    SetsAfter(tasks, t, ts);
    assert t !in Succeeded(tasks) && t !in Failed(tasks) && t !in Gauged(tasks);
    assert Gauged(tasks) - {t} == Gauged(tasks);
  }

  lemma NewTaskAccount(s: State, s': State, t: TaskId, ts: TaskState)
    requires AccountInv(s) && t !in s.tasks && s'.tasks == s.tasks[t := ts] && Open(ts)
    requires s'.counters == s.counters.(submitted := s.counters.submitted + 1,
                                        suspending := s.counters.suspending + if ts.gauged then 1 else 0)
    ensures AccountInv(s')
  {
    NewTaskSets(s.tasks, t, ts);
  }

  lemma SubmitAccount(s: State, t: TaskId, record: Record, saved: bool)
    requires AccountInv(s) && DoSubmit(s, t, record, saved).Some?
    ensures AccountInv(DoSubmit(s, t, record, saved).value)
  {
    var s' := DoSubmit(s, t, record, saved).value;
    NewTaskAccount(s, s', t, s'.tasks[t]);
  }

  lemma LoadAccount(s: State, t: TaskId, record: Record, refused: bool)
    requires AccountInv(s) && DoLoadSuspended(s, t, record, refused).Some?
    ensures AccountInv(DoLoadSuspended(s, t, record, refused).value)
  {
    var s' := DoLoadSuspended(s, t, record, refused).value;
    NewTaskAccount(s, s', t, s'.tasks[t]);
  }

  /** What a phase that is about to change the status makes of the task. */
  function Target(p: Phase): Option<Status> {
    match p
    case Entering => Some(Processing)
    case Canceling => Some(Canceled)
    case Failing => Some(Error)
    case Blaming => Some(Error)
    case Advancing(next) => Some(next)
    case _ => None
  }

  lemma HeldIsCountable(k: Worker, ts: TaskState)
    requires HeldOk(k, ts) && Target(k.phase).Some?
    ensures Countable(ts, Target(k.phase).value)
  {
  }

  lemma AdvanceAccount(s: State, w: WorkerId, saved: bool, manual: bool)
    requires AccountInv(s) && w in s.workers && s.workers[w].task in s.tasks
    requires HeldOk(s.workers[w], s.tasks[s.workers[w].task])
    requires DoAdvance(s, w, saved, manual).Some?
    ensures AccountInv(DoAdvance(s, w, saved, manual).value)
  {
    var k := s.workers[w];
    HeldIsCountable(k, s.tasks[k.task]);
    TransitAccount(s, DoAdvance(s, w, saved, manual).value, k.task, k.phase.next, saved);
  }

  lemma TransitWorkAccount(c: Config, s: State, w: WorkerId, action: Action)
    requires AccountInv(s) && DoWork(c, s, w, action).Some? && HeldOk(s.workers[w], s.tasks[s.workers[w].task])
    requires action.Enter? || action.Cancel? || action.Fail? || action.Blame?
    ensures AccountInv(DoWork(c, s, w, action).value)
  {
    var k := s.workers[w];
    HeldIsCountable(k, s.tasks[k.task]);
    var saved := match action case Enter(b) => b case Cancel(b) => b case Fail(b) => b case Blame(b) => b;
    TransitAccount(s, DoWork(c, s, w, action).value, k.task, Target(k.phase).value, saved);
  }

  lemma FlaglessWork(c: Config, s: State, w: WorkerId, action: Action)
    requires DoWork(c, s, w, action).Some?
    requires action.CheckMark? || action.Launch? || action.Withdraw? || action.Unregister? || action.Leave?
    ensures SameFlags(s, DoWork(c, s, w, action).value)
  {
  }

  lemma FlaglessJobs(c: Config, s: State, w: WorkerId, action: Action)
    requires DoWork(c, s, w, action).Some?
    requires action.JobBegin? || action.JobReturn? || action.JobRetry?
    ensures SameFlags(s, DoWork(c, s, w, action).value)
  {
  }

  lemma FlaglessSelect(s: State, w: WorkerId, choice: Choice)
    requires w in s.workers && DoSelect(s, w, choice).Some?
    ensures SameFlags(s, DoSelect(s, w, choice).value)
  {
  }

  lemma FlaglessJudge(s: State, w: WorkerId)
    requires w in s.workers && DoJudge(s, w).Some?
    ensures SameFlags(s, DoJudge(s, w).value)
  {
  }

  lemma FlaglessRequeue(s: State, w: WorkerId, refused: bool)
    requires w in s.workers && DoRequeue(s, w, refused).Some?
    ensures SameFlags(s, DoRequeue(s, w, refused).value)
  {
  }

  lemma FlaglessPush(s: State, w: WorkerId, refused: bool)
    requires w in s.workers && s.workers[w].task in s.tasks && DoPush(s, w, refused).Some?
    ensures SameFlags(s, DoPush(s, w, refused).value)
  {
  }

  lemma WorkAccount(c: Config, s: State, w: WorkerId, action: Action)
    requires AccountInv(s) && DoWork(c, s, w, action).Some? && HeldOk(s.workers[w], s.tasks[s.workers[w].task])
    ensures AccountInv(DoWork(c, s, w, action).value)
  {
    var s' := DoWork(c, s, w, action).value;
    match action
    case Enter(_) => TransitWorkAccount(c, s, w, action);
    case Cancel(_) => TransitWorkAccount(c, s, w, action);
    case Fail(_) => TransitWorkAccount(c, s, w, action);
    case Blame(_) => TransitWorkAccount(c, s, w, action);
    case Advance(saved, manual) => AdvanceAccount(s, w, saved, manual);
    case Select(choice) => FlaglessSelect(s, w, choice); SameAccount(s, s');
    case Judge => FlaglessJudge(s, w); SameAccount(s, s');
    case Requeue(refused) => FlaglessRequeue(s, w, refused); SameAccount(s, s');
    case Push(refused) => FlaglessPush(s, w, refused); SameAccount(s, s');
    case CheckMark => FlaglessWork(c, s, w, action); SameAccount(s, s');
    case Launch => FlaglessWork(c, s, w, action); SameAccount(s, s');
    case Withdraw => FlaglessWork(c, s, w, action); SameAccount(s, s');
    case Unregister => FlaglessWork(c, s, w, action); SameAccount(s, s');
    case Leave => FlaglessWork(c, s, w, action); SameAccount(s, s');
    case JobBegin => FlaglessJobs(c, s, w, action); SameAccount(s, s');
    case JobReturn(_, _) => FlaglessJobs(c, s, w, action); SameAccount(s, s');
    case JobRetry(_) => FlaglessJobs(c, s, w, action); SameAccount(s, s');
  }

  lemma FlaglessQueueing(s: State, t: TaskId, refused: bool)
    ensures DoResume(s, t).Some? ==> SameFlags(s, DoResume(s, t).value)
    ensures DoEnqueue(s, t, refused).Some? ==> SameFlags(s, DoEnqueue(s, t, refused).value)
  {
  }

  lemma FlaglessCancelWaiting(s: State, targets: set<TaskId>)
    ensures SameFlags(s, DoCancelWaiting(s, targets).value)
  {
  }

  lemma FlaglessPop(s: State)
    requires DoPop(s).Some?
    ensures SameFlags(s, DoPop(s).value)
  {
  }

  lemma FlaglessSpawn(s: State, w: WorkerId)
    requires DoSpawn(s, w).Some?
    ensures SameFlags(s, DoSpawn(s, w).value)
  {
  }

  lemma FlaglessStep(c: Config, s: State, step: Step)
    requires Next(c, s, step).Some? && !step.Work? && !step.Submit? && !step.LoadSuspended?
    ensures SameFlags(s, Next(c, s, step).value)
  {
    if step.Resume? {
      FlaglessQueueing(s, step.t, false);
    } else if step.Enqueue? {
      FlaglessQueueing(s, step.t, step.refused);
    } else if step.CancelWaiting? {
      FlaglessCancelWaiting(s, step.targets);
    } else if step.Pop? {
      FlaglessPop(s);
    } else if step.Spawn? {
      FlaglessSpawn(s, step.w);
    } else {
      assert Next(c, s, step).value.tasks == s.tasks;
    }
  }

  lemma StepAccount(c: Config, s: State, step: Step)
    requires AccountInv(s) && Inv(c, s) && Next(c, s, step).Some?
    ensures AccountInv(Next(c, s, step).value)
  {
    match step
    case Work(w, action) =>
      assert WorkerOk(c, s, w);
      WorkAccount(c, s, w, action);
    case Submit(t, record, saved) => SubmitAccount(s, t, record, saved);
    case LoadSuspended(t, record, refused) => LoadAccount(s, t, record, refused);
    case _ =>
      FlaglessStep(c, s, step);
      SameAccount(s, Next(c, s, step).value);
  }
}
