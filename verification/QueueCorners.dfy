/** What exactly goes wrong with cancellations (module/queue/queue.go, `CancelTasks` against `QueueTask` and the
    epilogue of `work`): marks that are lost, waiting tasks that are forgotten, running tasks that cannot be reached. */
module QueueCorners {
  import opened Options
  import opened QueueProtocol
  import opened QueueInvariant
  import opened QueueAccounting
  import opened QueueTheorems
  import opened QueueGauge

  // Lost cancellations.

  /** Some worker that has the task is on its way to cancel it. */
  ghost predicate BeingCanceled(s: State, t: TaskId) {
    exists w :: w in s.workers && s.workers[w].task == t && s.workers[w].phase.Canceling?
  }

  /** The step sends task t, suspended before, to the queue. */
  predicate SendsBack(s: State, step: Step, t: TaskId) {
    || (step.Work? && step.action == Requeue(false) && step.w in s.workers && s.workers[step.w].task == t)
    || (step.Resume? && step.t == t)
    || (step.LoadSuspended? && !step.refused && step.t == t)
  }

  lemma RequeueMarks(s: State, w: WorkerId, refused: bool)
    requires w in s.workers && DoRequeue(s, w, refused).Some?
    ensures DoRequeue(s, w, refused).value.marks == if refused then s.marks else s.marks - {s.workers[w].task}
  {
  }

  lemma JudgeMarks(s: State, w: WorkerId)
    requires w in s.workers && DoJudge(s, w).Some?
    ensures var s' := DoJudge(s, w).value;
            && s'.marks == s.marks - {s.workers[w].task}
            && (s.workers[w].task in s.marks ==> w in s'.workers && s'.workers[w].phase.Canceling?)
  {
  }

  lemma OtherCallsKeepMarks(c: Config, s: State, w: WorkerId, action: Action)
    requires DoWork(c, s, w, action).Some?
    requires action.Select? || action.Advance? || action.Push?
             || action.JobBegin? || action.JobReturn? || action.JobRetry?
    ensures DoWork(c, s, w, action).value.marks == s.marks
  {
  }

  /** A worker takes a mark away only to cancel the task, or to send it back. */
  lemma WorkMarks(c: Config, s: State, w: WorkerId, action: Action, t: TaskId)
    requires DoWork(c, s, w, action).Some? && t in s.marks && t !in DoWork(c, s, w, action).value.marks
    ensures var s' := DoWork(c, s, w, action).value;
            && s.workers[w].task == t && w in s'.workers && s'.workers[w].task == t
            && (action == Requeue(false) || s'.workers[w].phase.Canceling?)
  {
    match action
    case Requeue(refused) => RequeueMarks(s, w, refused);
    case Judge => JudgeMarks(s, w);
    case Select(_) => OtherCallsKeepMarks(c, s, w, action);
    case Advance(_, _) => OtherCallsKeepMarks(c, s, w, action);
    case Push(_) => OtherCallsKeepMarks(c, s, w, action);
    case JobBegin => OtherCallsKeepMarks(c, s, w, action);
    case JobReturn(_, _) => OtherCallsKeepMarks(c, s, w, action);
    case JobRetry(_) => OtherCallsKeepMarks(c, s, w, action);
    case _ =>
  }

  lemma OtherStepsKeepMarks(c: Config, s: State, step: Step, t: TaskId)
    requires Next(c, s, step).Some? && t in s.marks && !step.Work? && !SendsBack(s, step, t)
    ensures t in Next(c, s, step).value.marks
  {
  }

  lemma OtherWorkKeepsMarks(c: Config, s: State, w: WorkerId, action: Action)
    requires DoWork(c, s, w, action).Some?
    requires action.Enter? || action.Launch? || action.Cancel? || action.Fail? || action.Leave? || action.Blame?
             || action.Unregister?
    ensures DoWork(c, s, w, action).value.marks == s.marks
  {
  }

  /** The step looks for a mark of its task and takes it away: the start check, the judgement of a result, or the
      withdrawal of a cancelled iteration. */
  predicate Consumes(s: State, step: Step, t: TaskId) {
    && step.Work? && step.w in s.workers && s.workers[step.w].task == t
    && (step.action.CheckMark? || step.action.Judge? || step.action.Withdraw?)
  }

  lemma WorkConsumes(c: Config, s: State, w: WorkerId, action: Action, t: TaskId)
    requires DoWork(c, s, w, action).Some? && t in s.marks
    ensures t !in DoWork(c, s, w, action).value.marks <==>
              Consumes(s, Work(w, action), t) || SendsBack(s, Work(w, action), t)
  {
    match action
    case Requeue(refused) => RequeueMarks(s, w, refused);
    case Judge => JudgeMarks(s, w);
    case Select(_) => OtherCallsKeepMarks(c, s, w, action);
    case Advance(_, _) => OtherCallsKeepMarks(c, s, w, action);
    case Push(_) => OtherCallsKeepMarks(c, s, w, action);
    case JobBegin => OtherCallsKeepMarks(c, s, w, action);
    case JobReturn(_, _) => OtherCallsKeepMarks(c, s, w, action);
    case JobRetry(_) => OtherCallsKeepMarks(c, s, w, action);
    case CheckMark =>
    case Withdraw =>
    case _ => OtherWorkKeepsMarks(c, s, w, action);
  }

  /** A mark disappears exactly when a worker of the task looks for it, or the task is sent back to the queue. */
  lemma MarkConsumedExactly(c: Config, s: State, step: Step, t: TaskId)
    requires Next(c, s, step).Some? && t in s.marks
    ensures t !in Next(c, s, step).value.marks <==> Consumes(s, step, t) || SendsBack(s, step, t)
  {
    if step.Work? {
      WorkConsumes(c, s, step.w, step.action, t);
    } else if !SendsBack(s, step, t) {
      OtherStepsKeepMarks(c, s, step, t);
    }
  }

  lemma RequeuedIsNotCanceled(c: Config, s: State, w: WorkerId)
    requires Inv(c, s) && w in s.workers && DoRequeue(s, w, false).Some?
    ensures !BeingCanceled(DoRequeue(s, w, false).value, s.workers[w].task)
  {
    var s', t := DoRequeue(s, w, false).value, s.workers[w].task;
    LocalPart(c, s, w);
    forall v | v in s'.workers && s'.workers[v].task == t
      ensures !s'.workers[v].phase.Canceling?
    {
      if v != w {
        LocalPart(c, s, v);
      }
    }
  }

  lemma UnheldIsNotCanceled(c: Config, s: State, t: TaskId)
    requires Inv(c, s) && (t in s.tasks ==> s.tasks[t].place.Nowhere?)
    ensures !BeingCanceled(s, t)
  {
    forall v | v in s.workers && s.workers[v].task == t
      ensures !s.workers[v].phase.Canceling?
    {
      LocalPart(c, s, v);
    }
  }

  lemma SentBackIsNotCanceled(c: Config, s: State, step: Step, t: TaskId)
    requires Inv(c, s) && Next(c, s, step).Some? && SendsBack(s, step, t)
    ensures t !in Next(c, s, step).value.marks && !BeingCanceled(Next(c, s, step).value, t)
  {
    if step.Work? {
      RequeueMarks(s, step.w, false);
      RequeuedIsNotCanceled(c, s, step.w);
    } else {
      assert step.Resume? ==> TaskOk(c, s.tasks[t], s.now);
      UnheldIsNotCanceled(c, s, t);
      assert Next(c, s, step).value.workers == s.workers;
    }
  }

  /** A mark disappears without anyone being about to cancel the task exactly when the task is sent back to
      the queue: by its worker, by a client that resumes it, or by start-up. */
  lemma MarkLostExactly(c: Config, s: State, step: Step, t: TaskId)
    requires c.workerCount >= 1 && Reachable(c, s) && Next(c, s, step).Some? && t in s.marks
    ensures var s' := Next(c, s, step).value;
            (t !in s'.marks && !BeingCanceled(s', t)) <==> SendsBack(s, step, t)
  {
    ReachableIsGood(c, s);
    if SendsBack(s, step, t) {
      SentBackIsNotCanceled(c, s, step, t);
    } else if step.Work? {
      if t !in Next(c, s, step).value.marks {
        WorkMarks(c, s, step.w, step.action, t);
      }
    } else {
      OtherStepsKeepMarks(c, s, step, t);
    }
  }

  // Waiting tasks that are cancelled.

  /** A task that is nowhere and was not left for the client is out of everybody's reach. */
  lemma NobodyTakesIt(c: Config, s: State, step: Step, t: TaskId)
    requires Inv(c, s) && Next(c, s, step).Some? && t in s.tasks && s.tasks[t].place.Nowhere? && !s.tasks[t].parked
    ensures t in Next(c, s, step).value.tasks && Next(c, s, step).value.tasks[t] == s.tasks[t]
  {
    if step.Work? {
      WorkIsLocal(c, s, step.w, step.action);
    } else if step.Pop? {
      if s.waiting != [] {
        assert s.tasks[s.waiting[|s.waiting| - 1]].place.Waiting?;
      }
    } else if step.Enqueue? {
      assert step.t in s.tasks ==> step.t in s.submitting ==> s.tasks[step.t].place.Submitting?;
    } else if step.Spawn? {
      assert Next(c, s, step) == DoSpawn(s, step.w) && s.tasks[s.handoff.value].place.HandedOff?;
    } else if step.CheckBusy? || step.Signal? {
      ScheduleLeavesTasks(c, s, step.agent);
    }
  }

  lemma {:induction false} NobodyEverTakesIt(c: Config, s: State, steps: seq<Step>, t: TaskId)
    requires c.workerCount >= 1 && Good(c, s) && Run(c, s, steps).Some?
    requires t in s.tasks && s.tasks[t].place.Nowhere? && !s.tasks[t].parked
    ensures t in Run(c, s, steps).value.tasks && Run(c, s, steps).value.tasks[t] == s.tasks[t]
  {
    if steps != [] {
      var front := steps[..|steps| - 1];
      NobodyEverTakesIt(c, s, front, t);
      RunKeeps(c, s, front);
      NobodyTakesIt(c, Run(c, s, front).value, steps[|steps| - 1], t);
    }
  }

  lemma ForgottenNow(c: Config, s: State, targets: set<TaskId>, t: TaskId)
    requires Inv(c, s) && t in s.waiting && t in targets
    ensures var s0 := DoCancelWaiting(s, targets).value;
            && t in s.tasks && t in s0.tasks && s0.tasks[t] == s.tasks[t].(place := Nowhere)
            && !s0.tasks[t].parked && Ready(s0.tasks[t])
  {
    assert TaskOk(c, s.tasks[t], s.now);
  }

  /** A waiting task that is cancelled is forgotten rather than cancelled: however the run goes on, no worker gets
      it and Do never starts for it again, it keeps the status it had, queued or suspended, and a suspended one
      stays on the gauge. */
  lemma CanceledWaitingIsForgotten(c: Config, s: State, targets: set<TaskId>, t: TaskId, steps: seq<Step>)
    requires c.workerCount >= 1 && Reachable(c, s) && Next(c, s, CancelWaiting(targets)).Some?
    requires t in s.waiting && t in targets && Run(c, Next(c, s, CancelWaiting(targets)).value, steps).Some?
    ensures var s' := Run(c, Next(c, s, CancelWaiting(targets)).value, steps).value;
            && t in s.tasks && t in s'.tasks && s'.tasks[t] == s.tasks[t].(place := Nowhere)
            && (s'.tasks[t].record.status.Queued? || s'.tasks[t].record.status.Suspending?)
            && (s'.tasks[t].record.status.Suspending? <==> t in Gauged(s'.tasks))
            && t !in s'.waiting && t !in s'.submitting && s'.handoff != Some(t)
            && forall w | w in s'.workers && !Ended(s'.workers[w].phase) :: s'.workers[w].task != t
  {
    var s0 := Next(c, s, CancelWaiting(targets)).value;
    ReachableIsGood(c, s);
    StepKeeps(c, s, CancelWaiting(targets));
    ForgottenNow(c, s, targets, t);
    NobodyEverTakesIt(c, s0, steps, t);
    RunKeeps(c, s0, steps);
    NowhereMeansNowhere(c, Run(c, s0, steps).value, t);
  }

  lemma NowhereMeansNowhere(c: Config, s: State, t: TaskId)
    requires Inv(c, s) && t in s.tasks && s.tasks[t].place.Nowhere?
    ensures t !in s.waiting && t !in s.submitting && s.handoff != Some(t)
    ensures forall w | w in s.workers && !Ended(s.workers[w].phase) :: s.workers[w].task != t
  {
    forall w | w in s.workers && !Ended(s.workers[w].phase)
      ensures s.workers[w].task != t
    {
      LocalPart(c, s, w);
    }
  }

  // Running tasks without their cancel function.

  /** The worker is past its start check, not done with its task, and its cancel function is the one on record. */
  predicate OnRecord(s: State, v: WorkerId) {
    && v in s.workers && !Ended(s.workers[v].phase)
    && s.workers[v].task in s.running && s.running[s.workers[v].task] == v
  }

  lemma WorkKeepsRecord(c: Config, s: State, w: WorkerId, action: Action)
    requires DoWork(c, s, w, action).Some? && !action.CheckMark? && !action.Unregister?
    ensures DoWork(c, s, w, action).value.running == s.running
  {
    if action.Advance? {
      assert DoWork(c, s, w, action) == DoAdvance(s, w, action.saved, action.manual);
    } else if action.Select? {
      assert DoWork(c, s, w, action) == DoSelect(s, w, action.choice);
    }
  }

  lemma OtherStepsKeepRecord(c: Config, s: State, step: Step)
    requires Next(c, s, step).Some? && !step.Work?
    ensures Next(c, s, step).value.running == s.running
  {
  }

  /** Nobody else registers for the task meanwhile. */
  lemma NoOtherRegisters(c: Config, s: State, v: WorkerId, w: WorkerId)
    requires Inv(c, s) && OnRecord(s, v) && DoWork(c, s, w, CheckMark).Some?
    ensures var t := s.workers[v].task;
            var s' := DoWork(c, s, w, CheckMark).value;
            t in s'.running && s'.running[t] == v
  {
    LocalPart(c, s, v);
    LocalPart(c, s, w);
  }

  /** A step takes the cancel function of a task that is still being worked on off the record exactly when it is
      the epilogue of an earlier activation of the same task; the task can then be marked, but its context can no
      longer be cancelled. */
  lemma RecordLostExactly(c: Config, s: State, step: Step, v: WorkerId)
    requires c.workerCount >= 1 && Reachable(c, s) && Next(c, s, step).Some? && OnRecord(s, v)
    ensures var t, s' := s.workers[v].task, Next(c, s, step).value;
            && (t !in s'.running || s'.running[t] != v) ==
               (step.Work? && step.action.Unregister? && s.workers[step.w].task == t)
            && (t !in s'.running && DoMark(s', t).Some? ==> DoMark(s', t).value.signalled == s'.signalled)
  {
    ReachableIsGood(c, s);
    if step.Work? {
      if step.action.CheckMark? {
        NoOtherRegisters(c, s, v, step.w);
      } else if !step.action.Unregister? {
        WorkKeepsRecord(c, s, step.w, step.action);
      }
    } else {
      OtherStepsKeepRecord(c, s, step);
    }
  }

  // Cancellations that arrive.

  lemma SignalsLast(c: Config, s: State, step: Step, v: WorkerId)
    requires Next(c, s, step).Some? && v in s.signalled
    ensures v in Next(c, s, step).value.signalled
  {
    if step.Work? {
      WorkKeepsSignals(c, s, step.w, step.action);
    }
  }

  lemma WorkKeepsSignals(c: Config, s: State, w: WorkerId, action: Action)
    requires DoWork(c, s, w, action).Some?
    ensures DoWork(c, s, w, action).value.signalled == s.signalled
  {
    if action.Advance? {
      assert DoWork(c, s, w, action) == DoAdvance(s, w, action.saved, action.manual);
    } else if action.Select? {
      assert DoWork(c, s, w, action) == DoSelect(s, w, action.choice);
    }
  }

  lemma {:induction false} SignalsLastAlong(c: Config, s: State, steps: seq<Step>, v: WorkerId)
    requires Run(c, s, steps).Some? && v in s.signalled
    ensures v in Run(c, s, steps).value.signalled
  {
    if steps != [] {
      SignalsLastAlong(c, s, steps[..|steps| - 1], v);
      SignalsLast(c, Run(c, s, steps[..|steps| - 1]).value, steps[|steps| - 1], v);
    }
  }

  /** Marking a task whose worker's cancel function is on record reaches that worker: the task is marked, and however
      the run goes on, whenever the worker is in an iteration it may find its context done. */
  lemma MarkReachesWorker(c: Config, s: State, s1: State, t: TaskId, v: WorkerId, steps: seq<Step>, s2: State)
    requires c.workerCount >= 1 && Reachable(c, s) && OnRecord(s, v) && s.workers[v].task == t
    requires Next(c, s, Mark(t)) == Some(s1) && Run(c, s1, steps) == Some(s2)
    ensures t in s1.marks && v in s1.signalled && v in s2.signalled && v in s2.workers
    ensures s2.workers[v].phase.Running? && !s2.crashed ==> Next(c, s2, Work(v, Select(ContextDone))).Some?
  {
    MarkSignals(c, s, s1, t, v);
    SignalsLastAlong(c, s1, steps, v);
    WorkersStay(c, s1, steps, v);
    RunKeeps(c, s1, steps);
    SignalledMayStop(c, s2, v);
  }

  lemma MarkSignals(c: Config, s: State, s1: State, t: TaskId, v: WorkerId)
    requires c.workerCount >= 1 && Reachable(c, s) && OnRecord(s, v) && s.workers[v].task == t
    requires Next(c, s, Mark(t)) == Some(s1)
    ensures Good(c, s1) && t in s1.marks && v in s1.signalled && v in s1.workers
  {
    ReachableIsGood(c, s);
    StepKeeps(c, s, Mark(t));
  }

  lemma SignalledMayStop(c: Config, s: State, v: WorkerId)
    requires Inv(c, s) && v in s.workers && v in s.signalled
    ensures s.workers[v].phase.Running? && !s.crashed ==> Next(c, s, Work(v, Select(ContextDone))).Some?
  {
    LocalPart(c, s, v);
    assert DoSelect(s, v, ContextDone).Some? <==> s.workers[v].phase.Running?;
  }

  lemma {:induction false} WorkersStay(c: Config, s: State, steps: seq<Step>, v: WorkerId)
    requires c.workerCount >= 1 && Good(c, s) && Run(c, s, steps).Some? && v in s.workers
    ensures v in Run(c, s, steps).value.workers
  {
    if steps != [] {
      var front := steps[..|steps| - 1];
      WorkersStay(c, s, front, v);
      RunKeeps(c, s, front);
      StepRemembers(c, Run(c, s, front).value, steps[|steps| - 1], v);
    }
  }
}
