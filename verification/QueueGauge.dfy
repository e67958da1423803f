/** The suspending gauge around a failed start (module/queue/task.go, queue.go): the move to Processing lowers it
    even when it is not saved, and the move to Error that follows enters the table from Suspending without lowering
    it again. */
module QueueGauge {
  import opened Tasks
  import opened QueueProtocol
  import opened QueueInvariant
  import opened QueueAccounting
  import opened QueueTheorems

  /** The step attempts the move to Error for the task of its worker. */
  predicate AttemptsError(s: State, w: WorkerId, action: Action)
    requires w in s.workers
  {
    action.Fail? || action.Blame? || (action.Advance? && s.workers[w].phase == Advancing(Error))
  }

  /** The table's entry from Suspending to Error is reached from one place only: the epilogue of an activation
      that panicked before its first iteration, that is, one whose move to Processing failed; the task's gauge unit
      is off by then. */
  lemma ErrorFromSuspending(c: Config, s: State, w: WorkerId, action: Action)
    requires c.workerCount >= 1 && Reachable(c, s) && DoWork(c, s, w, action).Some?
    requires AttemptsError(s, w, action) && s.tasks[s.workers[w].task].record.status.Suspending?
    ensures action.Blame? && s.workers[w].phase.Blaming? && !s.workers[w].launched && s.workers[w].job.NoJob?
    ensures s.workers[w].task !in Gauged(s.tasks)
  {
    ReachableIsLocal(c, s, w);
  }

  // The unit is given back once.

  /** The step takes the task's unit off the gauge. */
  predicate Lowers(c: Config, s: State, step: Step, t: TaskId) {
    Next(c, s, step).Some? && t in Gauged(s.tasks) && t !in Gauged(Next(c, s, step).value.tasks)
  }

  /** How many steps of the run from s lower the gauge for t. */
  function Lowerings(c: Config, s: State, steps: seq<Step>, t: TaskId): nat
    requires Run(c, s, steps).Some?
    decreases |steps|
  {
    if steps == [] then 0
    else
      var front := steps[..|steps| - 1];
      Lowerings(c, s, front, t) + if Lowers(c, Run(c, s, front).value, steps[|steps| - 1], t) then 1 else 0
  }

  /** The activation panicked and its epilogue has not come to blame the task. */
  predicate Unblamed(k: Worker) {
    k.phase == Leaving(true) || k.phase.Blaming?
  }

  lemma EndedStaysEnded(c: Config, s: State, step: Step, w: WorkerId)
    requires Inv(c, s) && Next(c, s, step).Some? && w in s.workers && Ended(s.workers[w].phase)
    ensures w in Next(c, s, step).value.workers && Ended(Next(c, s, step).value.workers[w].phase)
  {
    if step.Work? {
      WorkIsLocal(c, s, step.w, step.action);
      if step.w == w {
        EndedWork(c, s, w, step.action);
      }
    } else if step.CheckBusy? || step.Signal? {
      EndedSchedule(c, s, step.agent, w);
    } else if step.Spawn? {
      assert Next(c, s, step) == DoSpawn(s, step.w);
    } else {
      OtherStepsLeaveWorkers(c, s, step);
    }
  }

  lemma EndedWork(c: Config, s: State, w: WorkerId, action: Action)
    requires DoWork(c, s, w, action).Some? && Ended(s.workers[w].phase)
    ensures w in DoWork(c, s, w, action).value.workers && Ended(DoWork(c, s, w, action).value.workers[w].phase)
  {
  }

  lemma EndedSchedule(c: Config, s: State, agent: Agent, w: WorkerId)
    requires w in s.workers && Ended(s.workers[w].phase)
    ensures DoCheckBusy(c, s, agent).Some? ==>
              w in DoCheckBusy(c, s, agent).value.workers && Ended(DoCheckBusy(c, s, agent).value.workers[w].phase)
    ensures DoSignal(s, agent).Some? ==>
              w in DoSignal(s, agent).value.workers && Ended(DoSignal(s, agent).value.workers[w].phase)
  {
  }

  /** Whoever else moves leaves the task of a worker that holds it alone. */
  lemma HeldIsLeftAlone(c: Config, s: State, step: Step, t: TaskId, w: WorkerId)
    requires Inv(c, s) && Next(c, s, step).Some? && t in s.tasks && s.tasks[t].place == HeldBy(w)
    requires step.Work? ==> step.w != w
    ensures t in Next(c, s, step).value.tasks && Next(c, s, step).value.tasks[t] == s.tasks[t]
  {
    if step.Work? {
      WorkIsLocal(c, s, step.w, step.action);
    } else if step.CancelWaiting? {
      assert Next(c, s, step) == DoCancelWaiting(s, step.targets);
    } else if step.Pop? {
      PopLeavesHeld(c, s, t);
    } else if step.Resume? || step.Enqueue? {
      QueueingLeavesHeld(c, s, step.t, step.Enqueue? && step.refused, t);
    } else if step.Spawn? {
      assert Next(c, s, step) == DoSpawn(s, step.w) && s.tasks[s.handoff.value].place.HandedOff?;
    } else if step.CheckBusy? || step.Signal? {
      ScheduleLeavesTasks(c, s, step.agent);
    } else {
      assert step.Submit? || step.LoadSuspended? || Next(c, s, step).value.tasks == s.tasks;
    }
  }

  lemma PopLeavesHeld(c: Config, s: State, t: TaskId)
    requires Inv(c, s) && DoPop(s).Some? && t in s.tasks && s.tasks[t].place.HeldBy?
    ensures t in DoPop(s).value.tasks && DoPop(s).value.tasks[t] == s.tasks[t]
  {
    if s.waiting != [] {
      assert s.tasks[s.waiting[|s.waiting| - 1]].place.Waiting?;
    }
  }

  lemma QueueingLeavesHeld(c: Config, s: State, u: TaskId, refused: bool, t: TaskId)
    requires Inv(c, s) && t in s.tasks && s.tasks[t].place.HeldBy?
    ensures DoResume(s, u).Some? ==> t in DoResume(s, u).value.tasks && DoResume(s, u).value.tasks[t] == s.tasks[t]
    ensures DoEnqueue(s, u, refused).Some? ==>
              t in DoEnqueue(s, u, refused).value.tasks && DoEnqueue(s, u, refused).value.tasks[t] == s.tasks[t]
  {
    if u in s.tasks {
      assert TaskOk(c, s.tasks[u], s.now);
    }
  }

  lemma ScheduleLeavesTasks(c: Config, s: State, agent: Agent)
    ensures DoCheckBusy(c, s, agent).Some? ==> DoCheckBusy(c, s, agent).value.tasks == s.tasks
    ensures DoSignal(s, agent).Some? ==> DoSignal(s, agent).value.tasks == s.tasks
  {
  }

  /** Worker w panicked before its first iteration and is not done with its task, which is as it was. */
  predicate PanickedWith(s: State, w: WorkerId, t: TaskId, ts: TaskState) {
    && w in s.workers && s.workers[w].task == t && Unblamed(s.workers[w])
    && t in s.tasks && s.tasks[t] == ts && !ts.gauged && ts.place == HeldBy(w)
  }

  lemma UnblamedWork(c: Config, s: State, w: WorkerId, action: Action)
    requires Local(c, s, w) && Unblamed(s.workers[w]) && DoWork(c, s, w, action).Some?
    ensures action.Leave? || action.Blame?
    ensures action.Leave? ==>
              var s' := DoWork(c, s, w, action).value;
              && s'.tasks == s.tasks && w in s'.workers
              && Unblamed(s'.workers[w]) && s'.workers[w].task == s.workers[w].task
    ensures action.Blame? ==>
              w in DoWork(c, s, w, action).value.workers && Ended(DoWork(c, s, w, action).value.workers[w].phase)
  {
  }

  lemma UnblamedStep(c: Config, s: State, step: Step, w: WorkerId, t: TaskId, ts: TaskState)
    requires Inv(c, s) && Next(c, s, step).Some? && PanickedWith(s, w, t, ts)
    ensures var s' := Next(c, s, step).value;
            PanickedWith(s', w, t, ts) || (w in s'.workers && Ended(s'.workers[w].phase))
    ensures !Lowers(c, s, step, t)
  {
    LocalPart(c, s, w);
    if step.Work? && step.w == w {
      UnblamedWork(c, s, w, step.action);
    } else {
      HeldIsLeftAlone(c, s, step, t, w);
      OthersLeaveWorker(c, s, step, w);
    }
  }

  lemma OthersLeaveWorker(c: Config, s: State, step: Step, w: WorkerId)
    requires Inv(c, s) && Next(c, s, step).Some? && w in s.workers && Unblamed(s.workers[w])
    requires step.Work? ==> step.w != w
    ensures w in Next(c, s, step).value.workers && Next(c, s, step).value.workers[w] == s.workers[w]
  {
    if step.Work? {
      WorkIsLocal(c, s, step.w, step.action);
    } else if step.CheckBusy? || step.Signal? {
      ScheduleSparesUnblamed(c, s, step.agent, w);
    } else if step.Spawn? {
      assert Next(c, s, step) == DoSpawn(s, step.w);
    } else {
      OtherStepsLeaveWorkers(c, s, step);
    }
  }

  lemma ScheduleSparesUnblamed(c: Config, s: State, agent: Agent, w: WorkerId)
    requires w in s.workers && Unblamed(s.workers[w])
    ensures DoCheckBusy(c, s, agent).Some? ==>
              w in DoCheckBusy(c, s, agent).value.workers && DoCheckBusy(c, s, agent).value.workers[w] == s.workers[w]
    ensures DoSignal(s, agent).Some? ==>
              w in DoSignal(s, agent).value.workers && DoSignal(s, agent).value.workers[w] == s.workers[w]
  {
  }

  lemma {:induction false} UnblamedRun(c: Config, s: State, steps: seq<Step>, w: WorkerId, t: TaskId, ts: TaskState)
    requires c.workerCount >= 1 && Good(c, s) && Run(c, s, steps).Some? && PanickedWith(s, w, t, ts)
    ensures var s' := Run(c, s, steps).value;
            || (PanickedWith(s', w, t, ts) && Lowerings(c, s, steps, t) == 0)
            || (w in s'.workers && Ended(s'.workers[w].phase))
  {
    if steps != [] {
      var front, step := steps[..|steps| - 1], steps[|steps| - 1];
      var before := Run(c, s, front).value;
      UnblamedRun(c, s, front, w, t, ts);
      RunKeeps(c, s, front);
      if PanickedWith(before, w, t, ts) {
        UnblamedStep(c, before, step, w, t, ts);
      } else {
        EndedStaysEnded(c, before, step, w);
      }
    }
  }

  lemma FailedStart(c: Config, s: State, w: WorkerId)
    requires c.workerCount >= 1 && Reachable(c, s) && Next(c, s, Work(w, Enter(false))).Some?
    requires s.tasks[s.workers[w].task].record.status.Suspending?
    ensures var t, s0 := s.workers[w].task, Next(c, s, Work(w, Enter(false))).value;
            && Good(c, s0) && Lowers(c, s, Work(w, Enter(false)), t)
            && t in s0.tasks && s0.tasks[t].record.status.Suspending? && PanickedWith(s0, w, t, s0.tasks[t])
  {
    StartLowersGauge(c, s, w, false);
    ReachableIsGood(c, s);
    StepKeeps(c, s, Work(w, Enter(false)));
    LocalPart(c, s, w);
  }

  lemma BlameNeedsPhase(c: Config, s: State, w: WorkerId, saved: bool)
    requires Next(c, s, Work(w, Blame(saved))).Some?
    ensures w in s.workers && s.workers[w].phase.Blaming?
  {
    assert DoWork(c, s, w, Blame(saved)).Some?;
  }

  lemma BlameAfterPanic(c: Config, s: State, steps: seq<Step>, w: WorkerId, t: TaskId, ts: TaskState, saved: bool)
    requires c.workerCount >= 1 && Good(c, s) && PanickedWith(s, w, t, ts)
    requires Run(c, s, steps).Some? && Next(c, Run(c, s, steps).value, Work(w, Blame(saved))).Some?
    ensures var s1 := Run(c, s, steps).value;
            && t in s1.tasks && s1.tasks[t] == ts
            && Lowerings(c, s, steps, t) == 0 && !Lowers(c, s1, Work(w, Blame(saved)), t)
  {
    BlameNeedsPhase(c, Run(c, s, steps).value, w, saved);
    UnblamedRun(c, s, steps, w, t, ts);
  }

  /** A suspended task whose start could not be saved, up to the moment its worker is about to blame it: it has
      stayed suspended, and its unit was given back once, at the failed start, by no step in between, and not
      again by the blame. */
  lemma FailedStartLowersOnce(c: Config, s: State, w: WorkerId, steps: seq<Step>, saved: bool)
    requires c.workerCount >= 1 && Reachable(c, s) && Next(c, s, Work(w, Enter(false))).Some?
    requires s.tasks[s.workers[w].task].record.status.Suspending?
    requires var s0 := Next(c, s, Work(w, Enter(false))).value;
             Run(c, s0, steps).Some? && Next(c, Run(c, s0, steps).value, Work(w, Blame(saved))).Some?
    ensures var t, s0 := s.workers[w].task, Next(c, s, Work(w, Enter(false))).value;
            var s1 := Run(c, s0, steps).value;
            && Lowers(c, s, Work(w, Enter(false)), t)
            && Lowerings(c, s0, steps, t) == 0
            && !Lowers(c, s1, Work(w, Blame(saved)), t)
            && t in s1.tasks && s1.tasks[t].record.status.Suspending?
  {
    var t, s0 := s.workers[w].task, Next(c, s, Work(w, Enter(false))).value;
    FailedStart(c, s, w);
    BlameAfterPanic(c, s0, steps, w, t, s0.tasks[t], saved);
  }
}
