/** The scheduler class against the interleaved model: where the waiting ids agree before, what a call does to
    the stack and what the corresponding step does to the state agree after. */
module QueueRefinement {
  import opened Options
  import opened Tasks
  import opened FifoSchedulers
  import opened TaskQueues
  import opened QueueProtocol

  predicate Represents(stack: Stack, s: State) {
    IdsOf(stack.waiting) == s.waiting
  }

  /** The queue's scheduler has no capacity limit, so only a shutdown refuses. */
  lemma QueueSteps(s: State, stack: Stack, task: Task)
    requires Represents(stack, s) && !stack.stopped && task.id in s.submitting && task.id in s.tasks
    ensures QueueResult(0, stack, task).Accepted? && DoEnqueue(s, task.id, false).Some?
    ensures Represents(AfterQueue(0, stack, task), DoEnqueue(s, task.id, false).value)
  {
    StackByIds(0, stack, task, {}, true);
  }

  lemma PushSteps(s: State, stack: Stack, task: Task, w: WorkerId)
    requires Represents(stack, s) && !stack.stopped && w in s.workers && s.workers[w].task == task.id
    requires task.id in s.tasks
    requires s.workers[w].phase.Pushing?
    ensures QueueResult(0, stack, task).Accepted? && DoPush(s, w, false).Some?
    ensures Represents(AfterQueue(0, stack, task), DoPush(s, w, false).value)
  {
    StackByIds(0, stack, task, {}, true);
  }

  lemma CancelSteps(s: State, stack: Stack, targets: set<int>)
    requires Represents(stack, s)
    ensures Represents(AfterCancel(stack, targets), DoCancelWaiting(s, targets).value)
  {
    WithoutIdsOf(stack.waiting, targets);
  }

  /** The locked half of a request: nil slot, top not due, or the top task handed over. */
  lemma PopSteps(s: State, stack: Stack)
    requires Represents(stack, s) && s.requester.Committed? && !stack.stopped
    requires forall t | t in s.waiting :: t in s.tasks
    ensures DoPop(s).Some? && DoPop(s).value.crashed == (stack.waiting == [] || s.crashed)
    ensures stack.waiting != [] ==>
              var top := stack.waiting[|stack.waiting| - 1];
              var due := s.tasks[top.id].record.resumeAt <= Second(s.now);
              && top.id in s.tasks
              && Represents(AfterRequest(stack, due), DoPop(s).value)
              && (RequestResult(stack, due) == Picked(top) <==> due)
              && (due ==> DoPop(s).value.handoff == Some(top.id))
              && (!due ==> RequestResult(stack, due) == NothingDue && DoPop(s).value == s.(requester := Polling))
  {
    if stack.waiting != [] {
      assert s.waiting[|s.waiting| - 1] == stack.waiting[|stack.waiting| - 1].id;
      assert s.waiting[|s.waiting| - 1] in s.waiting;
    }
  }

  // The queue object's critical sections.

  /** A client's submission up to the scheduler: it counts, the task gets the status, and it goes on to the scheduler
      exactly when QueueTask has no error to report by then. */
  lemma SubmitSteps(s: State, t: TaskId, record: Record, saved: bool)
    requires t !in s.tasks && (record.status.Fresh? || record.status.Queued? || record.status.Processing?)
    ensures DoSubmit(s, t, record, saved).Some?
    ensures var s' := DoSubmit(s, t, record, saved).value;
            && s'.counters == s.counters.(submitted := s.counters.submitted + 1)
            && t in s'.tasks && s'.tasks == s.tasks[t := s'.tasks[t]]
            && s'.tasks[t].record == record.(status := if Admitted(record.status, saved) then Queued else record.status)
            && s'.submitting == (if TransitError(record.status, Queued, saved).NoError?
                                 then s.submitting + {t} else s.submitting)
            && s'.waiting == s.waiting && s'.marks == s.marks
  {
    QueueingIsPlain(s.counters.(submitted := s.counters.submitted + 1), record.status, saved);
    TransitErrorMeaning(record.status, Queued, saved);
  }

  /** The start check, with `marks` and `running` for the queue's two maps. */
  lemma CheckMarkSteps(c: Config, s: State, w: WorkerId)
    requires w in s.workers && s.workers[w].task in s.tasks && s.workers[w].phase.Starting? && s.lock.None?
    ensures DoWork(c, s, w, CheckMark).Some?
    ensures var s', t := DoWork(c, s, w, CheckMark).value, s.workers[w].task;
            && s'.marks == s.marks - {t}
            && s'.running == (if t in s.marks then s.running else s.running[t := w])
            && w in s'.workers && (s'.workers[w].phase.Canceling? <==> t in s.marks)
  {
  }

  function Marks(taskIDs: seq<int>): seq<Step> {
    seq(|taskIDs|, i requires 0 <= i < |taskIDs| => Mark(taskIDs[i]))
  }

  /** Cancelling: the scheduler first, then one mark and, if there is one, one context after the other. */
  lemma {:induction false} CancelTasksSteps(c: Config, s: State, taskIDs: seq<int>)
    requires !s.crashed && s.lock.None?
    ensures Run(c, s, Marks(taskIDs)).Some?
    ensures var s' := Run(c, s, Marks(taskIDs)).value;
            && s'.marks == s.marks + (set id | id in taskIDs)
            && s'.signalled == s.signalled + (set w | w in RunningAmong(taskIDs, s.running))
            && s' == s.(marks := s'.marks, signalled := s'.signalled)
  {
    if taskIDs != [] {
      var front, last := taskIDs[..|taskIDs| - 1], taskIDs[|taskIDs| - 1];
      CancelTasksSteps(c, s, front);
      assert Marks(taskIDs)[..|taskIDs| - 1] == Marks(front);
      assert taskIDs == front + [last];
      var before := Run(c, s, Marks(front)).value;
      assert Run(c, s, Marks(taskIDs)) == Next(c, before, Mark(last));
      assert (set id | id in taskIDs) == (set id | id in front) + {last};
    } else {
      assert RunningAmong(taskIDs, s.running) == [];
    }
  }

  /** A worker's schedule(), nobody in between: a token exactly when a slot is free. */
  lemma ScheduleSteps(c: Config, s: State, w: WorkerId)
    requires !s.crashed && s.lock.None? && w in s.workers && s.workers[w].phase.Scheduling?
    ensures DoCheckBusy(c, s, TheWorker(w)).Some?
    ensures var s1 := DoCheckBusy(c, s, TheWorker(w)).value;
            && s1.token == s.token
            && (s1.lock.Some? <==> s.counters.busy < c.workerCount)
            && (s1.lock.Some? ==> DoSignal(s1, TheWorker(w)).Some? && DoSignal(s1, TheWorker(w)).value.token)
  {
  }
}
