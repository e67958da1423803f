/** Runs of one task that always fails: round after round through the scheduler, up to its end in error
    (module/queue/queue.go, `start`, `work`, `run`). */
module QueueAttainment {
  import opened Options
  import opened Tasks
  import opened FifoSchedulers
  import opened QueueProtocol
  import opened QueueFailing
  import opened QueueProgress

  const CAUSE := Err(false, false, "")
  const FAILURE := Returns(Error, Some(CAUSE))

  /** The states along an undisturbed run, one more than its steps. */
  ghost predicate Trail(c: Config, steps: seq<Step>, states: seq<State>, t: TaskId) {
    && |states| == |steps| + 1 && states[0] == Initial
    && forall i {:trigger steps[i]} | 0 <= i < |steps| ::
         Next(c, states[i], steps[i]) == Some(states[i + 1]) && Undisturbed(states[i], steps[i], t)
  }

  ghost predicate Got(c: Config, s: State, t: TaskId) {
    exists steps, states :: Trail(c, steps, states, t) && states[|steps|] == s
  }

  lemma {:induction false} TrailIsRun(c: Config, steps: seq<Step>, states: seq<State>, t: TaskId)
    requires Trail(c, steps, states, t)
    ensures Run(c, Initial, steps) == Some(states[|steps|]) && UndisturbedFrom(c, Initial, steps, t)
  {
    if steps != [] {
      var n := |steps| - 1;
      assert steps[n] == steps[|steps| - 1];
      assert Trail(c, steps[..n], states[..n + 1], t) by {
        forall i {:trigger steps[..n][i]} | 0 <= i < n
          ensures Next(c, states[..n + 1][i], steps[..n][i]) == Some(states[..n + 1][i + 1])
          ensures Undisturbed(states[..n + 1][i], steps[..n][i], t)
        {
          assert steps[..n][i] == steps[i];
        }
      }
      TrailIsRun(c, steps[..n], states[..n + 1], t);
    }
  }

  lemma GotIsReached(c: Config, s: State, t: TaskId)
    requires Got(c, s, t)
    ensures ReachedUndisturbed(c, s, t) && Reachable(c, s)
  {
    var steps, states :| Trail(c, steps, states, t) && states[|steps|] == s;
    TrailIsRun(c, steps, states, t);
  }

  lemma GotStart(c: Config, t: TaskId)
    ensures Got(c, Initial, t)
  {
    var steps: seq<Step> := [];
    assert Trail(c, steps, [Initial], t) && [Initial][|steps|] == Initial;
  }

  lemma Go(c: Config, s: State, t: TaskId, step: Step) returns (s': State)
    requires Got(c, s, t) && Next(c, s, step).Some? && Undisturbed(s, step, t)
    ensures Got(c, s', t) && Next(c, s, step) == Some(s')
  {
    s' := Next(c, s, step).value;
    Extended(c, s, t, step, s');
  }

  lemma Extended(c: Config, s: State, t: TaskId, step: Step, s': State)
    requires Got(c, s, t) && Next(c, s, step) == Some(s') && Undisturbed(s, step, t)
    ensures Got(c, s', t)
  {
    var steps, states :| Trail(c, steps, states, t) && states[|steps|] == s;
    var longer, more := steps + [step], states + [s'];
    forall i {:trigger longer[i]} | 0 <= i < |longer|
      ensures Next(c, more[i], longer[i]) == Some(more[i + 1]) && Undisturbed(more[i], longer[i], t)
    {
      if i < |steps| {
        assert longer[i] == steps[i];
      }
    }
    assert Trail(c, longer, more, t) && more[|longer|] == s';
  }

  /** One task, one busy worker, and a dispatcher about to look. */
  predicate Stage(s: State, t: TaskId, w: WorkerId) {
    && !s.crashed && s.shutdown == 0 && s.lock.None? && s.handoff.None? && s.waiting == [] && s.marks == {}
    && s.dispatcher.AtSchedule? && !s.token && s.requester.Off? && s.counters.busy == 1
    && t in s.tasks && w in s.workers && s.workers[w].task == t && forall v | v in s.workers :: v <= w
  }

  /** What counts of the task. */
  predicate Count(ts: TaskState, retries: int, dos: nat) {
    ts.record.retries == retries && ts.dos == dos && ts.origin.retries == 0
  }

  /** The worker has just been started, after r failures. */
  predicate Round(s: State, t: TaskId, w: WorkerId, r: nat) {
    && Stage(s, t, w) && s.workers[w] == Worker(t, Starting, NoJob, false, false, false)
    && Count(s.tasks[t], r, r) && (s.tasks[t].record.status.Queued? || s.tasks[t].record.status.Suspending?)
  }

  /** The task lies on the stack, due, and no worker is busy. */
  predicate Supplied(s: State, t: TaskId, n: nat) {
    && !s.crashed && s.shutdown == 0 && s.lock.None? && s.handoff.None? && s.waiting == [t] && s.marks == {}
    && s.dispatcher.AtSchedule? && !s.token && s.requester.Off? && s.counters.busy == 0
    && t in s.tasks && s.tasks[t].record.resumeAt <= Second(s.now) && forall v | v in s.workers :: v < n
  }

  // Single steps, with the whole state after them.

  /** The dispatcher grants itself a token and waits for a task. */
  lemma Invite(c: Config, s: State, t: TaskId, n: nat) returns (s': State)
    requires c.workerCount >= 1 && Got(c, s, t) && Supplied(s, t, n)
    ensures Got(c, s', t) && s' == s.(dispatcher := AtTasks, requester := Polling)
  {
    var s1 := Go(c, s, t, CheckBusy(TheDispatcher));
    assert s1 == s.(lock := Some(TheDispatcher));
    var s2 := Go(c, s1, t, Signal(TheDispatcher));
    assert s2 == s.(token := true, dispatcher := AtReady);
    s' := Go(c, s2, t, TakeToken);
  }

  lemma Request(c: Config, s: State, t: TaskId) returns (s': State)
    requires Got(c, s, t) && !s.crashed && s.requester.Polling? && s.waiting == [t]
    requires t in s.tasks && s.tasks[t].record.resumeAt <= Second(s.now)
    ensures Got(c, s', t)
    ensures s' == SetPlace(s, t, HandedOff).(waiting := [], handoff := Some(t), requester := Off)
  {
    var s1 := Go(c, s, t, Glance);
    assert s1 == s.(requester := Committed);
    s' := Go(c, s1, t, Pop);
  }

  lemma StartWorker(c: Config, s: State, t: TaskId, n: nat) returns (s': State)
    requires Got(c, s, t) && !s.crashed && s.dispatcher.AtTasks? && s.handoff == Some(t) && t in s.tasks
    requires n !in s.workers
    ensures Got(c, s', t)
    ensures s' == SetWorker(SetPlace(s, t, HeldBy(n)), n, Worker(t, Starting, NoJob, false, false, false))
                  .(handoff := None, dispatcher := AtSchedule, counters := s.counters.(busy := s.counters.busy + 1))
  {
    s' := Go(c, s, t, Spawn(n));
  }

  lemma Deliver(c: Config, s: State, t: TaskId, n: nat) returns (s': State)
    requires c.workerCount >= 1 && Got(c, s, t) && Supplied(s, t, n)
    ensures Got(c, s', t) && Stage(s', t, n)
    ensures s'.workers == s.workers[n := Worker(t, Starting, NoJob, false, false, false)]
    ensures s'.tasks[t] == s.tasks[t].(place := HeldBy(n)) && s'.running == s.running
  {
    var s1 := Invite(c, s, t, n);
    var s2 := Request(c, s1, t);
    s' := StartWorker(c, s2, t, n);
  }

  lemma Register(c: Config, s: State, t: TaskId, w: WorkerId) returns (s': State)
    requires Got(c, s, t) && Stage(s, t, w) && s.workers[w] == Worker(t, Starting, NoJob, false, false, false)
    ensures Got(c, s', t)
    ensures s' == s.(workers := s.workers[w := Worker(t, Entering, NoJob, false, false, false)],
                     running := s.running[t := w])
  {
    s' := Go(c, s, t, Work(w, CheckMark));
  }

  lemma MoveIn(c: Config, s: State, t: TaskId, w: WorkerId) returns (s': State)
    requires Got(c, s, t) && Stage(s, t, w) && s.workers[w] == Worker(t, Entering, NoJob, false, false, false)
    requires s.tasks[t].record.status.Queued? || s.tasks[t].record.status.Suspending?
    ensures Got(c, s', t)
    ensures s' == Transit(s, t, Processing, true)
                  .(workers := s.workers[w := Worker(t, Launching, NoJob, false, false, false)])
  {
    s' := Go(c, s, t, Work(w, Enter(true)));
  }

  lemma Launched(c: Config, s: State, t: TaskId, w: WorkerId) returns (s': State)
    requires Got(c, s, t) && Stage(s, t, w) && s.workers[w] == Worker(t, Launching, NoJob, false, false, false)
    ensures Got(c, s', t)
    ensures s' == s.(workers := s.workers[w := Worker(t, Running, Spawned, true, false, false)])
  {
    s' := Go(c, s, t, Work(w, Launch));
  }

  lemma Begun(c: Config, s: State, t: TaskId, w: WorkerId) returns (s': State)
    requires Got(c, s, t) && Stage(s, t, w) && s.workers[w] == Worker(t, Running, Spawned, true, false, false)
    ensures Got(c, s', t)
    ensures s' == s.(workers := s.workers[w := Worker(t, Running, Doing, true, false, false)],
                     tasks := s.tasks[t := s.tasks[t].(dos := s.tasks[t].dos + 1, retryDue := None)])
  {
    s' := Go(c, s, t, Work(w, JobBegin));
  }

  lemma FailedOnce(c: Config, s: State, t: TaskId, w: WorkerId) returns (s': State)
    requires Got(c, s, t) && Stage(s, t, w) && s.workers[w] == Worker(t, Running, Doing, true, false, false)
    requires s.tasks[t].record.retries < c.maxRetry
    ensures Got(c, s', t)
    ensures s' == s.(workers := s.workers[w := Worker(t, Running, Deciding(CAUSE), true, false, false)])
  {
    s' := Go(c, s, t, Work(w, JobReturn(FAILURE, None)));
  }

  lemma FailedAgain(c: Config, s: State, t: TaskId, w: WorkerId) returns (s': State)
    requires Got(c, s, t) && Stage(s, t, w) && s.workers[w] == Worker(t, Running, Doing, true, false, false)
    requires s.tasks[t].record.retries >= c.maxRetry
    ensures Got(c, s', t)
    ensures s' == s.(workers := s.workers[w := Worker(t, Running, Finished(Error, Some(CAUSE)), true, false, false)])
  {
    s' := Go(c, s, t, Work(w, JobReturn(FAILURE, None)));
  }

  lemma Decided(c: Config, s: State, t: TaskId, w: WorkerId) returns (s': State)
    requires Got(c, s, t) && Stage(s, t, w) && s.workers[w] == Worker(t, Running, Deciding(CAUSE), true, false, false)
    ensures Got(c, s', t) && t in s'.tasks
    ensures s' == s.(workers := s.workers[w := Worker(t, Running, Finished(Suspending, None), true, false, false)],
                     tasks := s.tasks[t := s'.tasks[t]])
    ensures s'.tasks[t].record.resumeAt == Second(s.now) && s'.tasks[t].record.retries == s.tasks[t].record.retries + 1
    ensures s'.tasks[t].record.status == s.tasks[t].record.status
    ensures s'.tasks[t].dos == s.tasks[t].dos && s'.tasks[t].origin == s.tasks[t].origin
  {
    s' := Go(c, s, t, Work(w, JobRetry(0)));
  }

  lemma Taken(c: Config, s: State, t: TaskId, w: WorkerId) returns (s': State)
    requires Got(c, s, t) && Stage(s, t, w)
    requires s.workers[w] == Worker(t, Running, Finished(Suspending, None), true, false, false)
    ensures Got(c, s', t)
    ensures s' == s.(workers := s.workers[w := Worker(t, Judging(Suspending), NoJob, true, false, false)])
  {
    s' := Go(c, s, t, Work(w, Select(TakeResult)));
  }

  lemma Judged(c: Config, s: State, t: TaskId, w: WorkerId) returns (s': State)
    requires Got(c, s, t) && Stage(s, t, w) && s.workers[w] == Worker(t, Judging(Suspending), NoJob, true, false, false)
    ensures Got(c, s', t)
    ensures s' == s.(workers := s.workers[w := Worker(t, Advancing(Suspending), NoJob, true, false, false)])
  {
    s' := Go(c, s, t, Work(w, Judge));
  }

  lemma Suspended(c: Config, s: State, t: TaskId, w: WorkerId) returns (s': State)
    requires Got(c, s, t) && Stage(s, t, w)
    requires s.workers[w] == Worker(t, Advancing(Suspending), NoJob, true, false, false)
    requires s.tasks[t].record.status.Processing?
    ensures Got(c, s', t)
    ensures s' == Transit(s, t, Suspending, true)
                  .(workers := s.workers[w := Worker(t, Requeueing, NoJob, true, false, false)])
  {
    s' := Go(c, s, t, Work(w, Advance(true, false)));
  }

  lemma Unmarked(c: Config, s: State, t: TaskId, w: WorkerId) returns (s': State)
    requires Got(c, s, t) && Stage(s, t, w) && s.workers[w] == Worker(t, Requeueing, NoJob, true, false, false)
    ensures Got(c, s', t)
    ensures s' == s.(workers := s.workers[w := Worker(t, Pushing, NoJob, true, false, false)])
  {
    s' := Go(c, s, t, Work(w, Requeue(false)));
  }

  lemma Pushed(c: Config, s: State, t: TaskId, w: WorkerId) returns (s': State)
    requires Got(c, s, t) && Stage(s, t, w) && s.workers[w] == Worker(t, Pushing, NoJob, true, false, false)
    ensures Got(c, s', t)
    ensures s' == SetPlace(s, t, Waiting)
                  .(waiting := [t], workers := s.workers[w := Worker(t, Leaving(false), NoJob, true, false, false)])
  {
    assert WithoutIds([], {t}) == [];
    s' := Go(c, s, t, Work(w, Push(false)));
  }

  lemma Left(c: Config, s: State, t: TaskId, w: WorkerId) returns (s': State)
    requires Got(c, s, t) && !s.crashed && t in s.tasks
    requires w in s.workers && s.workers[w] == Worker(t, Leaving(false), NoJob, true, false, false)
    ensures Got(c, s', t)
    ensures s' == s.(workers := s.workers[w := Worker(t, Unregistering, NoJob, true, false, false)],
                     counters := s.counters.(busy := Decremented(s.counters.busy)))
  {
    s' := Go(c, s, t, Work(w, Leave));
  }

  lemma TakenFailure(c: Config, s: State, t: TaskId, w: WorkerId) returns (s': State)
    requires Got(c, s, t) && Stage(s, t, w)
    requires s.workers[w] == Worker(t, Running, Finished(Error, Some(CAUSE)), true, false, false)
    ensures Got(c, s', t)
    ensures s' == s.(workers := s.workers[w := Worker(t, Failing, NoJob, true, false, false)])
  {
    s' := Go(c, s, t, Work(w, Select(TakeResult)));
  }

  lemma Failed(c: Config, s: State, t: TaskId, w: WorkerId) returns (s': State)
    requires Got(c, s, t) && Stage(s, t, w) && s.workers[w] == Worker(t, Failing, NoJob, true, false, false)
    requires s.tasks[t].record.status.Processing?
    ensures Got(c, s', t)
    ensures s' == Transit(s, t, Error, true)
                  .(workers := s.workers[w := Worker(t, Leaving(false), NoJob, true, false, false)])
  {
    s' := Go(c, s, t, Work(w, Fail(true)));
  }

  // Rounds.

  lemma FirstRound(c: Config, t: TaskId) returns (s: State)
    requires c.workerCount >= 1
    ensures Got(c, s, t) && Round(s, t, 0, 0)
  {
    GotStart(c, t);
    var s1 := Go(c, Initial, t, EndLoading);
    var s2 := Go(c, s1, t, Submit(t, Record(Queued, 0, [], 0), true));
    var s3 := Go(c, s2, t, Enqueue(t, false));
    assert WithoutIds([], {t}) == [];
    s := Deliver(c, s3, t, 0);
  }

  /** The worker is inside the next Do. */
  predicate InDo(s: State, t: TaskId, w: WorkerId, r: nat) {
    && Stage(s, t, w) && s.workers[w] == Worker(t, Running, Doing, true, false, false)
    && Count(s.tasks[t], r, r + 1) && s.tasks[t].record.status.Processing?
  }

  lemma EnterLoop(c: Config, s: State, t: TaskId, w: WorkerId, r: nat) returns (s': State)
    requires Got(c, s, t) && Round(s, t, w, r)
    ensures Got(c, s', t) && Stage(s', t, w) && Count(s'.tasks[t], r, r)
    ensures s'.workers == s.workers[w := Worker(t, Launching, NoJob, false, false, false)]
    ensures s'.tasks[t].record.status.Processing? && s'.running == s.running[t := w]
  {
    var s1 := Register(c, s, t, w);
    s' := MoveIn(c, s1, t, w);
    ToProcessing(s1, t);
  }

  lemma ToProcessing(s: State, t: TaskId)
    requires t in s.tasks && (s.tasks[t].record.status.Queued? || s.tasks[t].record.status.Suspending?)
    ensures var ts, ts' := s.tasks[t], Attempt(s.tasks[t], Processing, true);
            && ts'.record == ts.record.(status := Processing) && ts'.dos == ts.dos && ts'.origin == ts.origin
    ensures CountersAfter(s.counters, s.tasks[t].record.status, Processing).busy == s.counters.busy
  {
  }

  lemma Begin(c: Config, s: State, t: TaskId, w: WorkerId, r: nat) returns (s': State)
    requires Got(c, s, t) && Round(s, t, w, r)
    ensures Got(c, s', t) && InDo(s', t, w, r) && s'.running == s.running[t := w]
    ensures s'.workers == s.workers[w := s'.workers[w]]
  {
    var s1 := EnterLoop(c, s, t, w, r);
    var s2 := Launched(c, s1, t, w);
    s' := Begun(c, s2, t, w);
  }

  /** Do fails with retries left: the task is suspended, on its way back. */
  lemma FailAndRetry(c: Config, s: State, t: TaskId, w: WorkerId, r: nat) returns (s': State)
    requires Got(c, s, t) && InDo(s, t, w, r) && r < c.maxRetry
    ensures Got(c, s', t) && Stage(s', t, w) && Count(s'.tasks[t], r + 1, r + 1)
    ensures s'.workers == s.workers[w := Worker(t, Advancing(Suspending), NoJob, true, false, false)]
    ensures s'.tasks[t].record.status.Processing? && s'.tasks[t].record.resumeAt <= Second(s'.now)
  {
    var s1 := FailedOnce(c, s, t, w);
    var s2 := Decided(c, s1, t, w);
    var s3 := Taken(c, s2, t, w);
    s' := Judged(c, s3, t, w);
  }

  lemma ToSuspending(s: State, t: TaskId)
    requires t in s.tasks && s.tasks[t].record.status.Processing?
    ensures var ts, ts' := s.tasks[t], Attempt(s.tasks[t], Suspending, true);
            && ts'.record == ts.record.(status := Suspending) && ts'.dos == ts.dos && ts'.origin == ts.origin
    ensures CountersAfter(s.counters, s.tasks[t].record.status, Suspending).busy == s.counters.busy
  {
  }

  /** The task goes back to the stack, and the worker as far as its epilogue. */
  lemma Return(c: Config, s: State, t: TaskId, w: WorkerId, r: nat) returns (s': State)
    requires Got(c, s, t) && Stage(s, t, w) && Count(s.tasks[t], r, r)
    requires s.workers[w] == Worker(t, Advancing(Suspending), NoJob, true, false, false)
    requires s.tasks[t].record.status.Processing? && s.tasks[t].record.resumeAt <= Second(s.now)
    ensures Got(c, s', t) && Supplied(s', t, w + 1) && Count(s'.tasks[t], r, r)
    ensures s'.tasks[t].record.status.Suspending?
    ensures s'.workers == s.workers[w := Worker(t, Unregistering, NoJob, true, false, false)]
  {
    ToSuspending(s, t);
    var s1 := Suspended(c, s, t, w);
    var s2 := Unmarked(c, s1, t, w);
    var s3 := Pushed(c, s2, t, w);
    s' := Left(c, s3, t, w);
  }

  lemma NextRound(c: Config, s: State, t: TaskId, w: WorkerId, r: nat) returns (s': State)
    requires c.workerCount >= 1 && Got(c, s, t) && Round(s, t, w, r) && r < c.maxRetry
    ensures Got(c, s', t) && Round(s', t, w + 1, r + 1)
    ensures w in s'.workers && s'.workers[w] == Worker(t, Unregistering, NoJob, true, false, false)
  {
    var s1 := Begin(c, s, t, w, r);
    var s2 := FailAndRetry(c, s1, t, w, r);
    var s3 := Return(c, s2, t, w, r + 1);
    s' := Deliver(c, s3, t, w + 1);
  }

  lemma {:induction false} Rounds(c: Config, t: TaskId, r: nat) returns (s: State)
    requires c.workerCount >= 1 && r <= c.maxRetry
    ensures Got(c, s, t) && Round(s, t, r, r)
  {
    if r == 0 {
      s := FirstRound(c, t);
    } else {
      var before := Rounds(c, t, r - 1);
      s := NextRound(c, before, t, r - 1, r - 1);
    }
  }

  /** Do fails without retries left. */
  lemma FailForGood(c: Config, s: State, t: TaskId, w: WorkerId, r: nat) returns (s': State)
    requires Got(c, s, t) && InDo(s, t, w, r) && r >= c.maxRetry
    ensures Got(c, s', t) && t in s'.tasks && s'.tasks[t].record.status.Error? && Count(s'.tasks[t], r, r + 1)
  {
    var s1 := FailedAgain(c, s, t, w);
    var s2 := TakenFailure(c, s1, t, w);
    s' := Failed(c, s2, t, w);
    AttemptToError(s2.tasks[t]);
  }

  lemma AttemptToError(ts: TaskState)
    requires ts.record.status.Processing?
    ensures var ts' := Attempt(ts, Error, true);
            ts'.record == ts.record.(status := Error) && ts'.dos == ts.dos && ts'.origin == ts.origin
  {
  }

  /** For every number of workers and retries there is an undisturbed run in which a task, always failing, comes
      to its end in error after maxRetry + 1 starts of Do. */
  lemma FailingEndIsReached(c: Config, t: TaskId) returns (s: State)
    requires c.workerCount >= 1 && c.maxRetry >= 0
    ensures ReachedUndisturbed(c, s, t) && t in s.tasks && s.tasks[t].origin.retries == 0
    ensures s.tasks[t].record.status.Error? && s.tasks[t].dos == c.maxRetry + 1
  {
    var s1 := Rounds(c, t, c.maxRetry);
    var s2 := Begin(c, s1, t, c.maxRetry, c.maxRetry);
    s := FailForGood(c, s2, t, c.maxRetry, c.maxRetry);
    GotIsReached(c, s, t);
  }

  /** A running task loses its cancel function: the epilogue of its first activation comes after the start check
      of its second. */
  lemma RecordLost(c: Config, t: TaskId) returns (s: State, v: WorkerId)
    requires c.workerCount >= 1 && c.maxRetry >= 1
    ensures Reachable(c, s) && v in s.workers && s.workers[v].task == t && s.workers[v].job.Doing? && t !in s.running
  {
    var s1 := FirstRound(c, t);
    var s2 := NextRound(c, s1, t, 0, 0);
    var s3 := Begin(c, s2, t, 1, 1);
    s := Go(c, s3, t, Work(0, Unregister));
    v := 1;
    GotIsReached(c, s, t);
  }
}
