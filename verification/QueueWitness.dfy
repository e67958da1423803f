/** Runs that reach the corners: one worker too many, the nil slot, and the lost cancellation. */
module QueueWitness {
  import opened Options
  import opened Tasks
  import opened FifoSchedulers
  import opened QueueProtocol

  lemma StartReachable(c: Config)
    ensures Reachable(c, Initial)
  {
    assert Run(c, Initial, []) == Some(Initial);
  }

  lemma Extend(c: Config, s: State, step: Step) returns (s': State)
    requires Reachable(c, s) && Next(c, s, step).Some?
    ensures Reachable(c, s') && Next(c, s, step) == Some(s')
  {
    s' := Next(c, s, step).value;
    var steps :| Run(c, Initial, steps) == Some(s);
    assert (steps + [step])[..|steps + [step]| - 1] == steps;
    assert Run(c, Initial, steps + [step]) == Some(s');
  }

  const Request := Record(Queued, 0, [], 0)

  /** Nothing waits or is in flight; ids from n on are free; the dispatcher, the token and the count as given. */
  ghost predicate Calm(s: State, d: Dispatcher, token: bool, busy: nat, n: nat) {
    && !s.crashed && s.shutdown == 0 && s.lock.None? && s.handoff.None? && s.waiting == [] && s.marks == {}
    && s.dispatcher == d && s.token == token && s.counters.busy == busy
    && s.requester == (if d.AtTasks? then Polling else Off)
    && (forall t | t in s.tasks :: t < n) && (forall w | w in s.workers :: w < n)
  }

  /** The scheduler gets a task, due at once. */
  lemma Feed(c: Config, s: State, d: Dispatcher, token: bool, busy: nat, n: nat) returns (s': State)
    requires Reachable(c, s) && Calm(s, d, token, busy, n)
    ensures Reachable(c, s') && n in s'.tasks && s'.waiting == [n] && s'.tasks[n].record == Request
    ensures s' == s.(tasks := s'.tasks, waiting := s'.waiting, submitting := s'.submitting, counters := s'.counters)
    ensures s'.counters.busy == busy && s'.tasks.Keys == s.tasks.Keys + {n}
  {
    var s1 := Extend(c, s, Submit(n, Request, true));
    s' := Extend(c, s1, Enqueue(n, false));
    assert WithoutIds([], {n as TaskId}) == [];
  }

  /** A waiting dispatcher receives a fresh task and starts worker n on it. */
  lemma Deliver(c: Config, s: State, token: bool, busy: nat, n: nat) returns (s': State)
    requires Reachable(c, s) && Calm(s, AtTasks, token, busy, n)
    ensures Reachable(c, s') && Calm(s', AtSchedule, token, busy + 1, n + 1)
    ensures n in s'.workers && s'.workers[n] == Worker(n, Starting, NoJob, false, false, false)
    ensures n in s'.tasks && s'.tasks[n].record == Request
  {
    var s1 := HandOver(c, s, token, busy, n);
    s' := Extend(c, s1, Spawn(n));
  }

  lemma HandOver(c: Config, s: State, token: bool, busy: nat, n: nat) returns (s': State)
    requires Reachable(c, s) && Calm(s, AtTasks, token, busy, n)
    ensures Reachable(c, s') && n in s'.tasks && s'.tasks[n].record == Request && s'.tasks.Keys == s.tasks.Keys + {n}
    ensures s' == s.(tasks := s'.tasks, submitting := s'.submitting, counters := s'.counters, handoff := Some(n),
              requester := Off)
    ensures s'.counters.busy == busy
  {
    var s1 := Feed(c, s, AtTasks, token, busy, n);
    var s2 := Extend(c, s1, Glance);
    assert Request.resumeAt <= Second(s.now);
    s' := Extend(c, s2, Pop);
  }

  /** Below the bound the dispatcher grants itself a token and waits for a task. */
  lemma Invite(c: Config, s: State, busy: nat, n: nat) returns (s': State)
    requires Reachable(c, s) && Calm(s, AtSchedule, false, busy, n) && busy < c.workerCount
    ensures Reachable(c, s') && Calm(s', AtTasks, false, busy, n) && s'.workers == s.workers && s'.tasks == s.tasks
  {
    var s1 := Extend(c, s, CheckBusy(TheDispatcher));
    var s2 := Extend(c, s1, Signal(TheDispatcher));
    s' := Extend(c, s2, TakeToken);
  }

  /** With a token stored the dispatcher goes on waiting for a task although no worker is free. */
  lemma Overrun(c: Config, s: State, busy: nat, n: nat) returns (s': State)
    requires Reachable(c, s) && Calm(s, AtSchedule, true, busy, n) && busy >= c.workerCount
    ensures Reachable(c, s') && Calm(s', AtTasks, false, busy, n)
  {
    var s1 := Extend(c, s, CheckBusy(TheDispatcher));
    s' := Extend(c, s1, TakeToken);
  }

  lemma FindMark(c: Config, s: State, w: nat) returns (s': State)
    requires Reachable(c, s) && !s.crashed && s.lock.None? && s.marks == {}
    requires w in s.workers && s.workers[w] == Worker(w, Starting, NoJob, false, false, false) && w in s.tasks
    ensures Reachable(c, s')
    ensures s' == s.(workers := s.workers[w := Worker(w, Canceling, NoJob, false, true, false)],
              signalled := s'.signalled)
  {
    var s1 := Extend(c, s, Mark(w));
    s' := Extend(c, s1, Work(w, CheckMark));
  }

  /** A worker whose task was cancelled meanwhile drops it and stops just before schedule(). */
  lemma DropTask(c: Config, s: State, busy: nat, n: nat, w: nat) returns (s': State)
    requires Reachable(c, s) && Calm(s, AtSchedule, false, busy, n) && busy > 0 && w < n
    requires w in s.workers && s.workers[w] == Worker(w, Starting, NoJob, false, false, false)
    requires w in s.tasks
    ensures Reachable(c, s') && Calm(s', AtSchedule, false, busy - 1, n)
    ensures w in s'.workers && s'.workers[w].phase.Scheduling?
  {
    var s1 := FindMark(c, s, w);
    var s2 := Extend(c, s1, Work(w, Cancel(true)));
    s' := Extend(c, s2, Work(w, Leave));
  }

  /** Its late schedule() leaves a token behind that nobody asked for. */
  lemma LateSignal(c: Config, s: State, busy: nat, n: nat, w: nat) returns (s': State)
    requires Reachable(c, s) && Calm(s, AtTasks, false, busy, n) && busy < c.workerCount
    requires w in s.workers && s.workers[w].phase.Scheduling?
    ensures Reachable(c, s') && Calm(s', AtTasks, true, busy, n)
  {
    var s1 := Extend(c, s, CheckBusy(TheWorker(w)));
    s' := Extend(c, s1, Signal(TheWorker(w)));
  }

  lemma {:induction false} StartWorkers(c: Config, k: nat) returns (s: State, n: nat)
    requires k < c.workerCount
    ensures Reachable(c, s) && Calm(s, AtSchedule, false, k, n)
  {
    if k == 0 {
      StartReachable(c);
      s := Extend(c, Initial, EndLoading);
      n := 0;
    } else {
      var s0, n0 := StartWorkers(c, k - 1);
      var s1 := Invite(c, s0, k - 1, n0);
      s := Deliver(c, s1, false, k - 1, n0);
      n := n0 + 1;
    }
  }

  /** For every number of workers there is a run in which one more is busy at the same time. */
  lemma OneWorkerTooMany(c: Config) returns (s: State)
    requires c.workerCount >= 1
    ensures Reachable(c, s) && s.counters.busy == c.workerCount + 1
  {
    var free := c.workerCount - 1;
    var s0, n := StartWorkers(c, free);
    var s1 := Invite(c, s0, free, n);
    var s2 := Deliver(c, s1, false, free, n);
    var s3 := DropTask(c, s2, free + 1, n + 1, n);
    var s4 := Invite(c, s3, free, n + 1);
    var s5 := LateSignal(c, s4, free, n + 1, n);
    var s6 := Deliver(c, s5, true, free, n + 1);
    var s7 := Overrun(c, s6, free + 1, n + 2);
    s := Deliver(c, s7, false, free + 1, n + 2);
  }

  /** A cancellation between the requester's glance and its pop leads to the nil slot. */
  lemma CancelCrashesRequester(c: Config) returns (s: State)
    requires c.workerCount >= 1
    ensures Reachable(c, s) && s.crashed
  {
    var s0, n := StartWorkers(c, 0);
    var s1 := Invite(c, s0, 0, n);
    var s2 := Feed(c, s1, AtTasks, false, 0, n);
    var s3 := Extend(c, s2, Glance);
    var s4 := Extend(c, s3, CancelWaiting({n as TaskId}));
    assert WithoutIds([n as TaskId], {n as TaskId}) == [];
    s := Extend(c, s4, Pop);
  }

  /** A run to a worker about to requeue a task that has just been cancelled. */
  lemma CancelBeforeRequeue(c: Config) returns (s: State, w: nat)
    requires c.workerCount >= 1
    ensures Reachable(c, s)
    ensures w in s.workers && s.workers[w].phase.Requeueing? && s.workers[w].task in s.marks && s.lock.None?
  {
    var s0, n := StartWorkers(c, 0);
    var s1 := Invite(c, s0, 0, n);
    var s2 := Deliver(c, s1, false, 0, n);
    var s3 := RunOnce(c, s2, n);
    s := Extend(c, s3, Mark(n));
    w := n;
  }

  lemma EnterLoop(c: Config, s: State, w: nat) returns (s': State)
    requires Reachable(c, s) && !s.crashed && s.lock.None? && s.marks == {}
    requires w in s.workers && s.workers[w] == Worker(w, Starting, NoJob, false, false, false)
    requires w in s.tasks && s.tasks[w].record == Request
    ensures Reachable(c, s') && !s'.crashed && s'.lock.None? && s'.marks == {}
    ensures w in s'.workers && s'.workers[w] == Worker(w, Launching, NoJob, false, false, false)
    ensures w in s'.tasks && s'.tasks[w].record.status.Processing?
  {
    var s1 := Extend(c, s, Work(w, CheckMark));
    assert s1.tasks == s.tasks && s1.workers[w] == Worker(w, Entering, NoJob, false, false, false);
    s' := Extend(c, s1, Work(w, Enter(true)));
  }

  lemma StartDo(c: Config, s: State, w: nat) returns (s': State)
    requires Reachable(c, s) && !s.crashed && s.lock.None? && s.marks == {}
    requires w in s.workers && s.workers[w] == Worker(w, Launching, NoJob, false, false, false)
    requires w in s.tasks && s.tasks[w].record.status.Processing?
    ensures Reachable(c, s') && !s'.crashed && s'.lock.None? && s'.marks == {}
    ensures w in s'.workers && s'.workers[w] == Worker(w, Running, Doing, true, false, false)
    ensures w in s'.tasks && s'.tasks[w].record.status.Processing?
  {
    var s1 := Extend(c, s, Work(w, Launch));
    s' := Extend(c, s1, Work(w, JobBegin));
  }

  lemma SuspendOnce(c: Config, s: State, w: nat) returns (s': State)
    requires Reachable(c, s) && !s.crashed && s.lock.None? && s.marks == {}
    requires w in s.workers && s.workers[w] == Worker(w, Running, Doing, true, false, false)
    requires w in s.tasks && s.tasks[w].record.status.Processing?
    ensures Reachable(c, s') && !s'.crashed && s'.lock.None? && s'.marks == {}
    ensures w in s'.workers && s'.workers[w].phase == Advancing(Suspending) && s'.workers[w].task == w
    ensures w in s'.tasks && s'.tasks[w].record.status.Processing?
  {
    var s1 := Extend(c, s, Work(w, JobReturn(Returns(Suspending, None), None)));
    var s2 := Extend(c, s1, Work(w, Select(TakeResult)));
    s' := Extend(c, s2, Work(w, Judge));
  }

  lemma RunOnce(c: Config, s: State, w: nat) returns (s': State)
    requires Reachable(c, s) && !s.crashed && s.lock.None? && s.marks == {}
    requires w in s.workers && s.workers[w] == Worker(w, Starting, NoJob, false, false, false)
    requires w in s.tasks && s.tasks[w].record == Request
    ensures Reachable(c, s') && !s'.crashed && s'.lock.None?
    ensures w in s'.workers && s'.workers[w].phase.Requeueing? && s'.workers[w].task == w
  {
    var s1 := EnterLoop(c, s, w);
    var s2 := StartDo(c, s1, w);
    var s3 := SuspendOnce(c, s2, w);
    s' := Extend(c, s3, Work(w, Advance(true, false)));
  }
}
