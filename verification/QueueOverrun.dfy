/** The worker too many (module/queue/queue.go, `schedule` against `start`): what exactly grants one slot more than
    there are, and that the queue then gets to use it. */
module QueueOverrun {
  import opened Options
  import opened Tasks
  import opened QueueProtocol
  import opened QueueDispatch
  import opened QueueTheorems

  /** Slots given out: busy workers, one for a dispatcher about to start a worker, one for a stored token. */
  function Granted(s: State): nat {
    s.counters.busy + Taking(s.dispatcher) + if s.token then 1 else 0
  }

  /** A worker's schedule() finds the channel empty and all slots taken since it looked. */
  predicate LateSignal(c: Config, s: State, step: Step) {
    step.Signal? && step.agent.TheWorker? && !s.token && s.counters.busy + Taking(s.dispatcher) >= c.workerCount
  }

  lemma GrantedByWork(c: Config, s: State, w: WorkerId, action: Action)
    requires DispatchInv(c, s) && DoWork(c, s, w, action).Some?
    ensures Granted(DoWork(c, s, w, action).value) <= Granted(s)
  {
    if action.Leave? {
      LeaveDispatch(c, s, DoWork(c, s, w, action).value, w, DoWork(c, s, w, action).value.workers[w]);
    } else {
      WorkMoves(c, s, w, action);
    }
  }

  lemma GrantedByCheck(c: Config, s: State, agent: Agent)
    requires DoCheckBusy(c, s, agent).Some?
    ensures Granted(DoCheckBusy(c, s, agent).value) == Granted(s)
  {
  }

  lemma GrantedBySignal(c: Config, s: State, agent: Agent)
    requires DispatchInv(c, s) && DoSignal(s, agent).Some?
    ensures var s' := DoSignal(s, agent).value;
            && Granted(s') == s.counters.busy + Taking(s.dispatcher) + 1
            && (agent.TheDispatcher? ==> Granted(s') <= c.workerCount)
  {
  }

  lemma GrantedByDispatcher(c: Config, s: State, step: Step)
    requires DispatchInv(c, s) && Next(c, s, step).Some?
    requires step.EndLoading? || step.TakeToken? || step.StopDispatcher? || step.Glance? || step.Pop?
             || step.CloseTasks? || step.Spawn?
    ensures Granted(Next(c, s, step).value) <= Granted(s)
  {
    if step.Spawn? {
      assert Next(c, s, step) == DoSpawn(s, step.w);
    } else {
      assert Next(c, s, step).value.counters == s.counters;
    }
  }

  /** Only a signal grants anything, and it exceeds the number of workers exactly when it is late. */
  lemma ExceededExactly(c: Config, s: State, step: Step)
    requires DispatchInv(c, s) && Next(c, s, step).Some?
    ensures !step.Signal? ==> Granted(Next(c, s, step).value) <= Granted(s)
    ensures Granted(s) <= c.workerCount ==>
              (Granted(Next(c, s, step).value) > c.workerCount) == LateSignal(c, s, step)
  {
    if step.Work? {
      GrantedByWork(c, s, step.w, step.action);
    } else if step.CheckBusy? {
      GrantedByCheck(c, s, step.agent);
    } else if step.Signal? {
      GrantedBySignal(c, s, step.agent);
    } else if Outside(step) {
      OutsideSame(c, s, step);
    } else {
      GrantedByDispatcher(c, s, step);
    }
  }

  /** In every state along the run the granted slots are within the number of workers. */
  predicate AlwaysWithin(c: Config, steps: seq<Step>)
    requires Run(c, Initial, steps).Some?
    decreases |steps|
  {
    && Granted(Run(c, Initial, steps).value) <= c.workerCount
    && (steps == [] || AlwaysWithin(c, steps[..|steps| - 1]))
  }

  predicate HasLateSignal(c: Config, steps: seq<Step>)
    requires Run(c, Initial, steps).Some?
    decreases |steps|
  {
    steps != [] &&
    var front := steps[..|steps| - 1];
    HasLateSignal(c, front) || LateSignal(c, Run(c, Initial, front).value, steps[|steps| - 1])
  }

  /** A run keeps within the number of workers, busy ones in particular, if and only if it has no late signal. */
  lemma {:induction false} WithinExactly(c: Config, steps: seq<Step>)
    requires c.workerCount >= 1 && Run(c, Initial, steps).Some?
    ensures AlwaysWithin(c, steps) <==> !HasLateSignal(c, steps)
    ensures !HasLateSignal(c, steps) ==> Run(c, Initial, steps).value.counters.busy <= c.workerCount
  {
    if steps != [] {
      var front := steps[..|steps| - 1];
      WithinExactly(c, front);
      ReachableIsGood(c, Run(c, Initial, front).value);
      ExceededExactly(c, Run(c, Initial, front).value, steps[|steps| - 1]);
    }
  }

  // From a slot too many to a worker too many.

  ghost predicate Leads(c: Config, s: State, s': State) {
    exists steps :: Run(c, s, steps) == Some(s')
  }

  /** A reachable state on the way from `origin`. */
  ghost predicate Onward(c: Config, origin: State, s: State) {
    Reachable(c, s) && Leads(c, origin, s)
  }

  lemma Stay(c: Config, s: State)
    requires Reachable(c, s)
    ensures Onward(c, s, s)
  {
    assert Run(c, s, []) == Some(s);
  }

  lemma Continue(c: Config, from: State, s: State, step: Step)
    requires Leads(c, from, s) && Next(c, s, step).Some?
    ensures Leads(c, from, Next(c, s, step).value)
  {
    var steps :| Run(c, from, steps) == Some(s);
    assert (steps + [step])[..|steps + [step]| - 1] == steps;
    assert Run(c, from, steps + [step]) == Next(c, s, step);
  }

  lemma Go(c: Config, origin: State, s: State, step: Step) returns (s': State)
    requires Onward(c, origin, s) && Next(c, s, step).Some?
    ensures Onward(c, origin, s') && Next(c, s, step) == Some(s')
  {
    s' := Next(c, s, step).value;
    Continue(c, origin, s, step);
    Continue(c, Initial, s, step);
  }

  lemma FreshId(used: set<int>) returns (n: nat)
    ensures n !in used && forall x | x in used :: x < n
  {
    n := 0;
    if x :| x in used {
      var m := FreshId(used - {x});
      n := if x < m then m else x + 1;
      assert forall y | y in used :: y == x || y in used - {x};
    }
  }

  predicate Alive(s: State) {
    !s.crashed && !s.dispatcher.Stopped? && !s.requester.Closed?
  }

  /** A task that is due comes to lie on top. */
  lemma Supply(c: Config, origin: State, s: State) returns (s': State, t: TaskId)
    requires Onward(c, origin, s) && !s.crashed
    ensures Onward(c, origin, s') && t in s'.tasks && s'.tasks[t].record.resumeAt == 0
    ensures s'.waiting != [] && s'.waiting[|s'.waiting| - 1] == t
    ensures s' == s.(tasks := s'.tasks, waiting := s'.waiting, submitting := s'.submitting, counters := s'.counters)
    ensures s'.counters.busy == s.counters.busy
  {
    t := FreshId(s.tasks.Keys);
    var s1 := Go(c, origin, s, Submit(t, Record(Queued, 0, [], 0), true));
    s' := Go(c, origin, s1, Enqueue(t, false));
  }

  lemma SpawnOne(c: Config, origin: State, s: State) returns (s': State)
    requires Onward(c, origin, s) && Alive(s) && s.dispatcher.AtTasks? && s.handoff.Some? && s.handoff.value in s.tasks
    requires s.requester.Off?
    ensures Onward(c, origin, s') && Alive(s') && s'.dispatcher.AtSchedule? && s'.counters.busy == s.counters.busy + 1
    ensures s'.token == s.token && s'.lock == s.lock && s'.shutdown == s.shutdown
  {
    var ws: set<int> := set w | w in s.workers;
    var w := FreshId(ws);
    s' := Go(c, origin, s, Spawn(w));
  }

  /** The requester hands the task on top over. */
  lemma HandOn(c: Config, origin: State, s: State, t: TaskId) returns (s': State)
    requires Onward(c, origin, s) && Alive(s) && s.dispatcher.AtTasks? && s.handoff.None?
    requires s.requester.Polling? || s.requester.Committed?
    requires s.waiting != [] && s.waiting[|s.waiting| - 1] == t && t in s.tasks && s.tasks[t].record.resumeAt == 0
    ensures Onward(c, origin, s') && Alive(s') && s'.dispatcher.AtTasks? && s'.handoff == Some(t) && t in s'.tasks
    ensures s'.requester.Off? && s'.token == s.token && s'.lock == s.lock
    ensures s'.counters.busy == s.counters.busy && s'.shutdown == s.shutdown
  {
    var s1 := s;
    if s.requester.Polling? {
      s1 := Go(c, origin, s, Glance);
    }
    assert 0 <= Second(s1.now);
    s' := Go(c, origin, s1, Pop);
  }

  /** A dispatcher that waits for a task gets one and starts a worker. */
  lemma TakeTask(c: Config, origin: State, s: State) returns (s': State)
    requires c.workerCount >= 1 && Onward(c, origin, s) && Alive(s) && s.dispatcher.AtTasks?
    ensures Onward(c, origin, s') && Alive(s') && s'.dispatcher.AtSchedule? && s'.counters.busy == s.counters.busy + 1
    ensures s'.token == s.token && s'.lock == s.lock && s'.shutdown == s.shutdown
  {
    ReachableIsGood(c, s);
    if s.handoff.Some? {
      s' := SpawnOne(c, origin, s);
    } else {
      var s1, t := Supply(c, origin, s);
      var s2 := HandOn(c, origin, s1, t);
      s' := SpawnOne(c, origin, s2);
    }
  }

  /** Whoever is inside schedule() leaves it. */
  lemma Unlock(c: Config, origin: State, s: State) returns (s': State)
    requires c.workerCount >= 1 && Onward(c, origin, s) && Alive(s) && s.token && s.counters.busy >= c.workerCount
    ensures Onward(c, origin, s') && Alive(s') && s'.token && s'.lock.None?
    ensures s'.dispatcher == s.dispatcher && s'.counters == s.counters && s'.shutdown == s.shutdown
  {
    ReachableIsGood(c, s);
    if s.lock.None? {
      s' := s;
    } else {
      assert s.lock.value.TheWorker?;
      s' := Go(c, origin, s, Signal(s.lock.value));
    }
  }

  /** With a token stored the dispatcher goes on to wait for a task, although no slot is free. */
  lemma TakeStaleToken(c: Config, origin: State, s: State) returns (s': State)
    requires c.workerCount >= 1 && Onward(c, origin, s) && Alive(s) && s.token && s.counters.busy >= c.workerCount
    requires !s.dispatcher.AtTasks?
    ensures Onward(c, origin, s') && Alive(s') && s'.dispatcher.AtTasks?
    ensures s'.counters.busy == s.counters.busy && s'.shutdown == s.shutdown
  {
    var s1 := Unlock(c, origin, s);
    if s1.dispatcher.Loading? {
      s1 := Go(c, origin, s1, EndLoading);
    }
    if s1.dispatcher.AtSchedule? {
      s1 := Go(c, origin, s1, CheckBusy(TheDispatcher));
    }
    s' := Go(c, origin, s1, TakeToken);
  }

  /** Whenever one slot too many is granted and the queue is alive, a run leads on to one worker too many. */
  lemma ExceededLeadsToOverrun(c: Config, s: State) returns (s': State)
    requires c.workerCount >= 1 && Reachable(c, s) && Alive(s) && Granted(s) == c.workerCount + 1
    ensures Leads(c, s, s') && Reachable(c, s') && s'.counters.busy == c.workerCount + 1 && s'.shutdown == s.shutdown
  {
    Stay(c, s);
    s' := s;
    if s'.dispatcher.AtTasks? {
      s' := TakeTask(c, s, s');
    }
    if s'.counters.busy <= c.workerCount {
      s' := TakeStaleToken(c, s, s');
      s' := TakeTask(c, s, s');
    }
  }

  // Keeping apart is enough.

  /** No worker is inside schedule() while the dispatcher waits for a task. */
  predicate Apart(s: State) {
    !(s.dispatcher.AtTasks? && s.lock.Some? && s.lock.value.TheWorker?)
  }

  predicate Tight(c: Config, s: State) {
    && Granted(s) <= c.workerCount
    && (s.lock.Some? && s.lock.value.TheWorker? ==> s.counters.busy < c.workerCount)
  }

  lemma TightWork(c: Config, s: State, w: WorkerId, action: Action)
    requires DispatchInv(c, s) && Tight(c, s) && DoWork(c, s, w, action).Some?
    ensures Tight(c, DoWork(c, s, w, action).value)
  {
    if action.Leave? {
      LeaveDispatch(c, s, DoWork(c, s, w, action).value, w, DoWork(c, s, w, action).value.workers[w]);
    } else {
      WorkMoves(c, s, w, action);
    }
  }

  lemma TightCheck(c: Config, s: State, agent: Agent)
    requires Tight(c, s) && DoCheckBusy(c, s, agent).Some? && Apart(DoCheckBusy(c, s, agent).value)
    ensures Tight(c, DoCheckBusy(c, s, agent).value)
  {
  }

  lemma TightSignal(c: Config, s: State, agent: Agent)
    requires DispatchInv(c, s) && Tight(c, s) && Apart(s) && DoSignal(s, agent).Some?
    ensures Tight(c, DoSignal(s, agent).value)
  {
  }

  lemma TightDispatcher(c: Config, s: State, step: Step)
    requires DispatchInv(c, s) && Tight(c, s) && Apart(s) && Next(c, s, step).Some? && Apart(Next(c, s, step).value)
    requires step.EndLoading? || step.TakeToken? || step.StopDispatcher? || step.Glance? || step.Pop?
             || step.CloseTasks? || step.Spawn?
    ensures Tight(c, Next(c, s, step).value)
  {
    if step.Spawn? {
      assert Next(c, s, step) == DoSpawn(s, step.w);
    } else {
      assert Next(c, s, step).value.counters == s.counters;
    }
  }

  lemma TightStep(c: Config, s: State, step: Step)
    requires DispatchInv(c, s) && Tight(c, s) && Apart(s) && Next(c, s, step).Some? && Apart(Next(c, s, step).value)
    ensures Tight(c, Next(c, s, step).value)
  {
    if step.Work? {
      TightWork(c, s, step.w, step.action);
    } else if step.CheckBusy? {
      TightCheck(c, s, step.agent);
    } else if step.Signal? {
      TightSignal(c, s, step.agent);
    } else if Outside(step) {
      OutsideSame(c, s, step);
    } else {
      TightDispatcher(c, s, step);
    }
  }

  predicate StaysApart(c: Config, steps: seq<Step>)
    requires Run(c, Initial, steps).Some?
    decreases |steps|
  {
    Apart(Run(c, Initial, steps).value) && (steps == [] || StaysApart(c, steps[..|steps| - 1]))
  }

  /** The configured number of workers is only ever exceeded after a worker's schedule() overlapped with the
      dispatcher's wait for a task: in runs where the two stay apart it never is. */
  lemma {:induction false} NoOverrunWhenApart(c: Config, steps: seq<Step>)
    requires c.workerCount >= 1 && Run(c, Initial, steps).Some? && StaysApart(c, steps)
    ensures Tight(c, Run(c, Initial, steps).value) && Run(c, Initial, steps).value.counters.busy <= c.workerCount
  {
    if steps != [] {
      var front := steps[..|steps| - 1];
      NoOverrunWhenApart(c, front);
      ReachableIsGood(c, Run(c, Initial, front).value);
      TightStep(c, Run(c, Initial, front).value, steps[|steps| - 1]);
    }
  }
}
