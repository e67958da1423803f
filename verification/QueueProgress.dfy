/** As long as the always failing task is not in error, parked, removed or waiting its turn, it can move on
    (module/queue/queue.go, `start`, `schedule`, `work`). */
module QueueProgress {
  import opened Options
  import opened Tasks
  import opened QueueProtocol
  import opened QueueInvariant
  import opened QueueDispatch
  import opened QueueTheorems
  import opened QueueFailing
  import opened QueueOverrun
  import opened QueueTermination

  // The dispatcher stops and the requester closes only after quit was closed.

  predicate ClosedLate(s: State) {
    s.requester.Closed? || s.dispatcher.Stopped? ==> s.shutdown >= 4
  }

  lemma ClosedLateWork(c: Config, s: State, w: WorkerId, action: Action)
    requires DoWork(c, s, w, action).Some?
    ensures var s' := DoWork(c, s, w, action).value;
            s'.requester == s.requester && s'.dispatcher == s.dispatcher && s'.shutdown == s.shutdown
  {
    if action.Advance? {
      assert DoWork(c, s, w, action) == DoAdvance(s, w, action.saved, action.manual);
    } else if action.Select? {
      assert DoWork(c, s, w, action) == DoSelect(s, w, action.choice);
    } else if action.Judge? {
      assert DoWork(c, s, w, action) == DoJudge(s, w);
    }
  }

  lemma ClosedLateStep(c: Config, s: State, step: Step)
    requires ClosedLate(s) && Next(c, s, step).Some?
    ensures ClosedLate(Next(c, s, step).value)
  {
    if step.Work? {
      ClosedLateWork(c, s, step.w, step.action);
    } else if step.Spawn? {
      assert Next(c, s, step) == DoSpawn(s, step.w);
    } else if step.CheckBusy? {
      assert Next(c, s, step) == DoCheckBusy(c, s, step.agent);
    } else if step.Signal? {
      assert Next(c, s, step) == DoSignal(s, step.agent);
    }
  }

  lemma {:induction false} ClosedLateRun(c: Config, steps: seq<Step>)
    requires Run(c, Initial, steps).Some?
    ensures ClosedLate(Run(c, Initial, steps).value)
  {
    if steps != [] {
      ClosedLateRun(c, steps[..|steps| - 1]);
      ClosedLateStep(c, Run(c, Initial, steps[..|steps| - 1]).value, steps[|steps| - 1]);
    }
  }

  // Undisturbed paths along which the task stays where it is.

  /** All that is needed to go on. */
  ghost predicate Sound(c: Config, s: State, t: TaskId) {
    && c.workerCount >= 1 && Good(c, s) && Followed(c, s, t) && t in s.tasks && !s.crashed
    && !s.requester.Closed? && !s.dispatcher.Stopped?
  }

  ghost predicate Path(c: Config, s0: State, s: State, t: TaskId, k: nat) {
    exists steps :: |steps| == k && Run(c, s0, steps) == Some(s) && UndisturbedFrom(c, s0, steps, t)
  }

  /** The task can be brought one step of its own further within n steps. */
  ghost predicate CanAdvance(c: Config, s: State, t: TaskId, n: nat)
    requires t in s.tasks
  {
    exists k: nat, s' :: k <= n && Path(c, s, s', t, k) && t in s'.tasks && Measure(c, s', t) < Measure(c, s, t)
  }

  lemma PathStep(c: Config, s0: State, s: State, t: TaskId, k: nat, step: Step)
    requires Path(c, s0, s, t, k) && Next(c, s, step).Some? && Undisturbed(s, step, t)
    ensures Path(c, s0, Next(c, s, step).value, t, k + 1)
  {
    var steps :| |steps| == k && Run(c, s0, steps) == Some(s) && UndisturbedFrom(c, s0, steps, t);
    assert (steps + [step])[..|steps + [step]| - 1] == steps;
    assert Run(c, s0, steps + [step]) == Next(c, s, step);
    assert UndisturbedFrom(c, s0, steps + [step], t);
  }

  lemma PathStart(c: Config, s: State, t: TaskId)
    ensures Path(c, s, s, t, 0)
  {
    assert Run(c, s, []) == Some(s) && UndisturbedFrom(c, s, [], t);
  }

  /** On the way from s0 the task has not moved, nor has the stack or the clock. */
  ghost predicate Halfway(c: Config, s0: State, s: State, t: TaskId, k: nat) {
    && t in s0.tasks && Sound(c, s, t) && Path(c, s0, s, t, k) && Measure(c, s, t) == Measure(c, s0, t)
    && s.tasks[t] == s0.tasks[t] && s.waiting == s0.waiting && s.now == s0.now
  }

  lemma Depart(c: Config, s: State, t: TaskId)
    requires Sound(c, s, t)
    ensures Halfway(c, s, s, t, 0)
  {
    PathStart(c, s, t);
  }

  /** A step that is not the task's own and touches neither stack nor clock. */
  lemma Walk(c: Config, s0: State, s: State, t: TaskId, k: nat, step: Step) returns (s': State)
    requires Halfway(c, s0, s, t, k) && Next(c, s, step).Some? && Undisturbed(s, step, t) && !Own(s, step, t)
    requires var s' := Next(c, s, step).value;
             && s'.waiting == s.waiting && s'.now == s.now && !s'.crashed
             && !s'.requester.Closed? && !s'.dispatcher.Stopped?
    ensures Next(c, s, step) == Some(s') && Halfway(c, s0, s', t, k + 1)
  {
    s' := Next(c, s, step).value;
    PathStep(c, s0, s, t, k, step);
    StepKeeps(c, s, step);
    OtherStepKeeps(c, s, step, t);
    FollowedStep(c, s, step, t);
  }

  lemma Arrive(c: Config, s0: State, s: State, t: TaskId, k: nat, step: Step)
    requires Halfway(c, s0, s, t, k) && Next(c, s, step).Some? && Undisturbed(s, step, t) && Own(s, step, t)
    ensures CanAdvance(c, s0, t, k + 1)
  {
    PathStep(c, s0, s, t, k, step);
    OwnStepLowers(c, s, step, t);
  }

  // A worker has the task.

  lemma AnyAction(c: Config, s: State, w: WorkerId) returns (action: Action)
    requires Working(c, s, w) && s.lock.None?
    ensures PlainAction(action) && DoWork(c, s, w, action).Some?
  {
    match s.workers[w].phase
    case Starting => action := CheckMark;
    case Entering => action := Enter(true);
    case Launching => action := Launch;
    case Running => action := AnyJobAction(c, s, w);
    case Judging(_) => action := Judge;
    case Failing => action := Fail(true);
    case Advancing(_) => action := Advance(true, false);
    case Requeueing => action := Requeue(false);
    case Pushing => action := Push(false);
  }

  lemma AnyJobAction(c: Config, s: State, w: WorkerId) returns (action: Action)
    requires Working(c, s, w) && s.workers[w].phase.Running?
    ensures PlainAction(action) && DoWork(c, s, w, action).Some?
  {
    match s.workers[w].job
    case Spawned => action := JobBegin;
    case Doing => action := JobReturn(Returns(Error, Some(Err(false, false, ""))), None);
    case Deciding(_) => action := JobRetry(0);
    case Finished(_, _) => action := Select(TakeResult);
  }

  /** Whoever is inside schedule() can leave it. */
  lemma LeaveSchedule(c: Config, s0: State, s: State, t: TaskId, k: nat) returns (s': State)
    requires Halfway(c, s0, s, t, k) && s.lock.Some?
    ensures Halfway(c, s0, s', t, k + 1) && s'.lock.None? && s'.token && s'.handoff == s.handoff
    ensures s'.counters == s.counters && s'.requester == s.requester
    ensures s'.dispatcher == if s.lock.value.TheDispatcher? then AtReady else s.dispatcher
    ensures forall w | w in s.workers && !Ended(s.workers[w].phase) :: w in s'.workers && s'.workers[w] == s.workers[w]
  {
    SignalIsTame(c, s, s.lock.value);
    s' := Walk(c, s0, s, t, k, Signal(s.lock.value));
  }

  lemma SignalIsTame(c: Config, s: State, agent: Agent)
    requires DispatchInv(c, s) && s.lock == Some(agent) && !s.crashed
    ensures Next(c, s, Signal(agent)).Some?
    ensures var s' := Next(c, s, Signal(agent)).value;
            && s'.lock.None? && s'.token && s'.dispatcher == (if agent.TheDispatcher? then AtReady else s.dispatcher)
            && s' == s.(lock := None, token := true, dispatcher := s'.dispatcher, workers := s'.workers)
            && forall w | w in s.workers && !Ended(s.workers[w].phase) ::
                 w in s'.workers && s'.workers[w] == s.workers[w]
  {
  }

  lemma WorkerCanAdvance(c: Config, s: State, t: TaskId, w: WorkerId)
    requires Sound(c, s, t) && s.tasks[t].place == HeldBy(w) && w in s.workers && !Ended(s.workers[w].phase)
    ensures CanAdvance(c, s, t, 2)
  {
    Depart(c, s, t);
    var s', k := s, 0;
    if s.lock.Some? {
      s' := LeaveSchedule(c, s, s, t, 0);
      k := 1;
    }
    LocalPart(c, s', w);
    var action := AnyAction(c, s', w);
    Arrive(c, s, s', t, k, Work(w, action));
  }

  // The task is on its way to a worker.

  lemma ClientCanAdvance(c: Config, s: State, t: TaskId)
    requires Sound(c, s, t) && s.tasks[t].place.Submitting?
    ensures CanAdvance(c, s, t, 1)
  {
    Depart(c, s, t);
    Arrive(c, s, s, t, 0, Enqueue(t, false));
  }

  lemma HandedOffCanAdvance(c: Config, s: State, t: TaskId)
    requires Sound(c, s, t) && s.tasks[t].place.HandedOff?
    ensures CanAdvance(c, s, t, 1)
  {
    Depart(c, s, t);
    var ws: set<int> := set w | w in s.workers;
    var w := FreshId(ws);
    assert Next(c, s, Spawn(w)).Some?;
    Arrive(c, s, s, t, 0, Spawn(w));
  }

  /** The task is the next to be requested, and due. */
  predicate Turn(s: State, t: TaskId)
    requires t in s.tasks
  {
    s.waiting != [] && s.waiting[|s.waiting| - 1] == t && s.tasks[t].record.resumeAt <= Second(s.now)
  }

  lemma RequesterCanAdvance(c: Config, s0: State, s: State, t: TaskId, k: nat)
    requires Halfway(c, s0, s, t, k) && Turn(s, t) && (s.requester.Polling? || s.requester.Committed?)
    ensures CanAdvance(c, s0, t, k + 2)
  {
    var s', j := s, k;
    if s.requester.Polling? {
      s' := Walk(c, s0, s, t, k, Glance);
      j := k + 1;
    }
    Arrive(c, s0, s', t, j, Pop);
  }

  // A slot is free, and the dispatcher is brought to ask for the task.

  /** The task's turn, a free worker slot, and no other task in between. */
  ghost predicate Awaited(c: Config, s0: State, s: State, t: TaskId, k: nat) {
    Halfway(c, s0, s, t, k) && Turn(s, t) && s.handoff.None? && s.counters.busy < c.workerCount
  }

  lemma WithToken(c: Config, s0: State, s: State, t: TaskId, k: nat)
    requires Awaited(c, s0, s, t, k) && s.dispatcher.AtReady? && s.token
    ensures CanAdvance(c, s0, t, k + 3)
  {
    var s1 := Walk(c, s0, s, t, k, TakeToken);
    RequesterCanAdvance(c, s0, s1, t, k + 1);
  }

  /** A step that also leaves the turn, the hand-off and the number of busy workers. */
  lemma WalkQuietly(c: Config, s0: State, s: State, t: TaskId, k: nat, step: Step) returns (s': State)
    requires Awaited(c, s0, s, t, k) && Next(c, s, step).Some? && Undisturbed(s, step, t) && !Own(s, step, t)
    requires var s' := Next(c, s, step).value;
             && s'.waiting == s.waiting && s'.now == s.now && !s'.crashed
             && !s'.requester.Closed? && !s'.dispatcher.Stopped?
             && s'.handoff == s.handoff && s'.counters.busy == s.counters.busy
    ensures Next(c, s, step) == Some(s') && Awaited(c, s0, s', t, k + 1)
  {
    s' := Walk(c, s0, s, t, k, step);
  }

  /** The agent may ask for a token. */
  predicate MayCheck(s: State, agent: Agent) {
    match agent
    case TheDispatcher => s.dispatcher.AtSchedule?
    case TheWorker(w) => w in s.workers && s.workers[w].phase.Scheduling?
  }

  lemma CheckIsTame(c: Config, s: State, agent: Agent)
    requires s.lock.None? && MayCheck(s, agent) && s.counters.busy < c.workerCount && !s.crashed
    ensures Next(c, s, CheckBusy(agent)).Some?
    ensures Next(c, s, CheckBusy(agent)).value
         == s.(lock := Some(agent), workers := Next(c, s, CheckBusy(agent)).value.workers)
  {
  }

  lemma Check(c: Config, s0: State, s: State, t: TaskId, k: nat, agent: Agent) returns (s': State)
    requires Awaited(c, s0, s, t, k) && s.lock.None? && MayCheck(s, agent)
    ensures Awaited(c, s0, s', t, k + 1) && s'.lock == Some(agent) && s'.dispatcher == s.dispatcher
  {
    CheckIsTame(c, s, agent);
    assert Undisturbed(s, CheckBusy(agent), t) && !Own(s, CheckBusy(agent), t);
    s' := WalkQuietly(c, s0, s, t, k, CheckBusy(agent));
  }

  lemma AtTheCheck(c: Config, s0: State, s: State, t: TaskId, k: nat)
    requires Awaited(c, s0, s, t, k) && s.dispatcher.AtSchedule? && s.lock.None?
    ensures CanAdvance(c, s0, t, k + 5)
  {
    var s1 := Check(c, s0, s, t, k, TheDispatcher);
    var s2 := LeaveSchedule(c, s0, s1, t, k + 1);
    WithToken(c, s0, s2, t, k + 2);
  }

  lemma WithLock(c: Config, s0: State, s: State, t: TaskId, k: nat)
    requires Awaited(c, s0, s, t, k) && s.lock.Some? && (s.dispatcher.AtSchedule? || s.dispatcher.AtReady?)
    ensures CanAdvance(c, s0, t, k + 6)
  {
    var s1 := LeaveSchedule(c, s0, s, t, k);
    if s1.dispatcher.AtReady? {
      WithToken(c, s0, s1, t, k + 1);
    } else {
      AtTheCheck(c, s0, s1, t, k + 1);
    }
    Sooner(c, s0, t, k + 4, k + 6);
  }

  lemma Sooner(c: Config, s: State, t: TaskId, n: nat, m: nat)
    requires t in s.tasks && n <= m
    ensures CanAdvance(c, s, t, n) ==> CanAdvance(c, s, t, m)
  {
  }

  lemma AfterCheck(c: Config, s0: State, s: State, t: TaskId, k: nat, w: WorkerId)
    requires Awaited(c, s0, s, t, k) && s.dispatcher.AtReady? && s.lock.None? && MayCheck(s, TheWorker(w))
    ensures CanAdvance(c, s0, t, k + 5)
  {
    var s1 := Check(c, s0, s, t, k, TheWorker(w));
    var s2 := LeaveSchedule(c, s0, s1, t, k + 1);
    WithToken(c, s0, s2, t, k + 2);
  }

  /** The state after a step of a worker in its epilogue, as far as the dispatcher and the task see it. */
  predicate Aside(s: State, s': State, w: WorkerId) {
    && s' == s.(counters := s'.counters, tasks := s'.tasks, workers := s'.workers, running := s'.running)
    && s'.counters.busy == s.counters.busy && w in s'.workers
  }

  lemma BlameIsTame(c: Config, s: State, w: WorkerId)
    requires Local(c, s, w) && s.workers[w].phase.Blaming? && !s.crashed
    ensures Next(c, s, Work(w, Blame(true))).Some?
    ensures Aside(s, Next(c, s, Work(w, Blame(true))).value, w)
         && Next(c, s, Work(w, Blame(true))).value.workers[w].phase.Unregistering?
  {
    assert DoWork(c, s, w, Blame(true)).Some?;
  }

  lemma UnregisterIsTame(c: Config, s: State, w: WorkerId)
    requires Local(c, s, w) && s.workers[w].phase.Unregistering? && s.lock.None? && !s.crashed
    ensures Next(c, s, Work(w, Unregister)).Some?
    ensures Aside(s, Next(c, s, Work(w, Unregister)).value, w)
         && Next(c, s, Work(w, Unregister)).value.workers[w].phase.Scheduling?
  {
    assert DoWork(c, s, w, Unregister).Some?;
  }

  lemma AsideIsNotOwn(c: Config, s: State, t: TaskId, w: WorkerId, action: Action)
    requires Inv(c, s) && t in s.tasks && Turn(s, t) && (action == Blame(true) || action == Unregister)
    ensures Undisturbed(s, Work(w, action), t) && !Own(s, Work(w, action), t)
  {
    assert s.tasks[s.waiting[|s.waiting| - 1]].place.Waiting?;
  }

  lemma WalkAside(c: Config, s0: State, s: State, t: TaskId, k: nat, w: WorkerId, action: Action) returns (s': State)
    requires Awaited(c, s0, s, t, k) && s.dispatcher.AtReady? && s.lock.None?
    requires action == Blame(true) || action == Unregister
    requires Next(c, s, Work(w, action)).Some? && Aside(s, Next(c, s, Work(w, action)).value, w)
    ensures Next(c, s, Work(w, action)) == Some(s')
    ensures Awaited(c, s0, s', t, k + 1) && s'.dispatcher.AtReady? && s'.lock.None?
  {
    AsideIsNotOwn(c, s, t, w, action);
    s' := Walk(c, s0, s, t, k, Work(w, action));
  }

  lemma BlameAside(c: Config, s0: State, s: State, t: TaskId, k: nat, w: WorkerId) returns (s': State)
    requires Awaited(c, s0, s, t, k) && s.dispatcher.AtReady? && s.lock.None? && w in s.workers
    requires s.workers[w].phase.Blaming?
    ensures Awaited(c, s0, s', t, k + 1) && s'.dispatcher.AtReady? && s'.lock.None?
    ensures w in s'.workers && s'.workers[w].phase.Unregistering?
  {
    LocalPart(c, s, w);
    BlameIsTame(c, s, w);
    s' := WalkAside(c, s0, s, t, k, w, Blame(true));
  }

  lemma UnregisterAside(c: Config, s0: State, s: State, t: TaskId, k: nat, w: WorkerId) returns (s': State)
    requires Awaited(c, s0, s, t, k) && s.dispatcher.AtReady? && s.lock.None?
    requires w in s.workers && s.workers[w].phase.Unregistering?
    ensures Awaited(c, s0, s', t, k + 1) && s'.dispatcher.AtReady? && s'.lock.None?
    ensures w in s'.workers && s'.workers[w].phase.Scheduling?
  {
    LocalPart(c, s, w);
    UnregisterIsTame(c, s, w);
    s' := WalkAside(c, s0, s, t, k, w, Unregister);
  }

  /** An activation in its epilogue is brought to store a token. */
  lemma Wake(c: Config, s0: State, s: State, t: TaskId, k: nat, w: WorkerId)
    requires Awaited(c, s0, s, t, k) && s.dispatcher.AtReady? && s.lock.None?
    requires w in s.workers
    requires (s.workers[w].phase.Blaming? || s.workers[w].phase.Unregistering? || s.workers[w].phase.Scheduling?)
    ensures CanAdvance(c, s0, t, k + 7)
  {
    if s.workers[w].phase.Blaming? {
      var s1 := BlameAside(c, s0, s, t, k, w);
      var s2 := UnregisterAside(c, s0, s1, t, k + 1, w);
      AfterCheck(c, s0, s2, t, k + 2, w);
    } else if s.workers[w].phase.Unregistering? {
      var s1 := UnregisterAside(c, s0, s, t, k, w);
      AfterCheck(c, s0, s1, t, k + 1, w);
      Sooner(c, s0, t, k + 6, k + 7);
    } else {
      AfterCheck(c, s0, s, t, k, w);
      Sooner(c, s0, t, k + 5, k + 7);
    }
  }

  /** No task is in between, and a worker is free or the requester is already asking. */
  predicate Served(c: Config, s: State) {
    s.handoff.None? && (s.counters.busy < c.workerCount || s.requester.Polling? || s.requester.Committed?)
  }

  /** Nothing but a full house keeps the task whose turn it is: within eight steps it is handed over. */
  lemma TurnCanAdvance(c: Config, s: State, t: TaskId)
    requires Sound(c, s, t) && Turn(s, t) && Served(c, s)
    ensures CanAdvance(c, s, t, 8)
  {
    Depart(c, s, t);
    if s.requester.Polling? || s.requester.Committed? {
      RequesterCanAdvance(c, s, s, t, 0);
      Sooner(c, s, t, 2, 8);
    } else if s.dispatcher.Loading? {
      var s1 := Walk(c, s, s, t, 0, EndLoading);
      FromSchedule(c, s, s1, t, 1);
    } else if s.dispatcher.AtSchedule? {
      FromSchedule(c, s, s, t, 0);
      Sooner(c, s, t, 6, 8);
    } else {
      FromReady(c, s, s, t);
    }
  }

  lemma FromSchedule(c: Config, s0: State, s: State, t: TaskId, k: nat)
    requires Awaited(c, s0, s, t, k) && s.dispatcher.AtSchedule? && k <= 1
    ensures CanAdvance(c, s0, t, k + 6)
    ensures CanAdvance(c, s0, t, 8)
  {
    if s.lock.Some? {
      WithLock(c, s0, s, t, k);
    } else {
      AtTheCheck(c, s0, s, t, k);
      Sooner(c, s0, t, k + 5, k + 6);
    }
    Sooner(c, s0, t, k + 6, 8);
  }

  lemma FromReady(c: Config, s0: State, s: State, t: TaskId)
    requires Awaited(c, s0, s, t, 0) && s.dispatcher.AtReady?
    ensures CanAdvance(c, s0, t, 8)
  {
    if s.token {
      WithToken(c, s0, s, t, 0);
      Sooner(c, s0, t, 3, 8);
    } else if s.lock.Some? {
      WithLock(c, s0, s, t, 0);
      Sooner(c, s0, t, 6, 8);
    } else {
      var w :| w in s.workers && Waking(s.workers[w].phase);
      Wake(c, s0, s, t, 0, w);
      Sooner(c, s0, t, 7, 8);
    }
  }

  /** Time alone makes the top task due. */
  lemma TurnComes(c: Config, s: State, t: TaskId) returns (elapsed: nat)
    requires !s.crashed && t in s.tasks && s.waiting != [] && s.waiting[|s.waiting| - 1] == t
    ensures Next(c, s, Tick(elapsed)).Some?
    ensures var s' := Next(c, s, Tick(elapsed)).value; t in s'.tasks && Turn(s', t)
    ensures elapsed == 0 || (s.now + elapsed) / 1_000_000_000 == s.tasks[t].record.resumeAt
  {
    var due := s.tasks[t].record.resumeAt * 1_000_000_000;
    elapsed := if due <= s.now then 0 else due - s.now;
  }

  // The end of the queue.

  /** A shutdown goes through its stages and changes nothing else: flag, root context, scheduler, quit. */
  lemma ShutdownStages(c: Config, s: State)
    requires !s.crashed && s.shutdown == 0
    ensures Run(c, s, [ShutdownStep, ShutdownStep, ShutdownStep, ShutdownStep]) == Some(s.(shutdown := 4))
    ensures Next(c, s.(shutdown := 4), ShutdownStep).None?
  {
    var one, two, three := [ShutdownStep], [ShutdownStep, ShutdownStep], [ShutdownStep, ShutdownStep, ShutdownStep];
    var four := three + [ShutdownStep];
    assert one[..0] == [] && two[..1] == one && three[..2] == two && four[..3] == three;
    assert Run(c, s, one) == Some(s.(shutdown := 1));
    assert Run(c, s, two) == Some(s.(shutdown := 2));
    assert Run(c, s, three) == Some(s.(shutdown := 3));
    assert four == [ShutdownStep, ShutdownStep, ShutdownStep, ShutdownStep];
    assert Run(c, s, four) == Next(c, s.(shutdown := 3), ShutdownStep);
  }

  /** Once quit is closed, and not before, the dispatcher can stop: at its wait for a token, or at its wait for a
      task when the requester has closed the channel, which it can between two looks at the scheduler. */
  lemma StopsWhenQuit(c: Config, s: State)
    requires !s.crashed && ClosedLate(s)
    ensures s.dispatcher.AtReady? ==> (Next(c, s, StopDispatcher).Some? <==> s.shutdown >= 4)
    ensures s.requester.Polling? ==> (Next(c, s, CloseTasks).Some? <==> s.shutdown >= 4)
    ensures Next(c, s, CloseTasks).Some? && s.dispatcher.AtTasks? ==>
              var s' := Next(c, s, CloseTasks).value;
              && Next(c, s', StopDispatcher).Some?
              && Next(c, s', StopDispatcher).value.dispatcher.Stopped?
    ensures Next(c, s, StopDispatcher).Some? ==> s.shutdown >= 4 && Next(c, s, StopDispatcher).value.dispatcher.Stopped?
  {
  }

  /** While somebody is inside schedule(), nobody gets into any critical section of the queue: no mark is set or looked
      for, no cancel function is registered or removed, no token is considered. */
  lemma CriticalSectionsExclude(c: Config, s: State, step: Step)
    requires s.lock.Some?
    requires step.Mark? || step.Resume? || step.CheckBusy? || (step.LoadSuspended? && !step.refused)
             || (step.Work? && (step.action.CheckMark? || step.action.Judge? || step.action.Withdraw?
                                || step.action == Requeue(false) || step.action.Unregister?))
    ensures Next(c, s, step).None?
  {
    if step.Work? {
      LockedWork(c, s, step.w, step.action);
    }
  }

  lemma LockedWork(c: Config, s: State, w: WorkerId, action: Action)
    requires s.lock.Some?
    requires action.CheckMark? || action.Judge? || action.Withdraw? || action == Requeue(false) || action.Unregister?
    ensures DoWork(c, s, w, action).None?
  {
    if w in s.workers && action.Judge? {
      assert DoJudge(s, w).None?;
    } else if w in s.workers && action.Requeue? {
      assert DoRequeue(s, w, false).None?;
    }
  }

  /** With nobody inside, each of them is open to whoever has come to it. */
  lemma CriticalSectionsOpen(c: Config, s: State, w: WorkerId, t: TaskId)
    requires !s.crashed && s.lock.None? && w in s.workers && s.workers[w].task in s.tasks
    ensures Next(c, s, Mark(t)).Some?
    ensures s.dispatcher.AtSchedule? ==> Next(c, s, CheckBusy(TheDispatcher)).Some?
    ensures var p := s.workers[w].phase;
            && (p.Starting? ==> Next(c, s, Work(w, CheckMark)).Some?)
            && (p.Judging? ==> Next(c, s, Work(w, Judge)).Some?)
            && (p.Withdrawing? ==> Next(c, s, Work(w, Withdraw)).Some?)
            && (p.Requeueing? ==> Next(c, s, Work(w, Requeue(false))).Some?)
            && (p.Unregistering? ==> Next(c, s, Work(w, Unregister)).Some?)
            && (p.Scheduling? ==> Next(c, s, CheckBusy(TheWorker(w))).Some?)
  {
    assert s.workers[w].phase.Judging? ==> DoJudge(s, w).Some?;
    assert s.workers[w].phase.Requeueing? ==> DoRequeue(s, w, false).Some?;
  }

  /** The queue and the scheduler refuse only once their flags are up. */
  lemma RefusalsNeedFlags(c: Config, s: State, w: WorkerId, t: TaskId, record: Record)
    requires w in s.workers && s.workers[w].task in s.tasks
    ensures DoEnqueue(s, t, true).Some? <==> t in s.submitting && t in s.tasks && s.shutdown >= 3
    ensures DoPush(s, w, true).Some? <==> s.workers[w].phase.Pushing? && s.shutdown >= 3
    ensures DoRequeue(s, w, true).Some? <==> s.workers[w].phase.Requeueing? && s.shutdown >= 1
    ensures DoLoadSuspended(s, t, record, true).Some?
       <==> s.dispatcher.Loading? && t !in s.tasks && record.status.Suspending? && s.shutdown >= 1
  {
  }

  /** A state that an undisturbed run reaches. */
  ghost predicate ReachedUndisturbed(c: Config, s: State, t: TaskId) {
    exists steps :: Run(c, Initial, steps) == Some(s) && UndisturbedFrom(c, Initial, steps, t)
  }

  lemma ReachedIsSound(c: Config, s: State, t: TaskId)
    requires c.workerCount >= 1 && ReachedUndisturbed(c, s, t) && !s.crashed
    requires t in s.tasks && s.tasks[t].origin.retries <= c.maxRetry
    ensures Sound(c, s, t)
  {
    var steps :| Run(c, Initial, steps) == Some(s) && UndisturbedFrom(c, Initial, steps, t);
    FollowedAlong(c, steps, t);
    ClosedLateRun(c, steps);
  }

  /** Where an always failing task can be in an undisturbed run, unless the requester crashed: in error, after
      exactly as many starts of Do as there were attempts; left for the client; removed by a cancellation of
      waiting tasks; waiting for its turn, its second or a worker; or able to lower the measure within eight
      steps.  As the measure cannot fall for ever, nothing else can be its end. */
  lemma FailingTaskMovesOn(c: Config, s: State, t: TaskId)
    requires c.workerCount >= 1 && ReachedUndisturbed(c, s, t) && !s.crashed
    requires t in s.tasks && s.tasks[t].origin.retries <= c.maxRetry
    ensures var ts := s.tasks[t];
            || (ts.record.status.Error? && ts.dos == c.maxRetry - ts.origin.retries + 1)
            || ts.parked
            || (ts.place.Nowhere? && (ts.record.status.Queued? || ts.record.status.Suspending?))
            || (ts.place.Waiting? && !(Turn(s, t) && Served(c, s)))
            || CanAdvance(c, s, t, 8)
  {
    ReachedIsSound(c, s, t);
    assert TaskOk(c, s.tasks[t], s.now);
    match s.tasks[t].place
    case Nowhere =>
    case Submitting =>
      ClientCanAdvance(c, s, t);
      Sooner(c, s, t, 1, 8);
    case Waiting =>
      if Turn(s, t) && Served(c, s) {
        TurnCanAdvance(c, s, t);
      }
    case HandedOff =>
      HandedOffCanAdvance(c, s, t);
      Sooner(c, s, t, 1, 8);
    case HeldBy(w) =>
      if !Ended(s.workers[w].phase) {
        WorkerCanAdvance(c, s, t, w);
        Sooner(c, s, t, 2, 8);
      }
  }
}
