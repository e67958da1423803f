/** The dispatcher, its one-slot ready channel and the number of busy workers
    (module/queue/queue.go, `start`, `schedule` and the epilogue of `work`). */
module QueueDispatch {
  import opened Options
  import opened Tasks
  import opened QueueProtocol

  /** The activations of `work` that were started and have not yet decremented the counter. */
  function BusyWorkers(workers: map<WorkerId, Worker>): set<WorkerId> {
    set w | w in workers && IsBusy(workers[w].phase)
  }

  /** In the epilogue, with the call of schedule() still to be finished. */
  predicate Waking(p: Phase) {
    p.Blaming? || p.Unregistering? || p.Scheduling? || p.Signalling?
  }

  function Taking(d: Dispatcher): nat {
    if d.AtTasks? then 1 else 0
  }

  /** Busy workers, a dispatcher on its way to start one more, and a stored token add up to one too many at most. */
  predicate Bounded(c: Config, s: State) {
    s.counters.busy + Taking(s.dispatcher) + (if s.token then 1 else 0) <= c.workerCount + 1
  }

  predicate RequesterOk(s: State) {
    && (s.handoff.Some? ==> s.requester.Off? && s.dispatcher.AtTasks?)
    && (s.requester.Polling? || s.requester.Committed? ==> s.dispatcher.AtTasks? && s.handoff.None?)
    && (s.requester.Closed? ==> (s.dispatcher.AtTasks? || s.dispatcher.Stopped?) && s.handoff.None?)
    && (s.dispatcher.AtTasks? && s.handoff.None? ==> !s.requester.Off?)
  }

  /** Whoever is inside schedule() has seen a free worker; at most one more was started since. */
  predicate LockOk(c: Config, s: State) {
    match s.lock
    case None => true
    case Some(TheDispatcher) => s.dispatcher.AtSchedule? && s.counters.busy < c.workerCount
    case Some(TheWorker(w)) =>
      && w in s.workers && s.workers[w].phase.Signalling?
      && (s.counters.busy < c.workerCount || (s.counters.busy == c.workerCount && s.dispatcher.AtSchedule?))
  }

  ghost predicate SomeoneWaking(workers: map<WorkerId, Worker>) {
    exists w :: w in workers && Waking(workers[w].phase)
  }

  /** No lost wake-up: a dispatcher left waiting without a token has no free worker, or is about to be woken. */
  ghost predicate WakeUpOk(c: Config, s: State) {
    s.dispatcher.AtReady? && !s.token ==> s.counters.busy >= c.workerCount || SomeoneWaking(s.workers)
  }

  ghost predicate DispatchInv(c: Config, s: State) {
    && s.counters.busy == |BusyWorkers(s.workers)|
    && Bounded(c, s) && RequesterOk(s) && LockOk(c, s) && WakeUpOk(c, s)
    && forall w | w in s.workers && s.workers[w].phase.Signalling? :: s.lock == Some(TheWorker(w))
  }

  lemma BusyAfter(workers: map<WorkerId, Worker>, w: WorkerId, k: Worker)
    ensures BusyWorkers(workers[w := k])
         == if IsBusy(k.phase) then BusyWorkers(workers) + {w} else BusyWorkers(workers) - {w}
  {
  }

  /** A worker moves between busy phases, or between phases of the epilogue short of the signal. */
  predicate Moved(s: State, s': State, w: WorkerId) {
    && w in s.workers && w in s'.workers
    && s'.workers == s.workers[w := s'.workers[w]] && s'.counters.busy == s.counters.busy
    && s'.dispatcher == s.dispatcher && s'.token == s.token && s'.lock == s.lock
    && s'.requester == s.requester && s'.handoff == s.handoff
    && var before, after := s.workers[w].phase, s'.workers[w].phase;
       || after == before
       || (IsBusy(after) && IsBusy(before))
       || (Waking(after) && Waking(before) && !after.Signalling? && !before.Signalling?)
  }

  lemma SelectMoves(s: State, w: WorkerId, choice: Choice)
    requires w in s.workers && DoSelect(s, w, choice).Some?
    ensures Moved(s, DoSelect(s, w, choice).value, w)
  {
  }

  lemma AdvanceMoves(s: State, w: WorkerId, saved: bool, manual: bool)
    requires w in s.workers && s.workers[w].task in s.tasks && DoAdvance(s, w, saved, manual).Some?
    ensures Moved(s, DoAdvance(s, w, saved, manual).value, w)
  {
    var s' := DoAdvance(s, w, saved, manual).value;
    assert s'.counters == CountersAfter(s.counters, s.tasks[s.workers[w].task].record.status, s.workers[w].phase.next);
  }

  lemma JobMoves(c: Config, s: State, w: WorkerId, action: Action)
    requires DoWork(c, s, w, action).Some? && (action.JobBegin? || action.JobReturn? || action.JobRetry?)
    ensures Moved(s, DoWork(c, s, w, action).value, w)
  {
  }

  lemma TransitMoves(c: Config, s: State, w: WorkerId, action: Action)
    requires DoWork(c, s, w, action).Some? && (action.Enter? || action.Cancel? || action.Fail? || action.Blame?)
    ensures Moved(s, DoWork(c, s, w, action).value, w)
  {
  }

  lemma JudgeMoves(s: State, w: WorkerId)
    requires w in s.workers && DoJudge(s, w).Some?
    ensures Moved(s, DoJudge(s, w).value, w)
  {
    var s' := DoJudge(s, w).value;
    assert s'.workers == s.workers[w := s'.workers[w]];
    assert IsBusy(s'.workers[w].phase);
  }

  lemma RequeueMoves(s: State, w: WorkerId, refused: bool)
    requires w in s.workers && DoRequeue(s, w, refused).Some?
    ensures Moved(s, DoRequeue(s, w, refused).value, w)
  {
  }

  lemma PushMoves(s: State, w: WorkerId, refused: bool)
    requires w in s.workers && s.workers[w].task in s.tasks && DoPush(s, w, refused).Some?
    ensures Moved(s, DoPush(s, w, refused).value, w)
  {
  }

  lemma PlainMoves(c: Config, s: State, w: WorkerId, action: Action)
    requires DoWork(c, s, w, action).Some?
    requires (action.CheckMark? || action.Launch? || action.Withdraw? || action.Unregister?)
    ensures Moved(s, DoWork(c, s, w, action).value, w)
  {
  }

  lemma WorkMoves(c: Config, s: State, w: WorkerId, action: Action)
    requires DoWork(c, s, w, action).Some? && !action.Leave?
    ensures Moved(s, DoWork(c, s, w, action).value, w)
  {
    match action
    case Select(choice) => SelectMoves(s, w, choice);
    case Advance(saved, manual) => AdvanceMoves(s, w, saved, manual);
    case Enter(_) => TransitMoves(c, s, w, action);
    case Cancel(_) => TransitMoves(c, s, w, action);
    case Fail(_) => TransitMoves(c, s, w, action);
    case Blame(_) => TransitMoves(c, s, w, action);
    case Judge => JudgeMoves(s, w);
    case Requeue(refused) => RequeueMoves(s, w, refused);
    case Push(refused) => PushMoves(s, w, refused);
    case CheckMark => PlainMoves(c, s, w, action);
    case Launch => PlainMoves(c, s, w, action);
    case Withdraw => PlainMoves(c, s, w, action);
    case Unregister => PlainMoves(c, s, w, action);
    case JobBegin => JobMoves(c, s, w, action);
    case JobReturn(_, _) => JobMoves(c, s, w, action);
    case JobRetry(_) => JobMoves(c, s, w, action);
  }

  lemma MoveKeeps(c: Config, s: State, s': State, w: WorkerId)
    requires DispatchInv(c, s) && Moved(s, s', w)
    ensures DispatchInv(c, s')
  {
    BusyAfter(s.workers, w, s'.workers[w]);
    assert BusyWorkers(s'.workers) == BusyWorkers(s.workers);
    if s'.dispatcher.AtReady? && !s'.token && s'.counters.busy < c.workerCount {
      var v :| v in s.workers && Waking(s.workers[v].phase);
      assert Waking(s'.workers[v].phase);
    }
  }

  lemma LeaveDispatch(c: Config, s: State, s': State, w: WorkerId, k: Worker)
    requires DispatchInv(c, s) && w in s.workers && s.workers[w].phase.Leaving?
    requires s' == s.(workers := s.workers[w := k], counters := s.counters.(busy := Decremented(s.counters.busy)))
    requires Waking(k.phase) && !k.phase.Signalling?
    ensures DispatchInv(c, s') && s.counters.busy >= 1 && s'.counters.busy == s.counters.busy - 1
  {
    BusyAfter(s.workers, w, k);
    assert w in BusyWorkers(s.workers);
    assert Waking(s'.workers[w].phase);
  }

  lemma WorkDispatch(c: Config, s: State, w: WorkerId, action: Action)
    requires DispatchInv(c, s) && DoWork(c, s, w, action).Some?
    ensures DispatchInv(c, DoWork(c, s, w, action).value)
  {
    var s' := DoWork(c, s, w, action).value;
    if action.Leave? {
      LeaveDispatch(c, s, s', w, s'.workers[w]);
    } else {
      WorkMoves(c, s, w, action);
      MoveKeeps(c, s, s', w);
    }
  }

  lemma SpawnDispatch(c: Config, s: State, w: WorkerId)
    requires DispatchInv(c, s) && DoSpawn(s, w).Some?
    ensures DispatchInv(c, DoSpawn(s, w).value)
  {
    var s' := DoSpawn(s, w).value;
    BusyAfter(s.workers, w, s'.workers[w]);
  }

  lemma DispatcherChecks(c: Config, s: State)
    requires DispatchInv(c, s) && c.workerCount >= 1 && DoCheckBusy(c, s, TheDispatcher).Some?
    ensures DispatchInv(c, DoCheckBusy(c, s, TheDispatcher).value)
  {
  }

  /** A worker behind `busy`: none of its phases counts. */
  lemma BusyUnchanged(s: State, w: WorkerId, phase: Phase)
    requires w in s.workers && !IsBusy(s.workers[w].phase) && !IsBusy(phase)
    ensures BusyWorkers(Goto(s, w, phase).workers) == BusyWorkers(s.workers)
  {
    BusyAfter(s.workers, w, s.workers[w].(phase := phase));
  }

  lemma WorkerFindsNoRoom(c: Config, s: State, w: WorkerId)
    requires DispatchInv(c, s) && DoCheckBusy(c, s, TheWorker(w)).Some? && s.counters.busy >= c.workerCount
    ensures DispatchInv(c, DoCheckBusy(c, s, TheWorker(w)).value)
  {
    BusyUnchanged(s, w, Exited);
    assert DoCheckBusy(c, s, TheWorker(w)).value == Goto(s, w, Exited);
  }

  lemma WorkerFindsRoom(c: Config, s: State, w: WorkerId)
    requires DispatchInv(c, s) && DoCheckBusy(c, s, TheWorker(w)).Some? && s.counters.busy < c.workerCount
    ensures DispatchInv(c, DoCheckBusy(c, s, TheWorker(w)).value)
  {
    var s' := Goto(s, w, Signalling).(lock := Some(TheWorker(w)));
    assert DoCheckBusy(c, s, TheWorker(w)).value == s';
    BusyUnchanged(s, w, Signalling);
    assert w in s'.workers && Waking(s'.workers[w].phase);
    assert LockOk(c, s');
  }

  lemma WorkerChecks(c: Config, s: State, w: WorkerId)
    requires DispatchInv(c, s) && DoCheckBusy(c, s, TheWorker(w)).Some?
    ensures DispatchInv(c, DoCheckBusy(c, s, TheWorker(w)).value)
  {
    if s.counters.busy >= c.workerCount {
      WorkerFindsNoRoom(c, s, w);
    } else {
      WorkerFindsRoom(c, s, w);
    }
  }

  lemma SignalDispatch(c: Config, s: State, agent: Agent)
    requires DispatchInv(c, s) && DoSignal(s, agent).Some?
    ensures DispatchInv(c, DoSignal(s, agent).value)
  {
    var s' := DoSignal(s, agent).value;
    if agent.TheWorker? {
      BusyAfter(s.workers, agent.w, s'.workers[agent.w]);
      assert BusyWorkers(s'.workers) == BusyWorkers(s.workers);
    }
  }

  predicate Outside(step: Step) {
    step.Tick? || step.ShutdownStep? || step.Submit? || step.LoadSuspended? || step.Resume? || step.Enqueue?
    || step.CancelWaiting? || step.Mark?
  }

  predicate SameDispatch(s: State, s': State) {
    && s'.workers == s.workers && s'.counters.busy == s.counters.busy && s'.dispatcher == s.dispatcher
    && s'.token == s.token && s'.lock == s.lock && s'.requester == s.requester && s'.handoff == s.handoff
  }

  /** Steps of clients and of the environment leave the dispatch alone. */
  lemma OutsideSame(c: Config, s: State, step: Step)
    requires Outside(step) && Next(c, s, step).Some?
    ensures SameDispatch(s, Next(c, s, step).value)
  {
  }

  lemma OutsideDispatch(c: Config, s: State, s': State)
    requires DispatchInv(c, s) && SameDispatch(s, s')
    ensures DispatchInv(c, s')
  {
  }

  lemma DispatcherDispatch(c: Config, s: State, step: Step)
    requires DispatchInv(c, s) && Next(c, s, step).Some?
    requires step.EndLoading? || step.TakeToken? || step.StopDispatcher? || step.Glance? || step.Pop?
             || step.CloseTasks?
    ensures DispatchInv(c, Next(c, s, step).value)
  {
    var s' := Next(c, s, step).value;
    assert s'.workers == s.workers && s'.counters == s.counters;
  }

  lemma StepDispatch(c: Config, s: State, step: Step)
    requires DispatchInv(c, s) && c.workerCount >= 1 && Next(c, s, step).Some?
    ensures DispatchInv(c, Next(c, s, step).value)
  {
    match step
    case Work(w, action) => WorkDispatch(c, s, w, action);
    case Spawn(w) => SpawnDispatch(c, s, w);
    case CheckBusy(TheDispatcher) => DispatcherChecks(c, s);
    case CheckBusy(TheWorker(w)) => WorkerChecks(c, s, w);
    case Signal(agent) => SignalDispatch(c, s, agent);
    case EndLoading => DispatcherDispatch(c, s, step);
    case TakeToken => DispatcherDispatch(c, s, step);
    case StopDispatcher => DispatcherDispatch(c, s, step);
    case Glance => DispatcherDispatch(c, s, step);
    case Pop => DispatcherDispatch(c, s, step);
    case CloseTasks => DispatcherDispatch(c, s, step);
    case _ =>
      OutsideSame(c, s, step);
      OutsideDispatch(c, s, Next(c, s, step).value);
  }
}
