/** The queue as a state machine over interleaved steps (module/queue/queue.go).

    One step is what one goroutine does between two points where another may get in: a critical section, an
    atomic operation, a channel operation, or one attempt to change a task's status together with its
    counters.  Fields described as HISTORY exist only to state properties; no guard of the queue reads them. */
module QueueProtocol {
  import opened Options
  import opened Tasks
  import opened FifoSchedulers

  type TaskId = int
  type WorkerId = nat

  const NANOS := 1_000_000_000

  /** `workerCount` is at least one (module/queue/options.go). */
  datatype Config = Config(workerCount: nat, maxRetry: int)

  // Tasks.

  /** HISTORY: who has the task. */
  datatype Place = Nowhere | Submitting | Waiting | HandedOff | HeldBy(w: WorkerId)

  datatype TaskState = TaskState(
    record: Record,
    origin: Record,             // HISTORY: the record as it was handed to the queue
    place: Place,
    parked: bool,               // HISTORY: suspended, left for the client to resume
    clean: bool,                // HISTORY: no attempt to persist it has failed
    succeeded: bool,            // HISTORY: it has raised the success counter
    failed: bool,               // HISTORY: it has raised the failure counter
    gauged: bool,               // HISTORY: its unit of the suspending gauge is outstanding
    dos: nat,                   // HISTORY: how often Do was started
    retryDue: Option<int>)      // HISTORY: resume second of a retry decided since Do last started

  /** One attempt to change the status, as seen by the task. */
  function Attempt(ts: TaskState, to: Status, saved: bool): TaskState {
    match Transition(ts.record.status, to)
    case None => ts
    case Some(e) =>
      ts.(record := ts.record.(status := StatusAfter(ts.record.status, to, saved)),
          clean := ts.clean && (saved || !e.persists),
          succeeded := ts.succeeded || e.success,
          failed := ts.failed || e.failure,
          gauged := (ts.gauged || e.gaugeUp) && !e.gaugeDown)
  }

  // Workers and the goroutines that run Do.

  datatype Err = Err(critical: bool, canceled: bool, text: string)

  datatype Outcome = Panics | Returns(next: Status, err: Option<Err>)

  /** The goroutine that `run` starts for one iteration; it outlives the iteration when that is abandoned. */
  datatype Job =
    | NoJob
    | Spawned                                   // started, Do not called yet
    | Doing                                     // inside Do
    | Deciding(cause: Err)                      // Do failed, a retry is due
    | Finished(next: Status, err: Option<Err>)  // result sent
    | Burst                                     // panic sent

  predicate Active(job: Job) {
    job.Spawned? || job.Doing? || job.Deciding?
  }

  datatype Phase =
    | Starting              // before the check of cancelledIDs
    | Entering              // cancel function registered, before the move to Processing
    | Launching             // head of the iteration loop
    | Running               // in the select of run
    | Judging(next: Status) // run returned without error, before the mark is consumed
    | Withdrawing           // run returned context.Canceled, before the mark is consumed
    | Canceling             // before the move to Canceled
    | Failing               // before the move to Error
    | Advancing(next: Status)
    | Requeueing            // suspended, in QueueTask before the mark is consumed
    | Pushing               // before scheduler.Queue
    | Leaving(panicked: bool) // in the deferred epilogue, before busyWorkers is decremented
    | Blaming               // recovered, before the move to Error
    | Unregistering
    | Scheduling            // before schedule() takes the lock
    | Signalling            // in schedule(), below the bound, holding the lock
    | Exited

  predicate IsBusy(p: Phase) {
    !p.Blaming? && !p.Unregistering? && !p.Scheduling? && !p.Signalling? && !p.Exited?
  }

  /** The worker has done its last transition and given the task up. */
  predicate Ended(p: Phase) {
    p == Leaving(false) || p.Unregistering? || p.Scheduling? || p.Signalling? || p.Exited?
  }

  datatype Worker = Worker(
    task: TaskId,
    phase: Phase,
    job: Job,
    launched: bool,        // HISTORY: an iteration was started
    preMarked: bool,       // the start check found a mark; otherwise the cancel function was registered
    markedAtReturn: bool)  // HISTORY: the task was marked when run last returned

  // The rest of the queue.

  datatype Agent = TheDispatcher | TheWorker(w: WorkerId)

  datatype Dispatcher = Loading | AtSchedule | AtReady | AtTasks | Stopped

  /** The goroutine that asks the scheduler for a task; at most one exists. */
  datatype Requester = Off | Polling | Committed | Closed

  datatype State = State(
    now: nat,                          // nanoseconds
    shutdown: nat,                     // 1 stopFlag, 2 root context cancelled, 3 scheduler stopped, 4 quit closed
    crashed: bool,                     // the requester dereferenced a nil slot
    tasks: map<TaskId, TaskState>,
    submitting: set<TaskId>,           // client calls of QueueTask before scheduler.Queue
    waiting: seq<TaskId>,              // the scheduler, top last
    handoff: Option<TaskId>,           // from the requester to the dispatcher
    requester: Requester,
    dispatcher: Dispatcher,
    token: bool,                       // the ready channel
    lock: Option<Agent>,               // who is inside schedule()
    counters: Counters,
    marks: set<TaskId>,                // cancelledIDs
    running: map<TaskId, WorkerId>,    // runningCancels
    signalled: set<WorkerId>,          // workers whose context was cancelled
    workers: map<WorkerId, Worker>)

  const Initial := State(0, 0, false, map[], {}, [], None, Off, Loading, false, None,
                         Counters(0, 0, 0, 0, 0), {}, map[], {}, map[])

  function Second(now: nat): int {
    now / NANOS
  }

  // Steps.

  datatype Choice = TakeResult | TakePanic | TimeOut | ContextDone

  datatype Action =
    | CheckMark | Enter(saved: bool) | Launch | Select(choice: Choice) | Judge | Withdraw
    | Cancel(saved: bool) | Fail(saved: bool) | Advance(saved: bool, manual: bool)
    | Requeue(refused: bool) | Push(refused: bool) | Leave | Blame(saved: bool) | Unregister
    | JobBegin | JobReturn(outcome: Outcome, resumeAfter: Option<int>) | JobRetry(delay: nat)

  datatype Step =
    | Tick(elapsed: nat)
    | ShutdownStep
    | Submit(t: TaskId, record: Record, saved: bool)
    | LoadSuspended(t: TaskId, record: Record, refused: bool)
    | Resume(t: TaskId)
    | Enqueue(t: TaskId, refused: bool)
    | CancelWaiting(targets: set<TaskId>)
    | Mark(t: TaskId)
    | EndLoading
    | TakeToken
    | Spawn(w: WorkerId)
    | StopDispatcher
    | CheckBusy(agent: Agent)
    | Signal(agent: Agent)
    | Glance
    | Pop
    | CloseTasks
    | Work(w: WorkerId, action: Action)

  function SetPlace(s: State, t: TaskId, place: Place): State
    requires t in s.tasks
  {
    s.(tasks := s.tasks[t := s.tasks[t].(place := place)])
  }

  function SetWorker(s: State, w: WorkerId, k: Worker): State {
    s.(workers := s.workers[w := k])
  }

  function Goto(s: State, w: WorkerId, phase: Phase): State
    requires w in s.workers
  {
    SetWorker(s, w, s.workers[w].(phase := phase))
  }

  /** transitStatus: the counters and the status in one step. */
  function Transit(s: State, t: TaskId, to: Status, saved: bool): (r: State)
    requires t in s.tasks
    ensures r.tasks.Keys == s.tasks.Keys && r == s.(counters := r.counters, tasks := r.tasks)
  {
    s.(counters := CountersAfter(s.counters, s.tasks[t].record.status, to),
       tasks := s.tasks[t := Attempt(s.tasks[t], to, saved)])
  }

  function Guarded(enabled: bool, s: State): Option<State> {
    if enabled then Some(s) else None
  }

  // The environment and the clients.  A refusal needs its flag to be up; an acceptance does not need it to
  // be down, because the unlocked check may have been made before.

  predicate Submittable(status: Status) {
    status.Fresh? || status.Queued? || status.Processing?
  }

  function DoSubmit(s: State, t: TaskId, record: Record, saved: bool): Option<State> {
    var unseen := TaskState(record, record, Nowhere, false, true, false, false, false, 0, None);
    var queued := Attempt(unseen, Queued, saved);
    var counted := s.counters.(submitted := s.counters.submitted + 1);
    var counters := CountersAfter(counted, record.status, Queued);
    Guarded(t !in s.tasks && Submittable(record.status),
      if queued.clean
      then s.(counters := counters, tasks := s.tasks[t := queued.(place := Submitting)],
              submitting := s.submitting + {t})
      else s.(counters := counters, tasks := s.tasks[t := queued]))
  }

  function DoLoadSuspended(s: State, t: TaskId, record: Record, refused: bool): Option<State> {
    var loaded := TaskState(record, record, Nowhere, false, true, false, false, true, 0, None);
    var counters := s.counters.(submitted := s.counters.submitted + 1, suspending := s.counters.suspending + 1);
    Guarded(
      && s.dispatcher.Loading? && t !in s.tasks && record.status.Suspending?
      && (if refused then s.shutdown >= 1 else s.lock.None?),
      if refused then s.(counters := counters, tasks := s.tasks[t := loaded])
      else s.(counters := counters, tasks := s.tasks[t := loaded.(place := Submitting)],
              submitting := s.submitting + {t}, marks := s.marks - {t}))
  }

  function DoResume(s: State, t: TaskId): Option<State> {
    if t in s.tasks && s.tasks[t].parked && s.lock.None? then
      Some(s.(tasks := s.tasks[t := s.tasks[t].(place := Submitting, parked := false)],
              submitting := s.submitting + {t}, marks := s.marks - {t}))
    else None
  }

  function PushWaiting(s: State, t: TaskId): State
    requires t in s.tasks
  {
    SetPlace(s, t, Waiting).(waiting := WithoutIds(s.waiting, {t}) + [t])
  }

  function DoEnqueue(s: State, t: TaskId, refused: bool): Option<State> {
    if t in s.submitting && t in s.tasks && (refused ==> s.shutdown >= 3) then
      var s' := s.(submitting := s.submitting - {t});
      Some(if refused then SetPlace(s', t, Nowhere) else PushWaiting(s', t))
    else None
  }

  function DoCancelWaiting(s: State, targets: set<TaskId>): Option<State> {
    Some(s.(waiting := WithoutIds(s.waiting, targets),
            tasks := map t | t in s.tasks ::
              if t in targets && s.tasks[t].place.Waiting? then s.tasks[t].(place := Nowhere) else s.tasks[t]))
  }

  function DoMark(s: State, t: TaskId): Option<State> {
    Guarded(s.lock.None?,
      s.(marks := s.marks + {t},
         signalled := if t in s.running then s.signalled + {s.running[t]} else s.signalled))
  }

  // The dispatcher and the requester.

  function DoCheckBusy(c: Config, s: State, agent: Agent): Option<State> {
    if s.lock.Some? then None
    else
      match agent
      case TheDispatcher =>
        Guarded(s.dispatcher.AtSchedule?,
          if s.counters.busy >= c.workerCount then s.(dispatcher := AtReady) else s.(lock := Some(agent)))
      case TheWorker(w) =>
        if w in s.workers && s.workers[w].phase.Scheduling? then
          Some(if s.counters.busy >= c.workerCount then Goto(s, w, Exited)
               else Goto(s, w, Signalling).(lock := Some(agent)))
        else None
  }

  function DoSignal(s: State, agent: Agent): Option<State> {
    if s.lock != Some(agent) then None
    else
      match agent
      case TheDispatcher => Guarded(s.dispatcher.AtSchedule?, s.(token := true, lock := None, dispatcher := AtReady))
      case TheWorker(w) =>
        if w in s.workers && s.workers[w].phase.Signalling? then Some(Goto(s, w, Exited).(token := true, lock := None))
        else None
  }

  function DoSpawn(s: State, w: WorkerId): Option<State> {
    if s.dispatcher.AtTasks? && s.handoff.Some? && s.handoff.value in s.tasks && w !in s.workers then
      var t := s.handoff.value;
      Some(SetWorker(SetPlace(s, t, HeldBy(w)), w, Worker(t, Starting, NoJob, false, false, false))
           .(handoff := None, dispatcher := AtSchedule, counters := s.counters.(busy := s.counters.busy + 1)))
    else None
  }

  function DoPop(s: State): Option<State> {
    if !s.requester.Committed? then None
    else if s.waiting == [] then Some(s.(crashed := true))
    else
      var top := s.waiting[|s.waiting| - 1];
      if top !in s.tasks then None
      else if s.tasks[top].record.resumeAt > Second(s.now) then Some(s.(requester := Polling))
      else Some(SetPlace(s, top, HandedOff)
                .(waiting := s.waiting[..|s.waiting| - 1], handoff := Some(top), requester := Off))
  }

  // The workers.

  function DoSelect(s: State, w: WorkerId, choice: Choice): Option<State>
    requires w in s.workers
  {
    var k := s.workers[w].(markedAtReturn := s.workers[w].task in s.marks);
    if !k.phase.Running? then None
    else
      match choice
      case TakeResult =>
        if !k.job.Finished? then None
        else
          var phase := if k.job.err.None? then Judging(k.job.next)
                       else if k.job.err.value.canceled then Withdrawing else Failing;
          Some(SetWorker(s, w, k.(job := NoJob, phase := phase)))
      case TakePanic => Guarded(k.job.Burst?, SetWorker(s, w, k.(job := NoJob, phase := Leaving(true))))
      case TimeOut => Some(SetWorker(s, w, k.(phase := Failing)))
      case ContextDone => Guarded(w in s.signalled || s.shutdown >= 2, SetWorker(s, w, k.(phase := Withdrawing)))
  }

  function DoJudge(s: State, w: WorkerId): Option<State>
    requires w in s.workers
  {
    var k := s.workers[w];
    if !k.phase.Judging? || s.lock.Some? then None
    else if k.task in s.marks then Some(Goto(s, w, Canceling).(marks := s.marks - {k.task}))
    else Some(Goto(s, w, Advancing(k.phase.next)))
  }

  function DoAdvance(s: State, w: WorkerId, saved: bool, manual: bool): Option<State>
    requires w in s.workers && s.workers[w].task in s.tasks
  {
    var k := s.workers[w];
    if !k.phase.Advancing? then None
    else
      var suspended := k.phase.next.Suspending? && saved;
      var phase := if k.phase.next.Processing? then Launching
                   else if suspended && !manual then Requeueing else Leaving(false);
      var ts := Attempt(s.tasks[k.task], k.phase.next, saved);
      var left := if suspended && manual then ts.(place := Nowhere, parked := true) else ts;
      Some(Goto(s, w, phase)
           .(counters := CountersAfter(s.counters, s.tasks[k.task].record.status, k.phase.next),
             tasks := s.tasks[k.task := left]))
  }

  function DoRequeue(s: State, w: WorkerId, refused: bool): Option<State>
    requires w in s.workers
  {
    var k := s.workers[w];
    if !k.phase.Requeueing? then None
    else if refused then Guarded(s.shutdown >= 1, Goto(s, w, Leaving(false)))
    else Guarded(s.lock.None?, Goto(s, w, Pushing).(marks := s.marks - {k.task}))
  }

  function DoPush(s: State, w: WorkerId, refused: bool): Option<State>
    requires w in s.workers && s.workers[w].task in s.tasks
  {
    var k := s.workers[w];
    if !k.phase.Pushing? then None
    else if refused then Guarded(s.shutdown >= 3, Goto(s, w, Leaving(false)))
    else Some(Goto(PushWaiting(s, k.task), w, Leaving(false)))
  }

  function DoJobBegin(s: State, w: WorkerId): Option<State>
    requires w in s.workers && s.workers[w].task in s.tasks
  {
    var k := s.workers[w];
    var ts := s.tasks[k.task];
    if !k.job.Spawned? then None
    else
      Some(SetWorker(s, w, k.(job := Doing)).(tasks := s.tasks[k.task := ts.(dos := ts.dos + 1, retryDue := None)]))
  }

  function DoJobReturn(c: Config, s: State, w: WorkerId, outcome: Outcome, resumeAfter: Option<int>): Option<State>
    requires w in s.workers && s.workers[w].task in s.tasks
  {
    var k := s.workers[w];
    var ts := s.tasks[k.task];
    if !k.job.Doing? then None
    else
      var job :=
        match outcome
        case Panics => Burst
        case Returns(next, err) =>
          if err.Some? && c.maxRetry - ts.record.retries > 0 && !err.value.critical && s.shutdown == 0
          then Deciding(err.value) else Finished(next, err);
      var record := if resumeAfter.Some? then ts.record.(resumeAt := resumeAfter.value) else ts.record;
      Some(SetWorker(s, w, k.(job := job)).(tasks := s.tasks[k.task := ts.(record := record)]))
  }

  /** OnRetry and OnSuspend, and the result that replaces the error. */
  function DoJobRetry(s: State, w: WorkerId, delay: nat): Option<State>
    requires w in s.workers && s.workers[w].task in s.tasks
  {
    var k := s.workers[w];
    var ts := s.tasks[k.task];
    if !k.job.Deciding? then None
    else
      var due := Second(s.now + delay);
      var record := ts.record.(retries := ts.record.retries + 1,
                               history := ts.record.history + [k.job.cause.text], resumeAt := due);
      Some(SetWorker(s, w, k.(job := Finished(Suspending, None)))
           .(tasks := s.tasks[k.task := ts.(record := record, retryDue := Some(due))]))
  }

  function DoWork(c: Config, s: State, w: WorkerId, action: Action): Option<State> {
    if w !in s.workers || s.workers[w].task !in s.tasks then None
    else
      var k := s.workers[w];
      var t := k.task;
      match action
      case CheckMark =>
        if !k.phase.Starting? || s.lock.Some? then None
        else if t in s.marks then
          Some(SetWorker(s, w, k.(phase := Canceling, preMarked := true)).(marks := s.marks - {t}))
        else Some(Goto(s, w, Entering).(running := s.running[t := w]))
      case Enter(saved) =>
        Guarded(k.phase.Entering?,
          Goto(Transit(s, t, Processing, saved), w,
               if StatusAfter(s.tasks[t].record.status, Processing, saved).Processing?
               then Launching else Leaving(true)))
      case Launch =>
        Guarded(k.phase.Launching?, SetWorker(s, w, k.(phase := Running, job := Spawned, launched := true)))
      case Select(choice) => DoSelect(s, w, choice)
      case Judge => DoJudge(s, w)
      case Withdraw => Guarded(k.phase.Withdrawing? && s.lock.None?, Goto(s, w, Canceling).(marks := s.marks - {t}))
      case Cancel(saved) => Guarded(k.phase.Canceling?, Goto(Transit(s, t, Canceled, saved), w, Leaving(false)))
      case Fail(saved) => Guarded(k.phase.Failing?, Goto(Transit(s, t, Error, saved), w, Leaving(false)))
      case Advance(saved, manual) => DoAdvance(s, w, saved, manual)
      case Requeue(refused) => DoRequeue(s, w, refused)
      case Push(refused) => DoPush(s, w, refused)
      case Leave =>
        Guarded(k.phase.Leaving?,
          Goto(s, w, if k.phase == Leaving(true) then Blaming else if k.preMarked then Scheduling else Unregistering)
          .(counters := s.counters.(busy := Decremented(s.counters.busy))))
      case Blame(saved) => Guarded(k.phase.Blaming?, Goto(Transit(s, t, Error, saved), w, Unregistering))
      case Unregister =>
        Guarded(k.phase.Unregistering? && s.lock.None?, Goto(s, w, Scheduling).(running := s.running - {t}))
      case JobBegin => DoJobBegin(s, w)
      case JobReturn(outcome, resumeAfter) => DoJobReturn(c, s, w, outcome, resumeAfter)
      case JobRetry(delay) => DoJobRetry(s, w, delay)
  }

  function Next(c: Config, s: State, step: Step): Option<State> {
    if s.crashed then None
    else
      match step
      case Tick(elapsed) => Some(s.(now := s.now + elapsed))
      case ShutdownStep => Guarded(s.shutdown < 4, s.(shutdown := s.shutdown + 1))
      case Submit(t, record, saved) => DoSubmit(s, t, record, saved)
      case LoadSuspended(t, record, refused) => DoLoadSuspended(s, t, record, refused)
      case Resume(t) => DoResume(s, t)
      case Enqueue(t, refused) => DoEnqueue(s, t, refused)
      case CancelWaiting(targets) => DoCancelWaiting(s, targets)
      case Mark(t) => DoMark(s, t)
      case EndLoading => Guarded(s.dispatcher.Loading?, s.(dispatcher := AtSchedule))
      case TakeToken =>
        Guarded(s.dispatcher.AtReady? && s.token, s.(token := false, dispatcher := AtTasks, requester := Polling))
      case Spawn(w) => DoSpawn(s, w)
      case StopDispatcher =>
        Guarded((s.dispatcher.AtReady? && s.shutdown >= 4) || (s.dispatcher.AtTasks? && s.requester.Closed?),
                s.(dispatcher := Stopped))
      case CheckBusy(agent) => DoCheckBusy(c, s, agent)
      case Signal(agent) => DoSignal(s, agent)
      case Glance => Guarded(s.requester.Polling? && s.waiting != [], s.(requester := Committed))
      case Pop => DoPop(s)
      case CloseTasks => Guarded(s.requester.Polling? && s.shutdown >= 4, s.(requester := Closed))
      case Work(w, action) => DoWork(c, s, w, action)
  }

  /** The state after a run of steps, if every one of them is enabled. */
  function Run(c: Config, s: State, steps: seq<Step>): Option<State> {
    if steps == [] then Some(s)
    else
      var before := Run(c, s, steps[..|steps| - 1]);
      if before.None? then None else Next(c, before.value, steps[|steps| - 1])
  }

  ghost predicate Reachable(c: Config, s: State) {
    exists steps :: Run(c, Initial, steps) == Some(s)
  }
}
