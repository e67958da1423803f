/** What every step of the queue keeps, task by task and worker by worker. */
module QueueInvariant {
  import opened Options
  import opened Tasks
  import opened FifoSchedulers
  import opened QueueProtocol

  // One task.

  predicate Open(ts: TaskState) {
    !ts.succeeded && !ts.failed
  }

  /** Fit to be picked up: queued or suspended, nothing counted yet but a suspended task's gauge unit. */
  predicate Ready(ts: TaskState) {
    && (ts.record.status.Queued? || ts.record.status.Suspending?)
    && Open(ts) && (ts.gauged <==> ts.record.status.Suspending?)
  }

  predicate InProgress(ts: TaskState) {
    ts.record.status.Processing? && Open(ts) && !ts.gauged
  }

  /** Every retry was entered in the history, and none was made at or past the limit. */
  predicate RetriesOk(c: Config, ts: TaskState) {
    && ts.record.retries - ts.origin.retries == |ts.record.history| - |ts.origin.history|
    && ts.origin.retries <= ts.record.retries
    && (ts.record.retries <= ts.origin.retries || ts.record.retries <= c.maxRetry)
  }

  /** As long as persisting worked, the status says what was counted. */
  predicate CountsOk(ts: TaskState) {
    && !(ts.succeeded && ts.failed)
    && !(ts.gauged && !Open(ts))
    && (ts.clean ==>
          && !ts.record.status.Fresh?
          && (ts.succeeded <==> ts.record.status.Completed?)
          && (ts.failed <==> ts.record.status.Error? || ts.record.status.Canceled?)
          && (ts.gauged <==> ts.record.status.Suspending?))
  }

  /** A pending retry's second is the one the scheduler will look at. */
  predicate DueKept(ts: TaskState) {
    ts.retryDue.Some? ==> ts.retryDue.value == ts.record.resumeAt
  }

  predicate DuePassed(ts: TaskState, now: nat) {
    ts.retryDue.Some? ==> ts.retryDue.value <= Second(now)
  }

  predicate TaskOk(c: Config, ts: TaskState, now: nat) {
    && RetriesOk(c, ts) && CountsOk(ts)
    && (ts.parked ==> ts.place.Nowhere? && Ready(ts) && ts.record.status.Suspending? && DueKept(ts))
    && (ts.place.Submitting? || ts.place.Waiting? ==> Ready(ts) && DueKept(ts))
    && (ts.place.HandedOff? ==> Ready(ts) && DuePassed(ts, now))
  }

  // One worker.

  /** A task that a panic left to its worker; if it is still suspended, the panic came before the first iteration. */
  predicate Panicked(k: Worker, ts: TaskState) {
    && Open(ts) && !Terminal(ts.record.status) && !ts.record.status.Fresh? && !ts.gauged
    && (ts.record.status.Suspending? ==> !k.launched)
  }

  /** What a worker knows of the task it holds. */
  predicate HeldOk(k: Worker, ts: TaskState) {
    match k.phase
    case Starting => Ready(ts)
    case Entering => Ready(ts)
    case Launching => InProgress(ts)
    case Running => InProgress(ts)
    case Judging(_) => InProgress(ts)
    case Withdrawing => InProgress(ts)
    case Failing => InProgress(ts)
    case Advancing(_) => InProgress(ts)
    case Canceling => Open(ts) && !Terminal(ts.record.status) && !ts.record.status.Fresh?
                      && (ts.gauged <==> ts.record.status.Suspending?)
    case Requeueing => Ready(ts) && ts.record.status.Suspending? && DueKept(ts)
    case Pushing => Ready(ts) && ts.record.status.Suspending? && DueKept(ts)
    case Leaving(panicked) => panicked ==> Panicked(k, ts)
    case Blaming => Panicked(k, ts)
    case _ => true
  }

  /** Only a worker in `run`, or one that has left it with the job abandoned, has a job. */
  predicate JobOk(k: Worker) {
    && (k.phase.Running? ==> !k.job.NoJob?)
    && (!k.job.NoJob? ==>
        k.phase.Running? || k.phase.Withdrawing? || k.phase.Failing? || k.phase.Canceling? || Ended(k.phase))
    && (!k.launched ==>
        k.job.NoJob? && (k.phase.Starting? || k.phase.Entering? || k.phase.Launching? || k.phase.Canceling?
                                         || k.phase == Leaving(true) || k.phase.Blaming? || Ended(k.phase)))
    && (k.phase.Starting? || k.phase.Entering? ==> !k.launched)
  }

  /** A retry that is on its way to the scheduler keeps its second; one that comes from there is due. */
  predicate RetryOk(c: Config, k: Worker, ts: TaskState, now: nat) {
    && (k.phase.Starting? || k.phase.Entering? || k.phase.Launching? || k.job.Spawned? ==> DuePassed(ts, now))
    && (k.job.Doing? ==> ts.retryDue.None?)
    && (k.job.Deciding? ==> ts.retryDue.None? && ts.record.retries < c.maxRetry)
    && (k.phase.Running? && k.job.Finished? ==> OnlySuspendedIsDue(ts, k.job.next))
    && (k.phase.Judging? ==> OnlySuspendedIsDue(ts, k.phase.next))
    && (k.phase.Advancing? ==> OnlySuspendedIsDue(ts, k.phase.next))
  }

  predicate OnlySuspendedIsDue(ts: TaskState, next: Status) {
    ts.retryDue.Some? ==> next.Suspending? && ts.retryDue.value == ts.record.resumeAt
  }

  /** A mark that was seen decides how the activation ends. */
  predicate MarkOk(k: Worker, ts: TaskState, w: WorkerId, marked: bool) {
    && (k.preMarked ==>
          && !k.launched
          && (k.phase.Canceling? || (Ended(k.phase) && !k.phase.Unregistering? && FinalIn(ts, w, {Canceled}))))
    && (k.markedAtReturn ==>
          || (k.phase.Judging? && marked)
          || k.phase.Withdrawing? || k.phase.Failing? || k.phase.Canceling?
          || k.phase == Leaving(true) || k.phase.Blaming?
          || (Ended(k.phase) && FinalIn(ts, w, {Canceled, Error})))
  }

  /** Worker w was the last to have the task, counted it as a failure, and left it with one of the statuses. */
  predicate FinalIn(ts: TaskState, w: WorkerId, statuses: set<Status>) {
    ts.place == HeldBy(w) && ts.failed && (ts.clean ==> ts.record.status in statuses)
  }

  /** Worker w, its task, and whether the task is marked. */
  predicate PairOk(c: Config, k: Worker, ts: TaskState, w: WorkerId, now: nat, marked: bool) {
    && (!Ended(k.phase) || Active(k.job) ==> ts.place == HeldBy(w))
    && HeldOk(k, ts) && JobOk(k) && RetryOk(c, k, ts, now) && MarkOk(k, ts, w, marked)
  }

  predicate WorkerOk(c: Config, s: State, w: WorkerId)
    requires w in s.workers
  {
    var k := s.workers[w];
    k.task in s.tasks && PairOk(c, k, s.tasks[k.task], w, s.now, k.task in s.marks)
  }

  // The places.

  /** Each container agrees with the task's own idea of where it is. */
  predicate PlacesOk(s: State) {
    && (forall i | 0 <= i < |s.waiting| :: s.waiting[i] in s.tasks && s.tasks[s.waiting[i]].place.Waiting?)
    && (forall i, j | 0 <= i < j < |s.waiting| :: s.waiting[i] != s.waiting[j])
    && (s.handoff.Some? ==> s.handoff.value in s.tasks && s.tasks[s.handoff.value].place.HandedOff?)
    && (forall t | t in s.submitting :: t in s.tasks && s.tasks[t].place.Submitting?)
  }

  ghost predicate Inv(c: Config, s: State) {
    && PlacesOk(s)
    && (forall t | t in s.tasks :: TaskOk(c, s.tasks[t], s.now))
    && (forall w | w in s.workers :: WorkerOk(c, s, w))
  }

  // Steps that touch one worker and the task it holds.

  lemma {:induction false} WithoutIdsMeaning(ids: seq<TaskId>, targets: set<TaskId>)
    ensures forall t :: t in WithoutIds(ids, targets) <==> t in ids && t !in targets
    ensures (forall i, j | 0 <= i < j < |ids| :: ids[i] != ids[j]) ==>
              forall i, j | 0 <= i < j < |WithoutIds(ids, targets)| ::
                  WithoutIds(ids, targets)[i] != WithoutIds(ids, targets)[j]
  {
    if ids != [] {
      var front, last := ids[..|ids| - 1], ids[|ids| - 1];
      WithoutIdsMeaning(front, targets);
      assert ids == front + [last];
      var kept := WithoutIds(ids, targets);
      if forall i, j | 0 <= i < j < |ids| :: ids[i] != ids[j] {
        assert last !in front;
        forall i, j | 0 <= i < j < |kept|
          ensures kept[i] != kept[j]
        {
          assert kept[i] in kept;
          if j == |kept| - 1 && last !in targets {
            assert kept[i] == WithoutIds(front, targets)[i] && kept[i] in WithoutIds(front, targets);
          }
        }
      }
    }
  }

  /** What later steps of a worker never take back. */
  predicate Remembers(k: Worker, k': Worker) {
    && k'.task == k.task
    && (k.launched ==> k'.launched)
    && (k.preMarked ==> k'.preMarked)
    && (k.markedAtReturn && !k.phase.Running? ==> k'.markedAtReturn)
  }

  /** Nothing but worker w and the task it works on has changed, apart from the task's mark. */
  predicate OnlyAt(s: State, s': State, w: WorkerId)
    requires w in s.workers && w in s'.workers && s.workers[w].task in s.tasks && s.workers[w].task in s'.tasks
  {
    var t := s.workers[w].task;
    && s'.workers == s.workers[w := s'.workers[w]] && Remembers(s.workers[w], s'.workers[w])
    && s'.tasks == s.tasks[t := s'.tasks[t]]
    && s'.now == s.now && (s'.marks == s.marks || s'.marks == s.marks - {t})
  }

  predicate SameContainers(s: State, s': State) {
    s'.waiting == s.waiting && s'.handoff == s.handoff && s'.submitting == s.submitting
  }

  /** A worker that gave its task up has no claim left on it, so whoever holds it may change it. */
  lemma OthersUnaffected(c: Config, s: State, s': State, w: WorkerId, other: WorkerId)
    requires Inv(c, s) && w in s.workers && w in s'.workers && s.workers[w].task in s.tasks
    requires s.workers[w].task in s'.tasks
    requires OnlyAt(s, s', w)
    requires s.tasks[s.workers[w].task].place == HeldBy(w) || (s'.tasks == s.tasks && s'.marks == s.marks)
    requires other in s.workers && other != w
    ensures WorkerOk(c, s', other)
  {
    assert WorkerOk(c, s, other);
  }

  /** Worker w and its task, the part of the invariant a step of w starts from. */
  predicate Local(c: Config, s: State, w: WorkerId) {
    && w in s.workers && s.workers[w].task in s.tasks
    && TaskOk(c, s.tasks[s.workers[w].task], s.now) && WorkerOk(c, s, w)
  }

  /** A step of w that only changes w and, if w holds it, w's task. */
  predicate LocalStep(c: Config, s: State, s': State, w: WorkerId)
    requires Local(c, s, w)
  {
    var t := s.workers[w].task;
    && Local(c, s', w) && s'.workers[w].task == t && OnlyAt(s, s', w)
    && (s.tasks[t].place == HeldBy(w) || (s'.tasks == s.tasks && s'.marks == s.marks))
  }

  /** In addition the task stays where it is. */
  predicate StayingStep(c: Config, s: State, s': State, w: WorkerId)
    requires Local(c, s, w)
  {
    && LocalStep(c, s, s', w) && SameContainers(s, s')
    && s'.tasks[s.workers[w].task].place == s.tasks[s.workers[w].task].place
  }

  lemma LocalPart(c: Config, s: State, w: WorkerId)
    requires Inv(c, s) && w in s.workers
    ensures Local(c, s, w)
  {
    assert WorkerOk(c, s, w);
  }

  lemma LocalStepKeeps(c: Config, s: State, s': State, w: WorkerId)
    requires Inv(c, s) && Local(c, s, w) && LocalStep(c, s, s', w) && PlacesOk(s')
    ensures Inv(c, s')
  {
    forall other | other in s'.workers
      ensures WorkerOk(c, s', other)
    {
      if other != w {
        OthersUnaffected(c, s, s', w, other);
      }
    }
  }

  lemma StayingStepKeeps(c: Config, s: State, s': State, w: WorkerId)
    requires Inv(c, s) && Local(c, s, w) && StayingStep(c, s, s', w)
    ensures Inv(c, s')
  {
    var t := s.workers[w].task;
    forall u | u in s.tasks
      ensures u in s'.tasks && s'.tasks[u].place == s.tasks[u].place
    {
    }
    assert PlacesOk(s');
    LocalStepKeeps(c, s, s', w);
  }

  /** The rest of such a step is about the worker and the task alone. */
  lemma PairStep(c: Config, s: State, s': State, w: WorkerId, k: Worker, ts: TaskState, marked: bool)
    requires Local(c, s, w)
    requires var t := s.workers[w].task;
             && Remembers(s.workers[w], k)
             && s'.workers == s.workers[w := k] && s'.tasks == s.tasks[t := ts]
             && s'.now == s.now && SameContainers(s, s')
             && s'.marks == (if marked then s.marks else s.marks - {t}) && (marked ==> t in s.marks)
             && ts.place == s.tasks[t].place == HeldBy(w)
    requires TaskOk(c, ts, s.now) && PairOk(c, k, ts, w, s.now, marked)
    ensures StayingStep(c, s, s', w)
  {
  }

  lemma CheckMarkPair(c: Config, k: Worker, ts: TaskState, w: WorkerId, now: nat, marked: bool)
    requires TaskOk(c, ts, now) && PairOk(c, k, ts, w, now, marked) && k.phase.Starting?
    ensures marked ==> PairOk(c, k.(phase := Canceling, preMarked := true), ts, w, now, false)
    ensures !marked ==> PairOk(c, k.(phase := Entering), ts, w, now, false)
  {
  }

  lemma CheckMarkLocal(c: Config, s: State, w: WorkerId)
    requires Local(c, s, w) && DoWork(c, s, w, CheckMark).Some?
    ensures StayingStep(c, s, DoWork(c, s, w, CheckMark).value, w)
  {
    var s' := DoWork(c, s, w, CheckMark).value;
    var k, ts := s.workers[w], s.tasks[s.workers[w].task];
    var marked := k.task in s.marks;
    CheckMarkPair(c, k, ts, w, s.now, marked);
    if marked {
      PairStep(c, s, s', w, k.(phase := Canceling, preMarked := true), ts, false);
    } else {
      PairStep(c, s, s', w, k.(phase := Entering), ts, false);
    }
  }

  lemma LaunchPair(c: Config, k: Worker, ts: TaskState, w: WorkerId, now: nat, marked: bool)
    requires TaskOk(c, ts, now) && PairOk(c, k, ts, w, now, marked) && k.phase.Launching?
    ensures PairOk(c, k.(phase := Running, job := Spawned, launched := true), ts, w, now, marked)
  {
  }

  lemma LaunchLocal(c: Config, s: State, w: WorkerId)
    requires Local(c, s, w) && DoWork(c, s, w, Launch).Some?
    ensures StayingStep(c, s, DoWork(c, s, w, Launch).value, w)
  {
    var s' := DoWork(c, s, w, Launch).value;
    var k, ts := s.workers[w], s.tasks[s.workers[w].task];
    var marked := k.task in s.marks;
    LaunchPair(c, k, ts, w, s.now, marked);
    PairStep(c, s, s', w, k.(phase := Running, job := Spawned, launched := true), ts, marked);
  }

  lemma JudgePair(c: Config, k: Worker, ts: TaskState, w: WorkerId, now: nat, marked: bool)
    requires TaskOk(c, ts, now) && PairOk(c, k, ts, w, now, marked) && k.phase.Judging?
    ensures marked ==> PairOk(c, k.(phase := Canceling), ts, w, now, false)
    ensures !marked && k.phase.Judging? ==> PairOk(c, k.(phase := Advancing(k.phase.next)), ts, w, now, false)
  {
  }

  lemma JudgeLocal(c: Config, s: State, w: WorkerId)
    requires Local(c, s, w) && DoJudge(s, w).Some?
    ensures StayingStep(c, s, DoJudge(s, w).value, w)
  {
    var s' := DoJudge(s, w).value;
    var k, ts := s.workers[w], s.tasks[s.workers[w].task];
    var marked := k.task in s.marks;
    JudgePair(c, k, ts, w, s.now, marked);
    assert s'.tasks == s.tasks[k.task := ts];
    PairStep(c, s, s', w, s'.workers[w], ts, false);
  }

  lemma WithdrawPair(c: Config, k: Worker, ts: TaskState, w: WorkerId, now: nat, marked: bool)
    requires TaskOk(c, ts, now) && PairOk(c, k, ts, w, now, marked) && k.phase.Withdrawing?
    ensures PairOk(c, k.(phase := Canceling), ts, w, now, false)
  {
  }

  lemma WithdrawLocal(c: Config, s: State, w: WorkerId)
    requires Local(c, s, w) && DoWork(c, s, w, Withdraw).Some?
    ensures StayingStep(c, s, DoWork(c, s, w, Withdraw).value, w)
  {
    var s' := DoWork(c, s, w, Withdraw).value;
    var k, ts := s.workers[w], s.tasks[s.workers[w].task];
    var marked := k.task in s.marks;
    WithdrawPair(c, k, ts, w, s.now, marked);
    PairStep(c, s, s', w, k.(phase := Canceling), ts, false);
  }

  lemma CancelPair(c: Config, k: Worker, ts: TaskState, w: WorkerId, now: nat, marked: bool, saved: bool)
    requires TaskOk(c, ts, now) && PairOk(c, k, ts, w, now, marked) && k.phase.Canceling?
    ensures PairOk(c, k.(phase := Leaving(false)), Attempt(ts, Canceled, saved), w, now, marked)
    ensures TaskOk(c, Attempt(ts, Canceled, saved), now) && Attempt(ts, Canceled, saved).place == ts.place
  {
  }

  lemma CancelLocal(c: Config, s: State, w: WorkerId, saved: bool)
    requires Local(c, s, w) && DoWork(c, s, w, Cancel(saved)).Some?
    ensures StayingStep(c, s, DoWork(c, s, w, Cancel(saved)).value, w)
  {
    var s' := DoWork(c, s, w, Cancel(saved)).value;
    var k, ts := s.workers[w], s.tasks[s.workers[w].task];
    var marked := k.task in s.marks;
    CancelPair(c, k, ts, w, s.now, marked, saved);
    PairStep(c, s, s', w, k.(phase := Leaving(false)), Attempt(ts, Canceled, saved), marked);
  }

  lemma FailPair(c: Config, k: Worker, ts: TaskState, w: WorkerId, now: nat, marked: bool, saved: bool)
    requires TaskOk(c, ts, now) && PairOk(c, k, ts, w, now, marked) && k.phase.Failing?
    ensures PairOk(c, k.(phase := Leaving(false)), Attempt(ts, Error, saved), w, now, marked)
    ensures TaskOk(c, Attempt(ts, Error, saved), now) && Attempt(ts, Error, saved).place == ts.place
  {
  }

  lemma FailLocal(c: Config, s: State, w: WorkerId, saved: bool)
    requires Local(c, s, w) && DoWork(c, s, w, Fail(saved)).Some?
    ensures StayingStep(c, s, DoWork(c, s, w, Fail(saved)).value, w)
  {
    var s' := DoWork(c, s, w, Fail(saved)).value;
    var k, ts := s.workers[w], s.tasks[s.workers[w].task];
    var marked := k.task in s.marks;
    FailPair(c, k, ts, w, s.now, marked, saved);
    PairStep(c, s, s', w, k.(phase := Leaving(false)), Attempt(ts, Error, saved), marked);
  }

  lemma BlamePair(c: Config, k: Worker, ts: TaskState, w: WorkerId, now: nat, marked: bool, saved: bool)
    requires TaskOk(c, ts, now) && PairOk(c, k, ts, w, now, marked) && k.phase.Blaming?
    ensures PairOk(c, k.(phase := Unregistering), Attempt(ts, Error, saved), w, now, marked)
    ensures TaskOk(c, Attempt(ts, Error, saved), now) && Attempt(ts, Error, saved).place == ts.place
  {
  }

  lemma BlameLocal(c: Config, s: State, w: WorkerId, saved: bool)
    requires Local(c, s, w) && DoWork(c, s, w, Blame(saved)).Some?
    ensures StayingStep(c, s, DoWork(c, s, w, Blame(saved)).value, w)
  {
    var s' := DoWork(c, s, w, Blame(saved)).value;
    var k, ts := s.workers[w], s.tasks[s.workers[w].task];
    var marked := k.task in s.marks;
    BlamePair(c, k, ts, w, s.now, marked, saved);
    PairStep(c, s, s', w, k.(phase := Unregistering), Attempt(ts, Error, saved), marked);
  }

  lemma EnterPair(c: Config, k: Worker, ts: TaskState, w: WorkerId, now: nat, marked: bool, saved: bool)
    requires TaskOk(c, ts, now) && PairOk(c, k, ts, w, now, marked) && k.phase.Entering?
    ensures var entered := Attempt(ts, Processing, saved);
            && TaskOk(c, entered, now) && entered.place == ts.place
            && PairOk(c, k.(phase := if entered.record.status.Processing? then Launching else Leaving(true)),
                entered, w, now, marked)
  {
  }

  lemma EnterLocal(c: Config, s: State, w: WorkerId, saved: bool)
    requires Local(c, s, w) && DoWork(c, s, w, Enter(saved)).Some?
    ensures StayingStep(c, s, DoWork(c, s, w, Enter(saved)).value, w)
  {
    var s' := DoWork(c, s, w, Enter(saved)).value;
    var k, ts := s.workers[w], s.tasks[s.workers[w].task];
    var marked := k.task in s.marks;
    EnterPair(c, k, ts, w, s.now, marked, saved);
    PairStep(c, s, s', w, s'.workers[w], Attempt(ts, Processing, saved), marked);
  }

  lemma SelectPair(c: Config, k: Worker, ts: TaskState, w: WorkerId, now: nat, marked: bool)
    requires TaskOk(c, ts, now) && PairOk(c, k, ts, w, now, marked) && k.phase.Running?
    ensures var k' := k.(markedAtReturn := marked);
            && PairOk(c, k'.(phase := Failing), ts, w, now, marked)
            && PairOk(c, k'.(phase := Withdrawing), ts, w, now, marked)
            && (k.job.Burst? ==> PairOk(c, k'.(job := NoJob, phase := Leaving(true)), ts, w, now, marked))
            && (k.job.Finished? ==>
                  && PairOk(c, k'.(job := NoJob, phase := Judging(k.job.next)), ts, w, now, marked)
                  && PairOk(c, k'.(job := NoJob, phase := Withdrawing), ts, w, now, marked)
                  && PairOk(c, k'.(job := NoJob, phase := Failing), ts, w, now, marked))
  {
  }

  lemma SelectLocal(c: Config, s: State, w: WorkerId, choice: Choice)
    requires Local(c, s, w) && DoSelect(s, w, choice).Some?
    ensures StayingStep(c, s, DoSelect(s, w, choice).value, w)
  {
    var s' := DoSelect(s, w, choice).value;
    var k, ts := s.workers[w], s.tasks[s.workers[w].task];
    var marked := k.task in s.marks;
    SelectPair(c, k, ts, w, s.now, marked);
    SameTask(s, s', k.task);
    SelectedPair(s, w, choice);
    PairStep(c, s, s', w, s'.workers[w], ts, marked);
  }

  lemma SameTask(s: State, s': State, t: TaskId)
    requires t in s.tasks && s'.tasks == s.tasks
    ensures s'.tasks == s.tasks[t := s.tasks[t]]
  {
  }

  /** Everything the select of `run` may make of the worker. */
  lemma SelectedPair(s: State, w: WorkerId, choice: Choice)
    requires w in s.workers && s.workers[w].task in s.tasks && DoSelect(s, w, choice).Some?
    ensures var s', k := DoSelect(s, w, choice).value, s.workers[w];
            var k' := k.(markedAtReturn := k.task in s.marks);
            && s' == s.(workers := s.workers[w := s'.workers[w]])
            && (s'.workers[w] == k'.(phase := Failing) || s'.workers[w] == k'.(phase := Withdrawing)
                || (k.job.Burst? && s'.workers[w] == k'.(job := NoJob, phase := Leaving(true)))
                || (k.job.Finished? && (|| s'.workers[w] == k'.(job := NoJob, phase := Judging(k.job.next))
                                        || s'.workers[w] == k'.(job := NoJob, phase := Withdrawing)
                                        || s'.workers[w] == k'.(job := NoJob, phase := Failing))))
  {
  }

  lemma AdvancePair(c: Config, k: Worker, ts: TaskState, w: WorkerId, now: nat, marked: bool, saved: bool)
    requires TaskOk(c, ts, now) && PairOk(c, k, ts, w, now, marked) && k.phase.Advancing?
    ensures var next := Attempt(ts, k.phase.next, saved);
            && TaskOk(c, next, now) && next.place == ts.place
            && (k.phase.next.Processing? ==> PairOk(c, k.(phase := Launching), next, w, now, marked))
            && (!k.phase.next.Processing? ==> PairOk(c, k.(phase := Leaving(false)), next, w, now, marked))
            && (k.phase.next.Suspending? && saved ==>
                  && PairOk(c, k.(phase := Requeueing), next, w, now, marked)
                  && TaskOk(c, next.(place := Nowhere, parked := true), now)
                  && !k.preMarked && !k.markedAtReturn && !Active(k.job))
  {
  }

  lemma RequeuePair(c: Config, k: Worker, ts: TaskState, w: WorkerId, now: nat, marked: bool)
    requires TaskOk(c, ts, now) && PairOk(c, k, ts, w, now, marked) && k.phase.Requeueing?
    ensures PairOk(c, k.(phase := Leaving(false)), ts, w, now, marked)
    ensures PairOk(c, k.(phase := Pushing), ts, w, now, false)
  {
  }

  lemma RequeueLocal(c: Config, s: State, w: WorkerId, refused: bool)
    requires Local(c, s, w) && DoRequeue(s, w, refused).Some?
    ensures StayingStep(c, s, DoRequeue(s, w, refused).value, w)
  {
    var s' := DoRequeue(s, w, refused).value;
    var k, ts := s.workers[w], s.tasks[s.workers[w].task];
    var marked := k.task in s.marks;
    RequeuePair(c, k, ts, w, s.now, marked);
    SameTask(s, s', k.task);
    PairStep(c, s, s', w, s'.workers[w], ts, refused && marked);
  }

  lemma JobPair(c: Config, k: Worker, ts: TaskState, w: WorkerId, now: nat, marked: bool)
    requires TaskOk(c, ts, now) && PairOk(c, k, ts, w, now, marked)
    ensures k.job.Spawned? ==>
              var ts' := ts.(dos := ts.dos + 1, retryDue := None);
              TaskOk(c, ts', now) && PairOk(c, k.(job := Doing), ts', w, now, marked)
    ensures forall resumeAt :: k.job.Doing? ==>
              var ts' := ts.(record := ts.record.(resumeAt := resumeAt));
              && TaskOk(c, ts', now)
              && PairOk(c, k.(job := Burst), ts', w, now, marked)
              && (forall next, err :: PairOk(c, k.(job := Finished(next, err)), ts', w, now, marked))
              && (forall cause :: ts.record.retries < c.maxRetry ==>
                  PairOk(c, k.(job := Deciding(cause)), ts', w, now, marked))
    ensures forall due :: k.job.Deciding? ==>
              var record := ts.record.(retries := ts.record.retries + 1,
                                       history := ts.record.history + [k.job.cause.text], resumeAt := due);
              var ts' := ts.(record := record, retryDue := Some(due));
              TaskOk(c, ts', now) && PairOk(c, k.(job := Finished(Suspending, None)), ts', w, now, marked)
  {
  }

  lemma JobBeginLocal(c: Config, s: State, w: WorkerId)
    requires Local(c, s, w) && DoJobBegin(s, w).Some?
    ensures StayingStep(c, s, DoJobBegin(s, w).value, w)
  {
    var s' := DoJobBegin(s, w).value;
    var k, ts := s.workers[w], s.tasks[s.workers[w].task];
    var marked := k.task in s.marks;
    JobPair(c, k, ts, w, s.now, marked);
    assert TaskOk(c, s'.tasks[k.task], s.now) && PairOk(c, s'.workers[w], s'.tasks[k.task], w, s.now, marked);
    PairStep(c, s, s', w, s'.workers[w], s'.tasks[k.task], marked);
  }

  lemma JobReturnLocal(c: Config, s: State, w: WorkerId, outcome: Outcome, resumeAfter: Option<int>)
    requires Local(c, s, w) && DoJobReturn(c, s, w, outcome, resumeAfter).Some?
    ensures StayingStep(c, s, DoJobReturn(c, s, w, outcome, resumeAfter).value, w)
  {
    var s' := DoJobReturn(c, s, w, outcome, resumeAfter).value;
    var k, ts := s.workers[w], s.tasks[s.workers[w].task];
    var marked := k.task in s.marks;
    JobPair(c, k, ts, w, s.now, marked);
    assert TaskOk(c, s'.tasks[k.task], s.now) && PairOk(c, s'.workers[w], s'.tasks[k.task], w, s.now, marked);
    PairStep(c, s, s', w, s'.workers[w], s'.tasks[k.task], marked);
  }

  lemma JobRetryLocal(c: Config, s: State, w: WorkerId, delay: nat)
    requires Local(c, s, w) && DoJobRetry(s, w, delay).Some?
    ensures StayingStep(c, s, DoJobRetry(s, w, delay).value, w)
  {
    var s' := DoJobRetry(s, w, delay).value;
    var k, ts := s.workers[w], s.tasks[s.workers[w].task];
    var marked := k.task in s.marks;
    JobPair(c, k, ts, w, s.now, marked);
    assert TaskOk(c, s'.tasks[k.task], s.now) && PairOk(c, s'.workers[w], s'.tasks[k.task], w, s.now, marked);
    PairStep(c, s, s', w, s'.workers[w], s'.tasks[k.task], marked);
  }

  // Steps of a worker that has given its task up.

  /** A worker past its last transition moves on without looking at the task. */
  lemma EndedLocal(c: Config, s: State, s': State, w: WorkerId, phase: Phase)
    requires Local(c, s, w)
    requires Ended(s.workers[w].phase) && Ended(phase) && (phase.Unregistering? ==> !s.workers[w].preMarked)
    requires s'.workers == s.workers[w := s.workers[w].(phase := phase)] && s'.tasks == s.tasks && s'.now == s.now
    requires SameContainers(s, s') && s'.marks == s.marks
    ensures StayingStep(c, s, s', w)
  {
    SameTask(s, s', s.workers[w].task);
  }

  lemma LeaveLocal(c: Config, s: State, w: WorkerId)
    requires Local(c, s, w) && DoWork(c, s, w, Leave).Some?
    ensures StayingStep(c, s, DoWork(c, s, w, Leave).value, w)
  {
    var s' := DoWork(c, s, w, Leave).value;
    SameTask(s, s', s.workers[w].task);
    if s.workers[w].phase == Leaving(false) {
      EndedLocal(c, s, s', w, s'.workers[w].phase);
    }
  }

  // Steps that move a task from one place to another.

  /** Task t changes hands: whoever had it may only be a worker that is done with it. */
  lemma PlaceStep(c: Config, s: State, s': State, t: TaskId, ts: TaskState)
    requires Inv(c, s)
    requires t in s.tasks ==> !s.tasks[t].place.HeldBy?
    requires s'.tasks == s.tasks[t := ts] && s'.workers == s.workers && s'.now == s.now
    requires TaskOk(c, ts, s.now) && PlacesOk(s')
    requires s'.marks == s.marks || s'.marks == s.marks - {t}
    ensures Inv(c, s')
  {
    forall w | w in s'.workers
      ensures WorkerOk(c, s', w)
    {
      assert WorkerOk(c, s, w);
    }
  }

  lemma ParkLocal(c: Config, s: State, w: WorkerId)
    requires Local(c, s, w) && DoAdvance(s, w, true, true).Some? && s.workers[w].phase.next.Suspending?
    ensures LocalStep(c, s, DoAdvance(s, w, true, true).value, w)
  {
    var s' := DoAdvance(s, w, true, true).value;
    var k, ts := s.workers[w], s.tasks[s.workers[w].task];
    AdvancePair(c, k, ts, w, s.now, k.task in s.marks, true);
    var parked := Attempt(ts, Suspending, true).(place := Nowhere, parked := true);
    ParkPair(k, parked, w, c, s.now, k.task in s.marks);
    assert s'.tasks == s.tasks[k.task := parked];
  }

  lemma ParkKeeps(c: Config, s: State, w: WorkerId)
    requires Inv(c, s) && Local(c, s, w) && DoAdvance(s, w, true, true).Some? && s.workers[w].phase.next.Suspending?
    ensures Inv(c, DoAdvance(s, w, true, true).value)
  {
    var s' := DoAdvance(s, w, true, true).value;
    ParkLocal(c, s, w);
    assert SameContainers(s, s');
    LocalStepKeeps(c, s, s', w);
  }

  lemma ParkPair(k: Worker, ts: TaskState, w: WorkerId, c: Config, now: nat, marked: bool)
    requires JobOk(k) && k.phase.Advancing? && !k.preMarked && !k.markedAtReturn
    ensures PairOk(c, k.(phase := Leaving(false)), ts, w, now, marked)
  {
  }

  lemma AdvanceLocal(c: Config, s: State, w: WorkerId, saved: bool, manual: bool)
    requires Local(c, s, w) && DoAdvance(s, w, saved, manual).Some?
    requires !(saved && manual && s.workers[w].phase.next.Suspending?)
    ensures StayingStep(c, s, DoAdvance(s, w, saved, manual).value, w)
  {
    var s' := DoAdvance(s, w, saved, manual).value;
    var k, ts := s.workers[w], s.tasks[s.workers[w].task];
    var marked := k.task in s.marks;
    AdvancePair(c, k, ts, w, s.now, marked, saved);
    PairStep(c, s, s', w, s'.workers[w], Attempt(ts, k.phase.next, saved), marked);
  }

  lemma PushPair(c: Config, k: Worker, ts: TaskState, w: WorkerId, now: nat, marked: bool)
    requires TaskOk(c, ts, now) && PairOk(c, k, ts, w, now, marked) && k.phase.Pushing?
    ensures PairOk(c, k.(phase := Leaving(false)), ts, w, now, marked)
    ensures TaskOk(c, ts.(place := Waiting), now)
    ensures PairOk(c, k.(phase := Leaving(false)), ts.(place := Waiting), w, now, marked)
  {
  }

  /** Pushing a task that is not waiting displaces nothing. */
  lemma PushPlaces(c: Config, s: State, t: TaskId)
    requires Inv(c, s) && t in s.tasks && (s.tasks[t].place.HeldBy? || s.tasks[t].place.Submitting?)
    ensures t !in s.waiting && WithoutIds(s.waiting, {t}) == s.waiting
    ensures PlacesOk(PushWaiting(s.(submitting := s.submitting - {t}), t))
    ensures s.tasks[t].place.HeldBy? ==> PlacesOk(PushWaiting(s, t))
  {
    NothingToDrop(s.waiting, t);
  }

  lemma {:induction false} NothingToDrop(ids: seq<TaskId>, t: TaskId)
    requires t !in ids
    ensures WithoutIds(ids, {t}) == ids
  {
    if ids != [] {
      NothingToDrop(ids[..|ids| - 1], t);
      assert ids == ids[..|ids| - 1] + [ids[|ids| - 1]];
    }
  }

  lemma PushLocal(c: Config, s: State, w: WorkerId, refused: bool)
    requires Local(c, s, w) && DoPush(s, w, refused).Some?
    ensures LocalStep(c, s, DoPush(s, w, refused).value, w)
    ensures refused ==> StayingStep(c, s, DoPush(s, w, refused).value, w)
  {
    var s' := DoPush(s, w, refused).value;
    var k, ts := s.workers[w], s.tasks[s.workers[w].task];
    PushPair(c, k, ts, w, s.now, k.task in s.marks);
    if refused {
      SameTask(s, s', k.task);
    }
  }

  lemma PushKeeps(c: Config, s: State, w: WorkerId, refused: bool)
    requires Inv(c, s) && Local(c, s, w) && DoPush(s, w, refused).Some?
    ensures Inv(c, DoPush(s, w, refused).value)
  {
    PushLocal(c, s, w, refused);
    if refused {
      StayingStepKeeps(c, s, DoPush(s, w, refused).value, w);
    } else {
      AcceptedPushKeeps(c, s, w);
    }
  }

  lemma AcceptedPushKeeps(c: Config, s: State, w: WorkerId)
    requires Inv(c, s) && Local(c, s, w) && DoPush(s, w, false).Some?
    requires LocalStep(c, s, DoPush(s, w, false).value, w)
    ensures Inv(c, DoPush(s, w, false).value)
  {
    var s' := DoPush(s, w, false).value;
    assert PlacesOk(s') by {
      PushPlaces(c, s, s.workers[w].task);
    }
    LocalStepKeeps(c, s, s', w);
  }

  lemma SubmittedTask(c: Config, record: Record, saved: bool, now: nat)
    requires Submittable(record.status)
    ensures var queued := Attempt(TaskState(record, record, Nowhere, false, true, false, false, false, 0, None),
              Queued, saved);
            && TaskOk(c, queued, now) && queued.place.Nowhere?
            && (queued.clean ==> TaskOk(c, queued.(place := Submitting), now))
  {
  }

  lemma SubmitKeeps(c: Config, s: State, t: TaskId, record: Record, saved: bool)
    requires Inv(c, s) && DoSubmit(s, t, record, saved).Some?
    ensures Inv(c, DoSubmit(s, t, record, saved).value)
  {
    var s' := DoSubmit(s, t, record, saved).value;
    SubmittedTask(c, record, saved, s.now);
    PlaceStep(c, s, s', t, s'.tasks[t]);
  }

  lemma LoadKeeps(c: Config, s: State, t: TaskId, record: Record, refused: bool)
    requires Inv(c, s) && DoLoadSuspended(s, t, record, refused).Some?
    ensures Inv(c, DoLoadSuspended(s, t, record, refused).value)
  {
    var s' := DoLoadSuspended(s, t, record, refused).value;
    assert t !in s.tasks;
    assert TaskOk(c, s'.tasks[t], s.now);
    PlaceStep(c, s, s', t, s'.tasks[t]);
  }

  lemma ResumeKeeps(c: Config, s: State, t: TaskId)
    requires Inv(c, s) && DoResume(s, t).Some?
    ensures Inv(c, DoResume(s, t).value)
  {
    var s' := DoResume(s, t).value;
    assert TaskOk(c, s.tasks[t], s.now);
    PlaceStep(c, s, s', t, s'.tasks[t]);
  }

  lemma EnqueueKeeps(c: Config, s: State, t: TaskId, refused: bool)
    requires Inv(c, s) && DoEnqueue(s, t, refused).Some?
    ensures Inv(c, DoEnqueue(s, t, refused).value)
  {
    var s' := DoEnqueue(s, t, refused).value;
    assert TaskOk(c, s.tasks[t], s.now);
    PushPlaces(c, s, t);
    PlaceStep(c, s, s', t, s'.tasks[t]);
  }

  lemma PopKeeps(c: Config, s: State)
    requires Inv(c, s) && s.handoff.None? && DoPop(s).Some?
    ensures Inv(c, DoPop(s).value)
  {
    var s' := DoPop(s).value;
    if s'.handoff.None? {
      IdleKeeps(c, s, s');
    } else {
      var t := s.waiting[|s.waiting| - 1];
      assert TaskOk(c, s.tasks[t], s.now);
      PlaceStep(c, s, s', t, s.tasks[t].(place := HandedOff));
    }
  }

  lemma SpawnKeeps(c: Config, s: State, w: WorkerId)
    requires Inv(c, s) && DoSpawn(s, w).Some?
    ensures Inv(c, DoSpawn(s, w).value)
  {
    var s' := DoSpawn(s, w).value;
    var t := s.handoff.value;
    assert TaskOk(c, s.tasks[t], s.now);
    forall other | other in s'.workers
      ensures WorkerOk(c, s', other)
    {
      if other != w {
        assert WorkerOk(c, s, other);
      }
    }
  }

  lemma CancelWaitingPlaces(s: State, targets: set<TaskId>)
    requires PlacesOk(s)
    ensures PlacesOk(DoCancelWaiting(s, targets).value)
  {
    var s' := DoCancelWaiting(s, targets).value;
    WithoutIdsMeaning(s.waiting, targets);
    forall i | 0 <= i < |s'.waiting|
      ensures s'.waiting[i] in s'.tasks && s'.tasks[s'.waiting[i]].place.Waiting?
    {
      var t := s'.waiting[i];
      assert t in WithoutIds(s.waiting, targets);
      assert t in s.waiting && t !in targets;
      var j :| 0 <= j < |s.waiting| && s.waiting[j] == t;
      assert s'.tasks[t] == s.tasks[t];
    }
  }

  lemma CancelWaitingKeeps(c: Config, s: State, targets: set<TaskId>)
    requires Inv(c, s)
    ensures Inv(c, DoCancelWaiting(s, targets).value)
  {
    var s' := DoCancelWaiting(s, targets).value;
    CancelWaitingPlaces(s, targets);
    forall t | t in s'.tasks
      ensures TaskOk(c, s'.tasks[t], s'.now)
    {
      assert TaskOk(c, s.tasks[t], s.now);
    }
    forall w | w in s'.workers
      ensures WorkerOk(c, s', w)
    {
      assert WorkerOk(c, s, w);
    }
  }

  // Steps that touch no task and no worker.

  lemma MarkKeeps(c: Config, s: State, t: TaskId)
    requires Inv(c, s) && DoMark(s, t).Some?
    ensures Inv(c, DoMark(s, t).value)
  {
    var s' := DoMark(s, t).value;
    forall w | w in s'.workers
      ensures WorkerOk(c, s', w)
    {
      assert WorkerOk(c, s, w);
    }
  }

  lemma SecondsGrow(now: nat, later: nat)
    requires now <= later
    ensures Second(now) <= Second(later)
  {
  }

  lemma IdleKeeps(c: Config, s: State, s': State)
    requires Inv(c, s)
    requires s'.tasks == s.tasks && s'.workers == s.workers && s.now <= s'.now && s'.marks == s.marks
    requires SameContainers(s, s')
    ensures Inv(c, s')
  {
    SecondsGrow(s.now, s'.now);
    forall t | t in s'.tasks
      ensures TaskOk(c, s'.tasks[t], s'.now)
    {
      assert TaskOk(c, s.tasks[t], s.now);
    }
    forall w | w in s'.workers
      ensures WorkerOk(c, s', w)
    {
      assert WorkerOk(c, s, w);
    }
  }
}
