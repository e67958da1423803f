/** Tasks, the counters and the transition table (module/queue/task.go, metric.go, type.go). */
module Tasks {
  import opened Options

  /** `Fresh` is the source's empty status, of a record that was never queued. */
  datatype Status = Fresh | Queued | Processing | Suspending | Error | Canceled | Completed

  predicate Terminal(s: Status) {
    s.Completed? || s.Error? || s.Canceled?
  }

  const TWO_TO_64 := 0x1_0000_0000_0000_0000
  const MAX_UINT64 := TWO_TO_64 - 1

  type UInt64 = n: nat | n <= MAX_UINT64

  /** The atomic addition of two unsigned 64-bit numbers. */
  function AddUint64(n: UInt64, delta: UInt64): UInt64 {
    (n + delta) % TWO_TO_64
  }

  /** Counters as numbers of events; the fields of a metric hold them modulo 2^64. */
  datatype Counters = Counters(busy: nat, submitted: nat, success: nat, failure: nat, suspending: nat)

  function Uint64(c: Counters): Counters {
    Counters(c.busy % TWO_TO_64, c.submitted % TWO_TO_64, c.success % TWO_TO_64, c.failure % TWO_TO_64,
             c.suspending % TWO_TO_64)
  }

  /** One less, but zero wraps round to the largest value. */
  function Decremented(n: nat): nat {
    if n == 0 then MAX_UINT64 else n - 1
  }

  /** Adding the complement of zero takes one away, wraps round at zero only, and undoes an increment wherever
      that was made, at the wrap-around too. */
  lemma ComplementDecrements(n: UInt64)
    ensures AddUint64(n, MAX_UINT64) == Decremented(n)
    ensures AddUint64(AddUint64(n, 1), MAX_UINT64) == n
    ensures AddUint64(AddUint64(n, MAX_UINT64), 1) == n
  {
    if n == 0 {
      assert (0 + MAX_UINT64) % TWO_TO_64 == MAX_UINT64;
    } else {
      assert n + MAX_UINT64 == TWO_TO_64 + (n - 1);
    }
  }

  class Metric {
    var busyWorkers: UInt64
    var submittedTasks: UInt64
    var successTasks: UInt64
    var failureTasks: UInt64
    var suspendingTasks: UInt64

    constructor ()
      ensures View() == Counters(0, 0, 0, 0, 0)
    {
      busyWorkers, submittedTasks, successTasks, failureTasks, suspendingTasks := 0, 0, 0, 0, 0;
    }

    function View(): (c: Counters)
      reads this
      ensures Uint64(c) == c
    {
      Counters(busyWorkers, submittedTasks, successTasks, failureTasks, suspendingTasks)
    }

    method IncBusyWorker()
      modifies this
      ensures View() == Uint64(old(View()).(busy := old(busyWorkers) + 1))
    {
      busyWorkers := AddUint64(busyWorkers, 1);
    }

    method DecBusyWorker()
      modifies this
      ensures View() == old(View()).(busy := Decremented(old(busyWorkers)))
    {
      ComplementDecrements(busyWorkers);
      busyWorkers := AddUint64(busyWorkers, MAX_UINT64);
    }

    method IncSubmittedTask()
      modifies this
      ensures View() == Uint64(old(View()).(submitted := old(submittedTasks) + 1))
    {
      submittedTasks := AddUint64(submittedTasks, 1);
    }

    method IncSuccessTask()
      modifies this
      ensures View() == Uint64(old(View()).(success := old(successTasks) + 1))
    {
      successTasks := AddUint64(successTasks, 1);
    }

    method IncFailureTask()
      modifies this
      ensures View() == Uint64(old(View()).(failure := old(failureTasks) + 1))
    {
      failureTasks := AddUint64(failureTasks, 1);
    }

    method IncSuspendingTask()
      modifies this
      ensures View() == Uint64(old(View()).(suspending := old(suspendingTasks) + 1))
    {
      suspendingTasks := AddUint64(suspendingTasks, 1);
    }

    method DecSuspendingTask()
      modifies this
      ensures View() == old(View()).(suspending := Decremented(old(suspendingTasks)))
    {
      ComplementDecrements(suspendingTasks);
      suspendingTasks := AddUint64(suspendingTasks, MAX_UINT64);
    }
  }

  /** The part of a task's state that the queue changes. */
  datatype Record = Record(status: Status, retries: int, history: seq<string>, resumeAt: int)

  class Task {
    const id: int
    var status: Status
    var retryCount: int
    var errorHistory: seq<string>
    var resumeTime: int
    var error: string
    var executed: int

    constructor (id: int, record: Record)
      ensures this.id == id && View() == record
    {
      this.id := id;
      status, retryCount := record.status, record.retries;
      errorHistory, resumeTime := record.history, record.resumeAt;
      error, executed := "", 0;
    }

    function View(): Record
      reads this
    {
      Record(status, retryCount, errorHistory, resumeTime)
    }

    method OnStatusTransition(newStatus: Status)
      modifies this
      ensures View() == old(View()).(status := newStatus)
      ensures error == old(error) && executed == old(executed)
    {
      status := newStatus;
    }

    method OnError(err: string, d: nat)
      modifies this
      ensures View() == old(View())
      ensures error == err && executed == old(executed) + d
    {
      error := err;
      executed := executed + d;
    }

    method OnIterationComplete(d: nat)
      modifies this
      ensures View() == old(View())
      ensures error == old(error) && executed == old(executed) + d
    {
      executed := executed + d;
    }

    method OnRetry(err: string)
      modifies this
      ensures View() == old(View()).(history := old(errorHistory) + [err], retries := old(retryCount) + 1)
      ensures error == old(error) && executed == old(executed)
    {
      errorHistory := errorHistory + [err];
      retryCount := retryCount + 1;
    }

    method OnSuspend(resumeTime: int)
      modifies this
      ensures View() == old(View()).(resumeAt := resumeTime)
      ensures error == old(error) && executed == old(executed)
    {
      this.resumeTime := resumeTime;
    }
  }

  /** What one entry of the transition table does besides requeueing. */
  datatype Effect = Effect(success: bool, failure: bool, gaugeUp: bool, gaugeDown: bool, cleans: bool, persists: bool)

  const Plain := Effect(false, false, false, false, false, true)

  /** The transition table; a missing entry is an invalid transition. */
  function Transition(from: Status, to: Status): Option<Effect> {
    match (from, to)
    case (Fresh, Queued) => Some(Plain)
    case (Queued, Processing) => Some(Plain)
    case (Queued, Queued) => Some(Plain.(persists := false))
    case (Queued, Error) => Some(Plain.(failure := true))
    case (Queued, Canceled) => Some(Plain.(failure := true, cleans := true))
    case (Processing, Queued) => Some(Plain)
    case (Processing, Completed) => Some(Plain.(success := true, cleans := true))
    case (Processing, Error) => Some(Plain.(failure := true, cleans := true))
    case (Processing, Canceled) => Some(Plain.(failure := true, cleans := true))
    case (Processing, Processing) => Some(Plain)
    case (Processing, Suspending) => Some(Plain.(gaugeUp := true))
    case (Suspending, Processing) => Some(Plain.(gaugeDown := true))
    case (Suspending, Error) => Some(Plain.(failure := true))
    case (Suspending, Canceled) => Some(Plain.(failure := true, gaugeDown := true, cleans := true))
    case _ => None
  }

  function Count(c: Counters, e: Effect): Counters {
    c.(success := c.success + if e.success then 1 else 0,
       failure := c.failure + if e.failure then 1 else 0,
       suspending := if e.gaugeUp then c.suspending + 1
                     else if e.gaugeDown then Decremented(c.suspending) else c.suspending)
  }

  /** Status after the transition is attempted: unchanged when it is invalid or persisting fails. */
  function StatusAfter(from: Status, to: Status, saved: bool): Status {
    var e := Transition(from, to);
    if e.Some? && e.value.persists && saved then to else from
  }

  function CountersAfter(c: Counters, from: Status, to: Status): (r: Counters)
    ensures r.busy == c.busy && r.submitted == c.submitted
  {
    var e := Transition(from, to);
    if e.Some? then Count(c, e.value) else c
  }

  // The table told without the table.

  /** The pairs for which there is a transition. */
  predicate Allowed(from: Status, to: Status) {
    || (from.Fresh? && to.Queued?)
    || (from.Queued? && (to.Queued? || to.Processing? || to.Error? || to.Canceled?))
    || (from.Processing? && !to.Fresh?)
    || (from.Suspending? && (to.Processing? || to.Error? || to.Canceled?))
  }

  /** Queueing what is queued is the one transition that is not saved. */
  predicate Unsaved(from: Status, to: Status) {
    from.Queued? && to.Queued?
  }

  /** The ends at which a task is cleaned up and leaves the registry: completion, cancellation, and failing while
      it is processed. */
  predicate CleansUp(from: Status, to: Status) {
    to.Completed? || to.Canceled? || (from.Processing? && to.Error?)
  }

  /** The whole table: which transitions there are, what each of them counts, and which clean up or are saved. */
  lemma TableShape(from: Status, to: Status)
    ensures Terminal(from) ==> Transition(from, to).None?
    ensures Transition(from, to).Some? <==> Allowed(from, to)
    ensures Transition(from, to).Some? ==>
              var e := Transition(from, to).value;
              && (e.success <==> to.Completed?)
              && (e.failure <==> to.Error? || to.Canceled?)
              && (e.gaugeUp <==> to.Suspending?)
              && (e.gaugeDown <==> from.Suspending? && !to.Error?)
              && (e.cleans <==> CleansUp(from, to))
              && (e.persists <==> !Unsaved(from, to))
  {
  }

  /** The status moves exactly on a transition that is there and saved. */
  lemma StatusMoves(from: Status, to: Status, saved: bool)
    ensures StatusAfter(from, to, saved) == if Allowed(from, to) && saved then to else from
    ensures Allowed(from, to) && !Unsaved(from, to) ==> (StatusAfter(from, to, saved) == to <==> saved || from == to)
  {
    TableShape(from, to);
  }

  /** Every transition that is there counts, saved or not: completions as successes, errors and cancellations as
      failures, and the gauge up when a task is suspended and down when it is taken up again or cancelled. */
  lemma CountersMove(c: Counters, from: Status, to: Status)
    ensures var r := CountersAfter(c, from, to);
            && r.busy == c.busy && r.submitted == c.submitted
            && r.success == c.success + (if Allowed(from, to) && to.Completed? then 1 else 0)
            && r.failure == c.failure + (if Allowed(from, to) && (to.Error? || to.Canceled?) then 1 else 0)
            && (from.Processing? && to.Suspending? ==> r.suspending == c.suspending + 1)
            && (from.Suspending? && (to.Processing? || to.Canceled?) && c.suspending > 0 ==>
                  r.suspending == c.suspending - 1)
            && (from.Suspending? && (to.Processing? || to.Canceled?) && c.suspending == 0 ==>
                  r.suspending == 0xFFFF_FFFF_FFFF_FFFF)
            && (!(from.Processing? && to.Suspending?) && !(from.Suspending? && (to.Processing? || to.Canceled?)) ==>
                  r.suspending == c.suspending)
  {
    TableShape(from, to);
  }

  /** Counting modulo 2^64: what fits stays, and one more than the largest value is zero. */
  lemma CountingWraps(c: Counters, n: UInt64)
    ensures (c.busy <= MAX_UINT64 && c.submitted <= MAX_UINT64 && c.success <= MAX_UINT64
             && c.failure <= MAX_UINT64 && c.suspending <= MAX_UINT64) <==> Uint64(c) == c
    ensures Uint64(c.(busy := n + 1)).busy == if n == 0xFFFF_FFFF_FFFF_FFFF then 0 else n + 1
    ensures Uint64(c.(submitted := n + 1)).submitted == if n == 0xFFFF_FFFF_FFFF_FFFF then 0 else n + 1
    ensures Uint64(c.(success := n + 1)).success == if n == 0xFFFF_FFFF_FFFF_FFFF then 0 else n + 1
    ensures Uint64(c.(failure := n + 1)).failure == if n == 0xFFFF_FFFF_FFFF_FFFF then 0 else n + 1
    ensures Uint64(c.(suspending := n + 1)).suspending == if n == 0xFFFF_FFFF_FFFF_FFFF then 0 else n + 1
  {
  }
}
