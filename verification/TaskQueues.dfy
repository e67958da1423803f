/** The queue object and its critical sections, one call at a time (module/queue/queue.go, task.go).

    The methods are proved against specification functions.  A status change uses those the interleaved model
    steps with, `StatusAfter` and `CountersAfter`, the counters here being the model's modulo 2^64; that the
    scheduler's `AfterQueue`, `AfterCancel` and `AfterRequest` do what the model's steps do is proved in
    QueueRefinement. */
module TaskQueues {
  import opened Tasks
  import opened FifoSchedulers

  datatype QueueError = NoError | Shutdown | Full | InvalidTransition | PersistFailed

  /** What a status change reports: the table's verdict, then the store's. */
  function TransitError(from: Status, to: Status, saved: bool): QueueError {
    var e := Transition(from, to);
    if e.None? then InvalidTransition else if e.value.persists && !saved then PersistFailed else NoError
  }

  /** Without an error the task has the status asked for; an error says which of the two was missing, the
      transition or the saving, and leaves the status. */
  lemma TransitErrorMeaning(from: Status, to: Status, saved: bool)
    ensures TransitError(from, to, saved).NoError? <==> Allowed(from, to) && (saved || Unsaved(from, to))
    ensures TransitError(from, to, saved).InvalidTransition? <==> !Allowed(from, to)
    ensures TransitError(from, to, saved).PersistFailed? <==> Allowed(from, to) && !saved && !Unsaved(from, to)
    ensures TransitError(from, to, saved).NoError? ==> StatusAfter(from, to, saved) == to
    ensures !TransitError(from, to, saved).NoError? ==> StatusAfter(from, to, saved) == from
  {
    TableShape(from, to);
  }

  /** What the scheduler reports to QueueTask. */
  function RefusalError(r: Queueing): (e: QueueError)
    ensures (e.NoError? <==> r.Accepted?) && (e.Shutdown? <==> r.RefusedShutdown?) && (e.Full? <==> r.RefusedFull?)
  {
    match r
    case Accepted => NoError
    case RefusedShutdown => Shutdown
    case RefusedFull => Full
  }

  /** The registry after a status change: the task leaves it exactly when it is cleaned up. */
  function RegistryAfter(registry: map<int, Task>, id: int, from: Status, to: Status): (r: map<int, Task>)
    ensures id in r <==> id in registry && !(Allowed(from, to) && CleansUp(from, to))
    ensures forall other | other != id :: other in r <==> other in registry
    ensures forall other | other in r :: r[other] == registry[other]
  {
    TableShape(from, to);
    var e := Transition(from, to);
    if e.Some? && e.value.cleans then registry - {id} else registry
  }

  /** A task that is not suspended gets as far as the scheduler. */
  predicate Admitted(status: Status, saved: bool) {
    status.Queued? || (saved && (status.Fresh? || status.Processing?))
  }

  /** The move to Queued counts nothing and cleans nothing up. */
  lemma QueueingIsPlain(c: Counters, from: Status, saved: bool)
    requires !from.Suspending?
    ensures TransitError(from, Queued, saved) ==
            if Admitted(from, saved) then NoError
            else if Allowed(from, Queued) then PersistFailed else InvalidTransition
    ensures StatusAfter(from, Queued, saved) == if Admitted(from, saved) then Queued else from
    ensures CountersAfter(c, from, Queued) == c && !CleansUp(from, Queued)
  {
    TransitErrorMeaning(from, Queued, saved);
    CountersMove(c, from, Queued);
  }

  class TaskQueue {
    const metric: Metric
    const scheduler: FifoScheduler
    const workerCount: nat
    var cancelledIDs: set<int>
    var runningCancels: map<int, nat>  // the worker whose context the cancel function ends
    var registry: map<int, Task>
    var stopFlag: bool
    var ready: bool                    // the token in the one-slot channel

    ghost predicate Valid()
      reads this, scheduler, scheduler.taskQueue
    {
      scheduler.Valid()
    }

    /** `New` gives the scheduler no capacity limit. */
    constructor (workerCount: nat)
      ensures Valid() && fresh(metric) && fresh(scheduler) && fresh(scheduler.taskQueue)
      ensures scheduler.capacity == 0 && scheduler.View() == Stack([], false)
      ensures metric.View() == Counters(0, 0, 0, 0, 0)
      ensures cancelledIDs == {} && runningCancels == map[] && registry == map[] && !stopFlag && !ready
      ensures this.workerCount == workerCount
    {
      this.workerCount := workerCount;
      cancelledIDs, runningCancels, registry, stopFlag, ready := {}, map[], map[], false, false;
      metric := new Metric();
      scheduler := new FifoScheduler(0);
    }

    method ConsumeCancelled(taskID: int) returns (marked: bool)
      modifies this`cancelledIDs
      ensures marked == (taskID in old(cancelledIDs))
      ensures cancelledIDs == old(cancelledIDs) - {taskID}
    {
      if taskID !in cancelledIDs {
        return false;
      }
      cancelledIDs := cancelledIDs - {taskID};
      return true;
    }

    /** The locked start check of a worker: the mark is consumed, or the cancel function is registered. */
    method CheckMark(taskID: int, worker: nat) returns (preMarked: bool)
      modifies this`cancelledIDs, this`runningCancels
      ensures preMarked == (taskID in old(cancelledIDs)) && cancelledIDs == old(cancelledIDs) - {taskID}
      ensures runningCancels == if preMarked then old(runningCancels) else old(runningCancels)[taskID := worker]
    {
      preMarked := taskID in cancelledIDs;
      if preMarked {
        cancelledIDs := cancelledIDs - {taskID};
      } else {
        runningCancels := runningCancels[taskID := worker];
      }
    }

    /** The count, the cleanup and the persisting of one table entry; requeueing is left to the caller. */
    method ApplyTransition(t: Task, to: Status, saved: bool) returns (err: QueueError)
      modifies metric, t, this`registry
      ensures err == TransitError(old(t.status), to, saved)
      ensures t.View() == old(t.View()).(status := StatusAfter(old(t.status), to, saved))
      ensures metric.View() == Uint64(CountersAfter(old(metric.View()), old(t.status), to))
      ensures registry == RegistryAfter(old(registry), t.id, old(t.status), to)
    {
      var transition := Transition(t.status, to);
      if transition.None? {
        return InvalidTransition;
      }
      var e := transition.value;
      if e.gaugeUp {
        metric.IncSuspendingTask();
      }
      if e.gaugeDown {
        metric.DecSuspendingTask();
      }
      if e.success {
        metric.IncSuccessTask();
      }
      if e.failure {
        metric.IncFailureTask();
      }
      if e.cleans {
        registry := registry - {t.id};
      }
      if !e.persists {
        return NoError;
      }
      if !saved {
        return PersistFailed;
      }
      t.OnStatusTransition(to);
      return NoError;
    }

    method TransitStatus(t: Task, to: Status, saved: bool, manual: bool) returns (err: QueueError)
      requires Valid()
      modifies this, metric, t, scheduler, scheduler.taskQueue
      ensures Valid() && (scheduler.taskQueue == old(scheduler.taskQueue) || fresh(scheduler.taskQueue))
      ensures t.View() == old(t.View()).(status := StatusAfter(old(t.status), to, saved))
      ensures metric.View() == Uint64(CountersAfter(old(metric.View()), old(t.status), to))
      ensures stopFlag == old(stopFlag) && ready == old(ready) && runningCancels == old(runningCancels)
      ensures !(old(t.status).Processing? && to.Suspending? && saved && !manual) ==>
                && err == TransitError(old(t.status), to, saved)
                && scheduler.View() == old(scheduler.View()) && cancelledIDs == old(cancelledIDs)
                && registry == RegistryAfter(old(registry), t.id, old(t.status), to)
      ensures old(t.status).Processing? && to.Suspending? && saved && !manual ==>
                && registry == (if err.NoError? then old(registry)[t.id := t] else old(registry))
                && if old(stopFlag) then
                     err == Shutdown && scheduler.View() == old(scheduler.View()) && cancelledIDs == old(cancelledIDs)
                   else
                     && err == RefusalError(QueueResult(scheduler.capacity, old(scheduler.View()), t))
                     && scheduler.View() == AfterQueue(scheduler.capacity, old(scheduler.View()), t)
                     && cancelledIDs == old(cancelledIDs) - {t.id}
      decreases if to.Suspending? then 2 else 0
    {
      var from := t.status;
      err := ApplyTransition(t, to, saved);
      if from.Processing? && to.Suspending? && saved && !manual {
        err := QueueTask(t, saved, manual);
      }
    }

    /** Submitting a task, or sending a suspended one back: only the former counts as submitted, only the
        latter consumes a mark, and in both cases the scheduler has the last word. */
    method QueueTask(t: Task, saved: bool, manual: bool) returns (err: QueueError)
      requires Valid()
      modifies this, metric, t, scheduler, scheduler.taskQueue
      ensures Valid() && (scheduler.taskQueue == old(scheduler.taskQueue) || fresh(scheduler.taskQueue))
      ensures stopFlag == old(stopFlag) && ready == old(ready) && runningCancels == old(runningCancels)
      ensures old(stopFlag) ==>
                err == Shutdown && t.View() == old(t.View()) && metric.View() == old(metric.View())
                && scheduler.View() == old(scheduler.View()) && cancelledIDs == old(cancelledIDs)
                && registry == old(registry)
      ensures !old(stopFlag) && old(t.status.Suspending?) ==>
                && err == RefusalError(QueueResult(scheduler.capacity, old(scheduler.View()), t))
                && t.View() == old(t.View()) && metric.View() == old(metric.View())
                && scheduler.View() == AfterQueue(scheduler.capacity, old(scheduler.View()), t)
                && cancelledIDs == old(cancelledIDs) - {t.id}
                && registry == if err.NoError? then old(registry)[t.id := t] else old(registry)
      ensures !old(stopFlag) && !old(t.status.Suspending?) ==>
                && t.View() == old(t.View()).(status :=
                     if Admitted(old(t.status), saved) then Queued else old(t.status))
                && metric.View() == Uint64(old(metric.View()).(submitted := old(metric.submittedTasks) + 1))
                && cancelledIDs == old(cancelledIDs)
                && err == (if Admitted(old(t.status), saved)
                           then RefusalError(QueueResult(scheduler.capacity, old(scheduler.View()), t))
                           else if Allowed(old(t.status), Queued) then PersistFailed else InvalidTransition)
                && scheduler.View() == (if Admitted(old(t.status), saved)
                                        then AfterQueue(scheduler.capacity, old(scheduler.View()), t)
                                        else old(scheduler.View()))
                && registry == if err.NoError? then old(registry)[t.id := t] else old(registry)
      decreases 1
    {
      if stopFlag {
        return Shutdown;
      }
      if !t.status.Suspending? {
        metric.IncSubmittedTask();
        QueueingIsPlain(metric.View(), t.status, saved);
        err := TransitStatus(t, Queued, saved, manual);
        if !err.NoError? {
          return;
        }
      } else {
        var marked := ConsumeCancelled(t.id);
      }
      var r := scheduler.Queue(t);
      if !r.Accepted? {
        return RefusalError(r);
      }
      registry := registry[t.id := t];
      return NoError;
    }

    /** Removes the waiting ones, marks every id, and returns whose contexts are to be cancelled, in order. */
    method CancelTasks(taskIDs: seq<int>) returns (fired: seq<nat>)
      requires Valid()
      modifies this`cancelledIDs, scheduler`len, scheduler`count, scheduler.taskQueue
      ensures Valid()
      ensures scheduler.View() == AfterCancel(old(scheduler.View()), set id | id in taskIDs)
      ensures cancelledIDs == old(cancelledIDs) + set id | id in taskIDs
      ensures fired == RunningAmong(taskIDs, runningCancels)
      ensures exists positions :: FiredAt(fired, taskIDs, runningCancels, positions)
    {
      ghost var positions := RunningAmongAt(taskIDs, runningCancels);
      fired := [];
      if |taskIDs| == 0 {
        KeepEverything(scheduler.View().waiting);
        assert (set id | id in taskIDs) == {};
        return;
      }
      var cancelled := scheduler.Cancel(taskIDs);
      for i := 0 to |taskIDs|
        invariant cancelledIDs == old(cancelledIDs) + set id | id in taskIDs[..i]
        invariant fired == RunningAmong(taskIDs[..i], runningCancels)
        invariant Valid() && scheduler.View() == AfterCancel(old(scheduler.View()), set id | id in taskIDs)
      {
        assert taskIDs[..i + 1][..i] == taskIDs[..i];
        cancelledIDs := cancelledIDs + {taskIDs[i]};
        if taskIDs[i] in runningCancels {
          fired := fired + [runningCancels[taskIDs[i]]];
        }
      }
      assert taskIDs[..|taskIDs|] == taskIDs;
    }

    /** One token at most, and only while a worker slot is free. */
    method Schedule()
      modifies this`ready
      ensures ready == (old(ready) || metric.View().busy < workerCount)
    {
      if metric.busyWorkers >= workerCount {
        return;
      }
      ready := true;
    }
  }

  function RunningAmong(taskIDs: seq<int>, runningCancels: map<int, nat>): seq<nat> {
    if taskIDs == [] then []
    else
      var id := taskIDs[|taskIDs| - 1];
      RunningAmong(taskIDs[..|taskIDs| - 1], runningCancels) + if id in runningCancels then [runningCancels[id]] else []
  }

  /** One context for every position whose id has a cancel function, that function's, in the order of the positions. */
  ghost predicate FiredAt(fired: seq<nat>, taskIDs: seq<int>, runningCancels: map<int, nat>, positions: seq<nat>) {
    && |fired| == |positions|
    && (forall k | 0 <= k < |positions| ::
          && positions[k] < |taskIDs| && taskIDs[positions[k]] in runningCancels
          && fired[k] == runningCancels[taskIDs[positions[k]]])
    && (forall k, l | 0 <= k < l < |positions| :: positions[k] < positions[l])
    && (forall i: nat | i < |taskIDs| && taskIDs[i] in runningCancels :: i in positions)
  }

  lemma {:induction false} RunningAmongAt(taskIDs: seq<int>, runningCancels: map<int, nat>)
    returns (positions: seq<nat>)
    ensures FiredAt(RunningAmong(taskIDs, runningCancels), taskIDs, runningCancels, positions)
  {
    positions := [];
    if taskIDs != [] {
      var n := |taskIDs| - 1;
      var earlier := RunningAmongAt(taskIDs[..n], runningCancels);
      positions := if taskIDs[n] in runningCancels then earlier + [n] else earlier;
      FiredAtMore(RunningAmong(taskIDs[..n], runningCancels), taskIDs, runningCancels, earlier);
    }
  }

  lemma FiredAtMore(fired: seq<nat>, taskIDs: seq<int>, runningCancels: map<int, nat>, positions: seq<nat>)
    requires taskIDs != [] && FiredAt(fired, taskIDs[..|taskIDs| - 1], runningCancels, positions)
    ensures var n := |taskIDs| - 1;
            if taskIDs[n] in runningCancels
            then FiredAt(fired + [runningCancels[taskIDs[n]]], taskIDs, runningCancels, positions + [n])
            else FiredAt(fired, taskIDs, runningCancels, positions)
  {
    var n := |taskIDs| - 1;
    forall i: nat | i < |taskIDs|
      ensures i in positions + [n] <==> i in positions || i == n
      ensures i < n ==> taskIDs[..n][i] == taskIDs[i]
    {
    }
  }
}
