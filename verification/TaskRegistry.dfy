/** The registry over runs of calls on the queue object (module/queue/queue.go, task.go), with saving working: from
    when it is first queued until its clean end a task can be found by its id, and never after. */
module TaskRegistry {
  import opened Tasks
  import opened TaskQueues

  datatype Call =
    | QueueCall(t: Task, manual: bool)
    | MoveCall(t: Task, to: Status, manual: bool)

  /** What one call did: the statuses seen before and after it, and whether the task was put on the scheduler. */
  datatype Entry = Entry(id: int, before: Status, after: Status, queued: bool)

  /** The status of a task after the calls on record. */
  function StatusIn(log: seq<Entry>, id: int, initial: Status): Status {
    if log == [] then initial
    else if log[|log| - 1].id == id then log[|log| - 1].after
    else StatusIn(log[..|log| - 1], id, initial)
  }

  /** The task completed, was cancelled, or failed while it was processed. */
  predicate Ends(e: Entry) {
    e.before != e.after && (e.after.Completed? || e.after.Canceled? || (e.before.Processing? && e.after.Error?))
  }

  /** The task was queued and has not ended since. */
  ghost predicate Registered(log: seq<Entry>, id: int) {
    exists i :: 0 <= i < |log| && log[i].id == id && log[i].queued
                && forall j | i < j < |log| && log[j].id == id :: !Ends(log[j])
  }

  /** What a call does to a task of the given status, and whether it is queued by it. */
  predicate Fits(call: Call, e: Entry) {
    && e.id == call.t.id
    && match call
       case QueueCall(_, _) =>
         && (e.queued <==> !Terminal(e.before))
         && e.after == if e.before.Fresh? || e.before.Queued? || e.before.Processing? then Queued else e.before
       case MoveCall(_, to, manual) =>
         && (e.queued <==> e.before.Processing? && to.Suspending? && !manual)
         && e.after == if Allowed(e.before, to) then to else e.before
  }

  lemma RegisteredMore(log: seq<Entry>, e: Entry, id: int)
    requires !(e.queued && Ends(e))
    ensures Registered(log + [e], id) <==>
              if id != e.id then Registered(log, id) else e.queued || (Registered(log, id) && !Ends(e))
  {
    var more := log + [e];
    if Registered(more, id) {
      var i :| 0 <= i < |more| && more[i].id == id && more[i].queued
               && forall j | i < j < |more| && more[j].id == id :: !Ends(more[j]);
      if i < |log| {
        assert forall j | i < j < |log| && log[j].id == id :: more[j] == log[j];
        assert Registered(log, id);
        assert more[|log|] == e;
      }
    }
    if Registered(log, id) {
      var i :| 0 <= i < |log| && log[i].id == id && log[i].queued
               && forall j | i < j < |log| && log[j].id == id :: !Ends(log[j]);
      if id != e.id || !Ends(e) {
        assert more[i].queued && forall j | i < j < |more| && more[j].id == id :: !Ends(more[j]);
      }
    }
    if e.queued && id == e.id {
      assert more[|log|].queued;
    }
  }

  /** One call on the queue object. */
  method Perform(q: TaskQueue, call: Call) returns (e: Entry)
    requires q.Valid() && !q.stopFlag && q.scheduler.capacity == 0 && !q.scheduler.stopFlag
    modifies q, q.metric, call.t, q.scheduler, q.scheduler.taskQueue
    ensures q.Valid() && !q.stopFlag && !q.scheduler.stopFlag
    ensures q.scheduler.taskQueue == old(q.scheduler.taskQueue) || fresh(q.scheduler.taskQueue)
    ensures e.before == old(call.t.status) && e.after == call.t.status && Fits(call, e)
    ensures KeysAfter(old(q.registry.Keys), e, q.registry.Keys) && !(e.queued && Ends(e))
  {
    var before := call.t.status;
    match call
    case QueueCall(t, manual) =>
      var err := q.QueueTask(t, true, manual);
      e := Entry(t.id, before, t.status, err.NoError?);
    case MoveCall(t, to, manual) =>
      StatusMoves(before, to, true);
      TransitErrorMeaning(before, to, true);
      var err := q.TransitStatus(t, to, true, manual);
      e := Entry(t.id, before, t.status, before.Processing? && to.Suspending? && !manual && err.NoError?);
  }

  lemma StatusInMore(log: seq<Entry>, e: Entry, id: int, initial: Status)
    ensures StatusIn(log + [e], id, initial) == if id == e.id then e.after else StatusIn(log, id, initial)
  {
    assert (log + [e])[..|log|] == log;
  }

  /** The log tells each call, and each task's statuses from the initial one to the present one. */
  predicate Tells(calls: seq<Call>, log: seq<Entry>, initial: seq<Status>, present: seq<Status>) {
    && |log| <= |calls| == |initial| == |present|
    && (forall i | 0 <= i < |log| :: Fits(calls[i], log[i]))
    && (forall i | 0 <= i < |log| :: log[i].before == StatusIn(log[..i], log[i].id, initial[i]))
    && (forall i | 0 <= i < |calls| :: present[i] == StatusIn(log, calls[i].t.id, initial[i]))
  }

  lemma TellsMore(calls: seq<Call>, log: seq<Entry>, initial: seq<Status>, present: seq<Status>, e: Entry,
                  next: seq<Status>)
    requires Tells(calls, log, initial, present) && |log| < |calls| && Fits(calls[|log|], e)
    requires e.before == present[|log|] && |next| == |present|
    requires forall i | 0 <= i < |calls| :: next[i] == if calls[i].t.id == e.id then e.after else present[i]
    ensures Tells(calls, log + [e], initial, next)
  {
    var more := log + [e];
    forall i | 0 <= i < |more|
      ensures more[i].before == StatusIn(more[..i], more[i].id, initial[i])
    {
      assert more[..i] == log[..i];
      assert log[..|log|] == log;
    }
    forall i | 0 <= i < |calls|
      ensures next[i] == StatusIn(more, calls[i].t.id, initial[i])
    {
      StatusInMore(log, e, calls[i].t.id, initial[i]);
    }
  }

  ghost predicate OwnIds(calls: seq<Call>) {
    forall i, j | 0 <= i < |calls| && 0 <= j < |calls| && calls[i].t.id == calls[j].t.id :: calls[i].t == calls[j].t
  }

  ghost function Statuses(calls: seq<Call>): (statuses: seq<Status>)
    reads set i | 0 <= i < |calls| :: calls[i].t
    ensures |statuses| == |calls| && forall i | 0 <= i < |calls| :: statuses[i] == calls[i].t.status
  {
    if calls == [] then [] else Statuses(calls[..|calls| - 1]) + [calls[|calls| - 1].t.status]
  }

  /** Any sequence of calls on any tasks with ids of their own: the log tells the statuses as they were, and an id
      is in the registry exactly while its task was queued and has not ended since.  What has ended stays out. */
  method Drive(q: TaskQueue, calls: seq<Call>) returns (log: seq<Entry>)
    requires q.Valid() && !q.stopFlag && q.scheduler.capacity == 0 && !q.scheduler.stopFlag && q.registry == map[]
    requires OwnIds(calls)
    modifies q, q.metric, q.scheduler, q.scheduler.taskQueue, set i | 0 <= i < |calls| :: calls[i].t
    ensures |log| == |calls| && Tells(calls, log, old(Statuses(calls)), Statuses(calls))
    ensures forall id :: id in q.registry <==> Registered(log, id)
    ensures forall i | 0 <= i < |log| && Ends(log[i]) :: log[i].id !in q.registry
  {
    log := [];
    ghost var initial := Statuses(calls);
    for n := 0 to |calls|
      invariant |log| == n && q.Valid() && !q.stopFlag && !q.scheduler.stopFlag
      invariant q.scheduler.taskQueue == old(q.scheduler.taskQueue) || fresh(q.scheduler.taskQueue)
      invariant Tells(calls, log, initial, Statuses(calls))
      invariant Matches(q.registry.Keys, log) && EndedAreOut(log, Statuses(calls), q.registry.Keys)
    {
      ghost var present, keys := Statuses(calls), q.registry.Keys;
      var e := Perform(q, calls[n]);
      TellsMore(calls, log, initial, present, e, Statuses(calls));
      MatchesMore(keys, log, e, q.registry.Keys);
      EndedAreOutMore(calls, log, initial, present, keys, e, Statuses(calls), q.registry.Keys);
      log := log + [e];
    }
  }

  ghost predicate Matches(keys: set<int>, log: seq<Entry>) {
    forall id :: id in keys <==> Registered(log, id)
  }

  ghost predicate EndedAreOut(log: seq<Entry>, present: seq<Status>, keys: set<int>) {
    |log| <= |present| && forall i | 0 <= i < |log| && Ends(log[i]) :: Terminal(present[i]) && log[i].id !in keys
  }

  /** The ids in the registry after a call. */
  ghost predicate KeysAfter(keys: set<int>, e: Entry, next: set<int>) {
    forall id :: id in next <==> if id != e.id then id in keys else e.queued || (id in keys && !Ends(e))
  }

  lemma MatchesMore(keys: set<int>, log: seq<Entry>, e: Entry, next: set<int>)
    requires Matches(keys, log) && KeysAfter(keys, e, next) && !(e.queued && Ends(e))
    ensures Matches(next, log + [e])
  {
    forall id
      ensures id in next <==> Registered(log + [e], id)
    {
      RegisteredMore(log, e, id);
    }
  }

  lemma EndedAreOutMore(calls: seq<Call>, log: seq<Entry>, initial: seq<Status>, present: seq<Status>, keys: set<int>,
                        e: Entry, next: seq<Status>, after: set<int>)
    requires Tells(calls, log, initial, present) && |log| < |calls| && Fits(calls[|log|], e) && |next| == |present|
    requires e.before == present[|log|]
    requires forall i | 0 <= i < |calls| :: next[i] == if calls[i].t.id == e.id then e.after else present[i]
    requires forall i | 0 <= i < |calls| && calls[i].t.id == e.id :: present[i] == e.before
    requires EndedAreOut(log, present, keys) && KeysAfter(keys, e, after)
    ensures EndedAreOut(log + [e], next, after)
  {
    var more := log + [e];
    forall i | 0 <= i < |more| && Ends(more[i])
      ensures Terminal(next[i]) && more[i].id !in after
    {
      if i < |log| {
        assert more[i] == log[i];
        assert calls[i].t.id == log[i].id;
      }
    }
  }
}
