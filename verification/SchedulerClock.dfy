/** Runs of scheduler calls with their clock (module/queue/scheduler.go): tasks come with the second they resume
    at, requests with the second they are made in, and whether the top task is due follows from the two. */
module SchedulerClock {
  import opened Tasks
  import opened FifoSchedulers
  import opened SchedulerRuns

  datatype Event =
    | QueueEvent(task: Task, resumeAt: int)
    | CancelEvent(targets: set<int>)
    | RequestEvent(now: int)
    | ShutdownEvent

  /** The calls the events amount to. */
  function CallsOf(capacity: int, events: seq<Event>): (calls: seq<Call>)
    ensures |calls| == |events|
    decreases |events|, 1
  {
    if events == [] then []
    else
      var front := events[..|events| - 1];
      CallsOf(capacity, front) + [CallOf(capacity, front, events[|events| - 1])]
  }

  function CallOf(capacity: int, before: seq<Event>, event: Event): Call
    decreases |before|, 3
  {
    match event
    case QueueEvent(task, _) => QueueCall(task)
    case CancelEvent(targets) => CancelCall(targets)
    case RequestEvent(now) => RequestCall(TopIsDue(capacity, before, now))
    case ShutdownEvent => ShutdownCall
  }

  predicate TopIsDue(capacity: int, events: seq<Event>, now: int)
    decreases |events|, 2
  {
    var waiting := Run(capacity, Empty, CallsOf(capacity, events)).waiting;
    waiting != [] && ResumeOf(capacity, events, waiting[|waiting| - 1]) <= now
  }

  /** The resume second of a task as it was last accepted. */
  function ResumeOf(capacity: int, events: seq<Event>, task: Task): int
    decreases |events|, 1
  {
    if events == [] then 0
    else
      var front, last := events[..|events| - 1], events[|events| - 1];
      if last.QueueEvent? && last.task == task
         && QueueResult(capacity, Run(capacity, Empty, CallsOf(capacity, front)), task).Accepted?
      then last.resumeAt else ResumeOf(capacity, front, task)
  }

  lemma {:induction false} CallsOfPrefix(capacity: int, events: seq<Event>, n: nat)
    requires n <= |events|
    ensures CallsOf(capacity, events)[..n] == CallsOf(capacity, events[..n])
    decreases |events|
  {
    if n == |events| {
      assert events[..n] == events;
    } else {
      var front := events[..|events| - 1];
      CallsOfPrefix(capacity, front, n);
      assert front[..n] == events[..n];
      assert CallsOf(capacity, events)[..n] == CallsOf(capacity, front)[..n];
    }
  }

  lemma CallAt(capacity: int, events: seq<Event>, n: nat)
    requires n < |events|
    ensures CallsOf(capacity, events)[n] == CallOf(capacity, events[..n], events[n])
  {
    CallsOfPrefix(capacity, events, n + 1);
    assert events[..n + 1][..n] == events[..n];
    assert CallsOf(capacity, events)[n] == CallsOf(capacity, events)[..n + 1][n];
  }

  /** The calls are those of the events, one by one; a request finds its top task due by the two seconds. */
  lemma EventsBecomeCalls(capacity: int, events: seq<Event>, n: nat)
    requires n < |events|
    ensures var calls := CallsOf(capacity, events);
            && (events[n].QueueEvent? <==> calls[n].QueueCall?)
            && (events[n].QueueEvent? ==> calls[n].task == events[n].task)
            && (events[n].CancelEvent? <==> calls[n].CancelCall?)
            && (events[n].CancelEvent? ==> calls[n].targets == events[n].targets)
            && (events[n].RequestEvent? <==> calls[n].RequestCall?)
            && (events[n].ShutdownEvent? <==> calls[n].ShutdownCall?)
  {
    CallAt(capacity, events, n);
  }

  /** A surviving task still has the resume second it was queued with. */
  lemma {:induction false} SurvivorsResume(capacity: int, events: seq<Event>, i: nat, n: nat)
    requires n <= |events| && Survives(capacity, CallsOf(capacity, events), i, n)
    ensures events[i].QueueEvent? && events[i].task == CallsOf(capacity, events)[i].task
    ensures ResumeOf(capacity, events[..n], events[i].task) == events[i].resumeAt
    decreases n
  {
    var calls, k := CallsOf(capacity, events), n - 1;
    CallAt(capacity, events, i);
    CallAt(capacity, events, k);
    CallsOfPrefix(capacity, events, k);
    assert events[..n][..k] == events[..k] && events[..n][k] == events[k];
    if i < k {
      SurvivesStep(capacity, calls, i, k);
      assert !Removes(capacity, calls, k, i);
      SurvivorsResume(capacity, events, i, k);
    }
  }

  /** The last task that was queued and is still there: a request takes it if its resume second has come by
      then, and otherwise takes nothing, whatever else is due. */
  lemma RequestByTheClock(capacity: int, events: seq<Event>, n: nat, i: nat)
    requires n < |events| && events[n].RequestEvent? && i < n
    requires Survives(capacity, CallsOf(capacity, events), i, n)
    requires forall k | i < k < n :: !Survives(capacity, CallsOf(capacity, events), k, n)
    ensures var calls := CallsOf(capacity, events);
            var s := Run(capacity, Empty, calls[..n]);
            && events[i].QueueEvent? && calls[n].RequestCall?
            && RequestResult(s, calls[n].due) ==
               if s.stopped then StoppedError
               else if events[i].resumeAt <= events[n].now then Picked(events[i].task) else NothingDue
  {
    var calls := CallsOf(capacity, events);
    CallAt(capacity, events, n);
    CallsOfPrefix(capacity, events, n);
    SurvivorsResume(capacity, events, i, n);
    LastIsOnTop(capacity, calls, i, n);
  }

  lemma LastIsOnTop(capacity: int, calls: seq<Call>, i: nat, n: nat)
    requires n <= |calls| && Survives(capacity, calls, i, n) && forall k | i < k < n :: !Survives(capacity, calls, k, n)
    ensures var waiting := Run(capacity, Empty, calls[..n]).waiting;
            waiting != [] && calls[i].QueueCall? && waiting[|waiting| - 1] == calls[i].task
  {
    var stamps := WaitingAreTheSurvivors(capacity, calls, n);
    assert i in stamps;
    var last := stamps[|stamps| - 1];
    assert last in stamps;
    assert last == i;
  }
}
