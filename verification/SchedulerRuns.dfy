/** Whole runs of scheduler calls (module/queue/scheduler.go): the id-keyed LIFO discipline, conservation of
    accepted tasks, and what may happen between the two halves of a request. */
module SchedulerRuns {
  import opened Tasks
  import opened FifoSchedulers

  datatype Call =
    | QueueCall(task: Task)
    | CancelCall(targets: set<int>)
    | RequestCall(due: bool)
    | ShutdownCall

  function Next(capacity: int, s: Stack, call: Call): Stack {
    match call
    case QueueCall(task) => AfterQueue(capacity, s, task)
    case CancelCall(targets) => AfterCancel(s, targets)
    case RequestCall(due) => AfterRequest(s, due)
    case ShutdownCall => s.(stopped := true)
  }

  function Run(capacity: int, s: Stack, calls: seq<Call>): Stack {
    if calls == [] then s
    else Next(capacity, Run(capacity, s, calls[..|calls| - 1]), calls[|calls| - 1])
  }

  const Empty := Stack([], false)

  lemma {:induction false} RunKeepsWellFormed(capacity: int, s: Stack, calls: seq<Call>)
    requires WellFormed(capacity, s)
    ensures WellFormed(capacity, Run(capacity, s, calls))
  {
    if calls != [] {
      var before := Run(capacity, s, calls[..|calls| - 1]);
      RunKeepsWellFormed(capacity, s, calls[..|calls| - 1]);
      match calls[|calls| - 1]
      case QueueCall(task) => QueueKeepsWellFormed(capacity, before, task);
      case CancelCall(targets) => WithoutMeaning(before.waiting, targets);
      case _ =>
    }
  }

  /** The scheduler is shut down exactly from the first shutdown on. */
  lemma {:induction false} ShutdownStops(capacity: int, s: Stack, calls: seq<Call>)
    ensures Run(capacity, s, calls).stopped <==> s.stopped || exists i :: 0 <= i < |calls| && calls[i].ShutdownCall?
  {
    if calls != [] {
      var front, last := calls[..|calls| - 1], calls[|calls| - 1];
      ShutdownStops(capacity, s, front);
      assert calls[|calls| - 1] == last && forall i | 0 <= i < |front| :: front[i] == calls[i];
    }
  }

  /** What each call does, told by the ids of the waiting tasks. */
  lemma NextById(capacity: int, s: Stack, call: Call)
    ensures call.QueueCall? && !QueueResult(capacity, s, call.task).Accepted? ==> Next(capacity, s, call) == s
    ensures call.QueueCall? && QueueResult(capacity, s, call.task).Accepted? ==>
              IdsOf(Next(capacity, s, call).waiting) == WithoutIds(IdsOf(s.waiting), {call.task.id}) + [call.task.id]
    ensures call.CancelCall? ==> IdsOf(Next(capacity, s, call).waiting) == WithoutIds(IdsOf(s.waiting), call.targets)
    ensures call.RequestCall? && !s.stopped && s.waiting != [] && call.due ==>
              Next(capacity, s, call).waiting == s.waiting[..|s.waiting| - 1]
    ensures call.RequestCall? && !(!s.stopped && s.waiting != [] && call.due) ==> Next(capacity, s, call) == s
    ensures call.ShutdownCall? ==> Next(capacity, s, call).waiting == s.waiting && Next(capacity, s, call).stopped
  {
    if call.QueueCall? {
      WithoutIdsOf(s.waiting, {call.task.id});
    } else if call.CancelCall? {
      WithoutIdsOf(s.waiting, call.targets);
    }
  }

  // Conservation.

  /** Where the accepted tasks of a run went. */
  datatype Ledger = Ledger(
    accepted: multiset<Task>,
    served: multiset<Task>,
    cancelled: multiset<Task>,
    displaced: multiset<Task>)

  function Hit(tasks: seq<Task>, targets: set<int>): (hit: seq<Task>)
    ensures forall i | 0 <= i < |hit| :: hit[i].id in targets
  {
    if tasks == [] then []
    else
      var rest, last := Hit(tasks[..|tasks| - 1], targets), tasks[|tasks| - 1];
      if last.id in targets then rest + [last] else rest
  }

  function BookNext(capacity: int, book: Ledger, s: Stack, call: Call): Ledger {
    match call
    case QueueCall(task) =>
      if QueueResult(capacity, s, task).Accepted? then
        book.(accepted := book.accepted + multiset{task},
              displaced := book.displaced + multiset(Hit(s.waiting, {task.id})))
      else book
    case CancelCall(targets) => book.(cancelled := book.cancelled + multiset(Hit(s.waiting, targets)))
    case RequestCall(due) =>
      var r := RequestResult(s, due);
      if r.Picked? then book.(served := book.served + multiset{r.task}) else book
    case ShutdownCall => book
  }

  function Book(capacity: int, calls: seq<Call>): Ledger {
    if calls == [] then Ledger(multiset{}, multiset{}, multiset{}, multiset{})
    else
      var front := calls[..|calls| - 1];
      BookNext(capacity, Book(capacity, front), Run(capacity, Empty, front), calls[|calls| - 1])
  }

  predicate Balanced(book: Ledger, waiting: seq<Task>) {
    book.accepted == multiset(waiting) + book.served + book.cancelled + book.displaced
  }

  lemma {:induction false} KeptOrHit(tasks: seq<Task>, targets: set<int>)
    ensures multiset(tasks) == multiset(Without(tasks, targets)) + multiset(Hit(tasks, targets))
  {
    if tasks != [] {
      KeptOrHit(tasks[..|tasks| - 1], targets);
      assert tasks == tasks[..|tasks| - 1] + [tasks[|tasks| - 1]];
    }
  }

  lemma BalancedStep(capacity: int, book: Ledger, s: Stack, call: Call)
    requires Balanced(book, s.waiting)
    ensures Balanced(BookNext(capacity, book, s, call), Next(capacity, s, call).waiting)
  {
    match call
    case QueueCall(task) => KeptOrHit(s.waiting, {task.id});
    case CancelCall(targets) => KeptOrHit(s.waiting, targets);
    case RequestCall(due) =>
      if RequestResult(s, due).Picked? {
        assert s.waiting == s.waiting[..|s.waiting| - 1] + [s.waiting[|s.waiting| - 1]];
      }
    case ShutdownCall =>
  }

  /** Over any run: accepted = waiting + served + cancelled + displaced, as multisets of tasks. */
  lemma {:induction false} Conservation(capacity: int, calls: seq<Call>)
    ensures Balanced(Book(capacity, calls), Run(capacity, Empty, calls).waiting)
  {
    if calls != [] {
      var front := calls[..|calls| - 1];
      Conservation(capacity, front);
      BalancedStep(capacity, Book(capacity, front), Run(capacity, Empty, front), calls[|calls| - 1]);
    }
  }

  lemma {:induction false} HitMembers(tasks: seq<Task>, targets: set<int>)
    ensures forall t | t in Hit(tasks, targets) :: t in tasks && t.id in targets
  {
    if tasks != [] {
      HitMembers(tasks[..|tasks| - 1], targets);
    }
  }

  /** Call j queued t, and it was accepted. */
  predicate Accepts(capacity: int, calls: seq<Call>, j: nat, t: Task)
    requires j < |calls|
  {
    var s := Run(capacity, Empty, calls[..j]);
    calls[j].QueueCall? && calls[j].task == t && QueueResult(capacity, s, t).Accepted?
  }

  lemma {:induction false} AcceptedIsExplained(capacity: int, calls: seq<Call>, t: Task)
    requires t in Book(capacity, calls).accepted
    ensures exists j: nat :: j < |calls| && Accepts(capacity, calls, j, t)
  {
    var n := |calls| - 1;
    var front := calls[..n];
    if t in Book(capacity, front).accepted {
      AcceptedIsExplained(capacity, front, t);
      var j: nat :| j < n && Accepts(capacity, front, j, t);
      assert front[..j] == calls[..j];
      assert Accepts(capacity, calls, j, t);
    } else {
      assert Accepts(capacity, calls, n, t);
    }
  }

  /** Call j was a request, answered with t. */
  predicate Answers(capacity: int, calls: seq<Call>, j: nat, t: Task)
    requires j < |calls|
  {
    var s := Run(capacity, Empty, calls[..j]);
    calls[j].RequestCall? && RequestResult(s, calls[j].due) == Picked(t)
  }

  lemma {:induction false} ServedIsExplained(capacity: int, calls: seq<Call>, t: Task)
    requires t in Book(capacity, calls).served
    ensures exists j: nat :: j < |calls| && Answers(capacity, calls, j, t)
  {
    var n := |calls| - 1;
    var front := calls[..n];
    if t in Book(capacity, front).served {
      ServedIsExplained(capacity, front, t);
      var j: nat :| j < n && Answers(capacity, front, j, t);
      assert front[..j] == calls[..j];
      assert Answers(capacity, calls, j, t);
    } else {
      assert Answers(capacity, calls, n, t);
    }
  }

  /** Call j cancelled t while it was waiting. */
  predicate Cancels(capacity: int, calls: seq<Call>, j: nat, t: Task)
    requires j < |calls|
  {
    var s := Run(capacity, Empty, calls[..j]);
    calls[j].CancelCall? && t in s.waiting && t.id in calls[j].targets
  }

  lemma {:induction false} CancelledIsExplained(capacity: int, calls: seq<Call>, t: Task)
    requires t in Book(capacity, calls).cancelled
    ensures exists j: nat :: j < |calls| && Cancels(capacity, calls, j, t)
  {
    var n := |calls| - 1;
    var front := calls[..n];
    if t in Book(capacity, front).cancelled {
      CancelledIsExplained(capacity, front, t);
      var j: nat :| j < n && Cancels(capacity, front, j, t);
      assert front[..j] == calls[..j];
      assert Cancels(capacity, calls, j, t);
    } else {
      if calls[n].CancelCall? {
        HitMembers(Run(capacity, Empty, front).waiting, calls[n].targets);
      }
      assert Cancels(capacity, calls, n, t);
    }
  }

  /** Call j queued another task under the id of t, which was waiting. */
  predicate Displaces(capacity: int, calls: seq<Call>, j: nat, t: Task)
    requires j < |calls|
  {
    var s := Run(capacity, Empty, calls[..j]);
    && calls[j].QueueCall? && QueueResult(capacity, s, calls[j].task).Accepted?
    && t in s.waiting && t.id == calls[j].task.id
  }

  lemma {:induction false} DisplacedIsExplained(capacity: int, calls: seq<Call>, t: Task)
    requires t in Book(capacity, calls).displaced
    ensures exists j: nat :: j < |calls| && Displaces(capacity, calls, j, t)
  {
    var n := |calls| - 1;
    var front := calls[..n];
    if t in Book(capacity, front).displaced {
      DisplacedIsExplained(capacity, front, t);
      var j: nat :| j < n && Displaces(capacity, front, j, t);
      assert front[..j] == calls[..j];
      assert Displaces(capacity, calls, j, t);
    } else {
      if calls[n].QueueCall? {
        HitMembers(Run(capacity, Empty, front).waiting, {calls[n].task.id});
      }
      assert Displaces(capacity, calls, n, t);
    }
  }

  // The discipline: which queueing survives, and which one a request serves.

  predicate IsQueueing(calls: seq<Call>, i: nat) {
    i < |calls| && calls[i].QueueCall?
  }

  predicate AcceptedAt(capacity: int, calls: seq<Call>, i: nat) {
    IsQueueing(calls, i) && QueueResult(capacity, Run(capacity, Empty, calls[..i]), calls[i].task).Accepted?
  }

  /** Call j serves what call i queued: it picks a task, and call i is the last surviving queueing before it. */
  ghost predicate Serves(capacity: int, calls: seq<Call>, j: nat, i: nat)
    requires j < |calls|
    decreases j, 1
  {
    && calls[j].RequestCall?
    && RequestResult(Run(capacity, Empty, calls[..j]), calls[j].due).Picked?
    && i < j && Survives(capacity, calls, i, j)
    && forall k | i < k < j :: !Survives(capacity, calls, k, j)
  }

  ghost predicate Removes(capacity: int, calls: seq<Call>, j: nat, i: nat)
    requires j < |calls| && IsQueueing(calls, i)
    decreases j, 2
  {
    var id := calls[i].task.id;
    || (AcceptedAt(capacity, calls, j) && calls[j].task.id == id)
    || (calls[j].CancelCall? && id in calls[j].targets)
    || Serves(capacity, calls, j, i)
  }

  /** What call i queued is still there after the first n calls. */
  ghost predicate Survives(capacity: int, calls: seq<Call>, i: nat, n: nat)
    requires n <= |calls|
    decreases n, 0
  {
    && i < n && AcceptedAt(capacity, calls, i)
    && forall j | i < j < n :: !Removes(capacity, calls, j, i)
  }

  /** The numbers of the surviving queueings after n calls, oldest first. */
  ghost predicate Stamps(capacity: int, calls: seq<Call>, n: nat, stamps: seq<nat>)
    requires n <= |calls|
  {
    var waiting := Run(capacity, Empty, calls[..n]).waiting;
    && |stamps| == |waiting|
    && (forall k | 0 <= k < |stamps| ::
        stamps[k] < n && calls[stamps[k]].QueueCall? && calls[stamps[k]].task == waiting[k])
    && (forall k, l | 0 <= k < l < |stamps| :: stamps[k] < stamps[l])
    && (forall i: nat :: i in stamps <==> Survives(capacity, calls, i, n))
  }

  lemma SurvivesStep(capacity: int, calls: seq<Call>, i: nat, n: nat)
    requires n < |calls|
    ensures Survives(capacity, calls, i, n + 1)
       <==> if i == n then AcceptedAt(capacity, calls, n)
            else Survives(capacity, calls, i, n) && !Removes(capacity, calls, n, i)
  {
  }

  /** The stamps that outlast the filter, in step with the tasks that do. */
  lemma {:induction false} FilterStamps(calls: seq<Call>, waiting: seq<Task>, stamps: seq<nat>, targets: set<int>)
    returns (kept: seq<nat>)
    requires |stamps| == |waiting|
    requires forall k | 0 <= k < |stamps| ::
               stamps[k] < |calls| && calls[stamps[k]].QueueCall? && calls[stamps[k]].task == waiting[k]
    requires forall k, l | 0 <= k < l < |stamps| :: stamps[k] < stamps[l]
    ensures |kept| == |Without(waiting, targets)|
    ensures forall k | 0 <= k < |kept| :: kept[k] in stamps && calls[kept[k]].task == Without(waiting, targets)[k]
    ensures forall k, l | 0 <= k < l < |kept| :: kept[k] < kept[l]
    ensures forall i | i in stamps :: i in kept <==> calls[i].task.id !in targets
  {
    if stamps == [] {
      kept := [];
    } else {
      var n := |stamps| - 1;
      kept := FilterStamps(calls, waiting[..n], stamps[..n], targets);
      assert stamps == stamps[..n] + [stamps[n]];
      assert forall k | 0 <= k < |kept| :: kept[k] in stamps[..n];
      if waiting[n].id !in targets {
        kept := kept + [stamps[n]];
      }
    }
  }

  lemma RunPrefix(capacity: int, calls: seq<Call>, n: nat)
    requires n < |calls|
    ensures Run(capacity, Empty, calls[..n + 1]) == Next(capacity, Run(capacity, Empty, calls[..n]), calls[n])
  {
    assert calls[..n + 1][..n] == calls[..n];
  }

  lemma ServesTheLast(capacity: int, calls: seq<Call>, n: nat, stamps: seq<nat>, i: nat)
    requires n < |calls| && Stamps(capacity, calls, n, stamps)
    requires calls[n].RequestCall? && RequestResult(Run(capacity, Empty, calls[..n]), calls[n].due).Picked?
    ensures Serves(capacity, calls, n, i) <==> i == stamps[|stamps| - 1]
  {
    var last := stamps[|stamps| - 1];
    assert last in stamps;
    forall k | last < k < n
      ensures !Survives(capacity, calls, k, n)
    {
      assert k !in stamps;
    }
  }

  lemma StampsAfterFilter(capacity: int, calls: seq<Call>, n: nat, stamps: seq<nat>, targets: set<int>)
    returns (kept: seq<nat>)
    requires n < |calls| && Stamps(capacity, calls, n, stamps)
    ensures var rest := Without(Run(capacity, Empty, calls[..n]).waiting, targets);
            && |kept| == |rest|
            && (forall k | 0 <= k < |kept| ::
                kept[k] < n && calls[kept[k]].QueueCall? && calls[kept[k]].task == rest[k])
            && (forall k, l | 0 <= k < l < |kept| :: kept[k] < kept[l])
            && (forall i: nat :: i in kept <==> Survives(capacity, calls, i, n) && calls[i].task.id !in targets)
  {
    kept := FilterStamps(calls, Run(capacity, Empty, calls[..n]).waiting, stamps, targets);
    assert forall k | 0 <= k < |kept| :: kept[k] in stamps;
  }

  lemma StampsQueued(capacity: int, calls: seq<Call>, n: nat, stamps: seq<nat>) returns (next: seq<nat>)
    requires n < |calls| && Stamps(capacity, calls, n, stamps) && AcceptedAt(capacity, calls, n)
    ensures Stamps(capacity, calls, n + 1, next)
  {
    RunPrefix(capacity, calls, n);
    var kept := StampsAfterFilter(capacity, calls, n, stamps, {calls[n].task.id});
    next := kept + [n];
    forall i: nat
      ensures i in next <==> Survives(capacity, calls, i, n + 1)
    {
      SurvivesStep(capacity, calls, i, n);
      assert i in next <==> i in kept || i == n;
    }
  }

  lemma StampsCancelled(capacity: int, calls: seq<Call>, n: nat, stamps: seq<nat>) returns (next: seq<nat>)
    requires n < |calls| && Stamps(capacity, calls, n, stamps) && calls[n].CancelCall?
    ensures Stamps(capacity, calls, n + 1, next)
  {
    RunPrefix(capacity, calls, n);
    next := StampsAfterFilter(capacity, calls, n, stamps, calls[n].targets);
    forall i: nat
      ensures i in next <==> Survives(capacity, calls, i, n + 1)
    {
      SurvivesStep(capacity, calls, i, n);
    }
  }

  lemma StampsServed(capacity: int, calls: seq<Call>, n: nat, stamps: seq<nat>) returns (next: seq<nat>)
    requires n < |calls| && Stamps(capacity, calls, n, stamps)
    requires calls[n].RequestCall? && RequestResult(Run(capacity, Empty, calls[..n]), calls[n].due).Picked?
    ensures Stamps(capacity, calls, n + 1, next)
  {
    RunPrefix(capacity, calls, n);
    next := stamps[..|stamps| - 1];
    forall i: nat
      ensures i in next <==> Survives(capacity, calls, i, n + 1)
    {
      ButTheLast(stamps, i);
      ServedStep(capacity, calls, n, stamps, i);
    }
  }

  lemma ButTheLast(stamps: seq<nat>, i: nat)
    requires stamps != [] && forall k, l | 0 <= k < l < |stamps| :: stamps[k] < stamps[l]
    ensures i in stamps[..|stamps| - 1] <==> i in stamps && i != stamps[|stamps| - 1]
  {
    assert stamps == stamps[..|stamps| - 1] + [stamps[|stamps| - 1]];
  }

  lemma ServedStep(capacity: int, calls: seq<Call>, n: nat, stamps: seq<nat>, i: nat)
    requires n < |calls| && Stamps(capacity, calls, n, stamps)
    requires calls[n].RequestCall? && RequestResult(Run(capacity, Empty, calls[..n]), calls[n].due).Picked?
    ensures Survives(capacity, calls, i, n + 1) <==> i in stamps && i != stamps[|stamps| - 1]
  {
    SurvivesStep(capacity, calls, i, n);
    if i < n && IsQueueing(calls, i) {
      ServesTheLast(capacity, calls, n, stamps, i);
      assert Removes(capacity, calls, n, i) <==> Serves(capacity, calls, n, i);
    }
  }

  lemma StampsUnchanged(capacity: int, calls: seq<Call>, n: nat, stamps: seq<nat>)
    requires n < |calls| && Stamps(capacity, calls, n, stamps)
    requires var s := Run(capacity, Empty, calls[..n]); Next(capacity, s, calls[n]).waiting == s.waiting
    requires !AcceptedAt(capacity, calls, n) && !calls[n].CancelCall?
    requires calls[n].RequestCall? ==> !RequestResult(Run(capacity, Empty, calls[..n]), calls[n].due).Picked?
    ensures Stamps(capacity, calls, n + 1, stamps)
  {
    RunPrefix(capacity, calls, n);
    forall i: nat
      ensures i in stamps <==> Survives(capacity, calls, i, n + 1)
    {
      SurvivesStep(capacity, calls, i, n);
    }
  }

  lemma StampsStep(capacity: int, calls: seq<Call>, n: nat, stamps: seq<nat>) returns (next: seq<nat>)
    requires n < |calls| && Stamps(capacity, calls, n, stamps)
    ensures Stamps(capacity, calls, n + 1, next)
  {
    if AcceptedAt(capacity, calls, n) {
      next := StampsQueued(capacity, calls, n, stamps);
    } else if calls[n].CancelCall? {
      next := StampsCancelled(capacity, calls, n, stamps);
    } else if calls[n].RequestCall? && RequestResult(Run(capacity, Empty, calls[..n]), calls[n].due).Picked? {
      next := StampsServed(capacity, calls, n, stamps);
    } else {
      StampsUnchanged(capacity, calls, n, stamps);
      next := stamps;
    }
  }

  /** The waiting tasks are exactly the surviving queueings, in the order they were queued. */
  lemma {:induction false} WaitingAreTheSurvivors(capacity: int, calls: seq<Call>, n: nat) returns (stamps: seq<nat>)
    requires n <= |calls|
    ensures Stamps(capacity, calls, n, stamps)
  {
    if n == 0 {
      stamps := [];
      assert calls[..0] == [];
    } else {
      var before := WaitingAreTheSurvivors(capacity, calls, n - 1);
      stamps := StampsStep(capacity, calls, n - 1, before);
    }
  }

  /** Last in, first out, by id: a request answers with the task of the last surviving queueing if that task
      is due, and with nothing otherwise, however early another waiting task may resume. */
  lemma RequestServesTheLastSurvivor(capacity: int, calls: seq<Call>, n: nat)
    requires n < |calls| && calls[n].RequestCall?
    ensures var s := Run(capacity, Empty, calls[..n]);
            var r := RequestResult(s, calls[n].due);
            if s.stopped then r == StoppedError
            else if (forall i | 0 <= i < n :: !Survives(capacity, calls, i, n)) || !calls[n].due then r == NothingDue
            else exists i: nat ::
                i < n && Serves(capacity, calls, n, i) && IsQueueing(calls, i) && r == Picked(calls[i].task)
  {
    var s := Run(capacity, Empty, calls[..n]);
    var stamps := WaitingAreTheSurvivors(capacity, calls, n);
    if stamps != [] {
      var last := stamps[|stamps| - 1];
      assert last in stamps && Survives(capacity, calls, last, n);
      if RequestResult(s, calls[n].due).Picked? {
        ServesTheLast(capacity, calls, n, stamps, last);
        assert Serves(capacity, calls, n, last) && IsQueueing(calls, last);
        assert s.waiting[|s.waiting| - 1] == calls[last].task;
      }
    } else {
      forall i | 0 <= i < n
        ensures !Survives(capacity, calls, i, n)
      {
        assert i !in stamps;
      }
    }
  }

  // Between the two halves of a request.

  /** Calls that other goroutines may make between the glance at the count and the locked pop; the one
      requester makes none. */
  predicate WindowCalls(calls: seq<Call>) {
    forall i | 0 <= i < |calls| :: !calls[i].RequestCall?
  }

  /** Call k is a cancellation of everything waiting at that moment, and nothing is accepted after it. */
  predicate EmptiesFor(capacity: int, s: Stack, calls: seq<Call>, k: nat) {
    && k < |calls|
    && calls[k].CancelCall?
    && (forall t | t in Run(capacity, s, calls[..k]).waiting :: t.id in calls[k].targets)
    && (forall j | k < j < |calls| && calls[j].QueueCall? ::
          !QueueResult(capacity, Run(capacity, s, calls[..j]), calls[j].task).Accepted?)
  }

  ghost predicate Emptied(capacity: int, s: Stack, calls: seq<Call>) {
    exists k: nat :: EmptiesFor(capacity, s, calls, k)
  }

  lemma {:induction false} WithoutEmpty(tasks: seq<Task>, targets: set<int>)
    ensures Without(tasks, targets) == [] <==> forall t | t in tasks :: t.id in targets
  {
    WithoutMeaning(tasks, targets);
    if Without(tasks, targets) != [] {
      assert Without(tasks, targets)[0] in Without(tasks, targets);
    }
  }

  lemma EmptiesEarlier(capacity: int, s: Stack, calls: seq<Call>, k: nat)
    requires calls != [] && k < |calls| - 1
    requires calls[|calls| - 1].QueueCall? ==>
               !QueueResult(capacity, Run(capacity, s, calls[..|calls| - 1]), calls[|calls| - 1].task).Accepted?
    ensures EmptiesFor(capacity, s, calls, k) <==> EmptiesFor(capacity, s, calls[..|calls| - 1], k)
  {
    var n := |calls| - 1;
    assert calls[..n][..k] == calls[..k];
    forall j | k < j < n
      ensures calls[..n][..j] == calls[..j]
    {
    }
  }

  lemma EmptiesAfterCancel(capacity: int, s: Stack, calls: seq<Call>)
    requires calls != [] && calls[|calls| - 1].CancelCall?
    ensures Run(capacity, s, calls).waiting == [] ==> EmptiesFor(capacity, s, calls, |calls| - 1)
    ensures Emptied(capacity, s, calls)
         && (Run(capacity, s, calls[..|calls| - 1]).waiting == [] <==> Emptied(capacity, s, calls[..|calls| - 1]))
         ==> Run(capacity, s, calls).waiting == []
  {
    var n := |calls| - 1;
    var before := Run(capacity, s, calls[..n]);
    WithoutEmpty(before.waiting, calls[n].targets);
    if Emptied(capacity, s, calls) {
      var k: nat :| EmptiesFor(capacity, s, calls, k);
      if k < n {
        EmptiesEarlier(capacity, s, calls, k);
      }
    }
  }

  /** The call puts a task on the stack. */
  predicate Adds(capacity: int, s: Stack, call: Call) {
    call.QueueCall? && QueueResult(capacity, s, call.task).Accepted?
  }

  lemma EmptiesAfterOther(capacity: int, s: Stack, calls: seq<Call>)
    requires calls != [] && !calls[|calls| - 1].CancelCall?
    ensures var last := calls[|calls| - 1];
            Emptied(capacity, s, calls) ==
            (&& !Adds(capacity, Run(capacity, s, calls[..|calls| - 1]), last)
             && Emptied(capacity, s, calls[..|calls| - 1]))
  {
    var n := |calls| - 1;
    if Emptied(capacity, s, calls) {
      var k: nat :| EmptiesFor(capacity, s, calls, k);
      assert k < n;
      EmptiesEarlier(capacity, s, calls, k);
    }
    if !Adds(capacity, Run(capacity, s, calls[..n]), calls[n]) {
      if Emptied(capacity, s, calls[..n]) {
        var k: nat :| EmptiesFor(capacity, s, calls[..n], k);
        EmptiesEarlier(capacity, s, calls, k);
      }
    }
  }

  /** The pop after a successful glance meets the nil slot exactly when, in between, a cancellation took
      everything that was waiting and nothing was queued after it, the scheduler shut down meanwhile or not. */
  lemma {:induction false} NilPopExactly(capacity: int, s: Stack, calls: seq<Call>)
    requires GlanceAt(s).SawTasks? && WindowCalls(calls)
    ensures Run(capacity, s, calls).waiting == [] <==> Emptied(capacity, s, calls)
  {
    if calls != [] {
      NilPopExactly(capacity, s, calls[..|calls| - 1]);
      if calls[|calls| - 1].CancelCall? {
        EmptiesAfterCancel(capacity, s, calls);
      } else {
        EmptiesAfterOther(capacity, s, calls);
      }
    }
  }

  /** Queueing alone is harmless in the window, whatever its capacity refusals and displacements. */
  lemma QueueingKeepsTheTop(capacity: int, s: Stack, calls: seq<Call>)
    requires GlanceAt(s).SawTasks?
    requires forall i | 0 <= i < |calls| :: calls[i].QueueCall?
    ensures Run(capacity, s, calls).waiting != []
  {
    NilPopExactly(capacity, s, calls);
  }

  lemma QueueThenCancel(t: Task)
    ensures AfterQueue(0, Empty, t) == Stack([t], false)
    ensures AfterCancel(Stack([t], false), set id | id in [t.id]) == Empty
  {
    assert Without([], {t.id}) == [];
    WithoutEmpty([t], set id | id in [t.id]);
  }

  /** A run of the two-step request that ends at the nil slot: glance, cancel, pop. */
  method NilPopWitness(t: Task) returns (glanced: Glanced, popped: Picked)
    ensures glanced.SawTasks? && popped.NilPanic?
  {
    var scheduler := new FifoScheduler(0);
    var queued := scheduler.Queue(t);
    QueueThenCancel(t);
    glanced := scheduler.Glance();
    var cancelled := scheduler.Cancel([t.id]);
    assert scheduler.View() == Empty;
    popped := scheduler.PopDue(0);
  }
}
