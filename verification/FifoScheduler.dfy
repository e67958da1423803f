/** The scheduler (module/queue/scheduler.go): a slice used as a stack on top of two slots that stay nil.

    The heap interface of the source is never used, so the task served is the one queued last, not the one
    that resumes earliest. */
module FifoSchedulers {
  import opened Tasks

  datatype Queueing = Accepted | RefusedShutdown | RefusedFull

  datatype Glanced = SawTasks | SawEmpty | SawStop

  datatype Picked = Picked(task: Task) | NothingDue | StoppedError | NilPanic

  // Slices with nil slots, and the tasks waiting in them.

  predicate Dropped(slot: Task?, targets: set<int>) {
    slot != null && slot.id in targets
  }

  /** The order-preserving filter that keeps nil slots and the tasks outside the target set. */
  function Keep(slots: seq<Task?>, targets: set<int>): (kept: seq<Task?>)
    ensures |kept| <= |slots|
  {
    if slots == [] then []
    else
      var rest, last := Keep(slots[..|slots| - 1], targets), slots[|slots| - 1];
      if Dropped(last, targets) then rest else rest + [last]
  }

  function Without(tasks: seq<Task>, targets: set<int>): (kept: seq<Task>)
    ensures |kept| <= |tasks|
  {
    if tasks == [] then []
    else
      var rest, last := Without(tasks[..|tasks| - 1], targets), tasks[|tasks| - 1];
      if last.id in targets then rest else rest + [last]
  }

  function WithoutIds(ids: seq<int>, targets: set<int>): (kept: seq<int>)
    ensures |kept| <= |ids|
  {
    if ids == [] then []
    else
      var rest, last := WithoutIds(ids[..|ids| - 1], targets), ids[|ids| - 1];
      if last in targets then rest else rest + [last]
  }

  function IdsOf(tasks: seq<Task>): (ids: seq<int>)
    ensures |ids| == |tasks|
  {
    seq(|tasks|, i requires 0 <= i < |tasks| => tasks[i].id)
  }

  /** The slice that holds the given waiting tasks. */
  function Slots(tasks: seq<Task>): (slots: seq<Task?>)
    ensures |slots| == |tasks| + 2
  {
    [null, null] + seq(|tasks|, i requires 0 <= i < |tasks| => tasks[i])
  }

  lemma SlotsAppend(tasks: seq<Task>, task: Task)
    ensures Slots(tasks + [task]) == Slots(tasks) + [task]
  {
  }

  predicate DistinctIds(tasks: seq<Task>) {
    forall i, j | 0 <= i < j < |tasks| :: tasks[i].id != tasks[j].id
  }

  lemma {:induction false} KeepSlots(tasks: seq<Task>, targets: set<int>)
    ensures Keep(Slots(tasks), targets) == Slots(Without(tasks, targets))
  {
    var slots := Slots(tasks);
    if tasks == [] {
      assert slots[..1] == [null] && slots[..1][..0] == [];
      assert Keep([null], targets) == [null];
    } else {
      assert slots[..|slots| - 1] == Slots(tasks[..|tasks| - 1]);
      KeepSlots(tasks[..|tasks| - 1], targets);
    }
  }

  lemma {:induction false} WithoutIdsOf(tasks: seq<Task>, targets: set<int>)
    ensures IdsOf(Without(tasks, targets)) == WithoutIds(IdsOf(tasks), targets)
  {
    if tasks != [] {
      WithoutIdsOf(tasks[..|tasks| - 1], targets);
      assert IdsOf(tasks)[..|tasks| - 1] == IdsOf(tasks[..|tasks| - 1]);
    }
  }

  /** What the filter leaves: nothing of the target set, everything else, and ids still distinct. */
  lemma {:induction false} WithoutMeaning(tasks: seq<Task>, targets: set<int>)
    ensures forall t | t in Without(tasks, targets) :: t in tasks && t.id !in targets
    ensures forall t | t in tasks && t.id !in targets :: t in Without(tasks, targets)
    ensures DistinctIds(tasks) ==> DistinctIds(Without(tasks, targets))
  {
    if tasks != [] {
      var front := tasks[..|tasks| - 1];
      WithoutMeaning(front, targets);
      assert tasks == front + [tasks[|tasks| - 1]];
      if DistinctIds(tasks) {
        assert DistinctIds(front);
        var kept := Without(tasks, targets);
        forall i, j | 0 <= i < j < |kept|
          ensures kept[i].id != kept[j].id
        {
          if j == |kept| - 1 && kept != Without(front, targets) {
            assert kept[i] in Without(front, targets);
            assert kept[i] in front;
          }
        }
      }
    }
  }

  /** With distinct ids, dropping one id drops at most one task. */
  lemma {:induction false} DropOneId(tasks: seq<Task>, id: int)
    requires DistinctIds(tasks)
    ensures |tasks| - 1 <= |Without(tasks, {id})| <= |tasks|
    ensures |Without(tasks, {id})| == |tasks| <==> forall i | 0 <= i < |tasks| :: tasks[i].id != id
    ensures (forall i | 0 <= i < |tasks| :: tasks[i].id != id) ==> Without(tasks, {id}) == tasks
  {
    if tasks != [] {
      DropOneId(tasks[..|tasks| - 1], id);
      assert tasks == tasks[..|tasks| - 1] + [tasks[|tasks| - 1]];
    }
  }

  // The scheduler on values.

  datatype Stack = Stack(waiting: seq<Task>, stopped: bool)

  predicate Full(capacity: int, waiting: seq<Task>) {
    capacity > 0 && |waiting| >= capacity
  }

  function QueueResult(capacity: int, s: Stack, task: Task): Queueing {
    if s.stopped then RefusedShutdown
    else if Full(capacity, Without(s.waiting, {task.id})) then RefusedFull
    else Accepted
  }

  function AfterQueue(capacity: int, s: Stack, task: Task): Stack {
    if QueueResult(capacity, s, task).Accepted? then s.(waiting := Without(s.waiting, {task.id}) + [task]) else s
  }

  function AfterCancel(s: Stack, targets: set<int>): Stack {
    s.(waiting := Without(s.waiting, targets))
  }

  function GlanceAt(s: Stack): Glanced {
    if s.stopped then SawStop else if s.waiting == [] then SawEmpty else SawTasks
  }

  /** An uninterrupted request; `due` says whether the top task's resume time has come. */
  function RequestResult(s: Stack, due: bool): Picked {
    if s.stopped then StoppedError
    else if s.waiting == [] || !due then NothingDue
    else Picked(s.waiting[|s.waiting| - 1])
  }

  function AfterRequest(s: Stack, due: bool): Stack {
    if RequestResult(s, due).Picked? then s.(waiting := s.waiting[..|s.waiting| - 1]) else s
  }

  /** What every operation keeps. */
  predicate WellFormed(capacity: int, s: Stack) {
    DistinctIds(s.waiting) && (capacity > 0 ==> |s.waiting| <= capacity)
  }

  /** `ErrMaxCapacity` only comes up when nothing was removed, so it leaves the queue as it was. */
  /** The filter told by positions: those of the slots that stay, in their order. */
  ghost predicate StaysAt(kept: seq<Task?>, slots: seq<Task?>, targets: set<int>, positions: seq<nat>) {
    && |kept| == |positions|
    && (forall k | 0 <= k < |positions| :: positions[k] < |slots| && kept[k] == slots[positions[k]])
    && (forall k, l | 0 <= k < l < |positions| :: positions[k] < positions[l])
    && (forall i: nat | i < |slots| :: i in positions <==> slots[i] == null || slots[i].id !in targets)
  }

  lemma {:induction false} KeepStaysAt(slots: seq<Task?>, targets: set<int>) returns (positions: seq<nat>)
    ensures StaysAt(Keep(slots, targets), slots, targets, positions)
  {
    positions := [];
    if slots != [] {
      var n := |slots| - 1;
      var earlier := KeepStaysAt(slots[..n], targets);
      positions := if Dropped(slots[n], targets) then earlier else earlier + [n];
      StaysAtMore(Keep(slots[..n], targets), slots, targets, earlier);
    }
  }

  lemma StaysAtMore(kept: seq<Task?>, slots: seq<Task?>, targets: set<int>, positions: seq<nat>)
    requires slots != [] && StaysAt(kept, slots[..|slots| - 1], targets, positions)
    ensures var n := |slots| - 1;
            if Dropped(slots[n], targets) then StaysAt(kept, slots, targets, positions)
            else StaysAt(kept + [slots[n]], slots, targets, positions + [n])
  {
    var n := |slots| - 1;
    forall i: nat | i < |slots|
      ensures i in positions + [n] <==> i in positions || i == n
      ensures i < n ==> slots[..n][i] == slots[i]
    {
    }
    assert n !in positions;
  }

  /** The same for ids alone. */
  lemma {:induction false} WithoutIdsAt(ids: seq<int>, targets: set<int>) returns (positions: seq<nat>)
    ensures |WithoutIds(ids, targets)| == |positions|
    ensures forall k | 0 <= k < |positions| :: positions[k] < |ids| && WithoutIds(ids, targets)[k] == ids[positions[k]]
    ensures forall k, l | 0 <= k < l < |positions| :: positions[k] < positions[l]
    ensures forall i: nat | i < |ids| :: i in positions <==> ids[i] !in targets
  {
    positions := [];
    if ids != [] {
      var n := |ids| - 1;
      positions := WithoutIdsAt(ids[..n], targets);
      if ids[n] !in targets {
        positions := positions + [n];
      }
    }
  }

  /** A task is refused exactly after a shutdown, or when the capacity is used up by other tasks. */
  lemma QueueResultMeaning(capacity: int, s: Stack, task: Task)
    requires WellFormed(capacity, s)
    ensures var r := QueueResult(capacity, s, task);
            var known := exists i :: 0 <= i < |s.waiting| && s.waiting[i].id == task.id;
            && (r.RefusedShutdown? <==> s.stopped)
            && (r.RefusedFull? <==> !s.stopped && capacity > 0 && |s.waiting| == capacity && !known)
            && (r.Accepted? <==> !s.stopped && (capacity <= 0 || |s.waiting| < capacity || known))
  {
    DropOneId(s.waiting, task.id);
  }

  /** What the calls do to the stack, told by ids alone: the functions the interleaved model steps with. */
  lemma StackByIds(capacity: int, s: Stack, task: Task, targets: set<int>, due: bool)
    ensures QueueResult(capacity, s, task).Accepted? ==>
              IdsOf(AfterQueue(capacity, s, task).waiting) == WithoutIds(IdsOf(s.waiting), {task.id}) + [task.id]
    ensures !QueueResult(capacity, s, task).Accepted? ==>
              IdsOf(AfterQueue(capacity, s, task).waiting) == IdsOf(s.waiting)
    ensures IdsOf(AfterCancel(s, targets).waiting) == WithoutIds(IdsOf(s.waiting), targets)
    ensures RequestResult(s, due).Picked? ==>
              && IdsOf(AfterRequest(s, due).waiting) == IdsOf(s.waiting)[..|s.waiting| - 1]
              && RequestResult(s, due).task.id == IdsOf(s.waiting)[|s.waiting| - 1]
    ensures !RequestResult(s, due).Picked? ==> IdsOf(AfterRequest(s, due).waiting) == IdsOf(s.waiting)
  {
    WithoutIdsOf(s.waiting, {task.id});
    WithoutIdsOf(s.waiting, targets);
  }

  lemma FullMeansNothingRemoved(capacity: int, s: Stack, task: Task)
    requires WellFormed(capacity, s) && QueueResult(capacity, s, task).RefusedFull?
    ensures Without(s.waiting, {task.id}) == s.waiting
    ensures forall i | 0 <= i < |s.waiting| :: s.waiting[i].id != task.id
  {
    DropOneId(s.waiting, task.id);
  }

  lemma QueueKeepsWellFormed(capacity: int, s: Stack, task: Task)
    requires WellFormed(capacity, s)
    ensures WellFormed(capacity, AfterQueue(capacity, s, task))
  {
    WithoutMeaning(s.waiting, {task.id});
    var rest := Without(s.waiting, {task.id});
    forall i | 0 <= i < |rest|
      ensures rest[i].id != task.id
    {
      assert rest[i] in rest;
    }
  }

  class FifoScheduler {
    var taskQueue: array<Task?>  // backing array of the slice
    var len: nat                 // length of the slice
    const capacity: int
    var count: int
    var stopFlag: bool

    /** Slots 0 and 1 nil, the others tasks with distinct ids, and the count in step with the slice. */
    ghost predicate Valid()
      reads this, taskQueue
    {
      && 2 <= len <= taskQueue.Length
      && taskQueue[0] == null && taskQueue[1] == null
      && (forall i | 2 <= i < len :: taskQueue[i] != null)
      && (forall i, j | 2 <= i < j < len :: taskQueue[i].id != taskQueue[j].id)
      && count == len - 2
      && (capacity > 0 ==> count <= capacity)
    }

    ghost function View(): Stack
      requires Valid()
      reads this, taskQueue
    {
      var waiting :=
        seq(len - 2, i requires 0 <= i < len - 2 reads this, taskQueue requires Valid() => taskQueue[i + 2]);
      Stack(waiting, stopFlag)
    }

    lemma ViewSlots()
      requires Valid()
      ensures taskQueue[..len] == Slots(View().waiting)
      ensures WellFormed(capacity, View())
    {
    }

    lemma SlotsView(waiting: seq<Task>)
      requires len <= taskQueue.Length && taskQueue[..len] == Slots(waiting)
      requires WellFormed(capacity, Stack(waiting, stopFlag)) && count == |waiting|
      ensures Valid() && View() == Stack(waiting, stopFlag)
    {
      var slots := Slots(waiting);
      assert forall i | 0 <= i < len :: taskQueue[i] == taskQueue[..len][i];
      assert forall i | 2 <= i < len :: slots[i] == waiting[i - 2];
    }

    constructor (queueSize: int)
      ensures Valid() && capacity == queueSize && View() == Stack([], false)
      ensures fresh(taskQueue)
    {
      taskQueue := new Task?[2](i => null);
      len, capacity, count, stopFlag := 2, queueSize, 0, false;
    }

    /** Compaction into the slice's own backing array; the slots behind the new length keep their old content. */
    method CancelLocked(taskIDs: seq<int>) returns (cancelled: nat)
      requires len <= taskQueue.Length
      modifies this`len, taskQueue
      ensures len <= taskQueue.Length
      ensures taskQueue[..len] == Keep(old(taskQueue[..len]), set id | id in taskIDs)
      ensures cancelled == old(len) - len
      ensures forall i | len <= i < taskQueue.Length :: taskQueue[i] == old(taskQueue[i])
    {
      var targets: set<int> := {};
      for k := 0 to |taskIDs|
        invariant targets == set id | id in taskIDs[..k]
      {
        targets := targets + {taskIDs[k]};
      }
      assert taskIDs[..|taskIDs|] == taskIDs;
      cancelled := 0;
      var kept := 0;
      ghost var was := taskQueue[..len];
      for i := 0 to len
        invariant len == old(len) && kept + cancelled == i
        invariant taskQueue[..kept] == Keep(was[..i], targets)
        invariant forall j | kept <= j < taskQueue.Length :: taskQueue[j] == old(taskQueue[j])
      {
        var queuedTask := taskQueue[i];
        assert was[..i + 1][..i] == was[..i] && was[i] == queuedTask;
        if queuedTask != null && queuedTask.id in targets {
          cancelled := cancelled + 1;
        } else {
          taskQueue[kept] := queuedTask;
          kept := kept + 1;
          assert taskQueue[..kept] == taskQueue[..kept - 1] + [queuedTask];
        }
      }
      assert was[..len] == was;
      len := kept;
    }

    /** Appending: in place while the backing array has room, otherwise into a larger one. */
    method Push(task: Task)
      requires len <= taskQueue.Length
      modifies this`len, this`taskQueue, taskQueue
      ensures len == old(len) + 1 <= taskQueue.Length
      ensures taskQueue[..len] == old(taskQueue[..len]) + [task]
      ensures taskQueue == old(taskQueue) || fresh(taskQueue)
    {
      if len == taskQueue.Length {
        var full, n := taskQueue, len;
        var bigger := new Task?[2 * n + 1](i requires 0 <= i < 2 * n + 1 reads full =>
                                             if i < full.Length then full[i] else null);
        taskQueue := bigger;
      }
      taskQueue[len] := task;
      len := len + 1;
    }

    method Queue(task: Task) returns (r: Queueing)
      requires Valid()
      modifies this`len, this`taskQueue, this`count, taskQueue
      ensures Valid() && (taskQueue == old(taskQueue) || fresh(taskQueue))
      ensures r == QueueResult(capacity, old(View()), task)
      ensures View() == AfterQueue(capacity, old(View()), task)
    {
      if stopFlag {
        return RefusedShutdown;
      }
      ghost var s := View();
      ghost var rest := Without(s.waiting, {task.id});
      ViewSlots();
      KeepSlots(s.waiting, {task.id});
      SlotsAppend(rest, task);
      QueueKeepsWellFormed(capacity, s, task);
      assert (set id | id in [task.id]) == {task.id};
      var removed := CancelLocked([task.id]);
      assert taskQueue[..len] == Slots(rest);
      assert count - removed == |rest|;
      if capacity > 0 && count - removed >= capacity {
        FullMeansNothingRemoved(capacity, s, task);
        SlotsView(s.waiting);
        return RefusedFull;
      }
      count := count - removed;
      Push(task);
      assert taskQueue[..len] == Slots(rest + [task]);
      count := count + 1;
      SlotsView(rest + [task]);
      return Accepted;
    }

    /** The clamp of the source is kept; the count never needs it. */
    method Cancel(taskIDs: seq<int>) returns (cancelled: nat)
      requires Valid()
      modifies this`len, this`count, taskQueue
      ensures Valid()
      ensures View() == AfterCancel(old(View()), set id | id in taskIDs)
      ensures cancelled == |old(View()).waiting| - |View().waiting|
    {
      ghost var s := View();
      ghost var targets := set id | id in taskIDs;
      WithoutMeaning(s.waiting, targets);
      ViewSlots();
      if |taskIDs| == 0 {
        KeepEverything(s.waiting);
        assert targets == {};
        return 0;
      }
      cancelled := CancelLocked(taskIDs);
      KeepSlots(s.waiting, targets);
      count := if count - cancelled < 0 then 0 else count - cancelled;
      SlotsView(Without(s.waiting, targets));
    }

    /** The unlocked half of a request: the flag and the count. */
    method Glance() returns (g: Glanced)
      requires Valid()
      ensures g == GlanceAt(View())
      ensures (g.SawStop? <==> stopFlag) && (g.SawEmpty? <==> !stopFlag && View().waiting == [])
    {
      g := if stopFlag then SawStop else if count == 0 then SawEmpty else SawTasks;
    }

    /** The locked half.  It looks at the top slot without asking again whether a task is there. */
    method PopDue(now: int) returns (r: Picked)
      requires Valid()
      modifies this`len, this`count
      ensures Valid()
      ensures var s := old(View());
              if s.waiting == [] then r == NilPanic && View() == s
              else
                var top := s.waiting[|s.waiting| - 1];
                if old(top.resumeTime) > now then r == NothingDue && View() == s
                else r == Picked(top) && View() == s.(waiting := s.waiting[..|s.waiting| - 1])
    {
      ghost var s := View();
      var top := taskQueue[len - 1];
      if top == null {
        return NilPanic;
      }
      assert top == s.waiting[|s.waiting| - 1];
      if top.resumeTime > now {
        return NothingDue;
      }
      len := len - 1;
      count := count - 1;
      assert View().waiting == s.waiting[..|s.waiting| - 1];
      return Picked(top);
    }

    /** Both halves with nothing in between: the most recently queued task if it is due, and never a panic. */
    method Request(now: int) returns (r: Picked)
      requires Valid()
      modifies this`len, this`count
      ensures Valid()
      ensures var s := old(View());
              var due := s.waiting != [] && old(s.waiting[|s.waiting| - 1].resumeTime) <= now;
              r == RequestResult(s, due) && View() == AfterRequest(s, due)
    {
      var g := Glance();
      if g.SawStop? {
        return StoppedError;
      }
      if g.SawEmpty? {
        return NothingDue;
      }
      r := PopDue(now);
    }

    method Shutdown() returns (r: Queueing)
      requires Valid()
      modifies this`stopFlag
      ensures Valid() && View() == old(View()).(stopped := true)
      ensures r == if old(stopFlag) then RefusedShutdown else Accepted
    {
      r := if stopFlag then RefusedShutdown else Accepted;
      stopFlag := true;
    }
  }

  lemma {:induction false} KeepEverything(tasks: seq<Task>)
    ensures Without(tasks, {}) == tasks
  {
    if tasks != [] {
      KeepEverything(tasks[..|tasks| - 1]);
      assert tasks == tasks[..|tasks| - 1] + [tasks[|tasks| - 1]];
    }
  }
}
