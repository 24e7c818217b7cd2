/**
 The delayed task queue: tasks leave in the order of their due time, equal times in the order
 they were pushed. The binary heap behind it is represented by the list it would drain to.
 */
module DelayedTasks {

  datatype Timed<T> = Timed(runAt: int, id: nat, task: T)

  /** `a` leaves the queue before `b`. */
  predicate Before<T>(a: Timed<T>, b: Timed<T>) {
    a.runAt < b.runAt || (a.runAt == b.runAt && a.id < b.id)
  }

  ghost predicate Ordered<T>(tasks: seq<Timed<T>>) {
    forall i, j :: 0 <= i < j < |tasks| ==> Before(tasks[i], tasks[j])
  }

  function Insert<T(!new)>(tasks: seq<Timed<T>>, t: Timed<T>): (r: seq<Timed<T>>)
    ensures |r| == |tasks| + 1
    ensures forall x :: x in r <==> x == t || x in tasks
  {
    if tasks == [] || Before(t, tasks[0]) then [t] + tasks
    else
      assert tasks == [tasks[0]] + tasks[1..];
      [tasks[0]] + Insert(tasks[1..], t)
  }

  lemma {:induction false} InsertKeepsOrder<T(!new)>(tasks: seq<Timed<T>>, t: Timed<T>)
    requires Ordered(tasks) && forall x :: x in tasks ==> x.id < t.id
    ensures Ordered(Insert(tasks, t))
  {
    if tasks != [] && !Before(t, tasks[0]) {
      assert tasks[0] in tasks;
      forall x | x in tasks[1..] ensures x in tasks && Before(tasks[0], x) {
        var i :| 0 <= i < |tasks[1..]| && tasks[1..][i] == x;
        assert tasks[i + 1] == x;
      }
      InsertKeepsOrder(tasks[1..], t);
      var rest := Insert(tasks[1..], t);
      forall j | 0 <= j < |rest| ensures Before(tasks[0], rest[j]) {
        assert rest[j] in rest;
      }
    } else if tasks != [] {
      forall j | 0 <= j < |tasks| ensures Before(t, tasks[j]) {
      }
    }
  }

  ghost function CountDue<T>(tasks: seq<Timed<T>>, now: int): nat {
    if tasks == [] then 0 else (if tasks[0].runAt <= now then 1 else 0) + CountDue(tasks[1..], now)
  }

  datatype Queue<T(!new)> = Queue(tasks: seq<Timed<T>>, nextId: nat) {

    ghost predicate Valid() {
      Ordered(tasks) && forall t :: t in tasks ==> t.id < nextId
    }

    /** Push a task due at `runAt`; it gets the next id. */
    function Push(runAt: int, task: T): (q: Queue<T>)
      ensures q.nextId == nextId + 1
      ensures forall x :: x in q.tasks <==> x == Timed(runAt, nextId, task) || x in tasks
    {
      Queue(Insert(tasks, Timed(runAt, nextId, task)), nextId + 1)
    }

    predicate HasDue(now: int) {
      tasks != [] && tasks[0].runAt <= now
    }

    function Pop(): (q: Queue<T>)
      requires tasks != []
      ensures q.nextId == nextId && tasks == [tasks[0]] + q.tasks
    {
      Queue(tasks[1..], nextId)
    }

    /** How many tasks are due: what bounds one draining of the queue. */
    ghost function DueCount(now: int): nat {
      CountDue(tasks, now)
    }

    lemma PushIsValid(runAt: int, task: T)
      requires Valid()
      ensures Push(runAt, task).Valid()
    {
      InsertKeepsOrder(tasks, Timed(runAt, nextId, task));
    }

    /** The task popped is the least one, and what is left is later. */
    lemma PopIsLeast()
      requires Valid() && tasks != []
      ensures Pop().Valid()
      ensures forall t :: t in Pop().tasks ==> t in tasks && Before(tasks[0], t)
    {
    }

    /** Nothing is due exactly when every task lies in the future. */
    lemma NothingDue(now: int)
      requires Valid()
      ensures !HasDue(now) <==> forall t :: t in tasks ==> t.runAt > now
    {
    }
  }

  lemma {:induction false} CountDueInsert<T(!new)>(tasks: seq<Timed<T>>, t: Timed<T>, now: int)
    ensures CountDue(Insert(tasks, t), now) == CountDue(tasks, now) + if t.runAt <= now then 1 else 0
  {
    if tasks != [] && !Before(t, tasks[0]) {
      CountDueInsert(tasks[1..], t, now);
    }
  }

  /** A task pushed by a running task lies in the future, so draining the queue ends. */
  lemma FuturePushKeepsDue<T(!new)>(q: Queue<T>, runAt: int, task: T, now: int)
    requires runAt > now
    ensures q.Push(runAt, task).DueCount(now) == q.DueCount(now)
  {
    CountDueInsert(q.tasks, Timed(runAt, q.nextId, task), now);
  }

  /** The queue as the server holds it. */
  class DelayedTaskQueue<T(!new)> {
    var queue: Queue<T>

    constructor ()
      ensures queue == Queue([], 1) && queue.Valid()
    {
      queue := Queue([], 1);
    }

    method PushAfter(now: int, delayMs: int, task: T) returns (id: nat)
      requires queue.Valid()
      modifies this
      ensures queue == old(queue).Push(now + delayMs, task) && queue.Valid()
      ensures id == old(queue.nextId)
    {
      id := queue.nextId;
      queue.PushIsValid(now + delayMs, task);
      queue := queue.Push(now + delayMs, task);
    }

    /** Take the next due task, if there is one. */
    method PopDue(now: int) returns (due: bool, task: Timed<T>)
      requires queue.Valid() && queue.tasks != []
      modifies this
      ensures queue.Valid()
      ensures due == old(queue).HasDue(now)
      ensures due ==> && queue == old(queue).Pop() && task == old(queue).tasks[0] && task.runAt <= now
                      && forall t :: t in queue.tasks ==> Before(task, t)
      ensures !due ==> queue == old(queue) && forall t :: t in queue.tasks ==> t.runAt > now
    {
      queue.NothingDue(now);
      task := queue.tasks[0];
      due := task.runAt <= now;
      if due {
        queue.PopIsLeast();
        queue := queue.Pop();
      }
    }
  }
}
