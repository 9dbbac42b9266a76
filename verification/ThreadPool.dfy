/** The shared record of CRUSH_Research/threadpool.c and the code that runs under its locks. */
module ThreadPool {

  /** A task is a function pointer with its argument; only its identity matters here. */
  type Task = int

  /** `NUMBER`: threads added or asked to exit per manager cycle. */
  const NUMBER := 2

  /** `struct ThreadPool`; the queue capacity is the length of `taskQ`, and 0 in `threadIDs` marks
      a free slot. */
  datatype Pool = Pool(
    taskQ: seq<Task>, queueSize: int, queueFront: int, queueRear: int,
    threadIDs: seq<nat>, minNum: nat, maxNum: nat, busyNum: int, liveNum: int, exitNum: int)

  // ---------------------------------------------------------------- the ring buffer

  lemma Multiple(n: int, k: int)
    requires n > 0
    ensures k >= 1 ==> n * k >= n
    ensures k >= 2 ==> n * k >= 2 * n
    ensures k <= -1 ==> n * k <= -n
  {
    if k >= 2 {
      assert n * (k - 2) >= 0;
    }
  }

  /** Indices of the ring run past its end at most once. */
  lemma WrapMod(a: int, n: int)
    requires 0 <= a < 2 * n
    ensures a % n == if a < n then a else a - n
  {
    Multiple(n, a / n);
  }

  /** The ring index i places behind `front`. */
  function Ring(front: int, i: int, capacity: int): (k: int)
    requires 0 <= front < capacity && 0 <= i <= capacity
    ensures k == if front + i < capacity then front + i else front + i - capacity
  {
    WrapMod(front + i, capacity);
    (front + i) % capacity
  }

  /** The queue fields describe a bounded FIFO. */
  predicate QueueOk(p: Pool) {
    && 0 <= p.queueSize <= |p.taskQ|
    && (|p.taskQ| > 0 ==>
          && 0 <= p.queueFront < |p.taskQ|
          && p.queueRear == Ring(p.queueFront, p.queueSize, |p.taskQ|))
  }

  /** The queued tasks, oldest first. */
  function Queued(p: Pool): (q: seq<Task>)
    requires QueueOk(p)
    ensures |q| == p.queueSize
  {
    seq(p.queueSize, i requires 0 <= i < p.queueSize => p.taskQ[Ring(p.queueFront, i, |p.taskQ|)])
  }

  /** threadpool.c:121-124 */
  function Enqueue(p: Pool, task: Task): Pool
    requires QueueOk(p) && p.queueSize < |p.taskQ|
  {
    p.(taskQ := p.taskQ[p.queueRear := task],
       queueRear := Ring(p.queueRear, 1, |p.taskQ|),
       queueSize := p.queueSize + 1)
  }

  /** threadpool.c:169-170 */
  function Dequeue(p: Pool): Pool
    requires QueueOk(p) && p.queueSize > 0
  {
    p.(queueFront := Ring(p.queueFront, 1, |p.taskQ|), queueSize := p.queueSize - 1)
  }

  /** Adding appends to the queue. */
  lemma EnqueueAppends(p: Pool, task: Task)
    requires QueueOk(p) && p.queueSize < |p.taskQ|
    ensures QueueOk(Enqueue(p, task))
    ensures Queued(Enqueue(p, task)) == Queued(p) + [task]
  {
    hide Ring;
    assert Queued(Enqueue(p, task)) == Queued(p) + [task];
  }

  /** Removing takes the oldest task. */
  lemma DequeueRemovesFirst(p: Pool)
    requires QueueOk(p) && p.queueSize > 0
    ensures QueueOk(Dequeue(p))
    ensures Queued(p) == [p.taskQ[p.queueFront]] + Queued(Dequeue(p))
  {
    hide Ring;
    assert Queued(p) == [p.taskQ[p.queueFront]] + Queued(Dequeue(p));
  }

  // ---------------------------------------------------------------- critical sections

  /** How a worker's critical section ends. */
  datatype WorkerEnd = Sleeps | Leaves | Takes(task: Task)

  /** threadpool.c:136-174.  `woken` says that the section starts by returning from the wait on
      `notEmpty`; s1 and s2 are the values of the unlocked flag `shutDown` at the loop test and at
      the test after the loop. */
  function WorkerPass(p: Pool, woken: bool, s1: bool, s2: bool): (Pool, WorkerEnd)
    requires QueueOk(p) && (s1 ==> s2)
  {
    var q := if woken && p.exitNum > 0 then p.(exitNum := p.exitNum - 1) else p;
    if woken && p.exitNum > 0 && q.liveNum > q.minNum then (q.(liveNum := q.liveNum - 1), Leaves)
    else if q.queueSize == 0 && !s1 then (q, Sleeps)
    else if s2 then (q, Leaves)
    else (Dequeue(q), Takes(q.taskQ[q.queueFront]))
  }

  /** How a producer's critical section ends. */
  datatype AddEnd = Waits | Rejected | Accepted

  /** threadpool.c:107-128 */
  function AddPass(p: Pool, task: Task, s1: bool, s2: bool): (Pool, AddEnd)
    requires QueueOk(p) && (s1 ==> s2)
  {
    if p.queueSize == |p.taskQ| && !s1 then (p, Waits)
    else if s2 then (p, Rejected)
    else (Enqueue(p, task), Accepted)
  }

  /** threadpool.c:271-283 from slot i on: the local `liveNum` of the manager is stale and does not
      change, `counter` limits the new threads, which get the ids from `tid` on. */
  function Grow(p: Pool, staleLive: int, i: nat, counter: nat, tid: nat): (q: Pool)
    requires |p.threadIDs| == p.maxNum && i <= p.maxNum
    ensures q == p.(threadIDs := q.threadIDs, liveNum := q.liveNum) && |q.threadIDs| == |p.threadIDs|
    decreases p.maxNum - i
  {
    if i == p.maxNum || counter >= NUMBER || staleLive >= p.maxNum then p
    else if p.threadIDs[i] == 0 then
      Grow(p.(threadIDs := p.threadIDs[i := tid], liveNum := p.liveNum + 1), staleLive, i + 1, counter + 1, tid + 1)
    else Grow(p, staleLive, i + 1, counter, tid)
  }

  /** threadpool.c:306-317: the first slot holding the id is cleared. */
  function ClearSlot(ids: seq<nat>, tid: nat): (r: seq<nat>)
    ensures |r| == |ids|
  {
    if ids == [] then []
    else if ids[0] == tid then [0] + ids[1..]
    else [ids[0]] + ClearSlot(ids[1..], tid)
  }

  lemma {:induction false} ClearsFirst(ids: seq<nat>, i: nat, tid: nat)
    requires i <= |ids| && tid !in ids[..i]
    requires i < |ids| ==> ids[i] == tid
    ensures ClearSlot(ids, tid) == if i < |ids| then ids[i := 0] else ids
  {
    if i > 0 {
      assert ids[..i][0] == ids[0] && ids[..i][1..] == ids[1..][..i - 1];
      ClearsFirst(ids[1..], i - 1, tid);
      assert i < |ids| ==> ids[i := 0] == [ids[0]] + ids[1..][i - 1 := 0];
    }
  }

  /** The record `threadPoolCreate` sets up: the first `min` slots hold the ids 1..min.  (The
      source assigns `queueRear` twice and leaves `queueSize` unset; 0 is the value meant.) */
  function Created(min: nat, max: nat, capacity: nat, taskQ: seq<Task>): Pool
    requires min <= max && |taskQ| == capacity
  {
    Pool(taskQ, 0, 0, 0, seq(max, i => if 0 <= i < min then i + 1 else 0), min, max, 0, min, 0)
  }

  /** The same record as the threads update it in place. */
  class SharedPool {
    const taskQ: array<Task>
    const threadIDs: array<nat>
    const minNum: nat
    const maxNum: nat
    var queueSize: int
    var queueFront: int
    var queueRear: int
    var busyNum: int
    var liveNum: int
    var exitNum: int

    ghost function View(): Pool
      reads this, taskQ, threadIDs
    {
      Pool(taskQ[..], queueSize, queueFront, queueRear, threadIDs[..], minNum, maxNum, busyNum, liveNum, exitNum)
    }

    /** `threadPoolCreate` */
    constructor (min: nat, max: nat, capacity: nat)
      requires min <= max
      ensures fresh(taskQ) && fresh(threadIDs)
      ensures taskQ.Length == capacity && View() == Created(min, max, capacity, taskQ[..])
    {
      taskQ := new Task[capacity];
      threadIDs := new nat[max](_ => 0);
      minNum, maxNum := min, max;
      busyNum, liveNum, exitNum := 0, min, 0;
      queueSize, queueFront, queueRear := 0, 0, 0;
      new;
      for i := 0 to min
        modifies threadIDs
        invariant forall k | 0 <= k < max :: threadIDs[k] == if k < i then k + 1 else 0
      {
        threadIDs[i] := i + 1;
      }
    }

    /** One stay of a worker inside `mutexPool`. */
    method WorkerSection(woken: bool, s1: bool, s2: bool) returns (end: WorkerEnd)
      requires QueueOk(View()) && (s1 ==> s2)
      modifies this`exitNum, this`liveNum, this`queueFront, this`queueSize
      ensures (View(), end) == WorkerPass(old(View()), woken, s1, s2)
    {
      if woken && exitNum > 0 {
        exitNum := exitNum - 1;
        if liveNum > minNum {
          liveNum := liveNum - 1;
          return Leaves;
        }
      }
      if queueSize == 0 && !s1 {
        return Sleeps;
      }
      if s2 {
        return Leaves;
      }
      var task := taskQ[queueFront];
      queueFront := (queueFront + 1) % taskQ.Length;
      queueSize := queueSize - 1;
      return Takes(task);
    }

    /** One stay of a producer inside `mutexPool`. */
    method AddSection(task: Task, s1: bool, s2: bool) returns (end: AddEnd)
      requires QueueOk(View()) && (s1 ==> s2)
      modifies this`queueRear, this`queueSize, taskQ
      ensures (View(), end) == AddPass(old(View()), task, s1, s2)
    {
      if queueSize == taskQ.Length && !s1 {
        return Waits;
      }
      if s2 {
        return Rejected;
      }
      taskQ[queueRear] := task;
      queueRear := (queueRear + 1) % taskQ.Length;
      queueSize := queueSize + 1;
      return Accepted;
    }

    /** The manager's growing loop, with new threads numbered from `tid`. */
    method GrowSection(staleLive: int, tid: nat)
      requires threadIDs.Length == maxNum
      modifies this`liveNum, threadIDs
      ensures View() == Grow(old(View()), staleLive, 0, 0, tid)
    {
      var counter, i := 0, 0;
      while i < maxNum && counter < NUMBER && staleLive < maxNum
        invariant 0 <= i <= maxNum && 0 <= counter
        invariant Grow(View(), staleLive, i, counter, tid + counter) == Grow(old(View()), staleLive, 0, 0, tid)
        decreases maxNum - i
      {
        if threadIDs[i] == 0 {
          ghost var p := View();
          threadIDs[i] := tid + counter;
          counter := counter + 1;
          liveNum := liveNum + 1;
          assert View() == p.(threadIDs := p.threadIDs[i := tid + counter - 1], liveNum := p.liveNum + 1);
        }
        i := i + 1;
      }
    }

    /** `threadExit`: scans for the own id and clears the first slot that holds it. */
    method ThreadExit(tid: nat)
      requires threadIDs.Length == maxNum
      modifies threadIDs
      ensures threadIDs[..] == ClearSlot(old(threadIDs[..]), tid)
    {
      var i := 0;
      ghost var ids := threadIDs[..];
      while i < maxNum
        invariant 0 <= i <= maxNum && threadIDs[..] == ids
        invariant tid !in ids[..i]
      {
        if threadIDs[i] == tid {
          threadIDs[i] := 0;
          break;
        }
        i := i + 1;
      }
      ClearsFirst(ids, i, tid);
    }
  }
}
