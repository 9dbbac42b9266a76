/** Which pools can strand a task: exactly those that may shrink and can hold a task at all. */
module PoolStranding {
  import opened ThreadPool
  import opened PoolSystem
  import opened PoolInvariants
  import opened PoolAccounting
  import opened PoolPromises

  /** A pool that `threadPoolCreate` made with these arguments, before shutdown. */
  ghost predicate Of(s: State, min: nat, max: nat, capacity: nat) {
    !s.shutDown && s.pool.minNum == min && s.pool.maxNum == max && |s.pool.taskQ| == capacity
  }

  /** Nothing is going on: all workers are at the same point, all calls have returned. */
  ghost predicate Calm(s: State, w: Worker) {
    && !s.shutDown && s.manager.Idle? && s.pool.busyNum == 0 && |s.workers| == s.pool.liveNum
    && (forall i | 0 <= i < |s.workers| :: s.workers[i] == w)
    && (forall k | 0 <= k < |s.producers| :: s.producers[k].Returned?)
  }

  lemma Bounded(events: seq<Event>, s: State)
    requires Reaches(events, s)
    ensures InBounds(s)
  {
    hide Reaches;
    AlwaysInv(events, s);
  }

  /** One more enabled step. */
  lemma Go(events: seq<Event>, s: State, e: Event) returns (more: seq<Event>, t: State)
    requires Reaches(events, s) && InBounds(s) && Enabled(s, e)
    ensures t == Apply(s, e) && Reaches(more, t) && InBounds(t)
  {
    hide Reaches, Enabled, Apply, InBounds;
    t := Apply(s, e);
    more := Extend(events, s, e, t);
    Bounded(more, t);
  }

  lemma Beginning(min: nat, max: nat, capacity: nat) returns (s: State)
    requires min <= max && max >= 1
    ensures Reaches([], s) && InBounds(s) && Of(s, min, max, capacity) && Calm(s, Start)
    ensures s.pool.queueSize == 0 && s.pool.liveNum == min && s.pool.exitNum == 0
  {
    var taskQ: seq<Task> := seq(capacity, _ => 0);
    s := State(Created(min, max, capacity, taskQ), false, seq(min, _ => Start), [], Idle, [], 0, {});
    assert Initial(s);
  }

  /** A call adds a task to an empty queue; the signal wakes a sleeper, if there is one. */
  lemma AddOne(events: seq<Event>, s: State, w: Worker, wake: int) returns (more: seq<Event>, t: State)
    requires Reaches(events, s) && InBounds(s) && Calm(s, w)
    requires s.pool.queueSize == 0 && |s.pool.taskQ| >= 1 && WorkerWakeOk(s.workers, wake)
    ensures Reaches(more, t) && InBounds(t) && t.pool.queueSize == 1
    ensures Of(t, s.pool.minNum, s.pool.maxNum, |s.pool.taskQ|)
    ensures t.pool.liveNum == s.pool.liveNum && t.pool.exitNum == s.pool.exitNum && t.pool.busyNum == s.pool.busyNum
    ensures t.workers == WakeWorker(s.workers, wake) && t.manager == s.manager
    ensures forall k | 0 <= k < |t.producers| :: t.producers[k].Returned?
  {
    hide Reaches, QueueOk, Queued, Ring, WakeWorker, WorkerWakeOk;
    var k := |s.producers|;
    var called: State;
    more, called := Go(events, s, Call(0));
    AddPassKeepsCapacity(called.pool, 0, false, false);
    more, t := Go(more, called, ProducerLock(k, false, false, wake));
  }

  /** The first cycle grows a pool below its maximum that has a task queued. */
  lemma GrowOnce(events: seq<Event>, s: State) returns (more: seq<Event>, t: State)
    requires Reaches(events, s) && InBounds(s) && Calm(s, Start)
    requires s.pool.queueSize == 1 && s.pool.liveNum == s.pool.minNum < s.pool.maxNum && s.pool.exitNum == 0
    ensures Reaches(more, t) && InBounds(t) && Calm(t, Start)
    ensures Of(t, s.pool.minNum, s.pool.maxNum, |s.pool.taskQ|)
    ensures t.pool.queueSize == 1 && t.pool.liveNum > t.pool.minNum && t.pool.exitNum == 0
    ensures t.pool.maxNum >= 2 ==> t.pool.liveNum >= 2
  {
    hide Reaches, QueueOk, Queued, Ring, Grow, Tally;
    SlotsFree(events, s);
    var u: State;
    more, u := Go(events, s, ManagerCheck);
    more, u := Go(more, u, ManagerCount);
    more, u := Go(more, u, ManagerSample);
    more, u := Go(more, u, ManagerGrow);
    more, t := Go(more, u, ManagerShrink);
  }

  lemma SlotsFree(events: seq<Event>, s: State)
    requires Reaches(events, s) && InBounds(s) && Calm(s, Start)
    requires s.pool.liveNum < s.pool.maxNum
    ensures var free := s.pool.maxNum - s.pool.liveNum;
            (Grow(s.pool, s.pool.liveNum, 0, 0, |s.workers| + 1).liveNum
             == s.pool.liveNum + if free < NUMBER then free else NUMBER)
  {
    hide Reaches, QueueOk, Queued, Ring, Grow, Tally;
    AlwaysInv(events, s);
    WorkersAreAccounted(events, s);
    TallyBounds(s.workers, Leaving);
    GrowthIsExact(s.pool, s.pool.liveNum, |s.workers| + 1);
  }

  /** The first worker takes the task, runs it and comes back. */
  lemma RunOne(events: seq<Event>, s: State) returns (more: seq<Event>, t: State)
    requires Reaches(events, s) && InBounds(s) && Calm(s, Start)
    requires s.pool.queueSize == 1 && s.workers != []
    ensures Reaches(more, t) && InBounds(t) && Calm(t, Start) && |t.workers| == |s.workers|
    ensures Of(t, s.pool.minNum, s.pool.maxNum, |s.pool.taskQ|)
    ensures t.pool.queueSize == 0 && t.pool.liveNum == s.pool.liveNum && t.pool.exitNum == s.pool.exitNum
  {
    hide Reaches, QueueOk, Queued, Ring;
    var u: State;
    more, u := Go(events, s, WorkerLock(0, false, false, -1));
    more, u := Go(more, u, WorkerBegin(0));
    more, t := Go(more, u, WorkerFinish(0));
  }

  /** The second cycle asks two threads to go, but its signals find no sleeper. */
  lemma AskToLeave(events: seq<Event>, s: State) returns (more: seq<Event>, t: State)
    requires Reaches(events, s) && InBounds(s) && Calm(s, Start)
    requires s.pool.queueSize == 0 && s.pool.liveNum > s.pool.minNum
    ensures Reaches(more, t) && InBounds(t) && Calm(t, Start) && t.workers == s.workers
    ensures Of(t, s.pool.minNum, s.pool.maxNum, |s.pool.taskQ|)
    ensures t.pool.queueSize == 0 && t.pool.liveNum == s.pool.liveNum && t.pool.exitNum == NUMBER
  {
    hide Reaches, QueueOk, Queued, Ring, Grow;
    var u: State;
    more, u := Go(events, s, ManagerCheck);
    more, u := Go(more, u, ManagerCount);
    more, u := Go(more, u, ManagerSample);
    more, u := Go(more, u, ManagerGrow);
    more, u := Go(more, u, ManagerShrink);
    more, u := Go(more, u, ManagerSignal(-1));
    more, t := Go(more, u, ManagerSignal(-1));
  }

  /** The workers from number i on find the queue empty and fall asleep. */
  lemma {:induction false} AllSleep(events: seq<Event>, s: State, i: nat) returns (more: seq<Event>, t: State)
    requires Reaches(events, s) && InBounds(s) && !s.shutDown && s.pool.queueSize == 0 && i <= |s.workers|
    requires forall k | 0 <= k < |s.workers| :: s.workers[k] == if k < i then Asleep else Start
    ensures Reaches(more, t) && InBounds(t) && t == s.(workers := t.workers) && |t.workers| == |s.workers|
    ensures forall k | 0 <= k < |t.workers| :: t.workers[k] == Asleep
    decreases |s.workers| - i
  {
    hide Reaches, QueueOk, Queued, Ring;
    more, t := events, s;
    if i < |s.workers| {
      more, t := Go(events, s, WorkerLock(i, false, false, -1));
      more, t := AllSleep(more, t, i + 1);
    }
  }

  /** The worker that an add has woken leaves instead, since it was asked to; everybody else
      sleeps. */
  lemma SwallowSignal(events: seq<Event>, s: State) returns (more: seq<Event>, t: State)
    requires Reaches(events, s) && InBounds(s) && Calm(s, Asleep) && s.workers != [] && |s.pool.taskQ| >= 1
    requires s.pool.queueSize == 0 && s.pool.liveNum > s.pool.minNum && s.pool.exitNum > 0
    ensures Reaches(more, t) && Stranded(t) && t.manager.Idle? && |t.workers| == |s.workers|
    ensures forall i | 0 <= i < |t.workers| :: t.workers[i] == if i == 0 then Exiting else Asleep
    ensures Of(t, s.pool.minNum, s.pool.maxNum, |s.pool.taskQ|)
  {
    hide Reaches, QueueOk, Queued, Ring;
    var u: State;
    more, u := AddOne(events, s, Asleep, 0);
    more, t := Go(more, u, WorkerLock(0, false, false, -1));
  }

  /** A run that strands a task, for every pool that may shrink and can hold a task.  With room for
      two threads, a live worker sleeps beside the one that took the signal. */
  lemma StrandingRun(min: nat, max: nat, capacity: nat) returns (events: seq<Event>, s: State)
    requires min < max && capacity >= 1
    ensures Reaches(events, s) && Of(s, min, max, capacity) && Stranded(s)
    ensures max >= 2 ==>
              s.manager.Idle? && |s.workers| >= 2 && s.workers[0].Exiting? && s.workers[1].Asleep?
  {
    hide Reaches, InBounds, QueueOk;
    s := Beginning(min, max, capacity);
    events, s := AddOne([], s, Start, -1);
    if max >= 2 {
      events, s := GrowOnce(events, s);
      events, s := RunOne(events, s);
      events, s := AskToLeave(events, s);
      events, s := AllSleep(events, s, 0);
      events, s := SwallowSignal(events, s);
    }
  }

  /** A queued task can be left without an awake worker if and only if the pool was created with
      min < max and room for a task. */
  lemma StrandsExactly(min: nat, max: nat, capacity: nat)
    requires min <= max && max >= 1
    ensures (exists events, s :: Reaches(events, s) && Of(s, min, max, capacity) && Stranded(s))
            <==> min < max && capacity >= 1
  {
    hide Reaches, Stranded;
    if min < max && capacity >= 1 {
      var events, s := StrandingRun(min, max, capacity);
    }
    if events, s :| Reaches(events, s) && Of(s, min, max, capacity) && Stranded(s) {
      NeedsRoom(events, s);
      if min == max {
        FixedPoolNeverStrands(events, s);
      }
    }
  }

  /** A task is stranded although a worker sleeps that could run it. */
  ghost predicate SleptThrough(s: State) {
    Stranded(s) && exists i | 0 <= i < |s.workers| :: s.workers[i].Asleep?
  }

  /** A live worker can sleep beside a stranded task if and only if, besides, the pool has room for
      two threads. */
  lemma SleepsThroughExactly(min: nat, max: nat, capacity: nat)
    requires min <= max && max >= 1
    ensures (exists events, s :: Reaches(events, s) && Of(s, min, max, capacity) && SleptThrough(s))
            <==> min < max && max >= 2 && capacity >= 1
  {
    hide Reaches, Stranded;
    if min < max && max >= 2 && capacity >= 1 {
      var events, s := StrandingRun(min, max, capacity);
      assert SleptThrough(s);
    }
    if events, s :| Reaches(events, s) && Of(s, min, max, capacity) && SleptThrough(s) {
      StrandsExactly(min, max, capacity);
      NoStrandedTask(events, s);
      WorkersAreAccounted(events, s);
      TallyBounds(s.workers, Live);
    }
  }

  lemma NeedsRoom(events: seq<Event>, s: State)
    requires Reaches(events, s) && Stranded(s)
    ensures |s.pool.taskQ| >= 1
  {
    hide Reaches;
    QueueIsConserved(events, s);
  }
}
