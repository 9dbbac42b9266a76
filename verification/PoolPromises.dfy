/** What the thread pool promises in every state that some interleaving reaches. */
module PoolPromises {
  import opened ThreadPool
  import opened PoolSystem
  import opened PoolInvariants
  import opened PoolAccounting

  /** The ring buffer refines a bounded FIFO: the dequeued tasks and then the queued ones are the
      accepted tasks in order.  Every accepted task is queued, in the hand of one worker, running
      or finished. */
  lemma QueueIsConserved(events: seq<Event>, s: State)
    requires Reaches(events, s)
    ensures QueueOk(s.pool) && s.taken <= |s.accepted|
    ensures s.accepted == s.accepted[..s.taken] + Queued(s.pool)
    ensures forall i | 0 <= i < |s.workers| && Holds(s.workers[i]) ::
              && s.workers[i].n < s.taken && s.workers[i].n !in s.finished
              && s.workers[i].task == s.accepted[s.workers[i].n]
    ensures forall i, k | 0 <= i < k < |s.workers| && Holds(s.workers[i]) && Holds(s.workers[k]) ::
              s.workers[i].n != s.workers[k].n
    ensures forall n <- s.finished :: n < s.taken
    ensures s.pool.busyNum == Tally(s.workers, Busy)
    ensures |s.accepted| == s.pool.queueSize + Tally(s.workers, Carrying) + s.pool.busyNum + |s.finished|
  {
    hide Tally, SlotsOk, LiveOk, StrandOk, ProducerOk;
    AlwaysInv(events, s);
    TallySum(s.workers, Holding, Carrying, Busy);
    assert |Queued(s.pool)| == s.pool.queueSize;
  }

  /** In hand: dequeued, but not yet counted as busy. */
  function Carrying(w: Worker): nat { if w.Took? then 1 else 0 }

  /** The counter of live threads stays within its limits; a slot is in use by each live thread and
      by each thread that has left the count but has not cleared its slot. */
  lemma WorkersAreAccounted(events: seq<Event>, s: State)
    requires Reaches(events, s) && !s.shutDown
    ensures s.pool.minNum <= s.pool.liveNum <= s.pool.maxNum
    ensures s.pool.liveNum == Tally(s.workers, Live)
    ensures Tally(s.pool.threadIDs, Occupied) == s.pool.liveNum + Tally(s.workers, Leaving)
    ensures 0 <= s.pool.exitNum <= NUMBER
  {
    hide Tally, FifoOk, TasksOk, BusyOk, SlotsOk, StrandOk, ProducerOk;
    AlwaysInv(events, s);
    LiveFitsSlots(s);
  }

  /** Each thread that has not cleared its slot holds exactly one, and no other slot is in use. */
  lemma SlotsMatchThreads(events: seq<Event>, s: State, i: nat)
    requires Reaches(events, s) && i < |s.workers|
    ensures s.workers[i].Gone? <==> forall k | 0 <= k < |s.pool.threadIDs| :: s.pool.threadIDs[k] != i + 1
    ensures forall j, k | 0 <= j < k < |s.pool.threadIDs| && s.pool.threadIDs[j] == i + 1 ::
              s.pool.threadIDs[k] != i + 1
    ensures forall k | 0 <= k < |s.pool.threadIDs| :: s.pool.threadIDs[k] <= |s.workers|
  {
    hide Tally, FifoOk, TasksOk, BusyOk, LiveOk, StrandOk, ProducerOk;
    AlwaysInv(events, s);
    if !s.workers[i].Gone? {
      assert i + 1 in s.pool.threadIDs;
    }
  }

  /** Every live worker sleeps although a task is queued. */
  ghost predicate Stranded(s: State) {
    && s.pool.queueSize > 0
    && forall i | 0 <= i < |s.workers| :: s.workers[i].Asleep? || s.workers[i].Exiting? || s.workers[i].Gone?
  }

  /** A stranded task leaves the manager free to grow the pool. */
  lemma NoStrandedTask(events: seq<Event>, s: State)
    requires Reaches(events, s) && !s.shutDown && Stranded(s)
    ensures s.pool.liveNum < s.pool.maxNum
  {
    hide Tally, FifoOk, TasksOk, BusyOk, SlotsOk, LiveOk, ProducerOk;
    AlwaysInv(events, s);
    TallyBounds(s.workers, Awake);
  }

  /** A pool whose size is fixed never strands a task. */
  lemma FixedPoolNeverStrands(events: seq<Event>, s: State)
    requires Reaches(events, s) && !s.shutDown && s.pool.minNum == s.pool.maxNum
    ensures !Stranded(s)
  {
    WorkersAreAccounted(events, s);
    if Stranded(s) {
      NoStrandedTask(events, s);
    }
  }

  /** The manager's copies from its count on, unless it has gone on to its growing loop. */
  predicate Carries(m: Manager, queueSize: int, liveNum: int) {
    (m.Counted? || m.Sampled?) && m.queueSize == queueSize && m.liveNum == liveNum
  }

  /** Whatever the other threads do, the copies stay, and nobody but the manager raises the live
      count. */
  lemma {:induction false} CopiesStay(s: State, events: seq<Event>, t: State, queueSize: int, liveNum: int)
    requires Path(s, events, t) && ManagerGrow !in events && Carries(s.manager, queueSize, liveNum)
    ensures Carries(t.manager, queueSize, liveNum)
    ensures t.pool.liveNum <= s.pool.liveNum && t.pool.maxNum == s.pool.maxNum && (s.shutDown ==> t.shutDown)
    decreases |events|
  {
    hide Enabled, Apply, InBounds, Carries;
    if events != [] {
      OneStepKeepsCopies(s, events[0], queueSize, liveNum);
      CopiesStay(Apply(s, events[0]), events[1..], t, queueSize, liveNum);
    }
  }

  lemma OneStepKeepsCopies(s: State, e: Event, queueSize: int, liveNum: int)
    requires InBounds(s) && Enabled(s, e) && !e.ManagerGrow? && Carries(s.manager, queueSize, liveNum)
    ensures var t := Apply(s, e);
            && Carries(t.manager, queueSize, liveNum)
            && t.pool.liveNum <= s.pool.liveNum && t.pool.maxNum == s.pool.maxNum && (s.shutDown ==> t.shutDown)
  {
    hide QueueOk, Queued, ClearSlot, WakeWorker, WakeProducer, Ring;
  }

  /** The manager counts while a task is stranded, in state p; then any threads take any steps,
      until in state u it is about to grow the pool.  The growing loop starts a thread for every
      free slot, up to NUMBER.  So it brings up a worker unless all slots are taken, and only
      threads that still leave can have kept them so. */
  lemma GrowthRescues(events: seq<Event>, p: State, more: seq<Event>, u: State)
    requires Reaches(events, p) && !p.shutDown && Stranded(p) && InBounds(p) && p.manager.Checked?
    requires Path(Apply(p, ManagerCount), more, u) && ManagerGrow !in more && u.manager.Sampled?
    ensures InBounds(u)
    ensures var t, free := Apply(u, ManagerGrow), u.pool.maxNum - Tally(u.pool.threadIDs, Occupied);
            && Tally(t.workers, Awake) == Tally(u.workers, Awake) + (if free < NUMBER then free else NUMBER)
            && (free > 0 ==> Tally(t.workers, Awake) > 0)
            && (!u.shutDown && Tally(u.workers, Leaving) == 0 ==> free > 0)
  {
    hide Tally, QueueOk, FifoOk, TasksOk, BusyOk, StrandOk, ProducerOk, Grow, SlotIds, Reaches, Path;
    NoStrandedTask(events, p);
    var counted := Apply(p, ManagerCount);
    CopiesStay(counted, more, u, p.pool.queueSize, p.pool.liveNum);
    var there := Extend(events, p, ManagerCount, counted);
    PathReaches(there, counted, more, u);
    AlwaysInv(there + more, u);
    GrowthIsExact(u.pool, u.manager.liveNum, |u.workers| + 1);
    WorkersStart(u.workers, |AfterGrow(u).workers| - |u.workers|);
    if !u.shutDown {
      WorkersAreAccounted(there + more, u);
    }
  }

  /** While a producer sleeps, every free place of the queue has a producer on its way to it. */
  lemma ProducersAreNotLost(events: seq<Event>, s: State, k: nat)
    requires Reaches(events, s) && !s.shutDown && k < |s.producers| && s.producers[k].Blocked?
    ensures s.pool.queueSize + Tally(s.producers, Returning) >= |s.pool.taskQ|
  {
    hide Tally, FifoOk, TasksOk, BusyOk, SlotsOk, LiveOk, StrandOk;
    AlwaysInv(events, s);
    TallyBounds(s.producers, Waiting);
  }

  /** Producers and workers never wait for each other: if some call is blocked, none is on its way
      and all live workers sleep, then the queue is full and the pool may still grow. */
  lemma NoMutualWait(events: seq<Event>, s: State, k: nat)
    requires Reaches(events, s) && !s.shutDown && |s.pool.taskQ| > 0
    requires k < |s.producers| && s.producers[k].Blocked?
    requires forall j | 0 <= j < |s.producers| :: s.producers[j].Blocked? || s.producers[j].Returned?
    requires forall i | 0 <= i < |s.workers| ::
               s.workers[i].Asleep? || s.workers[i].Exiting? || s.workers[i].Gone?
    ensures s.pool.queueSize == |s.pool.taskQ| && s.pool.liveNum < s.pool.maxNum
  {
    ProducersAreNotLost(events, s, k);
    TallyBounds(s.producers, Returning);
    QueueIsConserved(events, s);
    NoStrandedTask(events, s);
  }

  // ---------------------------------------------------------------- a swallowed signal

  /** A pool with one to two threads and room for one task. */
  function Small(queueSize: int, liveNum: int, exitNum: int, ids: seq<nat>): Pool {
    Pool([7], queueSize, 0, 0, ids, 1, 2, 0, liveNum, exitNum)
  }

  lemma SmallQueue(p: Pool)
    requires p == Small(p.queueSize, p.liveNum, p.exitNum, p.threadIDs) && |p.threadIDs| == 2
    ensures p.queueSize == 0 ==> QueueOk(p) && AddPass(p, 7, false, false) == (p.(queueSize := 1), Accepted)
    ensures p.queueSize == 1 ==> QueueOk(p) && WorkerPass(p, false, false, false) == (p.(queueSize := 0), Takes(7))
  {
    assert [7][0 := 7] == [7];
  }

  lemma FirstTask() returns (events: seq<Event>)
    ensures Reaches(events, State(Small(1, 1, 0, [1, 0]), false, [Start], [Returned(true)], Idle, [7], 0, {}))
  {
    hide Reaches, Ring, AddPass;
    var s := State(Small(0, 1, 0, [1, 0]), false, [Start], [], Idle, [], 0, {});
    SmallQueue(s.pool);
    InitiallySmall(s);
    events := Extend([], s, Call(7), s.(producers := [Calling(7)]));
    s := s.(producers := [Calling(7)]);
    var t := State(Small(1, 1, 0, [1, 0]), false, [Start], [Returned(true)], Idle, [7], 0, {});
    events := Extend(events, s, ProducerLock(0, false, false, -1), t);
  }

  /** The first task makes the manager grow the pool to two threads. */
  lemma PoolGrows() returns (events: seq<Event>)
    ensures Reaches(events, State(Small(1, 2, 0, [1, 2]), false, [Start, Start], [Returned(true)], Idle, [7], 0, {}))
  {
    hide Reaches, Ring, Grow;
    events := FirstTask();
    var t := State(Small(1, 1, 0, [1, 0]), false, [Start], [Returned(true)], Idle, [7], 0, {});
    SmallQueue(t.pool);
    events := Extend(events, t, ManagerCheck, t.(manager := Checked));
    events := Extend(events, t.(manager := Checked), ManagerCount, t.(manager := Counted(1, 1)));
    events := Extend(events, t.(manager := Counted(1, 1)), ManagerSample, t.(manager := Sampled(1, 1, 0)));
    t := t.(manager := Sampled(1, 1, 0));
    var u := State(Small(1, 2, 0, [1, 2]), false, [Start, Start], [Returned(true)], Grown(1, 0), [7], 0, {});
    SmallQueue(u.pool);
    SmallGrows();
    assert [Start] + seq(1, _ => Start) == [Start, Start];
    events := Extend(events, t, ManagerGrow, u);
    events := Extend(events, u, ManagerShrink, u.(manager := Idle));
  }

  lemma InitiallySmall(s: State)
    requires s == State(Small(0, 1, 0, [1, 0]), false, [Start], [], Idle, [], 0, {})
    ensures Reaches([], s)
  {
    assert s.pool.threadIDs == Created(1, 2, 1, [7]).threadIDs;
    assert s.workers == seq(1, _ => Start);
  }

  lemma SmallGrows()
    ensures Grow(Small(1, 1, 0, [1, 0]), 1, 0, 0, 2) == Small(1, 2, 0, [1, 2])
  {
    var q := Small(1, 2, 0, [1, 2]);
    assert [1, 0][1 := 2] == [1, 2];
    assert Grow(q, 1, 2, 1, 3) == q;
    assert Grow(Small(1, 1, 0, [1, 0]), 1, 1, 0, 2) == q;
  }

  /** The first worker runs what is queued; the manager asks two threads to go, but none sleeps. */
  lemma PoolShrinks() returns (events: seq<Event>)
    ensures Reaches(events, State(Small(0, 2, 2, [1, 2]), false, [Start, Start], [Returned(true)], Idle, [7], 1, {0}))
  {
    hide Reaches, Ring, Grow, AddPass, WorkerPass;
    events := PoolGrows();
    var s := State(Small(1, 2, 0, [1, 2]), false, [Start, Start], [Returned(true)], Idle, [7], 0, {});
    SmallQueue(s.pool);
    var t := s.(pool := Small(0, 2, 0, [1, 2]), workers := [Took(0, 7), Start], taken := 1);
    SmallQueue(t.pool);
    events := Extend(events, s, WorkerLock(0, false, false, -1), t);
    var u := t.(pool := t.pool.(busyNum := 1), workers := [Running(0, 7), Start]);
    events := Extend(events, t, WorkerBegin(0), u);
    t := t.(workers := [Start, Start], finished := {0});
    events := Extend(events, u, WorkerFinish(0), t);
    events := Extend(events, t, ManagerCheck, t.(manager := Checked));
    events := Extend(events, t.(manager := Checked), ManagerCount, t.(manager := Counted(0, 2)));
    events := Extend(events, t.(manager := Counted(0, 2)), ManagerSample, t.(manager := Sampled(0, 2, 0)));
    events := Extend(events, t.(manager := Sampled(0, 2, 0)), ManagerGrow, t.(manager := Grown(2, 0)));
    u := t.(pool := Small(0, 2, 2, [1, 2]), manager := Signalling(2));
    events := Extend(events, t.(manager := Grown(2, 0)), ManagerShrink, u);
    events := Extend(events, u, ManagerSignal(-1), u.(manager := Signalling(1)));
    events := Extend(events, u.(manager := Signalling(1)), ManagerSignal(-1), u.(manager := Idle));
  }

  /** A thread on its way out can swallow the signal of an add.  In state t0 both workers sleep; the
      add wakes the first of them, and that one leaves.  Now a task is queued, a live worker sleeps,
      nobody is awake and no signal is left. */
  lemma SignalCanBeSwallowed() returns (events: seq<Event>, t0: State, t1: State, s: State)
    ensures Reaches(events, t0) && InBounds(t0) && |t0.workers| == 2 == |t1.workers| == |s.workers|
    ensures t0.workers[0].Asleep? && t0.workers[1].Asleep? && t0.pool.queueSize == 0 && !t0.shutDown
    ensures Enabled(t0, ProducerLock(1, false, false, 0)) && t1 == Apply(t0, ProducerLock(1, false, false, 0))
    ensures t1.workers[0].Woken? && t1.pool.queueSize == 1 && InBounds(t1)
    ensures Enabled(t1, WorkerLock(0, false, false, -1)) && s == Apply(t1, WorkerLock(0, false, false, -1))
    ensures s.workers[0].Exiting? && s.workers[1].Asleep? && s.pool.liveNum == 1
    ensures Stranded(s) && s.manager.Idle? && !s.shutDown
  {
    hide Reaches, Ring, Grow, AddPass;
    events := PoolShrinks();
    t0 := State(Small(0, 2, 2, [1, 2]), false, [Start, Start], [Returned(true)], Idle, [7], 1, {0});
    SmallQueue(t0.pool);
    SmallQueue(Small(1, 2, 2, [1, 2]));
    SmallQueue(Small(1, 1, 1, [1, 2]));
    events := Extend(events, t0, WorkerLock(0, false, false, -1), t0.(workers := [Asleep, Start]));
    t0 := t0.(workers := [Asleep, Start]);
    events := Extend(events, t0, WorkerLock(1, false, false, -1), t0.(workers := [Asleep, Asleep]));
    t0 := t0.(workers := [Asleep, Asleep]);
    events := Extend(events, t0, Call(7), t0.(producers := [Returned(true), Calling(7)]));
    t0 := t0.(producers := [Returned(true), Calling(7)]);
    t1 := t0.(pool := Small(1, 2, 2, [1, 2]), producers := [Returned(true), Returned(true)], accepted := [7, 7],
              workers := [Woken, Asleep]);
    s := t1.(pool := Small(1, 1, 1, [1, 2]), workers := [Exiting, Asleep]);
  }
}
