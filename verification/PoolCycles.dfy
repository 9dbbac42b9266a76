/** What the manager and the critical sections do over whole runs: when threads are asked to leave,
    what becomes of the requests, when threads are started, and what shutdown puts an end to. */
module PoolCycles {
  import opened ThreadPool
  import opened PoolSystem
  import opened PoolInvariants
  import opened PoolAccounting
  import opened PoolPromises

  // ---------------------------------------------------------------- asking threads to leave

  function SignalsIn(events: seq<Event>): nat {
    if events == [] then 0 else (if events[0].ManagerSignal? then 1 else 0) + SignalsIn(events[1..])
  }

  /** The manager has sampled the busy workers and not yet begun its next cycle. */
  predicate Decided(m: Manager) {
    m.Sampled? || m.Grown? || m.Signalling? || m.Idle? || m.Stopped?
  }

  /** Signals that the manager still owes in this cycle: NUMBER of them if fewer than half of the
      counted threads were busy and there were more than the minimum, and none otherwise. */
  function Due(m: Manager, minNum: nat): nat {
    match m
    case Sampled(_, live, busy) => if busy + busy < live && minNum < live then NUMBER else 0
    case Grown(live, busy) => if busy + busy < live && minNum < live then NUMBER else 0
    case Signalling(left) => left
    case _ => 0
  }

  lemma DueStep(s: State, e: Event)
    requires InBounds(s) && Enabled(s, e) && !e.ManagerCheck? && Decided(s.manager)
    ensures var t := Apply(s, e);
            && Decided(t.manager) && t.pool.minNum == s.pool.minNum
            && Due(t.manager, t.pool.minNum) + (if e.ManagerSignal? then 1 else 0) == Due(s.manager, s.pool.minNum)
            && (Due(s.manager, s.pool.minNum) == 0 ==> t.pool.exitNum <= s.pool.exitNum)
            && (e.ManagerShrink? && Due(s.manager, s.pool.minNum) > 0 ==> t.pool.exitNum == NUMBER)
  {
    hide QueueOk, Queued, ClearSlot, WakeWorker, WakeProducer, Ring, Grow;
  }

  /** Whatever the other threads do, the manager sends what it owes, and without a debt no request
      is made. */
  lemma {:induction false} DueAlong(s: State, events: seq<Event>, t: State)
    requires Path(s, events, t) && ManagerCheck !in events && Decided(s.manager)
    ensures Decided(t.manager) && t.pool.minNum == s.pool.minNum
    ensures SignalsIn(events) + Due(t.manager, t.pool.minNum) == Due(s.manager, s.pool.minNum)
    ensures Due(s.manager, s.pool.minNum) == 0 ==> t.pool.exitNum <= s.pool.exitNum
    decreases |events|
  {
    hide Enabled, Apply, InBounds, Due, Decided;
    if events != [] {
      DueStep(s, events[0]);
      DueAlong(Apply(s, events[0]), events[1..], t);
    }
  }

  /** A cycle that owes signals makes its requests before the manager is idle again. */
  lemma {:induction false} RequestsAreMade(s: State, events: seq<Event>, t: State)
    returns (before: seq<Event>, u: State, after: seq<Event>)
    requires Path(s, events, t) && ManagerCheck !in events && (s.manager.Sampled? || s.manager.Grown?)
    requires Due(s.manager, s.pool.minNum) > 0 && t.manager.Idle?
    ensures events == before + [ManagerShrink] + after && Path(s, before, u)
    ensures InBounds(u) && Enabled(u, ManagerShrink) && Path(Apply(u, ManagerShrink), after, t)
    ensures Apply(u, ManagerShrink).pool.exitNum == NUMBER
    decreases |events|
  {
    hide Enabled, Apply, InBounds, Due;
    DueAlong(s, events, t);
    assert events != [];
    DueStep(s, events[0]);
    ManagerMoves(s, events[0]);
    if events[0].ManagerShrink? {
      before, u, after := [], s, events[1..];
      assert events == [] + [ManagerShrink] + events[1..];
    } else {
      before, u, after := RequestsAreMade(Apply(s, events[0]), events[1..], t);
      before := [events[0]] + before;
      assert events == before + [ManagerShrink] + after;
      assert before[1..] == before[1..];
    }
  }

  lemma ManagerMoves(s: State, e: Event)
    requires InBounds(s) && Enabled(s, e) && (s.manager.Sampled? || s.manager.Grown?)
    ensures e.ManagerShrink? || Apply(s, e).manager.Sampled? || Apply(s, e).manager.Grown?
    ensures !e.ManagerSignal?
  {
    hide QueueOk, Queued, ClearSlot, WakeWorker, WakeProducer, Ring, Grow;
  }

  /** A whole cycle, with any steps of other threads in between.  The manager counts L live threads
      in state c and samples B busy workers in state p.  Unless fewer than half of L were busy and L
      was above the minimum, it sends no signal and no request is made until its next cycle.  If so,
      it makes NUMBER requests and sends NUMBER signals before it is idle again. */
  lemma ManagerAsksExactly(
    start: seq<Event>, c: State, mid: seq<Event>, p: State, events: seq<Event>, t: State)
    requires Reaches(start, c) && InBounds(c) && c.manager.Checked?
    requires Path(Apply(c, ManagerCount), mid, p) && ManagerGrow !in mid && p.manager.Counted? && InBounds(p)
    requires Path(Apply(p, ManagerSample), events, t) && ManagerCheck !in events
    ensures var live, busy := c.pool.liveNum, Tally(p.workers, Busy);
            && (2 * busy >= live || live <= p.pool.minNum ==>
                  SignalsIn(events) == 0 && t.pool.exitNum <= p.pool.exitNum)
            && (2 * busy < live && live > p.pool.minNum && t.manager.Idle? ==>
                  SignalsIn(events) == NUMBER
                  && exists before, u, after ::
                       && events == before + [ManagerShrink] + after && Path(Apply(p, ManagerSample), before, u)
                       && InBounds(u) && Enabled(u, ManagerShrink) && Path(Apply(u, ManagerShrink), after, t)
                       && Apply(u, ManagerShrink).pool.exitNum == NUMBER)
  {
    hide Path, Reaches, QueueOk, Tally, FifoOk, TasksOk, SlotsOk, LiveOk, StrandOk, ProducerOk;
    var counted, sampled := Apply(c, ManagerCount), Apply(p, ManagerSample);
    CopiesStay(counted, mid, p, c.pool.queueSize, c.pool.liveNum);
    var there := Extend(start, c, ManagerCount, counted);
    PathReaches(there, counted, mid, p);
    AlwaysInv(there + mid, p);
    DueAlong(sampled, events, t);
    if t.manager.Idle? && Due(sampled.manager, sampled.pool.minNum) > 0 {
      var before, u, after := RequestsAreMade(sampled, events, t);
    }
  }

  /** A signal wakes exactly one sleeping worker, if any sleeps. */
  lemma SignalWakesOne(s: State, wake: int)
    requires InBounds(s) && Enabled(s, ManagerSignal(wake))
    ensures Tally(Apply(s, ManagerSignal(wake)).workers, Awake)
         == Tally(s.workers, Awake) + if exists i | 0 <= i < |s.workers| :: s.workers[i].Asleep? then 1 else 0
  {
    hide QueueOk, Tally;
    WorkerSignalled(s.workers, wake);
  }

  /** So does the signal of an add, and adding is what accepts a task. */
  lemma AddWakesOne(s: State, k: nat, s1: bool, s2: bool, wake: int)
    requires InBounds(s) && Enabled(s, ProducerLock(k, s1, s2, wake))
    ensures var t := Apply(s, ProducerLock(k, s1, s2, wake));
            if |t.accepted| == |s.accepted| then t.workers == s.workers
            else (Tally(t.workers, Awake)
                  == Tally(s.workers, Awake) + if exists i | 0 <= i < |s.workers| :: s.workers[i].Asleep? then 1 else 0)
  {
    hide QueueOk, Tally, Ring;
    if AddPass(s.pool, s.producers[k].task, s1, s2).1.Accepted? {
      WorkerSignalled(s.workers, wake);
    }
  }

  /** Taking a task wakes exactly one sleeping producer, if any sleeps; nothing else does. */
  lemma TakeWakesOne(s: State, i: nat, s1: bool, s2: bool, wake: int)
    requires InBounds(s) && Enabled(s, WorkerLock(i, s1, s2, wake))
    ensures var t := Apply(s, WorkerLock(i, s1, s2, wake));
            if t.taken == s.taken then t.producers == s.producers
            else (Tally(t.producers, Waiting)
                  == Tally(s.producers, Waiting)
                     - if exists k | 0 <= k < |s.producers| :: s.producers[k].Blocked? then 1 else 0)
  {
    hide QueueOk, Tally, Ring;
    if WorkerPass(s.pool, s.workers[i].Woken?, s1, s2).1.Takes? {
      ProducerSignalled(s.producers, wake);
    }
  }

  /** Before shutdown a worker in its section leaves if it was woken while a request is open and more
      than the minimum are live; otherwise it sleeps on an empty queue and takes a task from any
      other. */
  lemma WorkerChooses(s: State, i: nat, wake: int)
    requires InBounds(s) && !s.shutDown && Enabled(s, WorkerLock(i, false, false, wake))
    ensures var w := Apply(s, WorkerLock(i, false, false, wake)).workers[i];
            && (w.Exiting? <==> s.workers[i].Woken? && s.pool.exitNum > 0 && s.pool.liveNum > s.pool.minNum)
            && (!w.Exiting? ==> if s.pool.queueSize == 0 then w.Asleep? else w.Took?)
  {
    hide Queued, Ring, WakeProducer;
  }

  // ---------------------------------------------------------------- life cycles

  /** Where a worker can be one step later: only a sleeper is woken, a task in hand is run and then
      the next one is looked for, and a thread that leaves clears its slot and ends. */
  predicate WorkerMay(w: Worker, v: Worker) {
    v == w ||
    match w
    case Start => v.Asleep? || v.Took? || v.Exiting?
    case Asleep => v.Woken?
    case Woken => v.Asleep? || v.Took? || v.Exiting?
    case Took(n, task) => v == Running(n, task)
    case Running(_, _) => v.Start?
    case Exiting => v.Gone?
    case Gone => false
  }

  /** Where a call can be one step later: only a sleeper is notified, and its task stays the same. */
  predicate CallMay(p: Producer, q: Producer) {
    q == p ||
    match p
    case Calling(task) => q == Blocked(task) || q.Returned?
    case Blocked(task) => q == Notified(task)
    case Notified(task) => q == Blocked(task) || q.Returned?
    case Returned(_) => false
  }

  /** Every thread goes through its stations in order. */
  lemma WorkersLiveInOrder(s: State, e: Event)
    requires InBounds(s) && Enabled(s, e)
    ensures var t := Apply(s, e);
            && |s.workers| <= |t.workers|
            && (forall i | 0 <= i < |s.workers| :: WorkerMay(s.workers[i], t.workers[i]))
            && (forall i | |s.workers| <= i < |t.workers| :: t.workers[i].Start?)
  {
    hide QueueOk, Queued, ClearSlot, Ring, Grow, WakeProducer, ProducerWakeOk;
  }

  /** So does every call. */
  lemma CallsLiveInOrder(s: State, e: Event)
    requires InBounds(s) && Enabled(s, e)
    ensures var t := Apply(s, e);
            && |s.producers| <= |t.producers|
            && (forall k | 0 <= k < |s.producers| :: CallMay(s.producers[k], t.producers[k]))
            && (forall k | |s.producers| <= k < |t.producers| :: t.producers[k].Calling?)
  {
    hide QueueOk, Queued, ClearSlot, Ring, Grow, WakeWorker, WorkerWakeOk;
  }

  // ---------------------------------------------------------------- what becomes of the requests

  /** Returns from the wait on `notEmpty` along a path. */
  ghost function Returns(s: State, events: seq<Event>, t: State): nat
    requires Path(s, events, t)
    decreases |events|
  {
    if events == [] then 0
    else
      (if events[0].WorkerLock? && s.workers[events[0].i].Woken? then 1 else 0)
      + Returns(Apply(s, events[0]), events[1..], t)
  }

  function Min(a: int, b: int): int {
    if a < b then a else b
  }

  lemma RequestStep(s: State, e: Event)
    requires InBounds(s) && Enabled(s, e) && !e.ManagerShrink? && !e.ManagerGrow?
    requires s.pool.exitNum >= 0
    ensures var t := Apply(s, e);
            var used := if e.WorkerLock? && s.workers[e.i].Woken? && s.pool.exitNum > 0 then 1 else 0;
            && t.pool.exitNum == s.pool.exitNum - used && t.pool.minNum == s.pool.minNum
            && (t.pool.liveNum
                == s.pool.liveNum - if used == 1 && s.pool.liveNum > s.pool.minNum then 1 else 0)
  {
    hide QueueOk, Queued, ClearSlot, WakeWorker, WakeProducer, Ring;
  }

  /** Between two decisions of the manager each return from a wait uses up one request, as long as
      there are any, and makes the thread leave as long as more than the minimum are live. */
  lemma {:induction false} RequestsAreUsed(s: State, events: seq<Event>, t: State)
    requires Path(s, events, t) && ManagerShrink !in events && ManagerGrow !in events
    requires 0 <= s.pool.exitNum && s.pool.minNum <= s.pool.liveNum
    ensures t.pool.minNum == s.pool.minNum
    ensures var used := Min(Returns(s, events, t), s.pool.exitNum);
            && t.pool.exitNum == s.pool.exitNum - used
            && t.pool.liveNum == s.pool.liveNum - Min(used, s.pool.liveNum - s.pool.minNum)
    decreases |events|
  {
    hide Enabled, Apply, InBounds;
    if events != [] {
      RequestStep(s, events[0]);
      RequestsAreUsed(Apply(s, events[0]), events[1..], t);
    }
  }

  // ---------------------------------------------------------------- starting threads

  /** The manager's copies still allow it to start threads. */
  predicate MayGrow(m: Manager, maxNum: nat) {
    m.Checked? || ((m.Counted? || m.Sampled?) && m.queueSize >= 1 && m.liveNum < maxNum)
  }

  lemma NoGrowthStep(s: State, e: Event)
    requires InBounds(s) && Enabled(s, e) && !e.ManagerCheck? && !MayGrow(s.manager, s.pool.maxNum)
    ensures var t := Apply(s, e);
            !MayGrow(t.manager, t.pool.maxNum) && |t.workers| == |s.workers|
  {
    hide QueueOk, Queued, ClearSlot, WakeProducer, Ring, Grow;
  }

  /** Threads are started only after a count that found a queued task and fewer than the maximum of
      live threads. */
  lemma {:induction false} GrowsOnlyWithQueue(s: State, events: seq<Event>, t: State)
    requires Path(s, events, t) && ManagerCheck !in events && !MayGrow(s.manager, s.pool.maxNum)
    ensures |t.workers| == |s.workers|
    decreases |events|
  {
    hide Enabled, Apply, InBounds, MayGrow;
    if events != [] {
      NoGrowthStep(s, events[0]);
      GrowsOnlyWithQueue(Apply(s, events[0]), events[1..], t);
    }
  }

  // ---------------------------------------------------------------- shutdown and answers

  /** Nobody is put to sleep and no task moves. */
  predicate Frozen(s: State, t: State) {
    && t.shutDown && t.accepted == s.accepted && t.taken == s.taken && t.pool.queueSize == s.pool.queueSize
    && |s.workers| <= |t.workers| && |s.producers| <= |t.producers|
    && (forall i | 0 <= i < |t.workers| && t.workers[i].Asleep? :: i < |s.workers| && s.workers[i].Asleep?)
    && (forall k | 0 <= k < |t.producers| && t.producers[k].Blocked? :: k < |s.producers| && s.producers[k].Blocked?)
  }

  lemma FrozenStep(s: State, e: Event)
    requires InBounds(s) && Enabled(s, e) && s.shutDown
    ensures Frozen(s, Apply(s, e))
  {
    hide QueueOk, Queued, ClearSlot, Ring, Grow;
    match e
    case ManagerGrow => GrowKeepsQueue(s.pool, s.manager.liveNum, |s.workers| + 1);
    case _ =>
  }

  lemma GrowKeepsQueue(p: Pool, staleLive: int, tid: nat)
    requires |p.threadIDs| == p.maxNum
    ensures Grow(p, staleLive, 0, 0, tid).queueSize == p.queueSize
  {
  }

  lemma FrozenTransitive(a: State, b: State, c: State)
    requires Frozen(a, b) && Frozen(b, c)
    ensures Frozen(a, c)
  {
  }

  /** After shutdown no task is accepted or taken any more, and no thread falls asleep. */
  lemma {:induction false} ShutdownFreezes(s: State, events: seq<Event>, t: State)
    requires Path(s, events, t) && s.shutDown
    ensures Frozen(s, t)
    decreases |events|
  {
    hide Enabled, Apply, InBounds, Frozen;
    if events == [] {
      FrozenAlready(s);
    } else {
      var u := Apply(s, events[0]);
      FrozenStep(s, events[0]);
      FrozenIsShut(s, u);
      ShutdownFreezes(u, events[1..], t);
      FrozenTransitive(s, u, t);
    }
  }

  lemma FrozenAlready(s: State)
    requires s.shutDown
    ensures Frozen(s, s)
  {
  }

  lemma FrozenIsShut(s: State, t: State)
    requires Frozen(s, t)
    ensures t.shutDown
  {
  }

  function Added(p: Producer): nat { if p.Returned? && p.added then 1 else 0 }

  /** The answers to the calls that have returned. */
  ghost predicate AnswersOk(s: State) {
    && Tally(s.producers, Added) == |s.accepted|
    && (!s.shutDown ==> forall k | 0 <= k < |s.producers| && s.producers[k].Returned? :: s.producers[k].added)
  }

  lemma AnswersStep(s: State, e: Event)
    requires InBounds(s) && Enabled(s, e) && AnswersOk(s)
    ensures AnswersOk(Apply(s, e))
  {
    hide QueueOk, Queued, Tally, ClearSlot, Grow, Ring, WakeWorker;
    match e
    case WorkerLock(i, s1, s2, wake) =>
      if WorkerPass(s.pool, s.workers[i].Woken?, s1, s2).1.Takes? && wake != -1 {
        TallyUpdate(s.producers, wake, Notified(s.producers[wake].task), Added);
      }
    case Call(task) => TallyAppend(s.producers, Calling(task), Added);
    case ProducerLock(k, s1, s2, wake) => TallyUpdate(s.producers, k, Apply(s, e).producers[k], Added);
    case ProducerSpurious(k) => TallyUpdate(s.producers, k, Apply(s, e).producers[k], Added);
    case _ =>
  }

  /** The accepted tasks are those of the calls that returned with success, and only shutdown turns a
      call down. */
  lemma {:induction false} CallsAreAnswered(events: seq<Event>, s: State)
    requires Reaches(events, s)
    ensures Tally(s.producers, Added) == |s.accepted|
    ensures forall k | 0 <= k < |s.producers| && s.producers[k].Returned? && !s.producers[k].added :: s.shutDown
  {
    hide Enabled, Apply, InBounds, Initial;
    if events == [] {
      NoCallsYet(s);
    } else {
      var p :| Reaches(events[..|events| - 1], p) && InBounds(p)
               && Enabled(p, events[|events| - 1]) && s == Apply(p, events[|events| - 1]);
      CallsAreAnswered(events[..|events| - 1], p);
      AnswersStep(p, events[|events| - 1]);
    }
  }

  lemma NoCallsYet(s: State)
    requires Initial(s)
    ensures AnswersOk(s) && s.producers == []
  {
    TallyBounds(s.producers, Added);
  }
}
