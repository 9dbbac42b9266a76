/** Inductive invariants of the thread pool over every interleaving, and what they promise. */
module PoolInvariants {
  import opened ThreadPool
  import opened PoolSystem

  // ---------------------------------------------------------------- kinds of threads

  function Live(w: Worker): nat { if w.Exiting? || w.Gone? then 0 else 1 }
  function Leaving(w: Worker): nat { if w.Exiting? then 1 else 0 }
  function Present(w: Worker): nat { if w.Gone? then 0 else 1 }
  function Busy(w: Worker): nat { if w.Running? then 1 else 0 }
  function Holding(w: Worker): nat { if w.Took? || w.Running? then 1 else 0 }
  function Awake(w: Worker): nat { if w.Asleep? || w.Exiting? || w.Gone? then 0 else 1 }
  function Occupied(id: nat): nat { if id == 0 then 0 else 1 }
  function Waiting(p: Producer): nat { if p.Blocked? then 1 else 0 }
  function Returning(p: Producer): nat { if p.Notified? then 1 else 0 }

  /** All worker counts after worker i changed to w. */
  lemma WorkerMoves(ws: seq<Worker>, i: nat, w: Worker)
    requires i < |ws|
    ensures Tally(ws[i := w], Live) == Tally(ws, Live) - Live(ws[i]) + Live(w)
    ensures Tally(ws[i := w], Leaving) == Tally(ws, Leaving) - Leaving(ws[i]) + Leaving(w)
    ensures Tally(ws[i := w], Present) == Tally(ws, Present) - Present(ws[i]) + Present(w)
    ensures Tally(ws[i := w], Busy) == Tally(ws, Busy) - Busy(ws[i]) + Busy(w)
    ensures Tally(ws[i := w], Holding) == Tally(ws, Holding) - Holding(ws[i]) + Holding(w)
    ensures Tally(ws[i := w], Awake) == Tally(ws, Awake) - Awake(ws[i]) + Awake(w)
  {
    TallyUpdate(ws, i, w, Live);
    TallyUpdate(ws, i, w, Leaving);
    TallyUpdate(ws, i, w, Present);
    TallyUpdate(ws, i, w, Busy);
    TallyUpdate(ws, i, w, Holding);
    TallyUpdate(ws, i, w, Awake);
  }

  /** All worker counts after n new workers started. */
  lemma WorkersStart(ws: seq<Worker>, n: nat)
    ensures var more := ws + seq(n, _ => Start);
            && Tally(more, Live) == Tally(ws, Live) + n
            && Tally(more, Leaving) == Tally(ws, Leaving)
            && Tally(more, Present) == Tally(ws, Present) + n
            && Tally(more, Busy) == Tally(ws, Busy)
            && Tally(more, Holding) == Tally(ws, Holding)
            && Tally(more, Awake) == Tally(ws, Awake) + n
  {
    hide Tally;
    TallyRepeat(ws, n, Start, Live);
    TallyRepeat(ws, n, Start, Leaving);
    TallyRepeat(ws, n, Start, Present);
    TallyRepeat(ws, n, Start, Busy);
    TallyRepeat(ws, n, Start, Holding);
    TallyRepeat(ws, n, Start, Awake);
  }

  /** A signal on `notEmpty` changes no count but the number of awake workers. */
  lemma WorkerSignalled(ws: seq<Worker>, wake: int)
    requires WorkerWakeOk(ws, wake)
    ensures var after := WakeWorker(ws, wake);
            && |after| == |ws|
            && Tally(after, Live) == Tally(ws, Live)
            && Tally(after, Leaving) == Tally(ws, Leaving)
            && Tally(after, Present) == Tally(ws, Present)
            && Tally(after, Busy) == Tally(ws, Busy)
            && Tally(after, Holding) == Tally(ws, Holding)
            && Tally(after, Awake) == Tally(ws, Awake) + if wake == -1 then 0 else 1
  {
    if wake != -1 {
      WorkerMoves(ws, wake, Woken);
    }
  }

  lemma ProducerMoves(ps: seq<Producer>, k: nat, p: Producer)
    requires k < |ps|
    ensures Tally(ps[k := p], Waiting) == Tally(ps, Waiting) - Waiting(ps[k]) + Waiting(p)
    ensures Tally(ps[k := p], Returning) == Tally(ps, Returning) - Returning(ps[k]) + Returning(p)
  {
    TallyUpdate(ps, k, p, Waiting);
    TallyUpdate(ps, k, p, Returning);
  }

  /** A signal on `notFull` turns one sleeping producer, if any, into a woken one. */
  lemma ProducerSignalled(ps: seq<Producer>, wake: int)
    requires ProducerWakeOk(ps, wake)
    ensures var after := WakeProducer(ps, wake);
            if wake == -1 then after == ps && Tally(ps, Waiting) == 0
            else && Tally(after, Waiting) == Tally(ps, Waiting) - 1
                 && Tally(after, Returning) == Tally(ps, Returning) + 1
  {
    if wake == -1 {
      TallyBounds(ps, Waiting);
    } else {
      ProducerMoves(ps, wake, Notified(ps[wake].task));
    }
  }

  // ---------------------------------------------------------------- the queue

  /** The ring buffer holds exactly the accepted tasks that were not dequeued yet, in order. */
  ghost predicate FifoOk(s: State) {
    && QueueOk(s.pool)
    && s.taken <= |s.accepted|
    && Queued(s.pool) == s.accepted[s.taken..]
  }

  lemma QueueFrame(p: Pool, q: Pool)
    requires q.taskQ == p.taskQ && q.queueSize == p.queueSize
    requires q.queueFront == p.queueFront && q.queueRear == p.queueRear
    ensures QueueOk(q) == QueueOk(p)
    ensures QueueOk(p) ==> Queued(q) == Queued(p)
  {
  }

  /** What a worker's section does to the queue. */
  lemma WorkerPassQueue(p: Pool, woken: bool, s1: bool, s2: bool)
    requires QueueOk(p) && (s1 ==> s2)
    ensures var (q, end) := WorkerPass(p, woken, s1, s2);
            && QueueOk(q) && |q.taskQ| == |p.taskQ|
            && (end.Takes? ==> Queued(p) == [end.task] + Queued(q) && p.queueSize > 0)
            && (!end.Takes? ==> Queued(q) == Queued(p))
  {
    var (q, end) := WorkerPass(p, woken, s1, s2);
    var r := p.(exitNum := q.exitNum, liveNum := q.liveNum);
    QueueFrame(p, r);
    if end.Takes? {
      DequeueRemovesFirst(r);
    }
  }

  lemma GrowQueue(p: Pool, staleLive: int, tid: nat)
    requires |p.threadIDs| == p.maxNum && QueueOk(p)
    ensures var q := Grow(p, staleLive, 0, 0, tid); QueueOk(q) && Queued(q) == Queued(p)
  {
    QueueFrame(p, Grow(p, staleLive, 0, 0, tid));
  }

  lemma FifoStep(s: State, e: Event)
    requires InBounds(s) && Enabled(s, e) && FifoOk(s)
    ensures FifoOk(Apply(s, e))
  {
    hide Ring, QueueOk, Queued, WorkerPass, Grow, WakeWorker, WakeProducer, ClearSlot;
    var t := Apply(s, e);
    match e
    case WorkerLock(i, s1, s2, wake) =>
      WorkerPassQueue(s.pool, s.workers[i].Woken?, s1, s2);
      if WorkerPass(s.pool, s.workers[i].Woken?, s1, s2).1.Takes? {
        QueuedLength(s.pool);
      }
    case ProducerLock(k, s1, s2, wake) =>
      AddPassQueue(s.pool, s.producers[k].task, s1, s2);
      QueuedLength(s.pool);
    case ManagerGrow =>
      GrowQueue(s.pool, s.manager.liveNum, |s.workers| + 1);
    case _ =>
      QueueFrame(s.pool, t.pool);
  }

  lemma QueuedLength(p: Pool)
    requires QueueOk(p)
    ensures |Queued(p)| == p.queueSize
  {
  }

  lemma AddPassQueue(p: Pool, task: Task, s1: bool, s2: bool)
    requires QueueOk(p) && (s1 ==> s2)
    ensures var (q, end) := AddPass(p, task, s1, s2);
            && QueueOk(q)
            && Queued(q) == if end.Accepted? then Queued(p) + [task] else Queued(p)
  {
    if AddPass(p, task, s1, s2).1.Accepted? {
      EnqueueAppends(p, task);
    }
  }

  // ---------------------------------------------------------------- tasks

  predicate Holds(w: Worker) {
    w.Took? || w.Running?
  }

  /** Every dequeued task is with exactly one worker or finished, never twice, and a worker that
      holds number n holds the n-th accepted task. */
  ghost predicate TasksOk(s: State) {
    && s.taken <= |s.accepted|
    && (forall i | 0 <= i < |s.workers| && Holds(s.workers[i]) ::
          && s.workers[i].n < s.taken && s.workers[i].n !in s.finished
          && s.workers[i].task == s.accepted[s.workers[i].n])
    && (forall i, k | 0 <= i < k < |s.workers| && Holds(s.workers[i]) && Holds(s.workers[k]) ::
          s.workers[i].n != s.workers[k].n)
    && (forall n <- s.finished :: n < s.taken)
    && (forall n | 0 <= n < s.taken && n !in s.finished :: HeldBySome(s.workers, n))
    && |s.finished| + Tally(s.workers, Holding) == s.taken
  }

  ghost predicate HeldBySome(ws: seq<Worker>, n: nat) {
    exists i | 0 <= i < |ws| && Holds(ws[i]) :: ws[i].n == n
  }

  /** Held tasks stay with their workers; nobody else holds one. */
  ghost predicate SameHands(ws: seq<Worker>, us: seq<Worker>) {
    && |ws| <= |us| && Tally(us, Holding) == Tally(ws, Holding)
    && forall i | 0 <= i < |us| ::
         if i < |ws| && Holds(ws[i]) then Holds(us[i]) && us[i].n == ws[i].n && us[i].task == ws[i].task
         else !Holds(us[i])
  }

  lemma HandsKept(ws: seq<Worker>, i: nat, w: Worker)
    requires i < |ws|
    requires if Holds(ws[i]) then Holds(w) && w.n == ws[i].n && w.task == ws[i].task else !Holds(w)
    ensures SameHands(ws, ws[i := w])
  {
    hide Tally;
    WorkerMoves(ws, i, w);
  }

  lemma HandsSignalled(ws: seq<Worker>, wake: int)
    requires WorkerWakeOk(ws, wake)
    ensures SameHands(ws, WakeWorker(ws, wake))
  {
    hide Tally;
    WorkerSignalled(ws, wake);
  }

  lemma HandsStarted(ws: seq<Worker>, n: nat)
    ensures SameHands(ws, ws + seq(n, _ => Start))
  {
    hide Tally;
    WorkersStart(ws, n);
  }

  lemma TasksUntouched(s: State, t: State)
    requires TasksOk(s) && SameHands(s.workers, t.workers)
    requires s.accepted <= t.accepted && t.taken == s.taken && t.finished == s.finished
    ensures TasksOk(t)
  {
    hide Tally;
    forall n | 0 <= n < t.taken && n !in t.finished
      ensures HeldBySome(t.workers, n)
    {
      assert HeldBySome(s.workers, n);
      var i :| 0 <= i < |s.workers| && Holds(s.workers[i]) && s.workers[i].n == n;
      assert Holds(t.workers[i]);
    }
  }

  /** The oldest queued task moves into the hands of worker i. */
  lemma TaskTaken(s: State, t: State, i: nat)
    requires TasksOk(s) && s.taken < |s.accepted| && i < |s.workers| && !Holds(s.workers[i])
    requires t.accepted == s.accepted && t.taken == s.taken + 1 && t.finished == s.finished
    requires t.workers == s.workers[i := Took(s.taken, s.accepted[s.taken])]
    ensures TasksOk(t)
  {
    hide Tally;
    WorkerMoves(s.workers, i, t.workers[i]);
    forall n | 0 <= n < t.taken && n !in t.finished
      ensures HeldBySome(t.workers, n)
    {
      if n == s.taken {
        assert Holds(t.workers[i]);
      } else {
        assert HeldBySome(s.workers, n);
        var k :| 0 <= k < |s.workers| && Holds(s.workers[k]) && s.workers[k].n == n;
        assert Holds(t.workers[k]);
      }
    }
  }

  /** What worker i was running is finished. */
  lemma TaskFinished(s: State, t: State, i: nat)
    requires TasksOk(s) && i < |s.workers| && s.workers[i].Running?
    requires t.accepted == s.accepted && t.taken == s.taken && t.finished == s.finished + {s.workers[i].n}
    requires t.workers == s.workers[i := Start]
    ensures TasksOk(t)
  {
    hide Tally;
    WorkerMoves(s.workers, i, Start);
    assert |t.finished| == |s.finished| + 1;
    forall n | 0 <= n < t.taken && n !in t.finished
      ensures HeldBySome(t.workers, n)
    {
      assert HeldBySome(s.workers, n);
      var k :| 0 <= k < |s.workers| && Holds(s.workers[k]) && s.workers[k].n == n;
      assert Holds(t.workers[k]);
    }
  }

  lemma TasksWorkerLock(s: State, i: nat, s1: bool, s2: bool, wake: int)
    requires InBounds(s) && Enabled(s, WorkerLock(i, s1, s2, wake)) && FifoOk(s) && TasksOk(s)
    ensures TasksOk(Apply(s, WorkerLock(i, s1, s2, wake)))
  {
    hide TasksOk, QueueOk, Queued, SameHands, WorkerPass, WakeProducer;
    var t := Apply(s, WorkerLock(i, s1, s2, wake));
    var end := WorkerPass(s.pool, s.workers[i].Woken?, s1, s2).1;
    WorkerPassQueue(s.pool, s.workers[i].Woken?, s1, s2);
    match end
    case Takes(task) =>
      assert task == s.accepted[s.taken..][0];
      TaskTaken(s, t, i);
    case _ =>
      HandsKept(s.workers, i, t.workers[i]);
      TasksUntouched(s, t);
  }

  lemma HandsStep(s: State, e: Event)
    requires InBounds(s) && Enabled(s, e) && !e.WorkerLock? && !e.WorkerFinish?
    ensures SameHands(s.workers, Apply(s, e).workers)
  {
    hide QueueOk, Queued, SameHands, Grow, ClearSlot, WorkerPass, AddPass, WakeWorker, WakeProducer;
    match e
    case WorkerBegin(i) => HandsKept(s.workers, i, Apply(s, e).workers[i]);
    case WorkerClear(i) => HandsKept(s.workers, i, Gone);
    case WorkerSpurious(i) => HandsKept(s.workers, i, Woken);
    case ProducerLock(k, s1, s2, wake) =>
      if AddPass(s.pool, s.producers[k].task, s1, s2).1.Accepted? {
        HandsSignalled(s.workers, wake);
      } else {
        HandsSame(s.workers);
      }
    case ManagerSignal(wake) => HandsSignalled(s.workers, wake);
    case ManagerGrow =>
      HandsSame(s.workers);
      HandsStarted(s.workers, |Apply(s, e).workers| - |s.workers|);
    case _ => HandsSame(s.workers);
  }

  lemma HandsSame(ws: seq<Worker>)
    ensures SameHands(ws, ws)
  {
  }

  lemma TasksStep(s: State, e: Event)
    requires InBounds(s) && Enabled(s, e) && FifoOk(s) && TasksOk(s)
    ensures TasksOk(Apply(s, e))
  {
    hide TasksOk, QueueOk, Queued, SameHands, Grow, ClearSlot, WorkerPass, AddPass, WakeWorker, WakeProducer, FifoOk;
    var t := Apply(s, e);
    match e
    case WorkerLock(i, s1, s2, wake) => TasksWorkerLock(s, i, s1, s2, wake);
    case WorkerFinish(i) => TaskFinished(s, t, i);
    case _ =>
      HandsStep(s, e);
      TasksUntouched(s, t);
  }

  // ---------------------------------------------------------------- busy workers

  /** `busyNum` counts the workers between its increment and its decrement. */
  ghost predicate BusyOk(s: State) {
    s.pool.busyNum == Tally(s.workers, Busy)
  }

  lemma BusyStep(s: State, e: Event)
    requires InBounds(s) && Enabled(s, e) && BusyOk(s)
    ensures BusyOk(Apply(s, e))
  {
    hide QueueOk, Queued, Tally, ClearSlot;
    match e
    case WorkerLock(i, s1, s2, wake) => WorkerMoves(s.workers, i, Apply(s, e).workers[i]);
    case WorkerBegin(i) => WorkerMoves(s.workers, i, Apply(s, e).workers[i]);
    case WorkerFinish(i) => WorkerMoves(s.workers, i, Start);
    case WorkerClear(i) => WorkerMoves(s.workers, i, Gone);
    case WorkerSpurious(i) => WorkerMoves(s.workers, i, Woken);
    case ProducerLock(k, s1, s2, wake) =>
      if AddPass(s.pool, s.producers[k].task, s1, s2).1.Accepted? {
        WorkerSignalled(s.workers, wake);
      }
    case ManagerSignal(wake) => WorkerSignalled(s.workers, wake);
    case ManagerGrow => WorkersStart(s.workers, |Apply(s, e).workers| - |s.workers|);
    case _ =>
  }
}
