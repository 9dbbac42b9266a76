/** Threads against slots and counters, in every reachable state of the thread pool. */
module PoolAccounting {
  import opened ThreadPool
  import opened PoolSystem
  import opened PoolInvariants

  // ---------------------------------------------------------------- the slot array

  /** Ids in use are at most n and stand in one slot each. */
  ghost predicate SlotIds(ids: seq<nat>, n: nat) {
    && (forall k | 0 <= k < |ids| :: ids[k] <= n)
    && (forall j, k | 0 <= j < k < |ids| && ids[j] != 0 :: ids[j] != ids[k])
  }

  /** One turn of the growing loop that starts a thread. */
  lemma SlotFilled(ids: seq<nat>, i: nat, tid: nat)
    requires i < |ids| && ids[i] == 0 && 0 < tid && SlotIds(ids, tid - 1)
    ensures SlotIds(ids[i := tid], tid)
    ensures Tally(ids[i := tid], Occupied) == Tally(ids, Occupied) + 1
  {
    TallyUpdate(ids, i, tid, Occupied);
  }

  /** The growing loop starts at most NUMBER threads, each in a slot that was free; it stops early
      only at the end of the array or because the stale count forbids growth. */
  lemma {:induction false} GrowFills(p: Pool, staleLive: int, i: nat, counter: nat, tid: nat)
    requires |p.threadIDs| == p.maxNum && i <= p.maxNum && counter <= NUMBER
    requires 0 < tid && SlotIds(p.threadIDs, tid - 1)
    ensures var q := Grow(p, staleLive, i, counter, tid);
            var added := q.liveNum - p.liveNum;
            && 0 <= added <= NUMBER - counter
            && SlotIds(q.threadIDs, tid - 1 + added)
            && Tally(q.threadIDs, Occupied) == Tally(p.threadIDs, Occupied) + added
            && (forall k | 0 <= k < p.maxNum ::
                  q.threadIDs[k] == p.threadIDs[k] || (p.threadIDs[k] == 0 && tid <= q.threadIDs[k]))
            && (forall n | tid <= n < tid + added :: n in q.threadIDs)
            && (staleLive < p.maxNum && added < NUMBER - counter ==>
                  forall k | i <= k < p.maxNum :: q.threadIDs[k] != 0)
    decreases p.maxNum - i
  {
    hide SlotIds, Tally;
    if i == p.maxNum || counter >= NUMBER || staleLive >= p.maxNum {
    } else if p.threadIDs[i] == 0 {
      var r := p.(threadIDs := p.threadIDs[i := tid], liveNum := p.liveNum + 1);
      SlotFilled(p.threadIDs, i, tid);
      GrowFills(r, staleLive, i + 1, counter + 1, tid + 1);
      var q := Grow(r, staleLive, i + 1, counter + 1, tid + 1);
      assert q.threadIDs[i] == tid;
    } else {
      GrowFills(p, staleLive, i + 1, counter, tid);
    }
  }

  /** How many threads one growing cycle starts: NUMBER, or as many as there are free slots. */
  lemma GrowthIsExact(p: Pool, staleLive: int, tid: nat)
    requires |p.threadIDs| == p.maxNum && 0 < tid && SlotIds(p.threadIDs, tid - 1)
    ensures var free := p.maxNum - Tally(p.threadIDs, Occupied);
            && 0 <= free
            && Grow(p, staleLive, 0, 0, tid).liveNum - p.liveNum
               == if staleLive >= p.maxNum then 0 else if free < NUMBER then free else NUMBER
  {
    hide SlotIds, Tally;
    var q := Grow(p, staleLive, 0, 0, tid);
    GrowFills(p, staleLive, 0, 0, tid);
    TallyBounds(p.threadIDs, Occupied);
    TallyBounds(q.threadIDs, Occupied);
    if staleLive < p.maxNum && q.liveNum - p.liveNum < NUMBER {
      AllOccupied(q.threadIDs);
    }
  }

  lemma {:induction false} AllOccupied(ids: seq<nat>)
    requires forall k | 0 <= k < |ids| :: ids[k] != 0
    ensures Tally(ids, Occupied) == |ids|
  {
    if ids != [] {
      AllOccupied(ids[..|ids| - 1]);
    }
  }

  /** A thread that leaves clears its own slot and no other. */
  lemma ClearsOwnSlot(ids: seq<nat>, k: nat, n: nat)
    requires k < |ids| && ids[k] != 0 && SlotIds(ids, n)
    ensures ClearSlot(ids, ids[k]) == ids[k := 0]
  {
    ClearsFirst(ids, k, ids[k]);
  }

  // ---------------------------------------------------------------- slots against threads

  /** The slots hold exactly the ids of the threads that have not cleared theirs yet. */
  ghost predicate SlotsOk(s: State) {
    && |s.pool.threadIDs| == s.pool.maxNum
    && SlotIds(s.pool.threadIDs, |s.workers|)
    && (forall k | 0 <= k < s.pool.maxNum && s.pool.threadIDs[k] != 0 ::
          !s.workers[s.pool.threadIDs[k] - 1].Gone?)
    && (forall i | 0 <= i < |s.workers| && !s.workers[i].Gone? :: i + 1 in s.pool.threadIDs)
    && Tally(s.pool.threadIDs, Occupied) == Tally(s.workers, Present)
  }

  ghost predicate SamePresence(ws: seq<Worker>, us: seq<Worker>) {
    && |us| == |ws| && Tally(us, Present) == Tally(ws, Present)
    && forall i | 0 <= i < |ws| :: us[i].Gone? == ws[i].Gone?
  }

  lemma SamePresenceSlots(s: State, t: State)
    requires SlotsOk(s) && SamePresence(s.workers, t.workers)
    requires t.pool.threadIDs == s.pool.threadIDs && t.pool.maxNum == s.pool.maxNum
    ensures SlotsOk(t)
  {
    hide Tally;
  }

  lemma PresenceKept(ws: seq<Worker>, i: nat, w: Worker)
    requires i < |ws| && !ws[i].Gone? && !w.Gone?
    ensures SamePresence(ws, ws[i := w])
  {
    hide Tally;
    WorkerMoves(ws, i, w);
  }

  lemma PresenceSame(ws: seq<Worker>)
    ensures SamePresence(ws, ws)
  {
  }

  lemma PresenceSignalled(ws: seq<Worker>, wake: int)
    requires WorkerWakeOk(ws, wake)
    ensures SamePresence(ws, WakeWorker(ws, wake))
  {
    hide Tally;
    WorkerSignalled(ws, wake);
  }

  lemma PresenceStep(s: State, e: Event)
    requires InBounds(s) && Enabled(s, e) && !e.WorkerClear? && !e.ManagerGrow?
    ensures SamePresence(s.workers, Apply(s, e).workers)
    ensures Apply(s, e).pool.threadIDs == s.pool.threadIDs && Apply(s, e).pool.maxNum == s.pool.maxNum
  {
    hide QueueOk, Queued, SamePresence, Ring;
    PresenceSame(s.workers);
    match e
    case WorkerLock(i, s1, s2, wake) => PresenceKept(s.workers, i, Apply(s, e).workers[i]);
    case WorkerBegin(i) => PresenceKept(s.workers, i, Apply(s, e).workers[i]);
    case WorkerFinish(i) => PresenceKept(s.workers, i, Start);
    case WorkerSpurious(i) => PresenceKept(s.workers, i, Woken);
    case ProducerLock(k, s1, s2, wake) =>
      if AddPass(s.pool, s.producers[k].task, s1, s2).1.Accepted? {
        PresenceSignalled(s.workers, wake);
      }
    case ManagerSignal(wake) => PresenceSignalled(s.workers, wake);
    case _ =>
  }

  lemma SlotsClear(s: State, i: nat)
    requires InBounds(s) && Enabled(s, WorkerClear(i)) && SlotsOk(s)
    ensures SlotsOk(Apply(s, WorkerClear(i)))
  {
    hide QueueOk, Tally, ClearSlot, SlotIds;
    var ids := s.pool.threadIDs;
    var k :| 0 <= k < |ids| && ids[k] == i + 1;
    ClearsOwnSlot(ids, k, |s.workers|);
    SlotFreed(ids, k, |s.workers|);
    WorkerMoves(s.workers, i, Gone);
    var us := s.workers[i := Gone];
    forall j | 0 <= j < |us| && !us[j].Gone?
      ensures j + 1 in ids[k := 0]
    {
      var m :| 0 <= m < |ids| && ids[m] == j + 1;
      assert ids[k := 0][m] == j + 1;
    }
  }

  lemma SlotFreed(ids: seq<nat>, k: nat, n: nat)
    requires k < |ids| && ids[k] != 0 && SlotIds(ids, n)
    ensures SlotIds(ids[k := 0], n) && Tally(ids[k := 0], Occupied) == Tally(ids, Occupied) - 1
    ensures forall j | 0 <= j < |ids| && j != k && ids[j] != 0 :: 0 < ids[j] <= n && ids[j] != ids[k]
  {
    TallyUpdate(ids, k, 0, Occupied);
  }

  lemma SlotsGrow(s: State)
    requires InBounds(s) && s.manager.Sampled? && SlotsOk(s)
    ensures SlotsOk(AfterGrow(s))
  {
    hide QueueOk, Tally, Grow, SlotIds;
    GrowFills(s.pool, s.manager.liveNum, 0, 0, |s.workers| + 1);
    var t := AfterGrow(s);
    WorkersStart(s.workers, |t.workers| - |s.workers|);
    forall j | 0 <= j < |t.workers| && !t.workers[j].Gone?
      ensures j + 1 in t.pool.threadIDs
    {
      if j < |s.workers| {
        var m :| 0 <= m < |s.pool.threadIDs| && s.pool.threadIDs[m] == j + 1;
        assert t.pool.threadIDs[m] == j + 1;
      }
    }
    forall k | 0 <= k < t.pool.maxNum && t.pool.threadIDs[k] != 0
      ensures 0 < t.pool.threadIDs[k] <= |t.workers| && !t.workers[t.pool.threadIDs[k] - 1].Gone?
    {
      IdBound(t.pool.threadIDs, |t.workers|, k);
      IdBound(s.pool.threadIDs, |s.workers|, k);
    }
  }

  lemma IdBound(ids: seq<nat>, n: nat, k: nat)
    requires SlotIds(ids, n) && k < |ids|
    ensures ids[k] <= n
  {
  }

  lemma SlotsStep(s: State, e: Event)
    requires InBounds(s) && Enabled(s, e) && SlotsOk(s)
    ensures SlotsOk(Apply(s, e))
  {
    hide SlotsOk, SamePresence, QueueOk, Queued, WorkerPass, AddPass, Grow, ClearSlot, Ring;
    match e
    case WorkerClear(i) => SlotsClear(s, i);
    case ManagerGrow => SlotsGrow(s);
    case _ =>
      PresenceStep(s, e);
      SamePresenceSlots(s, Apply(s, e));
  }

  // ---------------------------------------------------------------- counters

  /** The counters of threads while the pool is not being shut down. */
  ghost predicate LiveOk(s: State) {
    && 0 <= s.pool.exitNum <= NUMBER
    && (!s.shutDown ==>
          && s.pool.liveNum == Tally(s.workers, Live)
          && s.pool.minNum <= s.pool.liveNum)
  }

  /** Present threads are the live ones and the leaving ones, and they fit the slots. */
  lemma LiveFitsSlots(s: State)
    requires SlotsOk(s)
    ensures Tally(s.pool.threadIDs, Occupied) == Tally(s.workers, Live) + Tally(s.workers, Leaving)
    ensures Tally(s.workers, Live) + Tally(s.workers, Leaving) <= s.pool.maxNum
  {
    TallySum(s.workers, Present, Live, Leaving);
    TallyBounds(s.pool.threadIDs, Occupied);
  }

  lemma LiveStep(s: State, e: Event)
    requires InBounds(s) && Enabled(s, e) && SlotsOk(s) && LiveOk(s)
    ensures LiveOk(Apply(s, e))
  {
    hide QueueOk, Queued, Tally, ClearSlot, Grow, Ring, SlotsOk;
    match e
    case WorkerLock(i, s1, s2, wake) => WorkerMoves(s.workers, i, Apply(s, e).workers[i]);
    case WorkerBegin(i) => WorkerMoves(s.workers, i, Apply(s, e).workers[i]);
    case WorkerFinish(i) => WorkerMoves(s.workers, i, Start);
    case WorkerClear(i) => WorkerMoves(s.workers, i, Gone);
    case WorkerSpurious(i) => WorkerMoves(s.workers, i, Woken);
    case ProducerLock(k, s1, s2, wake) =>
      if AddPass(s.pool, s.producers[k].task, s1, s2).1.Accepted? {
        WorkerSignalled(s.workers, wake);
      }
    case ManagerSignal(wake) => WorkerSignalled(s.workers, wake);
    case ManagerGrow => LiveGrow(s);
    case _ =>
  }

  lemma LiveGrow(s: State)
    requires InBounds(s) && s.manager.Sampled? && SlotsOk(s) && LiveOk(s)
    ensures LiveOk(AfterGrow(s))
    ensures Tally(AfterGrow(s).workers, Awake)
            == Tally(s.workers, Awake) + AfterGrow(s).pool.liveNum - s.pool.liveNum
  {
    hide QueueOk, Tally, Grow;
    GrowFills(s.pool, s.manager.liveNum, 0, 0, |s.workers| + 1);
    WorkersStart(s.workers, |AfterGrow(s).workers| - |s.workers|);
  }

  // ---------------------------------------------------------------- nobody is forgotten

  /** A queued task has a worker that is up, or the pool is below its maximum. */
  ghost predicate StrandOk(s: State) {
    !s.shutDown && s.pool.queueSize > 0 ==>
      Tally(s.workers, Awake) > 0 || s.pool.liveNum < s.pool.maxNum
  }

  /** Without a sleeper every live worker is up. */
  lemma {:induction false} NoSleepers(ws: seq<Worker>)
    requires forall i | 0 <= i < |ws| :: !ws[i].Asleep?
    ensures Tally(ws, Awake) == Tally(ws, Live)
  {
    if ws != [] {
      NoSleepers(ws[..|ws| - 1]);
    }
  }

  lemma StrandStep(s: State, e: Event)
    requires InBounds(s) && Enabled(s, e) && SlotsOk(s) && LiveOk(s) && StrandOk(s) && s.pool.maxNum >= 1
    ensures StrandOk(Apply(s, e))
  {
    hide QueueOk, Queued, Tally, ClearSlot, Grow, Ring, SlotsOk;
    LiveFitsSlots(s);
    match e
    case WorkerLock(i, s1, s2, wake) => WorkerMoves(s.workers, i, Apply(s, e).workers[i]);
    case WorkerBegin(i) => WorkerMoves(s.workers, i, Apply(s, e).workers[i]);
    case WorkerFinish(i) => WorkerMoves(s.workers, i, Start);
    case WorkerClear(i) => WorkerMoves(s.workers, i, Gone);
    case WorkerSpurious(i) => WorkerMoves(s.workers, i, Woken);
    case ProducerLock(k, s1, s2, wake) =>
      if AddPass(s.pool, s.producers[k].task, s1, s2).1.Accepted? {
        WorkerSignalled(s.workers, wake);
        if wake == -1 {
          NoSleepers(s.workers);
        }
      }
    case ManagerSignal(wake) => WorkerSignalled(s.workers, wake);
    case ManagerGrow => LiveGrow(s);
    case _ =>
  }

  /** A producer sleeps only while the free places are spoken for. */
  ghost predicate ProducerOk(s: State) {
    !s.shutDown && Tally(s.producers, Waiting) > 0 ==>
      s.pool.queueSize + Tally(s.producers, Returning) >= |s.pool.taskQ|
  }

  lemma AddPassKeepsCapacity(p: Pool, task: Task, s1: bool, s2: bool)
    requires QueueOk(p) && (s1 ==> s2)
    ensures |AddPass(p, task, s1, s2).0.taskQ| == |p.taskQ|
  {
  }

  lemma ProducerStep(s: State, e: Event)
    requires InBounds(s) && Enabled(s, e) && ProducerOk(s)
    ensures ProducerOk(Apply(s, e))
  {
    hide QueueOk, Queued, Tally, ClearSlot, Grow, Ring, WakeWorker;
    match e
    case WorkerLock(i, s1, s2, wake) =>
      if WorkerPass(s.pool, s.workers[i].Woken?, s1, s2).1.Takes? {
        ProducerSignalled(s.producers, wake);
      }
    case Call(task) =>
      TallyAppend(s.producers, Calling(task), Waiting);
      TallyAppend(s.producers, Calling(task), Returning);
    case ProducerLock(k, s1, s2, wake) =>
      AddPassKeepsCapacity(s.pool, s.producers[k].task, s1, s2);
      ProducerMoves(s.producers, k, Apply(s, e).producers[k]);
    case ProducerSpurious(k) => ProducerMoves(s.producers, k, Apply(s, e).producers[k]);
    case _ =>
  }

  // ---------------------------------------------------------------- every reachable state

  ghost predicate Inv(s: State) {
    && InBounds(s) && s.pool.maxNum >= 1
    && FifoOk(s) && TasksOk(s) && BusyOk(s)
    && SlotsOk(s) && LiveOk(s) && StrandOk(s) && ProducerOk(s)
  }

  lemma {:induction false} InitialSlots(min: nat, max: nat)
    requires min <= max
    ensures var ids := Created(min, max, 0, []).threadIDs; SlotIds(ids, min) && Tally(ids, Occupied) == min
  {
    var ids := Created(min, max, 0, []).threadIDs;
    if max > 0 {
      var less := if min < max then min else min - 1;
      InitialSlots(less, max - 1);
      assert ids[..max - 1] == Created(less, max - 1, 0, []).threadIDs;
    }
  }

  lemma InitialSlotsOk(s: State)
    requires Initial(s)
    ensures SlotsOk(s)
  {
    hide Tally, SlotIds, QueueOk;
    InitialSlots(s.pool.minNum, s.pool.maxNum);
    assert s.pool.threadIDs == Created(s.pool.minNum, s.pool.maxNum, 0, []).threadIDs;
    InitialTallies(s);
    forall i | 0 <= i < |s.workers| && !s.workers[i].Gone?
      ensures i + 1 in s.pool.threadIDs
    {
      assert s.pool.threadIDs[i] == i + 1;
    }
  }

  lemma InitialTallies(s: State)
    requires Initial(s)
    ensures Tally(s.workers, Live) == Tally(s.workers, Present) == s.pool.minNum
    ensures Tally(s.workers, Busy) == Tally(s.workers, Holding) == 0
    ensures Tally(s.producers, Waiting) == 0
  {
    hide QueueOk;
    assert s.workers == [] + seq(s.pool.minNum, _ => Start);
    WorkersStart([], s.pool.minNum);
  }

  lemma InvInitial(s: State)
    requires Initial(s)
    ensures Inv(s)
  {
    hide Tally, SlotsOk, Ring;
    InitialSlotsOk(s);
    InitialTallies(s);
    assert Queued(s.pool) == [];
  }

  lemma InvStep(s: State, e: Event)
    requires Inv(s) && Enabled(s, e)
    ensures Inv(Apply(s, e))
  {
    hide InBounds, FifoOk, TasksOk, BusyOk, SlotsOk, LiveOk, StrandOk, ProducerOk, Enabled, Apply;
    FifoStep(s, e);
    TasksStep(s, e);
    BusyStep(s, e);
    SlotsStep(s, e);
    LiveStep(s, e);
    StrandStep(s, e);
    ProducerStep(s, e);
    BoundsStep(s, e);
  }

  lemma BoundsStep(s: State, e: Event)
    requires InBounds(s) && Enabled(s, e) && FifoOk(Apply(s, e)) && SlotsOk(Apply(s, e))
    ensures InBounds(Apply(s, e)) && Apply(s, e).pool.maxNum == s.pool.maxNum
  {
    hide Tally, Queued, Ring, SlotIds;
  }

  /** Every state that any interleaving reaches satisfies all the invariants. */
  lemma {:induction false} AlwaysInv(events: seq<Event>, s: State)
    requires Reaches(events, s)
    ensures Inv(s)
  {
    hide Inv, Enabled, Apply, Initial;
    if events == [] {
      InvInitial(s);
    } else {
      var p :| Reaches(events[..|events| - 1], p) && InBounds(p)
               && Enabled(p, events[|events| - 1]) && s == Apply(p, events[|events| - 1]);
      AlwaysInv(events[..|events| - 1], p);
      InvStep(p, events[|events| - 1]);
    }
  }
}
