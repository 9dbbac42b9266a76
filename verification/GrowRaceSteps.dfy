/** The race of the growing loop with leaving threads, as steps of the transition system: whatever
    state it ends in, the system reaches it with the loop as one step. */
module GrowRaceSteps {
  import opened ThreadPool
  import opened PoolSystem
  import opened PoolAccounting
  import opened GrowRace

  /** The workers after those in `gone` have ended. */
  function Retire(ws: seq<Worker>, gone: set<int>): (us: seq<Worker>)
    ensures |us| == |ws|
    ensures forall i | 0 <= i < |ws| :: us[i] == if i in gone then Gone else ws[i]
  {
    seq(|ws|, i requires 0 <= i < |ws| => if i in gone then Gone else ws[i])
  }

  /** Worker i has thread id i + 1. */
  function OwnerOf(id: nat): int {
    id - 1
  }

  /** The workers whose ids stand in the slots. */
  function Owners(ids: seq<nat>, ks: set<nat>): (owners: set<int>)
    requires forall k <- ks :: k < |ids|
  {
    set k | k in ks :: OwnerOf(ids[k])
  }

  /** Slots that leaving threads are about to clear. */
  predicate Clearable(s: State, ks: set<nat>) {
    forall k <- ks ::
      && k < |s.pool.threadIDs| && 0 < s.pool.threadIDs[k] <= |s.workers|
      && s.workers[s.pool.threadIDs[k] - 1].Exiting?
  }

  /** The state after the owners of these slots have cleared them and ended. */
  function Cleared(s: State, ks: set<nat>): State
    requires Clearable(s, ks)
  {
    s.(pool := Without(s.pool, ks), workers := Retire(s.workers, Owners(s.pool.threadIDs, ks)))
  }

  ghost predicate Consistent(s: State) {
    InBounds(s) && SlotIds(s.pool.threadIDs, |s.workers|)
  }

  predicate OnlyClears(events: seq<Event>) {
    forall e <- events :: e.WorkerClear?
  }

  /** The state after slot k alone was cleared. */
  function ClearedSlot(s: State, k: nat): State
    requires k < |s.pool.threadIDs| && 0 < s.pool.threadIDs[k] <= |s.workers|
  {
    s.(pool := s.pool.(threadIDs := s.pool.threadIDs[k := 0]), workers := s.workers[s.pool.threadIDs[k] - 1 := Gone])
  }

  lemma ClearStep(s: State, k: nat)
    requires Consistent(s) && k < |s.pool.threadIDs| && 0 < s.pool.threadIDs[k] <= |s.workers|
    requires s.workers[s.pool.threadIDs[k] - 1].Exiting?
    ensures InBounds(s) && Enabled(s, WorkerClear(s.pool.threadIDs[k] - 1))
    ensures Apply(s, WorkerClear(s.pool.threadIDs[k] - 1)) == ClearedSlot(s, k)
    ensures Consistent(ClearedSlot(s, k))
  {
    hide QueueOk, Tally, ClearSlot, SlotIds;
    var ids := s.pool.threadIDs;
    SlotFreed(ids, k, |s.workers|);
    ClearsOwnSlot(ids, k, |s.workers|);
    SameQueue(s.pool, s.pool.(threadIDs := ids[k := 0]));
  }

  /** One thread clears its slot k; the others still can, and the end is the same. */
  lemma ClearOne(s: State, ks: set<nat>, k: nat)
    requires Consistent(s) && Clearable(s, ks) && k in ks
    ensures k < |s.pool.threadIDs| && 0 < s.pool.threadIDs[k] <= |s.workers|
    ensures InBounds(s) && Enabled(s, WorkerClear(s.pool.threadIDs[k] - 1))
    ensures var t := Apply(s, WorkerClear(s.pool.threadIDs[k] - 1));
            Consistent(t) && Clearable(t, ks - {k}) && Cleared(t, ks - {k}) == Cleared(s, ks)
  {
    hide Consistent, Enabled, Apply, InBounds, Zeroed, Retire;
    ClearStep(s, k);
    ClearedTogether(s.pool.threadIDs, s.workers, ks, k);
    OthersStillClearable(s, ks, k);
  }

  lemma OthersStillClearable(s: State, ks: set<nat>, k: nat)
    requires Consistent(s) && Clearable(s, ks) && k in ks
    ensures Clearable(ClearedSlot(s, k), ks - {k})
  {
    hide InBounds;
  }

  lemma ClearedTogether(ids: seq<nat>, ws: seq<Worker>, ks: set<nat>, k: nat)
    requires k in ks && forall m <- ks :: m < |ids|
    requires 0 < ids[k] <= |ws|
    ensures Zeroed(ids[k := 0], ks - {k}) == Zeroed(ids, ks)
    ensures (Retire(ws[ids[k] - 1 := Gone], Owners(ids[k := 0], ks - {k})) == Retire(ws, Owners(ids, ks)))
  {
    var i := OwnerOf(ids[k]);
    assert Owners(ids, ks) == Owners(ids[k := 0], ks - {k}) + {i} by {
      forall j | j in Owners(ids, ks)
        ensures j in Owners(ids[k := 0], ks - {k}) + {i}
      {
        var m :| m in ks && OwnerOf(ids[m]) == j;
        assert m == k || ids[k := 0][m] == ids[m];
      }
    }
  }

  lemma SameQueue(p: Pool, q: Pool)
    requires q == p.(threadIDs := q.threadIDs)
    ensures QueueOk(q) == QueueOk(p)
  {
  }

  /** All of them do, in some order. */
  lemma {:induction false} ClearAll(s: State, ks: set<nat>) returns (events: seq<Event>)
    requires Consistent(s) && Clearable(s, ks)
    ensures OnlyClears(events) && Path(s, events, Cleared(s, ks)) && Consistent(Cleared(s, ks))
    decreases |ks|
  {
    hide Consistent, Apply, Enabled, Path, Cleared, Clearable;
    if ks == {} {
      events := [];
      ClearedNone(s);
    } else {
      var k :| k in ks;
      ClearOne(s, ks, k);
      var e := WorkerClear(s.pool.threadIDs[k] - 1);
      var t := Apply(s, e);
      var rest := ClearAll(t, ks - {k});
      ConsistentBounds(s);
      PathOne(s, e);
      PathJoin(s, [e], t, rest, Cleared(t, ks - {k}));
      events := [e] + rest;
    }
  }

  lemma ClearedNone(s: State)
    ensures Clearable(s, {}) && Cleared(s, {}) == s && Path(s, [], s)
  {
    assert Without(s.pool, {}).threadIDs == s.pool.threadIDs;
    assert Retire(s.workers, Owners(s.pool.threadIDs, {})) == s.workers;
  }

  lemma ConsistentBounds(s: State)
    requires Consistent(s)
    ensures InBounds(s)
  {
  }

  /** The manager has decided to grow, and while its loop runs, slot k is cleared by its leaving
      owner just before turn when[k], or not at all. */
  ghost predicate Racing(s: State, when: seq<nat>) {
    && Consistent(s) && |when| == s.pool.maxNum
    && s.manager.Sampled? && s.manager.queueSize >= 1 && s.manager.liveNum < s.pool.maxNum
    && Clearable(s, Racers(when))
  }

  function Racers(when: seq<nat>): set<nat> {
    set k: nat | k < |when| && when[k] <= |when|
  }

  /** The state the race ends in. */
  function Raced(s: State, when: seq<nat>): State
    requires Racing(s, when)
  {
    var p := GrowAmid(s.pool, when, s.manager.liveNum, 0, 0, |s.workers| + 1);
    var added := p.liveNum - s.pool.liveNum;
    s.(pool := p, manager := Grown(s.manager.liveNum, s.manager.busyNum),
       workers := Retire(s.workers, Owners(s.pool.threadIDs, Racers(when)))
                  + seq(if added > 0 then added else 0, _ => Start))
  }

  /** After the early clearings and the growing step, the late ones lead to the end of the race. */
  lemma LateOnesFinish(s: State, when: seq<nat>, before: set<nat>, after: set<nat>)
    requires Racing(s, when) && before + after == Racers(when) && before !! after
    requires (GrowAmid(s.pool, when, s.manager.liveNum, 0, 0, |s.workers| + 1)
              == Without(Grow(Without(s.pool, before), s.manager.liveNum, 0, 0, |s.workers| + 1), after))
    requires Clearable(s, before) && Consistent(Cleared(s, before))
    ensures var t := AfterGrow(Cleared(s, before));
            Consistent(t) && Clearable(t, after) && Cleared(t, after) == Raced(s, when)
  {
    hide QueueOk, Tally, Grow, SlotIds, GrowAmid, Zeroed;
    var ids, u := s.pool.threadIDs, Cleared(s, before);
    var t := AfterGrow(u);
    GrowFills(u.pool, u.manager.liveNum, 0, 0, |u.workers| + 1);
    SameQueueGrown(u.pool, u.manager.liveNum, |u.workers| + 1);
    OwnersApart(s, before, after);
    forall k <- after
      ensures k < |ids| && t.pool.threadIDs[k] == ids[k] && t.workers[ids[k] - 1] == s.workers[ids[k] - 1]
    {
      ZeroedElsewhere(ids, before, k);
      assert ids[k] - 1 in Owners(ids, after);
    }
    assert Owners(t.pool.threadIDs, after) == Owners(ids, after);
    assert Owners(ids, Racers(when)) == Owners(ids, before) + Owners(ids, after);
    RetireTwice(s.workers, Owners(ids, before), Owners(ids, after), |t.workers| - |s.workers|);
  }

  lemma ZeroedElsewhere(ids: seq<nat>, ks: set<nat>, k: nat)
    requires k < |ids| && k !in ks
    ensures Zeroed(ids, ks)[k] == ids[k]
  {
  }

  lemma SameQueueGrown(p: Pool, staleLive: int, tid: nat)
    requires |p.threadIDs| == p.maxNum && QueueOk(p)
    ensures QueueOk(Grow(p, staleLive, 0, 0, tid))
  {
  }

  lemma OwnersApart(s: State, before: set<nat>, after: set<nat>)
    requires Consistent(s) && Clearable(s, before) && Clearable(s, after) && before !! after
    ensures Owners(s.pool.threadIDs, before) !! Owners(s.pool.threadIDs, after)
    ensures forall i <- Owners(s.pool.threadIDs, after) :: 0 <= i < |s.workers|
  {
    hide InBounds;
    var ids := s.pool.threadIDs;
    forall i <- Owners(ids, after)
      ensures i !in Owners(ids, before)
    {
      var m :| m in after && OwnerOf(ids[m]) == i;
      assert forall k <- before :: ids[k] != ids[m];
    }
  }

  lemma RetireTwice(ws: seq<Worker>, a: set<int>, b: set<int>, n: nat)
    requires forall i <- b :: 0 <= i < |ws|
    ensures Retire(Retire(ws, a) + seq(n, _ => Start), b) == Retire(ws, a + b) + seq(n, _ => Start)
  {
  }

  /** A race of the growing loop with leaving threads ends where some threads clear their slots,
      then the manager grows the pool in one step, and then the other threads clear theirs. */
  lemma RaceIsSteps(s: State, when: seq<nat>) returns (early: seq<Event>, late: seq<Event>)
    requires Racing(s, when)
    ensures OnlyClears(early) && OnlyClears(late)
    ensures Path(s, early + [ManagerGrow] + late, Raced(s, when))
  {
    hide Path, Enabled, Apply, GrowAmid, Grow, Zeroed, SlotIds, QueueOk, Raced;
    AllOccupiedRacers(s, when);
    var before, after := GrowIsAtomic(s.pool, when, s.manager.liveNum, |s.workers| + 1);
    early := ClearAll(s, before);
    var u := Cleared(s, before);
    LateOnesFinish(s, when, before, after);
    GrowStep(u);
    late := ClearAll(AfterGrow(u), after);
    PathOne(u, ManagerGrow);
    PathJoin(s, early, u, [ManagerGrow], AfterGrow(u));
    PathJoin(s, early + [ManagerGrow], AfterGrow(u), late, Raced(s, when));
  }

  lemma AllOccupiedRacers(s: State, when: seq<nat>)
    requires Racing(s, when)
    ensures StillOccupied(s.pool, when, 0)
  {
    assert forall k | 0 <= k < |when| && when[k] <= |when| :: k in Racers(when);
  }

  lemma GrowStep(u: State)
    requires InBounds(u) && u.manager.Sampled?
    ensures Enabled(u, ManagerGrow) && Apply(u, ManagerGrow) == AfterGrow(u)
  {
  }

  /** So the race leads to no state that the system does not reach anyway. */
  lemma RacedStateIsReachable(events: seq<Event>, s: State, when: seq<nat>) returns (more: seq<Event>)
    requires Reaches(events, s) && Racing(s, when)
    ensures Reaches(events + more, Raced(s, when)) && Inv(Raced(s, when))
  {
    hide Reaches, Path, Racing, Raced, Inv;
    var early, late := RaceIsSteps(s, when);
    more := early + [ManagerGrow] + late;
    PathReaches(events, s, more, Raced(s, when));
    AlwaysInv(events + more, Raced(s, when));
  }
}
