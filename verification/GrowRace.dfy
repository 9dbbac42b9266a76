/** The manager grows the pool under the lock while leaving threads clear their slots without it.
    Each such race has the effect of clearing some slots before and some after an undisturbed run
    of the growing loop, so the transition system may take that loop as one step. */
module GrowRace {
  import opened ThreadPool

  function Zeroed(ids: seq<nat>, ks: set<nat>): (r: seq<nat>)
    ensures |r| == |ids|
    ensures forall k | 0 <= k < |ids| :: r[k] == if k in ks then 0 else ids[k]
  {
    seq(|ids|, k requires 0 <= k < |ids| => if k in ks then 0 else ids[k])
  }

  function Without(p: Pool, ks: set<nat>): Pool {
    p.(threadIDs := Zeroed(p.threadIDs, ks))
  }

  /** Slot k is cleared just before the loop looks at slot when[k], or not during the loop if
      when[k] exceeds the number of slots. */
  function Now(when: seq<nat>, i: nat): set<nat> {
    set k: nat | k < |when| && when[k] == i
  }

  /** Slots that are cleared from turn i on, but before the loop has passed them. */
  function Early(when: seq<nat>, i: nat): set<nat> {
    set k: nat | k < |when| && i <= when[k] <= k
  }

  /** Slots that are cleared from turn i on, after the loop has passed them. */
  function Late(when: seq<nat>, i: nat): set<nat> {
    set k: nat | k < |when| && i <= when[k] && k < when[k] <= |when|
  }

  /** One turn of the growing loop: a thread with id tid is started if slot i is free. */
  function Turn(p: Pool, i: nat, tid: nat): (q: Pool)
    requires i < |p.threadIDs|
    ensures |q.threadIDs| == |p.threadIDs| && q.maxNum == p.maxNum
  {
    if p.threadIDs[i] == 0 then p.(threadIDs := p.threadIDs[i := tid], liveNum := p.liveNum + 1) else p
  }

  function Started(p: Pool, i: nat): nat
    requires i < |p.threadIDs|
  {
    if p.threadIDs[i] == 0 then 1 else 0
  }

  function Stops(p: Pool, staleLive: int, i: nat, counter: nat): bool {
    i == p.maxNum || counter >= NUMBER || staleLive >= p.maxNum
  }

  /** The growing loop from slot i on, with the clearings of other threads in between; those that
      come after its last turn are included. */
  function GrowAmid(p: Pool, when: seq<nat>, staleLive: int, i: nat, counter: nat, tid: nat): Pool
    requires |p.threadIDs| == p.maxNum == |when| && i <= p.maxNum
    decreases p.maxNum - i
  {
    if Stops(p, staleLive, i, counter) then Without(p, Early(when, i) + Late(when, i))
    else
      var q := Without(p, Now(when, i));
      var n := Started(q, i);
      GrowAmid(Turn(q, i, tid), when, staleLive, i + 1, counter + n, tid + n)
  }

  lemma GrowByTurns(p: Pool, staleLive: int, i: nat, counter: nat, tid: nat)
    requires |p.threadIDs| == p.maxNum && i <= p.maxNum
    ensures Grow(p, staleLive, i, counter, tid)
         == if Stops(p, staleLive, i, counter) then p
            else Grow(Turn(p, i, tid), staleLive, i + 1, counter + Started(p, i), tid + Started(p, i))
  {
  }

  /** The loop never looks back: clearing slots it has passed commutes with the rest of it. */
  lemma {:induction false} PassedSlotsCommute(p: Pool, ks: set<nat>, staleLive: int, i: nat, counter: nat, tid: nat)
    requires |p.threadIDs| == p.maxNum && i <= p.maxNum
    requires forall k <- ks :: k < i
    ensures Grow(Without(p, ks), staleLive, i, counter, tid) == Without(Grow(p, staleLive, i, counter, tid), ks)
    decreases p.maxNum - i
  {
    if i == p.maxNum || counter >= NUMBER || staleLive >= p.maxNum {
    } else if p.threadIDs[i] == 0 {
      var r := p.(threadIDs := p.threadIDs[i := tid], liveNum := p.liveNum + 1);
      assert Zeroed(p.threadIDs, ks)[i := tid] == Zeroed(r.threadIDs, ks);
      PassedSlotsCommute(r, ks, staleLive, i + 1, counter + 1, tid + 1);
    } else {
      PassedSlotsCommute(p, ks, staleLive, i + 1, counter, tid);
    }
  }

  /** Occupied slots that threads will still clear. */
  predicate StillOccupied(p: Pool, when: seq<nat>, i: nat)
    requires |p.threadIDs| == |when|
  {
    forall k | 0 <= k < |when| && i <= when[k] <= |when| :: p.threadIDs[k] != 0
  }

  /** The slot arrays on both sides of one turn of the loop; v is what the turn leaves in slot i. */
  lemma TurnSplits(ids: seq<nat>, when: seq<nat>, i: nat, v: nat)
    requires |ids| == |when| && i < |ids|
    ensures Zeroed(Zeroed(ids, Now(when, i))[i := v], Early(when, i + 1))
         == Zeroed(Zeroed(ids, Early(when, i))[i := v], Now(when, i) - Early(when, i))
  {
    hide Zeroed;
    ghost var a := Zeroed(Zeroed(ids, Now(when, i))[i := v], Early(when, i + 1));
    ghost var b := Zeroed(Zeroed(ids, Early(when, i))[i := v], Now(when, i) - Early(when, i));
    forall k | 0 <= k < |ids|
      ensures a[k] == b[k]
    {
    }
  }

  lemma LateSplits(ids: seq<nat>, when: seq<nat>, i: nat)
    requires |ids| == |when| && i < |ids|
    ensures Zeroed(Zeroed(ids, Now(when, i) - Early(when, i)), Late(when, i + 1)) == Zeroed(ids, Late(when, i))
  {
  }

  /** One turn after the clearings that precede it, against one turn after the early ones. */
  lemma TurnsAgree(p: Pool, when: seq<nat>, i: nat, tid: nat)
    requires |p.threadIDs| == |when| && i < |when|
    ensures var q, e := Without(p, Now(when, i)), Without(p, Early(when, i));
            && Started(q, i) == Started(e, i)
            && (Without(Turn(q, i, tid), Early(when, i + 1))
                == Without(Turn(e, i, tid), Now(when, i) - Early(when, i)))
  {
    var q, e := Without(p, Now(when, i)), Without(p, Early(when, i));
    assert q.threadIDs[i] == e.threadIDs[i];
    var v := if q.threadIDs[i] == 0 then tid else q.threadIDs[i];
    TurnSplits(p.threadIDs, when, i, v);
    assert Turn(q, i, tid).threadIDs == q.threadIDs[i := v] && Turn(e, i, tid).threadIDs == e.threadIDs[i := v];
  }

  lemma StillOccupiedLater(p: Pool, when: seq<nat>, i: nat, tid: nat)
    requires |p.threadIDs| == |when| && i < |when| && tid > 0 && StillOccupied(p, when, i)
    ensures StillOccupied(Turn(Without(p, Now(when, i)), i, tid), when, i + 1)
  {
  }

  lemma {:induction false} ClearingsSort(p: Pool, when: seq<nat>, staleLive: int, i: nat, counter: nat, tid: nat)
    requires |p.threadIDs| == p.maxNum == |when| && i <= p.maxNum && tid > 0
    requires StillOccupied(p, when, i)
    ensures GrowAmid(p, when, staleLive, i, counter, tid)
         == Without(Grow(Without(p, Early(when, i)), staleLive, i, counter, tid), Late(when, i))
    decreases p.maxNum - i
  {
    hide Zeroed, Grow, Turn, Started, Early, Late, Now, StillOccupied;
    var e := Without(p, Early(when, i));
    GrowByTurns(e, staleLive, i, counter, tid);
    if Stops(p, staleLive, i, counter) {
      assert Zeroed(p.threadIDs, Early(when, i) + Late(when, i)) == Zeroed(e.threadIDs, Late(when, i));
    } else {
      var q, late := Without(p, Now(when, i)), Now(when, i) - Early(when, i);
      var n := Started(q, i);
      TurnsAgree(p, when, i, tid);
      StillOccupiedLater(p, when, i, tid);
      ClearingsSort(Turn(q, i, tid), when, staleLive, i + 1, counter + n, tid + n);
      LatePassed(when, i);
      PassedSlotsCommute(Turn(e, i, tid), late, staleLive, i + 1, counter + n, tid + n);
      LateSplits(Grow(Turn(e, i, tid), staleLive, i + 1, counter + n, tid + n).threadIDs, when, i);
    }
  }

  lemma LatePassed(when: seq<nat>, i: nat)
    ensures forall k <- Now(when, i) - Early(when, i) :: k < i + 1
  {
  }

  /** Whenever leaving threads clear their slots during the growing loop, the result is that of
      clearing some of them before the loop, running it undisturbed, and clearing the others. */
  lemma GrowIsAtomic(p: Pool, when: seq<nat>, staleLive: int, tid: nat) returns (before: set<nat>, after: set<nat>)
    requires |p.threadIDs| == p.maxNum == |when| && tid > 0
    requires StillOccupied(p, when, 0)
    ensures GrowAmid(p, when, staleLive, 0, 0, tid)
         == Without(Grow(Without(p, before), staleLive, 0, 0, tid), after)
    ensures before + after == set k: nat | k < |when| && when[k] <= |when|
    ensures before !! after
  {
    before, after := Early(when, 0), Late(when, 0);
    ClearingsSort(p, when, staleLive, 0, 0, tid);
  }
}
