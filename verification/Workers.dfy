/** The parallel variant (CRUSH_Research/main.cpp:624-1185): `do_work1`, `do_work2` and `do_work3`
    are the inner loops of the selector with parent_r = 0, 1, 2, writing slots 0, 1, 2. */
module Workers {
  import opened CrushMap
  import opened Firstn
  import opened FirstnSafety
  import opened FirstnLoops

  /** The job of worker k: it overrides parent_r with its own number. */
  function WorkerJob(j: Job, k: nat): (w: Job)
    requires Ready(j)
    ensures Ready(w)
  {
    j.(parentR := k)
  }

  function WorkerSlot(j: Job, k: nat, filled: seq<int>): Slot {
    Slot(if j.env.stable then 0 else k, filled, if j.leaf then filled else [])
  }

  /** What worker k commits after the slots before it were filled, whether or not it gave up. */
  function WorkerItem(j: Job, k: nat, filled: seq<int>): int
    requires Ready(j)
  {
    Search(WorkerJob(j, k), WorkerSlot(j, k, filled), Begin(WorkerJob(j, k))).item
  }

  /** The first k workers, one after another. */
  function WorkersInOrder(j: Job, k: nat): (out: seq<int>)
    requires Ready(j)
    ensures |out| == k
  {
    if k == 0 then []
    else
      var filled := WorkersInOrder(j, k - 1);
      filled + [WorkerItem(j, k - 1, filled)]
  }

  /** `firstn_info`, with `out2` aliased to `out` as the callers set it up. */
  class FirstnInfo {
    const job: Job
    var out: array<int>
    var outpos: nat

    constructor (job: Job)
      ensures this.job == job && this.outpos == 0 && fresh(out) && out.Length == 3
    {
      this.job := job;
      outpos := 0;
      out := new int[3];
    }

    /** `do_work1/2/3` for k = 0, 1, 2, started after the workers before it have finished. */
    method DoWork(k: nat)
      requires Ready(job) && job.itype == 0
      requires k < out.Length && outpos == k
      modifies this`outpos, out
      ensures out == old(out) && outpos == k + 1
      ensures out[..k + 1] == old(out[..k]) + [WorkerItem(job, k, old(out[..k]))]
    {
      hide Search;
      var j := WorkerJob(job, k);
      var rep := if j.env.stable then 0 else k;
      assert SlotAt(rep, Filled(j, out, out, k)) == WorkerSlot(job, k, out[..k]);
      var item, skip := SearchReplica(j, rep, out, out, k, 1);
      out[k] := item;
      outpos := outpos + 1;
    }

    /** `pthread_crush_choose_firstn` when the three workers happen to run in order. */
    method ChooseInOrder() returns (count: nat)
      requires Ready(job) && job.itype == 0
      requires out.Length == 3 && outpos == 0
      modifies this`outpos, out
      ensures out == old(out) && count == outpos == 3
      ensures out[..] == WorkersInOrder(job, 3)
    {
      hide WorkerItem;
      for k := 0 to 3
        invariant out == old(out) && outpos == k
        invariant out[..k] == WorkersInOrder(job, k)
      {
        DoWork(k);
      }
      count := outpos;
    }
  }

  // ---------------------------------------------------------------- agreement

  lemma SameNext(j: Job, parentR: int, slot: Slot, rep: int, s: State)
    requires Valid(j, s) && rep + parentR == slot.rep + j.parentR
    ensures Valid(j.(parentR := parentR), s)
    ensures Next(j.(parentR := parentR), slot.(rep := rep), s) == Next(j, slot, s)
  {
    hide Judge, Pick, StaysLocal, RetryBound, WellFormed;
    if j.env.m.buckets[s.at].items != [] {
      var r := Factor(j, slot, s);
      SameJudge(j, parentR, slot, rep, r, Pick(j.env, s.at, r, |slot.chosen|));
    }
  }

  /** A search depends on rep and parent_r only through their sum. */
  lemma {:induction false} OnlyTheSumMatters(j: Job, parentR: int, slot: Slot, rep: int, s: State)
    requires Valid(j, s) && rep + parentR == slot.rep + j.parentR
    ensures Valid(j.(parentR := parentR), s)
    ensures Search(j.(parentR := parentR), slot.(rep := rep), s) == Search(j, slot, s)
    decreases Clamp(j.tries - s.ftotal), Clamp(RetryBound(j.env) - s.flocal), Rank(j.env.m)[s.at]
  {
    hide RetryBound, Next;
    SameNext(j, parentR, slot, rep, s);
    match Next(j, slot, s)
    case Stop(_) =>
    case Loop(t) => OnlyTheSumMatters(j, parentR, slot, rep, t);
  }

  lemma SameJudge(j: Job, parentR: int, slot: Slot, rep: int, r: int, item: int)
    requires Ready(j) && (item < 0 ==> IsBucket(j.env.m, item))
    ensures Ready(j.(parentR := parentR))
    ensures Judge(j.(parentR := parentR), slot.(rep := rep), r, item) == Judge(j, slot, r, item)
  {
    hide Search, IsOut, WellFormed;
  }

  /** Worker k repeats a replica of the sequential loop: number k if `stable` is on.  Otherwise both
      its rep and its parent_r are k, and it repeats number 2k. */
  lemma WorkerMatchesReplica(j: Job, k: nat, filled: seq<int>)
    requires Ready(j) && j.parentR == 0
    ensures WorkerItem(j, k, filled)
         == Search(j, Slot(if j.env.stable then k else 2 * k, filled, if j.leaf then filled else []), Begin(j)).item
  {
    hide Search;
    var rep := if j.env.stable then k else 2 * k;
    OnlyTheSumMatters(j, k, Slot(rep, filled, if j.leaf then filled else []), rep - k, Begin(j));
  }

  /** As long as every replica is placed, the sequential loop fills the workers' slots. */
  lemma {:induction false} SequentialMatchesWorkers(j: Job, k: nat, n: nat, got: Picks)
    requires Ready(j) && j.env.stable && j.parentR == 0 && j.itype == 0
    requires k <= n && got == Picks(WorkersInOrder(j, k), if j.leaf then WorkersInOrder(j, k) else [])
    ensures var end := Replicas(j, k, n, n - k, got);
            |end.out| == n ==> end.out == WorkersInOrder(j, n)
    decreases n - k
  {
    hide Search, WorkerItem, Usable, Below, Drawn;
    if k < n {
      var slot := SlotAt(k, got);
      WorkerMatchesReplica(j, k, got.out);
      SearchSafe(j, slot, Begin(j));
      match Search(j, slot, Begin(j))
      case GaveUp(_) => ReplicasSafe(j, k + 1, n, n - k, got);
      case Placed(item, device) =>
        TypeZero(j.env.m, item);
        SequentialMatchesWorkers(j, k + 1, n, Commit(j, got, item, device));
    }
  }

  /** Run in order, the three workers reproduce `crush_choose_firstn` for three replicas exactly
      when the sequential call places all three; otherwise the sequential result is shorter. */
  lemma WorkersRefineSequential(j: Job)
    requires Ready(j) && j.env.stable && j.parentR == 0 && j.itype == 0
    ensures var end := ChooseFirstn(j, 3, 3, Picks([], []));
            end.out == WorkersInOrder(j, 3) <==> |end.out| == 3
  {
    hide Replicas, WorkerItem;
    SequentialMatchesWorkers(j, 0, 3, Picks([], []));
  }

  // ---------------------------------------------------------------- when a worker gives up

  /** With no items in the start bucket, a search gives up on the item it came with. */
  lemma {:induction false} EmptyRootGivesUp(j: Job, slot: Slot, s: State)
    requires Valid(j, s) && s.at == j.root && j.env.m.buckets[j.root].items == []
    ensures Search(j, slot, s) == GaveUp(s.item)
    decreases Clamp(j.tries - s.ftotal), Clamp(RetryBound(j.env) - s.flocal)
  {
    hide RetryBound, StaysLocal, WellFormed;
    match Next(j, slot, s)
    case Stop(_) =>
    case Loop(t) => EmptyRootGivesUp(j, slot, t);
  }

  /** A device selection that gives up ends on an item that no placement may contain: one that is
      chosen already, or one that is not a usable device. */
  lemma {:induction false} GivenUpItem(j: Job, slot: Slot, s: State)
    requires Valid(j, s) && j.itype == 0 && j.env.m.buckets[j.root].items != []
    requires j.env.m.buckets[s.at].items == [] ==> s.item < 0
    ensures var o := Search(j, slot, s);
            o.GaveUp? ==> o.item in slot.chosen || !Usable(j.env, o.item)
    decreases Clamp(j.tries - s.ftotal), Clamp(RetryBound(j.env) - s.flocal), Rank(j.env.m)[s.at]
  {
    hide RetryBound, Next, Usable;
    PassOnDevices(j, slot, s);
    match Next(j, slot, s)
    case Stop(_) =>
    case Loop(t) => GivenUpItem(j, slot, t);
  }

  lemma PassOnDevices(j: Job, slot: Slot, s: State)
    requires Valid(j, s) && j.itype == 0 && j.env.m.buckets[j.root].items != []
    requires j.env.m.buckets[s.at].items == [] ==> s.item < 0
    ensures match Next(j, slot, s)
            case Stop(o) => o.GaveUp? ==> o.item in slot.chosen || !Usable(j.env, o.item)
            case Loop(t) => j.env.m.buckets[t.at].items == [] ==> t.item < 0
  {
    hide RetryBound, StaysLocal, Pick, IsOut, Search, WellFormed;
    if j.env.m.buckets[s.at].items != [] {
      TypeZero(j.env.m, Pick(j.env, s.at, Factor(j, slot, s), |slot.chosen|));
    }
  }

  /** Worker k has placed its replica if and only if the item it commits is a usable device that the
      earlier slots do not hold. */
  lemma WorkerPlacesExactly(j: Job, k: nat, filled: seq<int>)
    requires Ready(j) && j.itype == 0 && j.env.m.buckets[j.root].items != []
    ensures var w := WorkerJob(j, k);
            Search(w, WorkerSlot(j, k, filled), Begin(w)).Placed?
            <==> WorkerItem(j, k, filled) !in filled && Usable(j.env, WorkerItem(j, k, filled))
  {
    hide Search, IsOut, Below, Drawn, WellFormed;
    var w := WorkerJob(j, k);
    var slot := WorkerSlot(j, k, filled);
    GivenUpItem(w, slot, Begin(w));
    SearchSafe(w, slot, Begin(w));
    if Search(w, slot, Begin(w)).Placed? {
      TypeZero(w.env.m, WorkerItem(j, k, filled));
    }
  }

  /** The array of the first k workers is a placement: distinct usable devices. */
  ghost predicate ValidPlacement(j: Job, out: seq<int>)
    requires Ready(j)
  {
    Distinct(out) && forall i | 0 <= i < |out| :: Usable(j.env, out[i])
  }

  lemma ValidStep(j: Job, filled: seq<int>, item: int)
    requires Ready(j) && ValidPlacement(j, filled)
    ensures ValidPlacement(j, filled + [item]) <==> item !in filled && Usable(j.env, item)
  {
    hide WellFormed, Usable;
    var all := filled + [item];
    assert all[|filled|] == item;
    if item !in filled {
      assert forall i | 0 <= i < |filled| :: filled[i] in filled;
    } else {
      var i :| 0 <= i < |filled| && filled[i] == item;
      assert all[i] == item;
    }
  }

  /** What makes the array of the first k workers a bad placement stays in the array. */
  lemma {:induction false} BadStaysBad(j: Job, k: nat, n: nat)
    requires Ready(j) && k <= n && !ValidPlacement(j, WorkersInOrder(j, k))
    ensures !ValidPlacement(j, WorkersInOrder(j, n))
    decreases n - k
  {
    hide WorkerItem, Usable, WellFormed;
    if k < n {
      var filled := WorkersInOrder(j, k);
      var more := WorkersInOrder(j, k + 1);
      assert forall i | 0 <= i < k :: more[i] == filled[i];
      BadStaysBad(j, k + 1, n);
    }
  }

  /** From the first k workers on: the array becomes a placement if and only if the sequential loop
      places every remaining replica. */
  lemma {:induction false} PlacementMatchesSequential(j: Job, k: nat, n: nat, got: Picks)
    requires Ready(j) && j.env.stable && j.parentR == 0 && j.itype == 0
    requires j.env.m.buckets[j.root].items != []
    requires k <= n && got == Picks(WorkersInOrder(j, k), if j.leaf then WorkersInOrder(j, k) else [])
    requires ValidPlacement(j, WorkersInOrder(j, k))
    ensures ValidPlacement(j, WorkersInOrder(j, n)) <==> |Replicas(j, k, n, n - k, got).out| == n
    decreases n - k
  {
    hide Search, WorkerItem, Usable, Below, Drawn, WellFormed, ValidPlacement;
    if k < n {
      var filled := WorkersInOrder(j, k);
      ValidStep(j, filled, WorkerItem(j, k, filled));
      PlacedTogether(j, k, filled);
      SearchSafe(j, SlotAt(k, got), Begin(j));
      match Search(j, SlotAt(k, got), Begin(j))
      case GaveUp(_) =>
        BadStaysBad(j, k + 1, n);
        ReplicasSafe(j, k + 1, n, n - k, got);
      case Placed(item, device) =>
        TypeZero(j.env.m, item);
        PlacementMatchesSequential(j, k + 1, n, Commit(j, got, item, device));
    }
  }

  lemma PlacedTogether(j: Job, k: nat, filled: seq<int>)
    requires Ready(j) && j.env.stable && j.parentR == 0 && j.itype == 0
    requires j.env.m.buckets[j.root].items != []
    ensures var o := Search(j, Slot(k, filled, if j.leaf then filled else []), Begin(j));
            && o.item == WorkerItem(j, k, filled)
            && (o.Placed? <==> o.item !in filled && Usable(j.env, o.item))
  {
    hide Search, Usable, WellFormed;
    OnlyTheSumMatters(j, k, Slot(k, filled, if j.leaf then filled else []), 0, Begin(j));
    WorkerPlacesExactly(j, k, filled);
  }

  /** Three workers in order leave a placement of three distinct usable devices if and only if the
      sequential call places all three replicas, and then the arrays are equal.  When a worker gives
      up, the item it commits all the same spoils the array. */
  lemma WorkersPlaceExactly(j: Job)
    requires Ready(j) && j.env.stable && j.parentR == 0 && j.itype == 0
    ensures var end := ChooseFirstn(j, 3, 3, Picks([], []));
            && (ValidPlacement(j, WorkersInOrder(j, 3)) <==> |end.out| == 3)
            && (ValidPlacement(j, WorkersInOrder(j, 3)) ==> end.out == WorkersInOrder(j, 3))
  {
    hide Replicas, WorkerItem, Usable, WellFormed;
    WorkersRefineSequential(j);
    if j.env.m.buckets[j.root].items != [] {
      PlacementMatchesSequential(j, 0, 3, Picks([], []));
    } else {
      EmptyRootPlacesNothing(j, 0, Picks([], []));
      EmptyRootArray(j);
    }
  }

  lemma {:induction false} EmptyRootPlacesNothing(j: Job, rep: int, got: Picks)
    requires Ready(j) && j.env.m.buckets[j.root].items == []
    ensures Replicas(j, rep, 3, 3, got) == got
    decreases 3 - rep
  {
    hide Search, WellFormed;
    if rep < 3 {
      EmptyRootGivesUp(j, SlotAt(rep, got), Begin(j));
      EmptyRootPlacesNothing(j, rep + 1, got);
    }
  }

  lemma EmptyRootArray(j: Job)
    requires Ready(j) && j.env.m.buckets[j.root].items == []
    ensures !Distinct(WorkersInOrder(j, 3))
  {
    hide Search, WellFormed;
    var one, two := WorkersInOrder(j, 1), WorkersInOrder(j, 2);
    EmptyRootGivesUp(WorkerJob(j, 0), WorkerSlot(j, 0, []), Begin(WorkerJob(j, 0)));
    EmptyRootGivesUp(WorkerJob(j, 1), WorkerSlot(j, 1, one), Begin(WorkerJob(j, 1)));
    assert WorkersInOrder(j, 3)[0] == two[0] == one[0] == 0 && WorkersInOrder(j, 3)[1] == two[1] == 0;
  }
}
