/** Reweight stability: how the selection reacts when the overload reweight of one device
    changes.  Two runs are compared pass by pass, through retries and leaf selections. */
module FirstnStability {
  import opened PseudoRandom
  import opened CrushMap
  import opened Straw2
  import opened Firstn
  import opened FirstnSafety

  /** The same call after the reweight of device d became v. */
  function Reweighted(j: Job, d: nat, v: Word): (k: Job)
    requires d < |j.env.weight|
    ensures k.env.m == j.env.m && |k.env.weight| == |j.env.weight|
  {
    j.(env := j.env.(weight := j.env.weight[d := v]))
  }

  /** `low` and `high` differ only in the reweight of d, which is not higher in `low`. */
  ghost predicate Lowered(high: Job, low: Job, d: nat) {
    && Ready(high) && d < |high.env.weight|
    && exists v: Word :: v <= high.env.weight[d] && low == Reweighted(high, d, v)
  }

  /** `is_out` is monotone in the reweight, and does not depend on the replica factor. */
  lemma OutMonotone(high: Job, low: Job, d: nat, item: nat)
    requires Lowered(high, low, d)
    ensures item != d ==> IsOut(low.env, item) == IsOut(high.env, item)
    ensures IsOut(high.env, item) ==> IsOut(low.env, item)
  {
    hide WellFormed;
  }

  /** The two runs part exactly at a search that places d in the high run although d is out in
      the low run. */
  predicate Parts(high: Job, low: Job, d: nat, outcome: Outcome)
    requires high.env.weightMax <= |high.env.weight| && low.env.weightMax <= |low.env.weight|
  {
    IsOut(low.env, d) && !IsOut(high.env, d) && outcome.Placed? && outcome.device == d
  }

  lemma JudgeStable(high: Job, low: Job, d: nat, slot: Slot, r: int, item: int)
    requires Lowered(high, low, d) && (item < 0 ==> IsBucket(high.env.m, item))
    ensures var v := Judge(high, slot, r, item);
            Judge(low, slot, r, item) == v || (v.Accept? && Parts(high, low, d, Placed(item, v.device)))
    decreases Level(high), 0, 0, 0, 1
  {
    hide Search, IsOut;
    if item in slot.chosen {
    } else if high.leaf && item < 0 {
      LeafStable(high, low, d, slot, r, item);
    } else if item >= 0 {
      OutMonotone(high, low, d, item);
    }
  }

  lemma LeafStable(high: Job, low: Job, d: nat, slot: Slot, r: int, item: int)
    requires Lowered(high, low, d) && IsBucket(high.env.m, item) && high.leaf
    ensures var k, l := LeafJob(high, item, r), LeafJob(low, item, r);
            var o := Search(k, LeafSlot(high, slot), Begin(k));
            || Search(l, LeafSlot(low, slot), Begin(l)) == o
            || (&& IsOut(low.env, d) && !IsOut(high.env, d) && o.Placed? && o.item == d)
    decreases Level(high), 0, 0, 0, 0
  {
    hide Search, IsOut;
    var k, l := LeafJob(high, item, r), LeafJob(low, item, r);
    var v: Word :| v <= high.env.weight[d] && low == Reweighted(high, d, v);
    assert l == Reweighted(k, d, v);
    SearchStable(k, l, d, LeafSlot(high, slot), Begin(k));
    DeviceIsItem(k, LeafSlot(high, slot), Begin(k));
  }

  lemma NextStable(high: Job, low: Job, d: nat, slot: Slot, s: State)
    requires Lowered(high, low, d) && Valid(high, s)
    ensures Valid(low, s)
    ensures var step := Next(high, slot, s);
            Next(low, slot, s) == step || (step.Stop? && Parts(high, low, d, step.outcome))
    decreases Level(high), Clamp(high.tries - s.ftotal), Clamp(RetryBound(high.env) - s.flocal), Rank(high.env.m)[s.at], 2
  {
    hide Judge, Pick, RetryBound, Parts;
    if high.env.m.buckets[s.at].items != [] {
      SamePick(high, low, d, slot, s);
      JudgeStable(high, low, d, slot, Factor(high, slot, s), Pick(high.env, s.at, Factor(high, slot, s), |slot.chosen|));
    }
  }

  lemma SamePick(high: Job, low: Job, d: nat, slot: Slot, s: State)
    requires Lowered(high, low, d) && Valid(high, s) && high.env.m.buckets[s.at].items != []
    ensures Valid(low, s)
    ensures Pick(low.env, s.at, Factor(low, slot, s), |slot.chosen|)
         == Pick(high.env, s.at, Factor(high, slot, s), |slot.chosen|)
  {
    hide BucketChoose, WellFormed;
  }

  lemma {:induction false} SearchStable(high: Job, low: Job, d: nat, slot: Slot, s: State)
    requires Lowered(high, low, d) && Valid(high, s)
    ensures Valid(low, s)
    ensures var o := Search(high, slot, s);
            Search(low, slot, s) == o || Parts(high, low, d, o)
    decreases Level(high), Clamp(high.tries - s.ftotal), Clamp(RetryBound(high.env) - s.flocal), Rank(high.env.m)[s.at], 3
  {
    hide Next, RetryBound, Parts, Lowered;
    NextStable(high, low, d, slot, s);
    match Next(high, slot, s)
    case Stop(_) =>
    case Loop(t) =>
      if Next(low, slot, s) == Loop(t) {
        SearchStable(high, low, d, slot, t);
      }
  }

  // ---------------------------------------------------------------- the whole selection

  /** Device d is among the replicas that a call added to `start`. */
  predicate Uses(j: Job, start: Picks, end: Picks, d: int)
    requires Paired(j, end)
  {
    exists i | |start.out| <= i < |end.out| :: DeviceAt(j, end, i) == d
  }

  /** The first n replicas. */
  function Cut(j: Job, got: Picks, n: nat): Picks
    requires Paired(j, got) && n <= |got.out|
  {
    Picks(got.out[..n], if j.leaf then got.out2[..n] else got.out2)
  }

  /** One replica: the runs commit the same, or the high run commits d and the low run cannot. */
  lemma ReplicaStable(high: Job, low: Job, d: nat, rep: int, got: Picks)
    requires Lowered(high, low, d)
    ensures Ready(high) && Ready(low) && low.leaf == high.leaf
    ensures var o := Search(high, SlotAt(rep, got), Begin(high));
            && (Search(low, SlotAt(rep, got), Begin(low)) == o || Parts(high, low, d, o))
            && (o.Placed? && !high.leaf ==> o.device == o.item)
  {
    hide Search, IsOut;
    SearchStable(high, low, d, SlotAt(rep, got), Begin(high));
    if !high.leaf {
      DeviceIsItem(high, SlotAt(rep, got), Begin(high));
    }
  }

  /** Without a use of d by the high run, or if d is not out in the low run, nothing changes. */
  lemma {:induction false} ReplicasStable(
    high: Job, low: Job, d: nat, rep: int, numrep: int, count: int, got: Picks)
    requires Lowered(high, low, d) && Paired(high, got)
    ensures Ready(low)
    ensures var h := Replicas(high, rep, numrep, count, got);
            && Paired(high, h)
            && (!Uses(high, got, h, d) || IsOut(low.env, d) == IsOut(high.env, d) ==>
                  Replicas(low, rep, numrep, count, got) == h)
    decreases numrep - rep
  {
    hide Search, IsOut, Picked, Lowered, WellFormed;
    ReplicaStable(high, low, d, rep, got);
    ReplicasSafe(high, rep, numrep, count, got);
    if rep < numrep && count > 0 {
      match Search(high, SlotAt(rep, got), Begin(high))
      case GaveUp(_) => ReplicasStable(high, low, d, rep + 1, numrep, count, got);
      case Placed(item, device) =>
        var next := Commit(high, got, item, device);
        ReplicasStable(high, low, d, rep + 1, numrep, count - 1, next);
        FirstAdded(high, rep, numrep, count, got, item, device);
        UsesLater(high, got, next, Replicas(high, rep, numrep, count, got), d);
    }
  }

  lemma FirstAdded(j: Job, rep: int, numrep: int, count: int, got: Picks, item: int, device: int)
    requires Ready(j) && Paired(j, got) && rep < numrep && count > 0
    requires Search(j, SlotAt(rep, got), Begin(j)) == Placed(item, device)
    requires j.leaf || device == item
    ensures var end := Replicas(j, rep, numrep, count, got);
            && Paired(j, end) && |end.out| > |got.out|
            && DeviceAt(j, end, |got.out|) == device
            && got.out <= end.out && got.out2 <= end.out2
  {
    hide Search, Picked;
    ReplicasSafe(j, rep + 1, numrep, count - 1, Commit(j, got, item, device));
  }

  /** The runs agree on every replica before the first one that uses d in the high run. */
  lemma {:induction false} PrefixStable(
    high: Job, low: Job, d: nat, rep: int, numrep: int, count: int, got: Picks, n: nat)
    requires Lowered(high, low, d) && Paired(high, got)
    ensures Ready(low)
    ensures var h := Replicas(high, rep, numrep, count, got);
            var l := Replicas(low, rep, numrep, count, got);
            && Paired(high, h) && Paired(high, l)
            && (|got.out| <= n <= |h.out| && !Uses(high, got, Cut(high, h, n), d) ==>
                  n <= |l.out| && Cut(high, l, n) == Cut(high, h, n))
    decreases numrep - rep
  {
    hide Search, IsOut, Picked, Lowered, WellFormed;
    ReplicaStable(high, low, d, rep, got);
    ReplicasSafe(high, rep, numrep, count, got);
    ReplicasSafe(low, rep, numrep, count, got);
    if rep < numrep && count > 0 {
      match Search(high, SlotAt(rep, got), Begin(high))
      case GaveUp(_) => PrefixStable(high, low, d, rep + 1, numrep, count, got, n);
      case Placed(item, device) =>
        var h := Replicas(high, rep, numrep, count, got);
        FirstAdded(high, rep, numrep, count, got, item, device);
        if |got.out| < n <= |h.out| {
          var next := Commit(high, got, item, device);
          assert DeviceAt(high, Cut(high, h, n), |got.out|) == device;
          PrefixStable(high, low, d, rep + 1, numrep, count - 1, next, n);
          UsesLater(high, got, next, Cut(high, h, n), d);
        }
    }
  }

  lemma UsesLater(j: Job, start: Picks, next: Picks, end: Picks, d: nat)
    requires Paired(j, end) && |start.out| <= |next.out|
    ensures Uses(j, next, end, d) ==> Uses(j, start, end, d)
  {
  }

  lemma UsedIsUsable(j: Job, numrep: int, outSize: int, got: Picks, d: nat)
    requires Ready(j) && Paired(j, got)
    ensures var end := ChooseFirstn(j, numrep, outSize, got);
            Paired(j, end) && (Uses(j, got, end, d) ==> !IsOut(j.env, d))
  {
    hide Replicas, IsOut, Below, Drawn, WellFormed;
    ReplicasSafe(j, if j.env.stable then 0 else |got.out|, numrep, outSize, got);
    var end := ChooseFirstn(j, numrep, outSize, got);
    if Uses(j, got, end, d) {
      var i :| |got.out| <= i < |end.out| && DeviceAt(j, end, i) == d;
      assert Picked(j, end.out[i], DeviceAt(j, end, i));
    }
  }

  /** Lowering the reweight of device d leaves the whole output identical exactly when d was not
      chosen, or is still not out for this input. */
  lemma LoweringStableExactly(j: Job, d: nat, v: Word, numrep: int, outSize: int, got: Picks)
    requires Ready(j) && Paired(j, got) && d < |j.env.weight| && v <= j.env.weight[d]
    ensures var low := Reweighted(j, d, v);
            var end := ChooseFirstn(j, numrep, outSize, got);
            && Ready(low) && Paired(j, end)
            && (ChooseFirstn(low, numrep, outSize, got) == end
                <==> !Uses(j, got, end, d) || !IsOut(low.env, d))
  {
    hide Replicas, IsOut;
    var low := Reweighted(j, d, v);
    ReplicasStable(j, low, d, if j.env.stable then 0 else |got.out|, numrep, outSize, got);
    OutMonotone(j, low, d, d);
    UsedIsUsable(j, numrep, outSize, got, d);
    UsedIsUsable(low, numrep, outSize, got, d);
    SameUses(j, low, got, ChooseFirstn(j, numrep, outSize, got), d);
  }

  lemma SameUses(j: Job, k: Job, start: Picks, end: Picks, d: int)
    requires j.leaf == k.leaf && Paired(j, end)
    ensures Uses(j, start, end, d) == Uses(k, start, end, d)
  {
    assert forall i | |start.out| <= i < |end.out| :: DeviceAt(j, end, i) == DeviceAt(k, end, i);
  }

  /** Lowering never disturbs the replicas before the first one that used d. */
  lemma LoweringKeepsEarlierReplicas(j: Job, d: nat, v: Word, numrep: int, outSize: int, got: Picks, n: nat)
    requires Ready(j) && Paired(j, got) && d < |j.env.weight| && v <= j.env.weight[d]
    ensures var low := Reweighted(j, d, v);
            var h := ChooseFirstn(j, numrep, outSize, got);
            Ready(low) && Paired(j, h) && Paired(j, ChooseFirstn(low, numrep, outSize, got))
    ensures var h := ChooseFirstn(j, numrep, outSize, got);
            var l := ChooseFirstn(Reweighted(j, d, v), numrep, outSize, got);
            |got.out| <= n <= |h.out| && !Uses(j, got, Cut(j, h, n), d) ==>
              n <= |l.out| && Cut(j, l, n) == Cut(j, h, n)
  {
    hide Replicas, IsOut;
    PrefixStable(j, Reweighted(j, d, v), d, if j.env.stable then 0 else |got.out|, numrep, outSize, got, n);
  }

  /** Raising the reweight of a device that was chosen leaves the whole output identical. */
  lemma RaisingChosenStable(j: Job, d: nat, v: Word, numrep: int, outSize: int, got: Picks)
    requires Ready(j) && Paired(j, got) && d < |j.env.weight| && v >= j.env.weight[d]
    requires Paired(j, ChooseFirstn(j, numrep, outSize, got))
    requires Uses(j, got, ChooseFirstn(j, numrep, outSize, got), d)
    ensures Ready(Reweighted(j, d, v))
    ensures ChooseFirstn(Reweighted(j, d, v), numrep, outSize, got) == ChooseFirstn(j, numrep, outSize, got)
  {
    hide Replicas, IsOut, Uses;
    var high := Reweighted(j, d, v);
    assert j == Reweighted(high, d, j.env.weight[d]) by {
      assert high.env.weight[d := j.env.weight[d]] == j.env.weight;
    }
    ReplicasStable(high, j, d, if j.env.stable then 0 else |got.out|, numrep, outSize, got);
    OutMonotone(high, j, d, d);
    UsedIsUsable(j, numrep, outSize, got, d);
  }
}
