/** Selection safety: what is true of every item `crush_choose_firstn` commits. */
module FirstnSafety {
  import opened CrushMap
  import opened Firstn

  /** A device that may receive data: below max_devices and not out. */
  ghost predicate Usable(env: Env, device: int)
    requires env.weightMax <= |env.weight|
  {
    0 <= device < env.m.maxDevices && !IsOut(env, device)
  }

  /** The guarantees behind one committed replica. */
  ghost predicate Picked(j: Job, item: int, device: int)
    requires Ready(j)
  {
    && (item < 0 ==> IsBucket(j.env.m, item))
    && TypeOf(j.env.m, item) == j.itype
    && item < j.env.m.maxDevices
    && Drawn(j.env.m, j.root, j.itype, item)
    && (item >= 0 ==> device == item && Usable(j.env, item))
    && (j.leaf && item < 0 ==> Usable(j.env, device) && Below(j.env.m, -1 - item, device))
  }

  ghost predicate PickedFresh(j: Job, slot: Slot, outcome: Outcome)
    requires Ready(j)
  {
    outcome.Placed? ==>
      && Picked(j, outcome.item, outcome.device)
      && outcome.item !in slot.chosen
      && (j.leaf && outcome.item < 0 ==> outcome.device !in slot.leaves)
  }

  lemma ChildLower(m: Map, p: nat, item: int)
    requires WellFormed(m) && p < |m.buckets| && item in m.buckets[p].items
    ensures item < 0 ==> IsBucket(m, item)
    ensures Height(m, item) < Height(m, -1 - p)
  {
    assert BucketOk(m, p);
    assert Ranked(m, Rank(m));
  }

  lemma {:induction false} EnteredBelow(m: Map, root: nat, t: int, at: nat)
    requires WellFormed(m) && root < |m.buckets| && at < |m.buckets|
    requires Entered(m, root, t, at)
    ensures at == root || Below(m, root, -1 - at)
    ensures Rank(m)[at] <= Rank(m)[root]
    decreases Rank(m)[root] + 1 - Height(m, -1 - at)
  {
    if at != root {
      var p :| 0 <= p < |m.buckets| && -1 - at in m.buckets[p].items && Rank(m)[p] <= Rank(m)[root]
               && Height(m, -1 - at) < Height(m, -1 - p) && Entered(m, root, t, p);
      EnteredBelow(m, root, t, p);
    }
  }

  /** Whatever a descent can draw lies below the bucket it started from. */
  lemma DrawnBelow(m: Map, root: nat, t: int, item: int)
    requires WellFormed(m) && root < |m.buckets| && (item < 0 ==> IsBucket(m, item))
    requires Drawn(m, root, t, item)
    ensures Below(m, root, item)
  {
    var p :| 0 <= p < |m.buckets| && item in m.buckets[p].items && Entered(m, root, t, p);
    EnteredBelow(m, root, t, p);
    ChildLower(m, p, item);
  }

  lemma TypeZero(m: Map, item: int)
    requires WellFormed(m) && (item < 0 ==> IsBucket(m, item))
    ensures TypeOf(m, item) == 0 <==> item >= 0
  {
    assert item < 0 ==> BucketOk(m, -1 - item);
  }

  /** An accepted candidate is fresh and usable; a leaf was found below it. */
  lemma JudgeSafe(j: Job, slot: Slot, s: State, r: int, item: int)
    requires Valid(j, s) && Entered(j.env.m, j.root, j.itype, s.at)
    requires item in j.env.m.buckets[s.at].items && (item < 0 ==> IsBucket(j.env.m, item))
    requires item < j.env.m.maxDevices && TypeOf(j.env.m, item) == j.itype
    ensures var v := Judge(j, slot, r, item);
            v.Accept? ==> PickedFresh(j, slot, Placed(item, v.device))
    decreases Level(j), 0, 0, 0, 0
  {
    hide Search, Next, IsOut;
    assert Drawn(j.env.m, j.root, j.itype, item);
    if item !in slot.chosen && j.leaf && item < 0 {
      var k := LeafJob(j, item, r);
      SearchSafe(k, LeafSlot(j, slot), Begin(k));
      match Search(k, LeafSlot(j, slot), Begin(k))
      case GaveUp(_) =>
      case Placed(device, _) =>
        TypeZero(k.env.m, device);
        DrawnBelow(k.env.m, k.root, 0, device);
    }
  }

  ghost predicate StepSafe(j: Job, slot: Slot, step: Step)
    requires Ready(j)
  {
    match step
    case Stop(outcome) => PickedFresh(j, slot, outcome)
    case Loop(t) => Valid(j, t) && Entered(j.env.m, j.root, j.itype, t.at)
  }

  lemma NextSafe(j: Job, slot: Slot, s: State)
    requires Valid(j, s) && Entered(j.env.m, j.root, j.itype, s.at)
    ensures StepSafe(j, slot, Next(j, slot, s))
    decreases Level(j), Clamp(j.tries - s.ftotal), Clamp(RetryBound(j.env) - s.flocal), Rank(j.env.m)[s.at], 1
  {
    hide Judge, Pick, Picked, RetryBound, StaysLocal;
    var m := j.env.m;
    if m.buckets[s.at].items != [] {
      var r := Factor(j, slot, s);
      var item := Pick(j.env, s.at, r, |slot.chosen|);
      if item < m.maxDevices {
        if TypeOf(m, item) == j.itype {
          JudgeSafe(j, slot, s, r, item);
        } else if item < 0 {
          EnteredBelow(m, j.root, j.itype, s.at);
          ChildLower(m, s.at, item);
          assert -1 - (-1 - item) == item;
          assert Entered(m, j.root, j.itype, -1 - item);
        }
      }
    }
  }

  /** Every outcome of the search is fresh, of the requested type, reachable from the start
      bucket through buckets of other types, and usable. */
  lemma {:induction false} SearchSafe(j: Job, slot: Slot, s: State)
    requires Valid(j, s) && Entered(j.env.m, j.root, j.itype, s.at)
    ensures PickedFresh(j, slot, Search(j, slot, s))
    decreases Level(j), Clamp(j.tries - s.ftotal), Clamp(RetryBound(j.env) - s.flocal), Rank(j.env.m)[s.at], 2
  {
    hide Next, PickedFresh, Entered, RetryBound;
    NextSafe(j, slot, s);
    match Next(j, slot, s)
    case Stop(outcome) =>
    case Loop(t) => SearchSafe(j, slot, t);
  }

  // ---------------------------------------------------------------- the whole selection

  /** `out2` keeps pace with `out` exactly when leaves are selected. */
  predicate Paired(j: Job, got: Picks) {
    j.leaf ==> |got.out2| == |got.out|
  }

  function DeviceAt(j: Job, got: Picks, i: nat): int
    requires Paired(j, got) && i < |got.out|
  {
    if j.leaf then got.out2[i] else got.out[i]
  }

  /** `end` continues `start`: old entries are kept, all new ones are `Picked`, no entry of
      `out` is repeated, and leaves of chosen buckets are not repeated either. */
  ghost predicate SafeExtension(j: Job, start: Picks, end: Picks)
    requires Ready(j) && Paired(j, start)
  {
    && Paired(j, end)
    && start.out <= end.out && start.out2 <= end.out2
    && (!j.leaf ==> end.out2 == start.out2)
    && (forall i | |start.out| <= i < |end.out| :: Picked(j, end.out[i], DeviceAt(j, end, i)))
    && (Distinct(start.out) ==> Distinct(end.out))
    && (j.leaf && j.itype > 0 && Distinct(start.out2) ==> Distinct(end.out2))
  }

  lemma CommitSafe(j: Job, rep: int, got: Picks, item: int, device: int)
    requires Ready(j) && Paired(j, got)
    requires PickedFresh(j, SlotAt(rep, got), Placed(item, device))
    requires device == item || j.leaf
    ensures SafeExtension(j, got, Commit(j, got, item, device))
  {
    hide IsOut, Below, Drawn;
    TypeZero(j.env.m, item);
  }

  lemma SafeTransitive(j: Job, a: Picks, b: Picks, c: Picks)
    requires Ready(j) && Paired(j, a) && Paired(j, b)
    requires SafeExtension(j, a, b) && SafeExtension(j, b, c)
    ensures SafeExtension(j, a, c)
  {
    hide Picked;
    forall i | |a.out| <= i < |c.out|
      ensures Picked(j, c.out[i], DeviceAt(j, c, i))
    {
      if i < |b.out| {
        assert Picked(j, b.out[i], DeviceAt(j, b, i));
      }
    }
  }

  lemma SafeNothing(j: Job, a: Picks)
    requires Ready(j) && Paired(j, a)
    ensures SafeExtension(j, a, a)
  {
  }

  /** Without leaf selection the reported device is the item itself. */
  lemma {:induction false} DeviceIsItem(j: Job, slot: Slot, s: State)
    requires Valid(j, s) && !j.leaf
    ensures var o := Search(j, slot, s); o.Placed? ==> o.device == o.item
    decreases Clamp(j.tries - s.ftotal), Clamp(RetryBound(j.env) - s.flocal), Rank(j.env.m)[s.at]
  {
    hide RetryBound, StaysLocal, Pick, IsOut;
    if j.env.m.buckets[s.at].items != [] {
      var item := Pick(j.env, s.at, Factor(j, slot, s), |slot.chosen|);
      var v := Judge(j, slot, Factor(j, slot, s), item);
      assert v.Accept? ==> v.device == item;
    }
    match Next(j, slot, s)
    case Stop(outcome) =>
    case Loop(t) => DeviceIsItem(j, slot, t);
  }

  lemma {:induction false} ReplicasSafe(j: Job, rep: int, numrep: int, count: int, got: Picks)
    requires Ready(j) && Paired(j, got)
    ensures var end := Replicas(j, rep, numrep, count, got);
            && SafeExtension(j, got, end)
            && |end.out| <= |got.out| + Clamp(count)
            && |end.out| <= |got.out| + Clamp(numrep - rep)
    decreases numrep - rep
  {
    hide Search, SafeExtension, PickedFresh;
    if rep >= numrep || count <= 0 {
      SafeNothing(j, got);
    } else {
      var slot := SlotAt(rep, got);
      SearchSafe(j, slot, Begin(j));
      if !j.leaf {
        DeviceIsItem(j, slot, Begin(j));
      }
      match Search(j, slot, Begin(j))
      case GaveUp(_) => ReplicasSafe(j, rep + 1, numrep, count, got);
      case Placed(item, device) =>
        var next := Commit(j, got, item, device);
        CommitSafe(j, rep, got, item, device);
        ReplicasSafe(j, rep + 1, numrep, count - 1, next);
        SafeTransitive(j, got, next, Replicas(j, rep + 1, numrep, count - 1, next));
    }
  }

  /** Selection safety of one call: earlier entries are untouched, new ones are usable, of the
      requested type and below the start bucket, nothing is chosen twice, and neither the room
      nor the number of replicas is exceeded. */
  lemma SelectionSafe(j: Job, numrep: int, outSize: int, got: Picks)
    requires Ready(j) && Paired(j, got)
    ensures var end := ChooseFirstn(j, numrep, outSize, got);
            && SafeExtension(j, got, end)
            && (forall i | |got.out| <= i < |end.out| ::
                  (end.out[i] < 0 ==> IsBucket(j.env.m, end.out[i])) && Below(j.env.m, j.root, end.out[i]))
            && |end.out| <= |got.out| + Clamp(outSize)
            && |end.out| <= |got.out| + Clamp(numrep - if j.env.stable then 0 else |got.out|)
  {
    hide Replicas, Below, Drawn, Usable, WellFormed;
    var end := ChooseFirstn(j, numrep, outSize, got);
    ReplicasSafe(j, if j.env.stable then 0 else |got.out|, numrep, outSize, got);
    forall i | |got.out| <= i < |end.out|
      ensures (end.out[i] < 0 ==> IsBucket(j.env.m, end.out[i])) && Below(j.env.m, j.root, end.out[i])
    {
      assert Picked(j, end.out[i], DeviceAt(j, end, i));
      DrawnBelow(j.env.m, j.root, j.itype, end.out[i]);
    }
  }
}
