/** When `crush_choose_firstn` gives up on a replica: never before its tries are used up, provided
    no path of the hierarchy misses the requested type. */
module FirstnGiveUp {
  import opened CrushHash
  import opened CrushMap
  import opened Firstn
  import opened FirstnSafety

  /** The three branches of `is_out` amount to one threshold: the low 16 bits of the hash against
      the reweight. */
  lemma OutIsThreshold(env: Env, item: nat)
    requires env.weightMax <= |env.weight|
    ensures IsOut(env, item)
            <==> item >= env.weightMax || Hash32_2(RJENKINS1, env.x, item) % 0x1_0000 >= env.weight[item]
  {
    hide Hash32_2;
  }

  /** Every descent from bucket `at` meets type t: no bucket on the way is empty, no device of
      another type is hit, and ids stay below max_devices. */
  ghost predicate Meets(m: Map, t: int, at: nat)
    requires WellFormed(m) && at < |m.buckets|
    decreases Rank(m)[at]
  {
    && m.buckets[at].items != []
    && forall item <- m.buckets[at].items :: item < m.maxDevices && MeetsItem(m, t, at, item)
  }

  ghost predicate MeetsItem(m: Map, t: int, at: nat, item: int)
    requires WellFormed(m) && at < |m.buckets| && item in m.buckets[at].items
    decreases Rank(m)[at], 0
  {
    ChildLower(m, at, item);
    TypeOf(m, item) == t || (item < 0 && Meets(m, t, -1 - item))
  }

  /** Candidates of the wanted type that collided or were rejected, from state s on. */
  function Failures(j: Job, slot: Slot, s: State): nat
    requires Valid(j, s)
    decreases Clamp(j.tries - s.ftotal), Clamp(RetryBound(j.env) - s.flocal), Rank(j.env.m)[s.at]
  {
    match Next(j, slot, s)
    case Stop(Placed(_, _)) => 0
    case Stop(GaveUp(_)) => 1
    case Loop(t) => Failures(j, slot, t) + if t.ftotal > s.ftotal then 1 else 0
  }

  /** One pass either succeeds, moves to a lower bucket that still meets the type, or fails a
      candidate; it gives up only with the last try. */
  lemma PassMeets(j: Job, slot: Slot, s: State)
    requires Valid(j, s) && Meets(j.env.m, j.itype, j.root) && Meets(j.env.m, j.itype, s.at)
    ensures match Next(j, slot, s)
            case Stop(Placed(_, _)) => true
            case Stop(GaveUp(_)) => s.ftotal + 1 >= j.tries
            case Loop(t) => Meets(j.env.m, j.itype, t.at) && t.ftotal <= s.ftotal + 1
  {
    hide Judge, Pick, RetryBound, StaysLocal, WellFormed;
    var item := Pick(j.env, s.at, Factor(j, slot, s), |slot.chosen|);
    ChildLower(j.env.m, s.at, item);
    assert MeetsItem(j.env.m, j.itype, s.at, item);
  }

  /** A replica is given up only after `tries` failed candidates, and at least one. */
  lemma {:induction false} GiveUpUsesAllTries(j: Job, slot: Slot, s: State)
    requires Valid(j, s) && Meets(j.env.m, j.itype, j.root) && Meets(j.env.m, j.itype, s.at)
    ensures Search(j, slot, s).GaveUp? ==> Failures(j, slot, s) >= 1 && s.ftotal + Failures(j, slot, s) >= j.tries
    decreases Clamp(j.tries - s.ftotal), Clamp(RetryBound(j.env) - s.flocal), Rank(j.env.m)[s.at]
  {
    hide Next, RetryBound, Meets;
    PassMeets(j, slot, s);
    match Next(j, slot, s)
    case Stop(_) =>
    case Loop(t) => GiveUpUsesAllTries(j, slot, t);
  }

  /** No device of the map is out, and below every bucket of the requested type all paths end at
      a device. */
  ghost predicate AllIn(j: Job)
    requires Ready(j)
  {
    && (forall d: nat | d < j.env.m.maxDevices :: !IsOut(j.env, d))
    && (j.leaf ==>
          forall b | 0 <= b < |j.env.m.buckets| && j.env.m.buckets[b].btype == j.itype :: Meets(j.env.m, 0, b))
  }

  /** With nothing chosen yet and no device out, the very first candidate is accepted. */
  lemma {:induction false} FirstReplicaIsPlaced(j: Job, slot: Slot, s: State)
    requires Valid(j, s) && Meets(j.env.m, j.itype, s.at) && AllIn(j)
    requires slot.chosen == [] && slot.leaves == []
    ensures Search(j, slot, s).Placed? && Failures(j, slot, s) == 0
    decreases Level(j), Rank(j.env.m)[s.at], 1
  {
    hide IsOut, Pick, RetryBound, StaysLocal, WellFormed, AllIn;
    var r := Factor(j, slot, s);
    var item := Pick(j.env, s.at, r, 0);
    ChildLower(j.env.m, s.at, item);
    assert MeetsItem(j.env.m, j.itype, s.at, item);
    if TypeOf(j.env.m, item) == j.itype {
      FirstCandidateAccepted(j, slot, s, r, item);
    } else {
      FirstReplicaIsPlaced(j, slot, State(-1 - item, item, s.ftotal, s.flocal));
    }
  }

  lemma FirstCandidateAccepted(j: Job, slot: Slot, s: State, r: int, item: int)
    requires Valid(j, s) && item in j.env.m.buckets[s.at].items && (item < 0 ==> IsBucket(j.env.m, item))
    requires item < j.env.m.maxDevices && TypeOf(j.env.m, item) == j.itype && AllIn(j)
    requires slot.chosen == [] && slot.leaves == []
    ensures Judge(j, slot, r, item).Accept?
    decreases Level(j), Rank(j.env.m)[s.at], 0
  {
    hide IsOut, Search, WellFormed;
    if j.leaf && item < 0 {
      ChildLower(j.env.m, s.at, item);
      var k := LeafJob(j, item, r);
      FirstReplicaIsPlaced(k, LeafSlot(j, slot), Begin(k));
    }
  }
}
