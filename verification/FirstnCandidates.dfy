/** The replica search candidate by candidate: candidate number n of a replica is what a descent
    with the replica factor rep + parent_r + n ends on.  The search by single passes is proved equal
    to a reference that only knows candidates, and for a selector without local retries the outcome
    is given in closed form. */
module FirstnCandidates {
  import opened CrushHash
  import opened PseudoRandom
  import opened CrushMap
  import opened Firstn
  import opened FirstnSafety
  import opened FirstnGiveUp
  import opened FirstnDraws
  import opened Descent

  // ---------------------------------------------------------------- the reference

  /** Where a descent ends: the last bucket, and the item drawn from it; from an empty bucket nothing
      is drawn, and `item` is the one drawn before. */
  datatype Landing = Landing(at: nat, item: int, drawn: bool)

  function Land(env: Env, at: nat, item: int, t: int, r: int, position: nat): (l: Landing)
    requires Sound(env) && at < |env.m.buckets|
    ensures l.at < |env.m.buckets| && (l.drawn ==> l.item in env.m.buckets[l.at].items)
    ensures l.drawn && l.item < 0 ==> IsBucket(env.m, l.item)
    decreases Rank(env.m)[at]
  {
    if env.m.buckets[at].items == [] then Landing(at, item, false)
    else
      var next := Pick(env, at, r, position);
      if Final(env.m, t, next) then Landing(at, next, true)
      else
        ChildLower(env.m, at, next);
        Land(env, -1 - next, next, t, r, position)
  }

  /** The shifted replica factor of a leaf selection. */
  lemma ShiftIsFloor(env: Env, r: int)
    ensures env.varyR == 0 ==> SubR(env, r) == 0
    ensures env.varyR > 0 ==>
              SubR(env, r) * Pow2(env.varyR - 1) <= r < (SubR(env, r) + 1) * Pow2(env.varyR - 1)
  {
    if env.varyR > 0 {
      FloorDivision(r, Pow2(env.varyR - 1));
    }
  }

  lemma FloorDivision(r: int, p: int)
    requires p >= 1
    ensures (r / p) * p <= r < (r / p + 1) * p
  {
  }

  /** The device that goes with a candidate of the wanted type that does not collide, if any: for a
      bucket under leaf selection one that a search below the bucket finds, and otherwise the
      candidate itself unless it is an overloaded device. */
  function DeviceFor(j: Job, slot: Slot, item: int, r: int): Option<int>
    requires Ready(j) && (item < 0 ==> IsBucket(j.env.m, item))
    decreases Level(j), 0, 0, 0
  {
    if j.leaf && item < 0 then
      var shifted := if j.env.varyR > 0 then r / Pow2(j.env.varyR - 1) else 0;
      var k := Job(j.env, -1 - item, 0, j.recurseTries, 0, false, shifted);
      match Attempt(k, Slot(if j.env.stable then 0 else |slot.leaves|, slot.leaves, []), -1 - item, 0, 0, 0)
      case Placed(device, _) => Some(device)
      case GaveUp(_) => None
    else if item < 0 then Some(item)
    else if item >= j.env.weightMax then None
    else if Hash32_2(RJENKINS1, j.env.x, item) % 0x1_0000 >= j.env.weight[item] then None
    else Some(item)
  }

  /** Candidate n and all later ones; the descent starts at bucket `at`, after `flocal` failures since
      the last restart. */
  function Attempt(j: Job, slot: Slot, at: nat, item: int, n: nat, flocal: nat): Outcome
    requires Ready(j) && at < |j.env.m.buckets|
    decreases Level(j), Clamp(j.tries - n), Clamp(RetryBound(j.env) - flocal), 1
  {
    hide Pick, Land, IsOut;
    var r := slot.rep + j.parentR + n;
    var l := Land(j.env, at, item, j.itype, r, |slot.chosen|);
    if l.drawn && (l.item >= j.env.m.maxDevices || TypeOf(j.env.m, l.item) != j.itype) then GaveUp(l.item)
    else
      var collide := l.drawn && l.item in slot.chosen;
      var device := if l.drawn && !collide then DeviceFor(j, slot, l.item, r) else None;
      if device.Some? then Placed(l.item, device.value)
      else
        assert j.env.m.buckets[l.at] in j.env.m.buckets;
        if || (collide && flocal + 1 <= j.env.localRetries)
           || (j.env.fallback > 0 && flocal + 1 <= |j.env.m.buckets[l.at].items| + j.env.fallback)
        then Attempt(j, slot, l.at, l.item, n + 1, flocal + 1)
        else if n + 1 < j.tries then Attempt(j, slot, j.root, l.item, n + 1, 0)
        else GaveUp(l.item)
  }

  // ---------------------------------------------------------------- the search against it

  /** The verdict on a candidate, in terms of its device. */
  lemma JudgeIsDevice(j: Job, slot: Slot, item: int, r: int)
    requires Ready(j) && (item < 0 ==> IsBucket(j.env.m, item))
    ensures Judge(j, slot, r, item)
         == if item in slot.chosen then Collide
            else match DeviceFor(j, slot, item, r) case Some(device) => Accept(device) case None => Reject
    decreases Level(j), 0, 0, 0, 0
  {
    hide Search, Attempt, Hash32_2, WellFormed;
    if item !in slot.chosen && j.leaf && item < 0 {
      var k := LeafJob(j, item, r);
      SearchIsAttempt(k, LeafSlot(j, slot), Begin(k));
    }
  }

  lemma LandStep(env: Env, at: nat, item: int, t: int, r: int, position: nat)
    requires Sound(env) && at < |env.m.buckets|
    ensures Land(env, at, item, t, r, position)
         == if env.m.buckets[at].items == [] then Landing(at, item, false)
            else
              var next := Pick(env, at, r, position);
              if Final(env.m, t, next) then Landing(at, next, true) else Land(env, -1 - next, next, t, r, position)
  {
    hide Pick;
  }

  /** A descending pass stays within one candidate. */
  lemma AttemptDescends(j: Job, slot: Slot, at: nat, item: int, n: nat, flocal: nat, next: int)
    requires Ready(j) && at < |j.env.m.buckets| && IsBucket(j.env.m, next)
    requires var r := slot.rep + j.parentR + n;
             (Land(j.env, at, item, j.itype, r, |slot.chosen|)
              == Land(j.env, -1 - next, next, j.itype, r, |slot.chosen|))
    ensures Attempt(j, slot, at, item, n, flocal) == Attempt(j, slot, -1 - next, next, n, flocal)
  {
    hide Land, DeviceFor, WellFormed, RetryBound;
  }

  /** What a pass makes of the end of a descent. */
  lemma PassAtLanding(j: Job, slot: Slot, s: State)
    requires Valid(j, s)
    requires j.env.m.buckets[s.at].items != [] ==>
               Final(j.env.m, j.itype, Pick(j.env, s.at, slot.rep + j.parentR + s.ftotal, |slot.chosen|))
    ensures var l := Land(j.env, s.at, s.item, j.itype, slot.rep + j.parentR + s.ftotal, |slot.chosen|);
            var r := slot.rep + j.parentR + s.ftotal;
            && l.at == s.at && l.drawn == (j.env.m.buckets[s.at].items != [])
            && Next(j, slot, s)
               == if l.drawn && (l.item >= j.env.m.maxDevices || TypeOf(j.env.m, l.item) != j.itype) then
                    Stop(GaveUp(l.item))
                  else if l.drawn && l.item !in slot.chosen && DeviceFor(j, slot, l.item, r).Some? then
                    Stop(Placed(l.item, DeviceFor(j, slot, l.item, r).value))
                  else Retry(j, s, l.item, l.drawn && l.item in slot.chosen)
    decreases Level(j), 0, 0, 0, 1
  {
    hide Judge, Pick, DeviceFor, Retry, WellFormed;
    LandStep(j.env, s.at, s.item, j.itype, slot.rep + j.parentR + s.ftotal, |slot.chosen|);
    if j.env.m.buckets[s.at].items != [] {
      JudgeIsDevice(j, slot, Pick(j.env, s.at, slot.rep + j.parentR + s.ftotal, |slot.chosen|),
                    slot.rep + j.parentR + s.ftotal);
    }
  }

  /** The outcome after one pass. */
  function After(j: Job, slot: Slot, step: Firstn.Step): Outcome
    requires Ready(j) && (step.Loop? ==> Valid(j, step.state))
  {
    match step
    case Stop(o) => o
    case Loop(t) => Attempt(j, slot, t.at, t.item, t.ftotal, t.flocal)
  }

  /** The reference at a bucket in which the descent ends. */
  lemma AttemptAtLanding(j: Job, slot: Slot, s: State)
    requires Valid(j, s)
    requires Land(j.env, s.at, s.item, j.itype, slot.rep + j.parentR + s.ftotal, |slot.chosen|).at == s.at
    ensures var r := slot.rep + j.parentR + s.ftotal;
            var l := Land(j.env, s.at, s.item, j.itype, r, |slot.chosen|);
            (Attempt(j, slot, s.at, s.item, s.ftotal, s.flocal)
             == if l.drawn && (l.item >= j.env.m.maxDevices || TypeOf(j.env.m, l.item) != j.itype) then GaveUp(l.item)
                else if l.drawn && l.item !in slot.chosen && DeviceFor(j, slot, l.item, r).Some? then
                  Placed(l.item, DeviceFor(j, slot, l.item, r).value)
                else After(j, slot, Retry(j, s, l.item, l.drawn && l.item in slot.chosen)))
  {
    hide Land, DeviceFor, WellFormed, RetryBound;
  }

  /** The search by passes is the reference by candidates, for all tunables: candidate n has the
      replica factor rep + parent_r + n. */
  lemma {:induction false} SearchIsAttempt(j: Job, slot: Slot, s: State)
    requires Valid(j, s)
    ensures Search(j, slot, s) == Attempt(j, slot, s.at, s.item, s.ftotal, s.flocal)
    decreases Level(j), Clamp(j.tries - s.ftotal), Clamp(RetryBound(j.env) - s.flocal), Rank(j.env.m)[s.at], 2
  {
    hide Pick, DeviceFor, WellFormed, Land, RetryBound, Attempt, Next, Retry;
    var r := slot.rep + j.parentR + s.ftotal;
    LandStep(j.env, s.at, s.item, j.itype, r, |slot.chosen|);
    if j.env.m.buckets[s.at].items != [] && !Final(j.env.m, j.itype, Pick(j.env, s.at, r, |slot.chosen|)) {
      var next := Pick(j.env, s.at, r, |slot.chosen|);
      TrailIsTheInnerLoop(j, slot, s);
      SearchIsAttempt(j, slot, State(-1 - next, next, s.ftotal, s.flocal));
      AttemptDescends(j, slot, s.at, s.item, s.ftotal, s.flocal, next);
    } else {
      PassAtLanding(j, slot, s);
      AttemptAtLanding(j, slot, s);
      match Next(j, slot, s)
      case Stop(_) =>
      case Loop(t) => SearchIsAttempt(j, slot, t);
    }
  }

  // ---------------------------------------------------------------- the outcome in closed form

  function Last(trail: seq<int>): int
    requires trail != []
  {
    trail[|trail| - 1]
  }

  /** Where all paths meet the type, a descent ends on an item of that type. */
  lemma {:induction false} DescentEnds(env: Env, at: nat, item: int, t: int, r: int, position: nat)
    requires Sound(env) && at < |env.m.buckets| && Meets(env.m, t, at)
    ensures var trail, l := Trail(env, at, t, r, position), Land(env, at, item, t, r, position);
            && trail != [] && l.drawn && l.item == Last(trail)
            && Last(trail) < env.m.maxDevices && (Last(trail) < 0 ==> IsBucket(env.m, Last(trail)))
            && TypeOf(env.m, Last(trail)) == t
    decreases Rank(env.m)[at]
  {
    hide Pick, WellFormed;
    var next := Pick(env, at, r, position);
    ChildLower(env.m, at, next);
    assert MeetsItem(env.m, t, at, next);
    if !Final(env.m, t, next) {
      DescentEnds(env, -1 - next, next, t, r, position);
    }
  }

  /** The last item that a descent draws. */
  function EndOf(env: Env, at: nat, t: int, r: int, position: nat): (item: int)
    requires Sound(env) && at < |env.m.buckets| && Meets(env.m, t, at)
    ensures item < 0 ==> IsBucket(env.m, item)
  {
    hide Trail, Meets, Sound, Land;
    DescentEnds(env, at, 0, t, r, position);
    Last(Trail(env, at, t, r, position))
  }

  /** Candidate k of a replica: the last item that a descent from the start bucket draws with the
      factor rep + parent_r + k. */
  function Candidate(j: Job, slot: Slot, k: nat): (item: int)
    requires Ready(j) && Meets(j.env.m, j.itype, j.root)
    ensures item < 0 ==> IsBucket(j.env.m, item)
  {
    EndOf(j.env, j.root, j.itype, slot.rep + j.parentR + k, |slot.chosen|)
  }

  predicate Acceptable(j: Job, slot: Slot, k: nat)
    requires Ready(j) && Meets(j.env.m, j.itype, j.root)
  {
    && Candidate(j, slot, k) !in slot.chosen
    && DeviceFor(j, slot, Candidate(j, slot, k), slot.rep + j.parentR + k).Some?
  }

  /** Candidate k is acceptable and none from n on before it is. */
  predicate FirstAcceptable(j: Job, slot: Slot, n: nat, k: nat)
    requires Ready(j) && Meets(j.env.m, j.itype, j.root)
  {
    n <= k && Acceptable(j, slot, k) && forall i | n <= i < k :: !Acceptable(j, slot, i)
  }

  /** The outcome is candidate k with its device. */
  predicate Chosen(j: Job, slot: Slot, k: nat, o: Outcome)
    requires Ready(j) && Meets(j.env.m, j.itype, j.root)
  {
    && o.Placed? && o.item == Candidate(j, slot, k)
    && DeviceFor(j, slot, o.item, slot.rep + j.parentR + k) == Some(o.device)
  }

  lemma NextCandidate(j: Job, slot: Slot, item: int, n: nat)
    requires Ready(j) && Meets(j.env.m, j.itype, j.root) && j.env.localRetries == 0 && j.env.fallback == 0
    ensures var o := Attempt(j, slot, j.root, item, n, 0);
            && (Acceptable(j, slot, n) ==> Chosen(j, slot, n, o))
            && (!Acceptable(j, slot, n) && n + 1 < j.tries ==>
                  o == Attempt(j, slot, j.root, Candidate(j, slot, n), n + 1, 0))
            && (!Acceptable(j, slot, n) && n + 1 >= j.tries ==> o.GaveUp?)
  {
    hide Land, Trail, DeviceFor, WellFormed, RetryBound, Meets;
    DescentEnds(j.env, j.root, item, j.itype, slot.rep + j.parentR + n, |slot.chosen|);
  }

  lemma {:induction false} TriesInOrder(j: Job, slot: Slot, item: int, n: nat) returns (k: nat)
    requires Ready(j) && Meets(j.env.m, j.itype, j.root) && j.env.localRetries == 0 && j.env.fallback == 0
    ensures var o, end := Attempt(j, slot, j.root, item, n, 0), if n + 1 > j.tries then n + 1 else j.tries;
            && n <= k <= end && (k < end <==> o.Placed?)
            && (forall i | n <= i < k :: !Acceptable(j, slot, i))
            && (o.Placed? ==> FirstAcceptable(j, slot, n, k) && Chosen(j, slot, k, o))
    decreases Clamp(j.tries - n)
  {
    hide Attempt, Acceptable, Chosen, Candidate, Meets, WellFormed;
    NextCandidate(j, slot, item, n);
    if Acceptable(j, slot, n) {
      ChosenIsPlaced(j, slot, n, Attempt(j, slot, j.root, item, n, 0));
      k := n;
    } else if n + 1 < j.tries {
      k := TriesInOrder(j, slot, Candidate(j, slot, n), n + 1);
    } else {
      k := n + 1;
    }
  }

  lemma ChosenIsPlaced(j: Job, slot: Slot, k: nat, o: Outcome)
    requires Ready(j) && Meets(j.env.m, j.itype, j.root) && Chosen(j, slot, k, o)
    ensures o.Placed?
  {
  }

  /** Without local retries a replica is the first acceptable one among max(1, tries) candidates at
      consecutive replica factors; it is given up if and only if none of them is acceptable. */
  lemma FirstAcceptableIsPlaced(j: Job, slot: Slot)
    requires Ready(j) && Meets(j.env.m, j.itype, j.root) && j.env.localRetries == 0 && j.env.fallback == 0
    ensures var o := Search(j, slot, Begin(j));
            && (o.GaveUp? <==> forall k | 0 <= k < AtLeastOne(j.tries) :: !Acceptable(j, slot, k))
            && (forall k | 0 <= k < AtLeastOne(j.tries) && FirstAcceptable(j, slot, 0, k) :: Chosen(j, slot, k, o))
  {
    hide Search, Attempt, Acceptable, Chosen, Candidate, Meets, WellFormed;
    SearchIsAttempt(j, slot, Begin(j));
    var first := TriesInOrder(j, slot, 0, 0);
    forall k | 0 <= k < AtLeastOne(j.tries) && FirstAcceptable(j, slot, 0, k)
      ensures Chosen(j, slot, k, Search(j, slot, Begin(j)))
    {
      assert k == first;
    }
  }

  /** A candidate for a device replica is acceptable if and only if it is a usable device that is not
      chosen yet. */
  lemma AcceptableDevice(j: Job, slot: Slot, k: nat)
    requires Ready(j) && Meets(j.env.m, j.itype, j.root) && j.itype == 0
    ensures Acceptable(j, slot, k)
            <==> Candidate(j, slot, k) !in slot.chosen && Usable(j.env, Candidate(j, slot, k))
    ensures Acceptable(j, slot, k) ==>
              DeviceFor(j, slot, Candidate(j, slot, k), slot.rep + j.parentR + k) == Some(Candidate(j, slot, k))
  {
    hide Trail, Attempt, Meets, WellFormed, Hash32_2, Land, IsOut;
    DescentEnds(j.env, j.root, 0, 0, slot.rep + j.parentR + k, |slot.chosen|);
    var c := Candidate(j, slot, k);
    hide Candidate;
    TypeZero(j.env.m, c);
    OutIsThreshold(j.env, c);
  }

  /** Leaf number i below bucket `item`: the last item drawn by a descent from it with the factor
      that the leaf selection starts with, plus i. */
  function LeafCandidate(j: Job, slot: Slot, item: int, r: int, i: nat): int
    requires Ready(j) && IsBucket(j.env.m, item) && Meets(j.env.m, 0, -1 - item)
  {
    var shifted := if j.env.varyR > 0 then r / Pow2(j.env.varyR - 1) else 0;
    var start := if j.env.stable then 0 else |slot.leaves|;
    EndOf(j.env, -1 - item, 0, start + shifted + i, |slot.leaves|)
  }

  ghost predicate GoodLeaf(j: Job, slot: Slot, item: int, r: int, i: nat)
    requires Ready(j) && IsBucket(j.env.m, item) && Meets(j.env.m, 0, -1 - item)
  {
    var d := LeafCandidate(j, slot, item, r, i);
    d !in slot.leaves && Usable(j.env, d)
  }

  /** The leaf of a bucket is the first usable device not used yet among max(1, recurse_tries)
      candidates at consecutive factors; there is none if and only if all of them fail. */
  lemma LeafIsFirstGood(j: Job, slot: Slot, item: int, r: int)
    requires Ready(j) && j.leaf && IsBucket(j.env.m, item) && Meets(j.env.m, 0, -1 - item)
    requires j.env.localRetries == 0 && j.env.fallback == 0
    ensures var d := DeviceFor(j, slot, item, r);
            && (d == None <==> forall i | 0 <= i < AtLeastOne(j.recurseTries) :: !GoodLeaf(j, slot, item, r, i))
            && (forall i | 0 <= i < AtLeastOne(j.recurseTries) && GoodLeaf(j, slot, item, r, i)
                           && (forall h | 0 <= h < i :: !GoodLeaf(j, slot, item, r, h)) ::
                  d == Some(LeafCandidate(j, slot, item, r, i)))
  {
    hide Search, Attempt, Meets, WellFormed, Trail, Usable;
    var k := LeafJob(j, item, r);
    var leafSlot := LeafSlot(j, slot);
    SearchIsAttempt(k, leafSlot, Begin(k));
    FirstAcceptableIsPlaced(k, leafSlot);
    forall i: nat
      ensures Acceptable(k, leafSlot, i) == GoodLeaf(j, slot, item, r, i)
      ensures Candidate(k, leafSlot, i) == LeafCandidate(j, slot, item, r, i)
    {
      AcceptableDevice(k, leafSlot, i);
    }
    assert DeviceFor(j, slot, item, r)
        == match Search(k, leafSlot, Begin(k)) case Placed(device, _) => Some(device) case GaveUp(_) => None;
    forall i | 0 <= i < AtLeastOne(j.recurseTries) && GoodLeaf(j, slot, item, r, i)
               && (forall h | 0 <= h < i :: !GoodLeaf(j, slot, item, r, h))
      ensures DeviceFor(j, slot, item, r) == Some(LeafCandidate(j, slot, item, r, i))
    {
      assert FirstAcceptable(k, leafSlot, 0, i);
    }
  }
}
