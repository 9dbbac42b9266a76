/** How long a replica can take: the number of descents and straw2 draws before
    `crush_choose_firstn` decides, and the range of its two retry counters. */
module FirstnDraws {
  import opened CrushMap
  import opened Firstn
  import opened FirstnSafety

  // ---------------------------------------------------------------- depth of the hierarchy

  /** Buckets on the longest path that starts at bucket k. */
  function Depth(m: Map, k: nat): nat
    requires WellFormed(m) && k < |m.buckets|
    decreases Rank(m)[k], |m.buckets[k].items| + 1
  {
    1 + Deepest(m, k, |m.buckets[k].items|)
  }

  /** The greatest depth among the first n items of bucket k; a device has depth 0. */
  function Deepest(m: Map, k: nat, n: nat): nat
    requires WellFormed(m) && k < |m.buckets| && n <= |m.buckets[k].items|
    decreases Rank(m)[k], n
  {
    if n == 0 then 0
    else
      var item := m.buckets[k].items[n - 1];
      ChildLower(m, k, item);
      var a, b := Deepest(m, k, n - 1), if item < 0 then Depth(m, -1 - item) else 0;
      if a < b then b else a
  }

  lemma {:induction false} DeepestCovers(m: Map, k: nat, n: nat, i: nat)
    requires WellFormed(m) && k < |m.buckets| && i < n <= |m.buckets[k].items|
    requires m.buckets[k].items[i] < 0
    ensures IsBucket(m, m.buckets[k].items[i])
    ensures Depth(m, -1 - m.buckets[k].items[i]) <= Deepest(m, k, n)
  {
    hide WellFormed, Depth;
    ChildLower(m, k, m.buckets[k].items[i]);
    if i < n - 1 {
      DeepestCovers(m, k, n - 1, i);
    }
  }

  /** The depth falls from every bucket to each of its child buckets. */
  lemma DepthDrops(m: Map, k: nat, item: int)
    requires WellFormed(m) && k < |m.buckets| && item in m.buckets[k].items && item < 0
    ensures IsBucket(m, item) && Depth(m, -1 - item) < Depth(m, k)
  {
    hide Deepest, WellFormed;
    var i :| 0 <= i < |m.buckets[k].items| && m.buckets[k].items[i] == item;
    DeepestCovers(m, k, |m.buckets[k].items|, i);
  }

  lemma {:induction false} DeepestBelowRank(m: Map, k: nat, n: nat, rank: seq<nat>)
    requires WellFormed(m) && k < |m.buckets| && n <= |m.buckets[k].items| && Ranked(m, rank)
    ensures Deepest(m, k, n) <= rank[k]
    decreases Rank(m)[k], n
  {
    hide WellFormed, Rank;
    if n > 0 {
      DeepestBelowRank(m, k, n - 1, rank);
      var item := m.buckets[k].items[n - 1];
      ChildLower(m, k, item);
      if item < 0 {
        assert rank[-1 - item] < rank[k];
        DeepestBelowRank(m, -1 - item, |m.buckets[-1 - item].items|, rank);
      }
    }
  }

  /** The depth is the least measure of the hierarchy: less one it is a ranking, and no ranking
      of the map lies below it. */
  lemma DepthIsLeastRanking(m: Map)
    requires WellFormed(m)
    ensures Ranked(m, seq(|m.buckets|, i requires 0 <= i < |m.buckets| => Depth(m, i) - 1))
    ensures forall rank, k | Ranked(m, rank) && 0 <= k < |m.buckets| :: Depth(m, k) <= rank[k] + 1
  {
    hide WellFormed, Rank, Deepest;
    forall i, item | 0 <= i < |m.buckets| && item in m.buckets[i].items && IsBucket(m, item)
      ensures Depth(m, -1 - item) < Depth(m, i)
    {
      DepthDrops(m, i, item);
    }
    forall rank, k | Ranked(m, rank) && 0 <= k < |m.buckets|
      ensures Depth(m, k) <= rank[k] + 1
    {
      DeepestBelowRank(m, k, |m.buckets[k].items|, rank);
    }
  }

  // ---------------------------------------------------------------- counters

  function AtLeastOne(tries: nat): nat {
    if tries == 0 then 1 else tries
  }

  /** The retry counters never exceed these bounds, so for tunables with tries + F < 2^32 the
      unbounded counters of the model equal the 32-bit counters of the source. */
  predicate CountersBounded(j: Job, s: State) {
    && s.flocal <= RetryBound(j.env)
    && s.ftotal <= AtLeastOne(j.tries) - 1 + s.flocal
  }

  lemma CountersStayBounded(j: Job, slot: Slot, s: State)
    requires Valid(j, s)
    ensures CountersBounded(j, Begin(j))
    ensures var step := Next(j, slot, s);
            CountersBounded(j, s) && step.Loop? ==> CountersBounded(j, step.state)
  {
    hide Judge, Pick;
    assert j.env.m.buckets[s.at] in j.env.m.buckets;
  }

  // ---------------------------------------------------------------- kinds of passes

  /** How one pass continues. */
  datatype Move = Ends | Descends | RetriesLocally | Restarts

  function MoveOf(j: Job, slot: Slot, s: State): Move
    requires Valid(j, s)
  {
    match Next(j, slot, s)
    case Stop(_) => Ends
    case Loop(t) =>
      if t.ftotal == s.ftotal then Descends else if t.flocal == 0 then Restarts else RetriesLocally
  }

  /** The search stays at or below its start bucket, with bounded counters. */
  ghost predicate Inside(j: Job, s: State) {
    Valid(j, s) && Depth(j.env.m, s.at) <= Depth(j.env.m, j.root) && CountersBounded(j, s)
  }

  /** A descending pass enters a strictly shallower bucket, a local retry stays, and a restart
      happens only while tries are left; each failed candidate is counted once. */
  lemma PassMoves(j: Job, slot: Slot, s: State)
    requires Valid(j, s)
    ensures var step := Next(j, slot, s);
            match MoveOf(j, slot, s)
            case Ends => step.Stop?
            case Descends =>
              && step.Loop? && j.env.m.buckets[s.at].items != []
              && Depth(j.env.m, step.state.at) < Depth(j.env.m, s.at)
              && step.state.ftotal == s.ftotal && step.state.flocal == s.flocal
            case RetriesLocally =>
              && step.Loop? && step.state.at == s.at
              && step.state.ftotal == s.ftotal + 1 && step.state.flocal == s.flocal + 1
            case Restarts =>
              && step.Loop? && step.state.at == j.root && step.state.flocal == 0
              && step.state.ftotal == s.ftotal + 1 < j.tries
  {
    hide Judge, Pick, StaysLocal, RetryBound, Depth;
    if j.env.m.buckets[s.at].items != [] {
      var item := Pick(j.env, s.at, Factor(j, slot, s), |slot.chosen|);
      if item < 0 {
        DepthDrops(j.env.m, s.at, item);
      }
    }
  }

  lemma StaysInside(j: Job, slot: Slot, s: State)
    requires Inside(j, s)
    ensures Inside(j, Begin(j))
    ensures var step := Next(j, slot, s); step.Loop? ==> Inside(j, step.state)
  {
    hide Next, CountersBounded, Depth, RetryBound;
    CountersStayBounded(j, slot, s);
    PassMoves(j, slot, s);
  }

  // ---------------------------------------------------------------- one descent

  /** Draws of this search in the current descent, those of leaf selections not counted. */
  function DescentDraws(j: Job, slot: Slot, s: State): nat
    requires Valid(j, s)
    decreases Clamp(j.tries - s.ftotal), Clamp(RetryBound(j.env) - s.flocal), Rank(j.env.m)[s.at]
  {
    hide Next, RetryBound;
    (if j.env.m.buckets[s.at].items == [] then 0 else 1) +
    match Next(j, slot, s)
    case Stop(_) => 0
    case Loop(t) => if MoveOf(j, slot, s).Restarts? then 0 else DescentDraws(j, slot, t)
  }

  /** One descent makes at most depth + F draws. */
  lemma {:induction false} DescentDrawBound(j: Job, slot: Slot, s: State)
    requires Inside(j, s)
    ensures DescentDraws(j, slot, s) <= Depth(j.env.m, s.at) + RetryBound(j.env) - s.flocal
    decreases Clamp(j.tries - s.ftotal), Clamp(RetryBound(j.env) - s.flocal), Rank(j.env.m)[s.at]
  {
    hide Next, RetryBound, Deepest;
    StaysInside(j, slot, s);
    PassMoves(j, slot, s);
    match Next(j, slot, s)
    case Stop(_) =>
    case Loop(t) =>
      if !MoveOf(j, slot, s).Restarts? {
        DescentDrawBound(j, slot, t);
      }
  }

  /** Descents from the start bucket, the current one included. */
  function Descents(j: Job, slot: Slot, s: State): nat
    requires Valid(j, s)
    decreases Clamp(j.tries - s.ftotal), Clamp(RetryBound(j.env) - s.flocal), Rank(j.env.m)[s.at]
  {
    hide Next, RetryBound;
    match Next(j, slot, s)
    case Stop(_) => 1
    case Loop(t) => Descents(j, slot, t) + if MoveOf(j, slot, s).Restarts? then 1 else 0
  }

  /** At most max(1, tries) descents are started for one replica. */
  lemma {:induction false} DescentBound(j: Job, slot: Slot, s: State)
    requires Valid(j, s)
    ensures Descents(j, slot, s) <= 1 + Clamp(j.tries - 1 - s.ftotal)
    decreases Clamp(j.tries - s.ftotal), Clamp(RetryBound(j.env) - s.flocal), Rank(j.env.m)[s.at]
  {
    hide Next, RetryBound;
    PassMoves(j, slot, s);
    match Next(j, slot, s)
    case Stop(_) =>
    case Loop(t) => DescentBound(j, slot, t);
  }

  // ---------------------------------------------------------------- the whole search

  /** The candidate of this pass starts a leaf selection. */
  predicate StartsLeaf(j: Job, slot: Slot, item: int)
    requires Ready(j) && (item < 0 ==> IsBucket(j.env.m, item))
  {
    && item < j.env.m.maxDevices && TypeOf(j.env.m, item) == j.itype
    && item !in slot.chosen && j.leaf && item < 0
  }

  /** Calls of the bucket chooser in one pass, those of a leaf selection included. */
  function PassDraws(j: Job, slot: Slot, s: State): nat
    requires Valid(j, s)
    decreases Level(j), Clamp(j.tries - s.ftotal), Clamp(RetryBound(j.env) - s.flocal), Rank(j.env.m)[s.at], 1
  {
    if j.env.m.buckets[s.at].items == [] then 0
    else
      var r := Factor(j, slot, s);
      var item := Pick(j.env, s.at, r, |slot.chosen|);
      if StartsLeaf(j, slot, item) then
        var k := LeafJob(j, item, r);
        1 + SearchDraws(k, LeafSlot(j, slot), Begin(k))
      else 1
  }

  /** Calls of the bucket chooser until the search decides. */
  function SearchDraws(j: Job, slot: Slot, s: State): nat
    requires Valid(j, s)
    decreases Level(j), Clamp(j.tries - s.ftotal), Clamp(RetryBound(j.env) - s.flocal), Rank(j.env.m)[s.at], 2
  {
    PassDraws(j, slot, s) +
    match Next(j, slot, s)
    case Stop(_) => 0
    case Loop(t) => SearchDraws(j, slot, t)
  }

  /** Candidates the search can still meet, the coming one included. */
  function Candidates(j: Job, s: State): int {
    AtLeastOne(j.tries) + RetryBound(j.env) - s.ftotal
  }

  /** Draws that a search in state s can still make, leaf selections not counted: the rest of this
      descent, the way down in each further one, and one draw for each further candidate. */
  function Potential(j: Job, s: State): int
    requires Valid(j, s)
  {
    Depth(j.env.m, s.at) + Clamp(AtLeastOne(j.tries) - 1 - s.ftotal) * (Depth(j.env.m, j.root) - 1)
    + Candidates(j, s) - 1
  }

  lemma OneLess(a: int, c: int)
    ensures (a - 1) * c == a * c - c
  {
  }

  lemma MulUpTo(a: nat, b: nat, c: nat)
    requires b <= c
    ensures a * b <= a * c
  {
  }

  /** Every pass costs one unit of the potential, and every failed candidate is one fewer. */
  lemma PotentialDrops(j: Job, slot: Slot, s: State)
    requires Inside(j, s)
    ensures Valid(j, s)
    ensures Potential(j, s) >= 1 && Candidates(j, s) >= 1
    ensures var step := Next(j, slot, s);
            step.Loop? ==>
              && Potential(j, step.state) < Potential(j, s)
              && Candidates(j, step.state) == Candidates(j, s) - if MoveOf(j, slot, s).Descends? then 0 else 1
  {
    hide Next, RetryBound, Deepest;
    StaysInside(j, slot, s);
    PassMoves(j, slot, s);
    var d, left := Depth(j.env.m, j.root) - 1, Clamp(AtLeastOne(j.tries) - 1 - s.ftotal);
    MulUpTo(d, 0, left);
    OneLess(left, d);
  }

  /** The most draws one leaf selection can make: it starts at least one level down. */
  function LeafCost(j: Job): nat
    requires Ready(j)
  {
    if j.leaf then AtLeastOne(j.recurseTries) * (Depth(j.env.m, j.root) - 1) + RetryBound(j.env) else 0
  }

  lemma PassDrawBound(j: Job, slot: Slot, s: State)
    requires Inside(j, s)
    ensures PassDraws(j, slot, s) <= 1 + if MoveOf(j, slot, s).Descends? then 0 else LeafCost(j)
    decreases Level(j), 0, 1
  {
    hide SearchDraws, RetryBound, Judge, Pick, WellFormed, Depth, CountersBounded, Retry;
    if j.env.m.buckets[s.at].items != [] {
      var r := Factor(j, slot, s);
      var item := Pick(j.env, s.at, r, |slot.chosen|);
      if StartsLeaf(j, slot, item) {
        LeafDrawBound(j, slot, s, r, item);
        RetryCounts(j, s, item);
      }
    }
  }

  lemma RetryCounts(j: Job, s: State, item: int)
    requires Valid(j, s)
    ensures forall collide :: var step := Retry(j, s, item, collide); step.Loop? ==> step.state.ftotal == s.ftotal + 1
  {
    hide StaysLocal;
  }

  lemma LeafDrawBound(j: Job, slot: Slot, s: State, r: int, item: int)
    requires Inside(j, s) && item in j.env.m.buckets[s.at].items && IsBucket(j.env.m, item) && j.leaf
    ensures var k := LeafJob(j, item, r);
            SearchDraws(k, LeafSlot(j, slot), Begin(k)) <= LeafCost(j)
    decreases Level(j), 0, 0
  {
    hide SearchDraws, RetryBound, Deepest;
    var k := LeafJob(j, item, r);
    DepthDrops(j.env.m, s.at, item);
    DrawsWithin(k, LeafSlot(j, slot), Begin(k));
    PotentialAtStart(k);
    MulUpTo(AtLeastOne(j.recurseTries), Depth(k.env.m, k.root), Depth(j.env.m, j.root) - 1);
  }

  lemma PotentialAtStart(j: Job)
    requires Ready(j)
    ensures Potential(j, Begin(j)) == AtLeastOne(j.tries) * Depth(j.env.m, j.root) + RetryBound(j.env)
  {
    hide RetryBound, Depth;
    OneLess(AtLeastOne(j.tries), Depth(j.env.m, j.root) - 1);
    OneLess(Depth(j.env.m, j.root), AtLeastOne(j.tries));
  }

  lemma {:induction false} DrawsWithin(j: Job, slot: Slot, s: State)
    requires Inside(j, s)
    ensures SearchDraws(j, slot, s) <= Potential(j, s) + Candidates(j, s) * LeafCost(j)
    decreases Level(j), Potential(j, s), 0
  {
    hide PassDraws, Next, Potential, LeafCost, Inside, Candidates, MoveOf;
    PotentialDrops(j, slot, s);
    PassDrawBound(j, slot, s);
    OneLess(Candidates(j, s), LeafCost(j));
    match Next(j, slot, s)
    case Stop(_) =>
      MulUpTo(LeafCost(j), 1, Candidates(j, s));
    case Loop(t) =>
      StaysInside(j, slot, s);
      DrawsWithin(j, slot, t);
  }

  /** Deciding one replica takes at most max(1, tries) * depth + F draws of its own, and at most
      max(1, tries) + F leaf selections, each bounded the same way one level down. */
  lemma ReplicaDrawBound(j: Job, slot: Slot)
    requires Ready(j)
    ensures SearchDraws(j, slot, Begin(j))
         <= AtLeastOne(j.tries) * Depth(j.env.m, j.root) + RetryBound(j.env)
            + if j.leaf then
                (AtLeastOne(j.tries) + RetryBound(j.env))
                * (AtLeastOne(j.recurseTries) * (Depth(j.env.m, j.root) - 1) + RetryBound(j.env))
              else 0
  {
    hide Potential, SearchDraws, RetryBound, Depth;
    DrawsWithin(j, slot, Begin(j));
    PotentialAtStart(j);
  }
}
