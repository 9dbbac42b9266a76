/** Failure-domain separation: with `recurse_to_leaf` and a bucket type, the replicas of one
    object sit on usable devices in pairwise disjoint subtrees. */
module FailureDomains {
  import opened CrushMap
  import opened Firstn
  import opened FirstnSafety

  lemma BelowParent(m: Map, i: nat, item: int) returns (p: nat)
    requires WellFormed(m) && i < |m.buckets| && (item < 0 ==> IsBucket(m, item))
    requires Below(m, i, item)
    ensures p < |m.buckets| && item in m.buckets[p].items
    ensures Height(m, item) < Height(m, -1 - p) <= Height(m, -1 - i)
    ensures p == i || Below(m, i, -1 - p)
  {
    p :| 0 <= p < |m.buckets| && item in m.buckets[p].items && Rank(m)[p] <= Rank(m)[i]
         && (p == i || (Height(m, item) < Height(m, -1 - p) && Below(m, i, -1 - p)));
    ChildLower(m, p, item);
  }

  lemma EnteredParent(m: Map, root: nat, t: int, at: nat) returns (p: nat)
    requires WellFormed(m) && root < |m.buckets| && at < |m.buckets| && at != root
    requires Entered(m, root, t, at)
    ensures m.buckets[at].btype != t
    ensures p < |m.buckets| && -1 - at in m.buckets[p].items && Entered(m, root, t, p)
    ensures Height(m, -1 - at) < Height(m, -1 - p) <= Height(m, -1 - root)
  {
    p :| 0 <= p < |m.buckets| && -1 - at in m.buckets[p].items && Rank(m)[p] <= Rank(m)[root]
         && Height(m, -1 - at) < Height(m, -1 - p) && Entered(m, root, t, p);
  }

  /** With single parents, the ancestors of an item form a chain. */
  lemma {:induction false} AncestorsChain(m: Map, a: nat, b: nat, z: int)
    requires WellFormed(m) && OneParent(m) && a < |m.buckets| && b < |m.buckets|
    requires z < 0 ==> IsBucket(m, z)
    requires Below(m, a, z) && Below(m, b, z)
    ensures a == b || Below(m, a, -1 - b) || Below(m, b, -1 - a)
    decreases Height(m, -1 - a) - Height(m, z)
  {
    hide Below, WellFormed;
    var p: int := BelowParent(m, a, z);
    var q: int := BelowParent(m, b, z);
    assert p == q;
    if p != a && p != b {
      AncestorsChain(m, a, b, -1 - p);
    }
  }

  /** A drawn bucket is strictly lower than the bucket the descent started from. */
  lemma DrawnLower(m: Map, root: nat, t: int, a: nat)
    requires WellFormed(m) && root < |m.buckets| && a < |m.buckets| && Drawn(m, root, t, -1 - a)
    ensures Height(m, -1 - a) < Height(m, -1 - root)
  {
    hide Below, Entered, WellFormed;
    var above :| 0 <= above < |m.buckets| && -1 - a in m.buckets[above].items && Entered(m, root, t, above);
    EnteredBelow(m, root, t, above);
    ChildLower(m, above, -1 - a);
  }

  lemma {:induction false} BelowLower(m: Map, a: nat, item: int)
    requires WellFormed(m) && a < |m.buckets| && (item < 0 ==> IsBucket(m, item))
    requires Below(m, a, item)
    ensures Height(m, item) < Height(m, -1 - a)
  {
    hide Below, WellFormed;
    var p := BelowParent(m, a, item);
  }

  /** A bucket of the wanted type is never above (or at) a bucket that the descent entered,
      because the descent stops at the first bucket of that type. */
  lemma {:induction false} NotAboveEntered(m: Map, root: nat, t: int, a: nat, p: nat)
    requires WellFormed(m) && OneParent(m) && root < |m.buckets| && a < |m.buckets| && p < |m.buckets|
    requires m.buckets[a].btype == t && Drawn(m, root, t, -1 - a)
    requires Entered(m, root, t, p)
    ensures a != p && !Below(m, a, -1 - p)
    decreases Height(m, -1 - root) - Height(m, -1 - p)
  {
    hide Below, Entered, WellFormed, Drawn;
    DrawnLower(m, root, t, a);
    if p == root {
      if Below(m, a, -1 - p) {
        BelowLower(m, a, -1 - p);
      }
    } else {
      var up := EnteredParent(m, root, t, p);
      NotAboveEntered(m, root, t, a, up);
      if Below(m, a, -1 - p) {
        var q := BelowParent(m, a, -1 - p);
      }
    }
  }

  lemma NotNested(m: Map, root: nat, t: int, a: nat, b: nat)
    requires WellFormed(m) && OneParent(m) && root < |m.buckets| && a < |m.buckets| && b < |m.buckets|
    requires m.buckets[a].btype == t
    requires Drawn(m, root, t, -1 - a) && Drawn(m, root, t, -1 - b)
    ensures !Below(m, a, -1 - b)
  {
    hide Below, Entered, WellFormed;
    if Below(m, a, -1 - b) {
      var p :| 0 <= p < |m.buckets| && -1 - b in m.buckets[p].items && Entered(m, root, t, p);
      NotAboveEntered(m, root, t, a, p);
      var q := BelowParent(m, a, -1 - b);
    }
  }

  /** No item of the map lies below both buckets. */
  ghost predicate DisjointSubtrees(m: Map, a: nat, b: nat)
    requires WellFormed(m) && a < |m.buckets| && b < |m.buckets|
  {
    forall z | z < 0 ==> IsBucket(m, z) :: !(Below(m, a, z) && Below(m, b, z))
  }

  /** Two different buckets of the wanted type that one descent can draw share no descendant. */
  lemma DrawnDisjoint(m: Map, root: nat, t: int, a: nat, b: nat)
    requires WellFormed(m) && OneParent(m) && root < |m.buckets| && a < |m.buckets| && b < |m.buckets|
    requires a != b && m.buckets[a].btype == t == m.buckets[b].btype
    requires Drawn(m, root, t, -1 - a) && Drawn(m, root, t, -1 - b)
    ensures DisjointSubtrees(m, a, b)
  {
    hide Below, Drawn, WellFormed;
    forall z | (z < 0 ==> IsBucket(m, z)) && Below(m, a, z) && Below(m, b, z)
      ensures false
    {
      AncestorsChain(m, a, b, z);
      NotNested(m, root, t, a, b);
      NotNested(m, root, t, b, a);
    }
  }

  /** Failure-domain separation: the i-th leaf is a usable device below the i-th bucket, no device
      is used twice, and the subtrees of the chosen buckets are pairwise disjoint. */
  lemma ReplicasInDisjointDomains(j: Job, numrep: int, outSize: int)
    requires Ready(j) && OneParent(j.env.m) && j.leaf && j.itype > 0
    ensures var res := ChooseFirstn(j, numrep, outSize, Picks([], []));
            && |res.out2| == |res.out|
            && Distinct(res.out) && Distinct(res.out2)
            && (forall i | 0 <= i < |res.out| ::
                  && IsBucket(j.env.m, res.out[i]) && TypeOf(j.env.m, res.out[i]) == j.itype
                  && Usable(j.env, res.out2[i]) && Below(j.env.m, -1 - res.out[i], res.out2[i]))
            && (forall i, k | 0 <= i < k < |res.out| ::
                  DisjointSubtrees(j.env.m, -1 - res.out[i], -1 - res.out[k]))
  {
    hide Replicas, Below, Drawn, Usable, WellFormed, Rank, DisjointSubtrees;
    var start := Picks([], []);
    var m := j.env.m;
    var res := ChooseFirstn(j, numrep, outSize, start);
    ReplicasSafe(j, 0, numrep, outSize, start);
    forall i | 0 <= i < |res.out|
      ensures IsBucket(m, res.out[i]) && Picked(j, res.out[i], res.out2[i])
    {
      assert Picked(j, res.out[i], DeviceAt(j, res, i));
      TypeZero(m, res.out[i]);
    }
    forall i, k | 0 <= i < k < |res.out|
      ensures DisjointSubtrees(m, -1 - res.out[i], -1 - res.out[k])
    {
      assert Picked(j, res.out[i], res.out2[i]) && Picked(j, res.out[k], res.out2[k]);
      assert res.out[i] != res.out[k];
      DrawnDisjoint(m, j.root, j.itype, -1 - res.out[i], -1 - res.out[k]);
    }
  }
}
