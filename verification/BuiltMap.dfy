/** What the builder's result is good for: a finished cluster is a well-formed tree whose bucket
    weights are the sums of their devices, so the selector and its theorems apply to it. */
module BuiltMap {
  import opened CrushHash
  import opened PseudoRandom
  import opened CrushMap
  import opened Firstn
  import opened FirstnLoops
  import opened Builder
  import opened FirstnSafety
  import opened FirstnGiveUp
  import opened FailureDomains
  import opened Subtrees

  function MapOf(c: Build): Map {
    Map(c.bs, c.osds)
  }

  /** Items of a finished cluster: devices below max_devices, or buckets further down the array
      and of smaller type; the recorded parent is the bucket itself. */
  lemma EntryFacts(c: Build, p: nat, item: int)
    requires Complete(c) && p < |c.bs| && item in c.bs[p].items
    ensures item in c.parent && c.parent[item] == p
    ensures if item < 0 then p < IdOf(item) < |c.bs| && c.bs[IdOf(item)].btype < c.bs[p].btype else item < c.osds
  {
    hide Sum;
    var i :| 0 <= i < |c.bs[p].items| && c.bs[p].items[i] == item;
    assert Good(c, p, c.bs[p]);
    assert GoodEntry(c, p, c.bs[p].btype, item, c.bs[p].itemWeights[i]);
  }

  /** Bucket types fall along every link, so the built map is acyclic; ids match positions. */
  lemma CompleteIsWellFormed(c: Build)
    requires Complete(c)
    ensures WellFormed(MapOf(c))
  {
    hide Complete, Sum;
    var m := MapOf(c);
    forall k | 0 <= k < |m.buckets|
      ensures BucketOk(m, k)
    {
      assert Good(c, k, c.bs[k]) by { CompleteGood(c, k); }
      forall item <- m.buckets[k].items
        ensures item < 0 ==> IsBucket(m, item)
      {
        EntryFacts(c, k, item);
      }
    }
    var rank := seq(|c.bs|, i requires 0 <= i < |c.bs| => if c.bs[i].btype > 0 then c.bs[i].btype else 0);
    forall i, item | 0 <= i < |m.buckets| && item in m.buckets[i].items && IsBucket(m, item)
      ensures rank[-1 - item] < rank[i]
    {
      EntryFacts(c, i, item);
      CompleteGood(c, i);
      CompleteGood(c, IdOf(item));
    }
    assert Ranked(m, rank);
  }

  lemma CompleteGood(c: Build, k: nat)
    requires Complete(c) && k < |c.bs|
    ensures c.osds <= |c.w| && Good(c, k, c.bs[k])
  {
  }

  /** Every device below max_devices and every bucket except the root is listed by exactly one
      bucket, exactly once; the root is listed nowhere, and nothing else is. */
  lemma EveryItemHasOneParent(c: Build, item: int)
    requires Complete(c)
    ensures OneParent(MapOf(c)) && forall b <- c.bs :: Distinct(b.items)
    ensures (if item < 0 then 1 <= IdOf(item) < |c.bs| else item < c.osds)
            <==> exists p | 0 <= p < |c.bs| :: item in c.bs[p].items
  {
    hide Good;
    forall p, q, other | 0 <= p < |c.bs| && 0 <= q < |c.bs| && other in c.bs[p].items && other in c.bs[q].items
      ensures p == q
    {
      EntryFacts(c, p, other);
      EntryFacts(c, q, other);
    }
    forall b <- c.bs
      ensures Distinct(b.items)
    {
      var p :| 0 <= p < |c.bs| && c.bs[p] == b;
      GoodIsDistinct(c, p);
    }
    if p :| 0 <= p < |c.bs| && item in c.bs[p].items {
      EntryFacts(c, p, item);
    }
    if if item < 0 then 1 <= IdOf(item) < |c.bs| else item < c.osds {
      assert item in c.parent by {
        assert item < 0 ==> IdOf(IdOf(item)) == item;
      }
      assert item in c.bs[c.parent[item]].items;
    }
  }

  lemma GoodIsDistinct(c: Build, k: nat)
    requires Complete(c) && k < |c.bs|
    ensures Distinct(c.bs[k].items)
  {
    hide Sum;
    CompleteGood(c, k);
  }

  // ---------------------------------------------------------------- weights

  predicate InRange(ds: seq<int>, n: nat) {
    forall i | 0 <= i < |ds| :: 0 <= ds[i] < n
  }

  /** The weights of the listed devices together. */
  function Weigh(w: seq<Word>, ds: seq<int>): int
    requires InRange(ds, |w|)
  {
    if ds == [] then 0
    else Weigh(w, ds[..|ds| - 1]) + w[ds[|ds| - 1]]
  }

  lemma {:induction false} WeighJoin(w: seq<Word>, a: seq<int>, b: seq<int>)
    requires InRange(a, |w|) && InRange(b, |w|)
    ensures Weigh(w, a + b) == Weigh(w, a) + Weigh(w, b)
  {
    if b == [] {
      assert a + b == a;
    } else {
      var n := |b| - 1;
      assert (a + b)[..|a + b| - 1] == a + b[..n];
      WeighJoin(w, a, b[..n]);
    }
  }

  lemma DevicesInRange(c: Build, k: nat, n: nat)
    requires Complete(c) && WellFormed(MapOf(c)) && k < |c.bs| && n <= |c.bs[k].items|
    ensures c.osds <= |c.w| && InRange(Devices(MapOf(c), k, n), c.osds)
  {
    hide Complete, WellFormed, Devices, Below;
    var m := MapOf(c);
    CompleteGood(c, k);
    var ds := Devices(m, k, n);
    forall at | 0 <= at < |ds|
      ensures 0 <= ds[at] < c.osds
    {
      var d := ds[at];
      var i := DevicesSource(m, k, n, d);
      UnderInDevices(m, k, |m.buckets[k].items|, i, d);
      DevicesAreBelow(m, k, d);
      var p := BelowParent(m, k, d);
      EntryFacts(c, p, d);
    }
  }

  lemma {:induction false} SumsMatch(c: Build, k: nat, n: nat)
    requires Complete(c) && WellFormed(MapOf(c)) && k < |c.bs| && n <= |c.bs[k].items|
    ensures n <= |c.bs[k].itemWeights|
    ensures InRange(Devices(MapOf(c), k, n), |c.w|)
    ensures Weigh(c.w, Devices(MapOf(c), k, n)) % WORD == Sum(c.bs[k].itemWeights[..n]) % WORD
    decreases Rank(MapOf(c))[k], n
  {
    hide Complete, WellFormed, Rank, Weigh, Sum, Under;
    var m := MapOf(c);
    CompleteGood(c, k);
    GoodWeights(c, k);
    DevicesInRange(c, k, n);
    if n == 0 {
      NothingWeighs(c.w);
      SumNothing();
      assert c.bs[k].itemWeights[..0] == [];
    } else {
      var ws, item := c.bs[k].itemWeights, c.bs[k].items[n - 1];
      RankDrops(m, k, item);
      SumsMatch(c, k, n - 1);
      if item < 0 {
        SumsMatch(c, IdOf(item), |c.bs[IdOf(item)].items|);
      }
      UnderWeighs(c, k, n - 1);
      WeighJoin(c.w, Devices(m, k, n - 1), Under(m, item));
      SumLast(ws, n);
      ModAdd(Weigh(c.w, Devices(m, k, n - 1)), Sum(ws[..n - 1]), Weigh(c.w, Under(m, item)), ws[n - 1]);
    }
  }

  lemma NothingWeighs(w: seq<Word>)
    ensures Weigh(w, []) == 0
  {
  }

  lemma SumLast(ws: seq<int>, n: nat)
    requires 0 < n <= |ws|
    ensures Sum(ws[..n]) == Sum(ws[..n - 1]) + ws[n - 1]
  {
    assert ws[..n][..n - 1] == ws[..n - 1];
  }

  lemma GoodWeights(c: Build, k: nat)
    requires Complete(c) && k < |c.bs|
    ensures |c.bs[k].itemWeights| == |c.bs[k].items| && c.bs[k].weight == Sum(c.bs[k].itemWeights) % WORD
  {
    hide Sum;
    CompleteGood(c, k);
  }

  /** The weight recorded for the i-th item of bucket k, against the devices of that item. */
  lemma UnderWeighs(c: Build, k: nat, i: nat)
    requires Complete(c) && WellFormed(MapOf(c)) && k < |c.bs| && i < |c.bs[k].items| == |c.bs[k].itemWeights|
    requires var item := c.bs[k].items[i];
             item < 0 ==>
               && IsBucket(MapOf(c), item)
               && |c.bs[IdOf(item)].items| <= |c.bs[IdOf(item)].itemWeights|
               && InRange(Devices(MapOf(c), IdOf(item), |c.bs[IdOf(item)].items|), |c.w|)
               && (Weigh(c.w, Devices(MapOf(c), IdOf(item), |c.bs[IdOf(item)].items|)) % WORD
                   == Sum(c.bs[IdOf(item)].itemWeights[..|c.bs[IdOf(item)].items|]) % WORD)
    ensures c.bs[k].items[i] < 0 ==> IsBucket(MapOf(c), c.bs[k].items[i])
    ensures var ds := Under(MapOf(c), c.bs[k].items[i]);
            && InRange(ds, |c.w|)
            && Weigh(c.w, ds) % WORD == c.bs[k].itemWeights[i]
  {
    hide Complete, WellFormed, Devices, Sum;
    var item := c.bs[k].items[i];
    CompleteGood(c, k);
    assert GoodEntry(c, k, c.bs[k].btype, item, c.bs[k].itemWeights[i]);
    if item < 0 {
      var b := c.bs[IdOf(item)];
      GoodWeights(c, IdOf(item));
      assert b.itemWeights[..|b.items|] == b.itemWeights;
    } else {
      NothingWeighs(c.w);
      assert [item][..0] == [];
    }
  }

  /** Every bucket weight is the sum of the weights of the devices below it, each counted once,
      modulo 2^32; without overflow it is that sum. */
  lemma BucketWeightsAreDeviceSums(c: Build, k: nat)
    requires Complete(c) && k < |c.bs|
    ensures WellFormed(MapOf(c))
    ensures var ds := Devices(MapOf(c), k, |c.bs[k].items|);
            && Distinct(ds) && (forall d: int :: d in ds <==> d >= 0 && Below(MapOf(c), k, d))
            && InRange(ds, |c.w|)
            && c.bs[k].weight == Weigh(c.w, ds) % WORD
            && (0 <= Weigh(c.w, ds) < WORD ==> c.bs[k].weight == Weigh(c.w, ds))
  {
    hide Complete, Devices, WellFormed, Sum, Below, OneParent, Weigh;
    CompleteIsWellFormed(c);
    EveryItemHasOneParent(c, 0);
    DevicesExactlyOnce(MapOf(c), k);
    SumsMatch(c, k, |c.bs[k].items|);
    GoodWeights(c, k);
    assert c.bs[k].itemWeights[..|c.bs[k].items|] == c.bs[k].itemWeights;
  }

  /** Everything with a parent hangs from the root, so the root weighs all devices. */
  lemma {:induction false} AllBelowRoot(c: Build, item: int)
    requires Complete(c) && WellFormed(MapOf(c))
    requires if item < 0 then 1 <= IdOf(item) < |c.bs| else item < c.osds
    ensures |c.bs| > 0 && Below(MapOf(c), 0, item)
    decreases if item < 0 then IdOf(item) else |c.bs|
  {
    hide Complete, WellFormed, Below;
    EveryItemHasOneParent(c, item);
    var p :| 0 <= p < |c.bs| && item in c.bs[p].items;
    EntryFacts(c, p, item);
    if p > 0 {
      AllBelowRoot(c, IdOf(p));
    }
    BelowStep(MapOf(c), 0, p, item);
  }

  lemma RankDrops(m: Map, k: nat, item: int)
    requires WellFormed(m) && k < |m.buckets| && item in m.buckets[k].items
    ensures item < 0 ==> IsBucket(m, item) && Rank(m)[-1 - item] < Rank(m)[k]
  {
    assert BucketOk(m, k);
  }

  lemma ModAdd(a: int, b: int, c: int, d: int)
    requires a % WORD == b % WORD && c % WORD == d % WORD
    ensures (a + c) % WORD == (b + d) % WORD
  {
  }

  // ---------------------------------------------------------------- use by the selector

  /** The finished cluster with full reweights meets every demand of the selector, and none of
      its devices is ever out. */
  lemma BuiltMapServesSelector(
    c: Build, reweight: seq<Word>, x: int, localRetries: nat, fallback: nat, varyR: nat, stable: bool)
    requires Complete(c) && c.osds <= |reweight|
    requires forall i | 0 <= i < |reweight| :: reweight[i] == FULL_REWEIGHT
    ensures var env := Env(MapOf(c), reweight, |reweight|, x, localRetries, fallback, varyR, stable, None);
            && Sound(env) && OneParent(env.m) && (forall b <- env.m.buckets :: Straw2Bucket(b))
            && forall d: nat | d < env.m.maxDevices :: !IsOut(env, d)
  {
    hide Complete, Sum;
    CompleteIsWellFormed(c);
    EveryItemHasOneParent(c, 0);
    EveryBucketIsStraw2(c);
  }

  lemma EveryBucketIsStraw2(c: Build)
    requires Complete(c)
    ensures forall b <- c.bs :: Straw2Bucket(b)
  {
    hide Sum, Complete;
    forall b <- c.bs
      ensures Straw2Bucket(b)
    {
      var k :| 0 <= k < |c.bs| && c.bs[k] == b;
      CompleteGood(c, k);
    }
  }

  /** Every straw in the built map depends on the input, the id and the replica factor through their
      hash: its length is the logarithm of the low 16 bits, less 2^48, over the weight. */
  lemma StrawsComeFromHash(c: Build, b: Bucket, x: int, id: int, r: int, w: Word)
    requires Complete(c) && b in c.bs && w != 0
    ensures var u := Rjenkins([U32(x), U32(id), U32(r)]) as nat % 0x1_0000;
            Truncates(CrushLn(u) - TWO_48, Signed(w), Draw(b.hash, x, id, r, w))
  {
    hide Complete, Draw, Truncates, Rjenkins, CrushLn;
    EveryBucketIsStraw2(c);
    DrawIsQuotient(x, id, r, w);
  }

  /** In a finished cluster without empty buckets every descent ends at a device. */
  lemma {:induction false} EveryPathEndsAtDevice(c: Build, k: nat)
    requires Complete(c) && k < |c.bs| && WellFormed(MapOf(c))
    requires forall b <- c.bs :: b.items != []
    ensures Meets(MapOf(c), 0, k)
    decreases Rank(MapOf(c))[k]
  {
    hide Complete, WellFormed;
    var m := MapOf(c);
    assert c.bs[k] in c.bs;
    forall item <- m.buckets[k].items
      ensures item < m.maxDevices && MeetsItem(m, 0, k, item)
    {
      EntryFacts(c, k, item);
      if item < 0 {
        RankDrops(m, k, item);
        EveryPathEndsAtDevice(c, -1 - item);
      }
    }
  }

  /** With positive fan-outs no bucket is empty. */
  lemma ShapedNotEmpty(c: Build, racks: nat, hosts: nat, hostSize: nat)
    requires Shaped(c, racks, hosts, hostSize) && racks > 0 && hosts > 0 && hostSize > 0
    ensures forall b <- c.bs :: b.items != []
  {
    forall b <- c.bs
      ensures b.items != []
    {
      var k :| 0 <= k < |c.bs| && c.bs[k] == b;
      assert k > 0 ==> Sized(c.bs[k], hosts, hostSize);
    }
  }

  /** Every descent from a rack meets a host. */
  lemma RackMeetsHosts(c: Build, racks: nat, hosts: nat, hostSize: nat, k: nat)
    requires Complete(c) && WellFormed(MapOf(c)) && Shaped(c, racks, hosts, hostSize) && hosts > 0
    requires 1 <= k < |c.bs| && c.bs[k].btype == RACK_TYPE
    ensures Meets(MapOf(c), HOST_TYPE, k)
  {
    hide Complete, WellFormed;
    var m := MapOf(c);
    assert Sized(c.bs[k], hosts, hostSize);
    forall item <- m.buckets[k].items
      ensures item < m.maxDevices && MeetsItem(m, HOST_TYPE, k, item)
    {
      EntryFacts(c, k, item);
      assert Sized(c.bs[IdOf(item)], hosts, hostSize);
    }
  }

  /** Every descent from the root meets a device, a host, and a rack. */
  lemma EveryPathMeetsAllTypes(c: Build, racks: nat, hosts: nat, hostSize: nat, t: int)
    requires Complete(c) && WellFormed(MapOf(c)) && Shaped(c, racks, hosts, hostSize)
    requires racks > 0 && hosts > 0 && hostSize > 0 && t in {0, HOST_TYPE, RACK_TYPE}
    ensures Meets(MapOf(c), t, 0)
  {
    hide Complete, WellFormed;
    var m := MapOf(c);
    if t == 0 {
      ShapedNotEmpty(c, racks, hosts, hostSize);
      EveryPathEndsAtDevice(c, 0);
    } else {
      forall item <- m.buckets[0].items
        ensures item < m.maxDevices && MeetsItem(m, t, 0, item)
      {
        EntryFacts(c, 0, item);
        if t == HOST_TYPE {
          RackMeetsHosts(c, racks, hosts, hostSize, IdOf(item));
        }
      }
    }
  }

  /** With positive fan-outs and full reweights the cluster yields a replica for every input: for
      devices, hosts or racks, with and without leaf selection, whatever the tunables, and at the
      first candidate. */
  lemma BuiltMapAlwaysPlaces(c: Build, racks: nat, hosts: nat, hostSize: nat, j: Job, numrep: int, outSize: int)
    requires Complete(c) && Shaped(c, racks, hosts, hostSize) && racks > 0 && hosts > 0 && hostSize > 0
    requires j.env.m == MapOf(c) && j.env.args == None && j.env.weightMax == |j.env.weight| >= c.osds
    requires forall i | 0 <= i < |j.env.weight| :: j.env.weight[i] == FULL_REWEIGHT
    requires j.root == 0 && j.itype in {0, HOST_TYPE, RACK_TYPE} && numrep > 0 && outSize > 0
    ensures Ready(j) && Failures(j, SlotAt(0, Picks([], [])), Begin(j)) == 0
    ensures |ChooseFirstn(j, numrep, outSize, Picks([], [])).out| >= 1
  {
    hide Complete, WellFormed, IsOut, Search, Shaped, Failures, Replicas, Meets;
    var env := j.env;
    BuiltMapServesSelector(c, env.weight, env.x, env.localRetries, env.fallback, env.varyR, env.stable);
    HasRoot(c);
    ShapedNotEmpty(c, racks, hosts, hostSize);
    EveryPathMeetsAllTypes(c, racks, hosts, hostSize, j.itype);
    forall b | 0 <= b < |env.m.buckets| && env.m.buckets[b].btype == j.itype
      ensures Meets(env.m, 0, b)
    {
      EveryPathEndsAtDevice(c, b);
    }
    FirstReplicaIsPlaced(j, SlotAt(0, Picks([], [])), Begin(j));
    PlacedFirst(j, numrep, outSize);
  }

  lemma PlacedFirst(j: Job, numrep: int, outSize: int)
    requires Ready(j) && numrep > 0 && outSize > 0
    requires Search(j, SlotAt(0, Picks([], [])), Begin(j)).Placed?
    ensures |ChooseFirstn(j, numrep, outSize, Picks([], [])).out| >= 1
  {
    hide Search, Picked, SafeExtension;
    var start := Picks([], []);
    match Search(j, SlotAt(0, start), Begin(j))
    case Placed(item, device) =>
      var next := Commit(j, start, item, device);
      assert ChooseFirstn(j, numrep, outSize, start) == Replicas(j, 1, numrep, outSize - 1, next);
      KeepsEntries(j, 1, numrep, outSize - 1, next);
  }

  lemma KeepsEntries(j: Job, rep: int, numrep: int, count: int, got: Picks)
    requires Ready(j) && Paired(j, got)
    ensures got.out <= Replicas(j, rep, numrep, count, got).out
  {
    hide Replicas, Picked;
    ReplicasSafe(j, rep, numrep, count, got);
  }

  /** A new cluster: its map and its reweight table. */
  method NewCluster(racks: nat, hosts: nat, hostSize: nat, osdSum: nat)
    returns (m: Map, reweight: seq<Word>, ghost c: Build)
    requires racks * (hosts * hostSize) <= osdSum
    ensures Complete(c) && Shaped(c, racks, hosts, hostSize) && m == MapOf(c)
    ensures m.maxDevices == racks * (hosts * hostSize) && |reweight| == osdSum
    ensures forall b <- m.buckets :: Straw2Bucket(b)
    ensures forall i | 0 <= i < |reweight| :: reweight[i] == FULL_REWEIGHT
  {
    hide Complete, Shaped;
    var cluster := new Cluster(osdSum, 1 + racks * (hosts + 1));
    m := cluster.Init2(racks, hosts, hostSize);
    reweight := cluster.reweight[..];
    c := cluster.View();
    EveryBucketIsStraw2(c);
  }

  /** The whole way, as the program goes it: build the cluster, then place the replicas of input x
      on devices, with leaf selection and one array for both outputs. */
  method BuildAndPlace(racks: nat, hosts: nat, hostSize: nat, osdSum: nat, x: int, tries: nat, numrep: nat)
    returns (out: array<int>, count: nat)
    requires racks > 0 && hosts > 0 && hostSize > 0 && numrep > 0
    requires racks * (hosts * hostSize) <= osdSum
    ensures out.Length == numrep && 1 <= count <= numrep
    ensures Distinct(out[..count])
    ensures forall i | 0 <= i < count :: 0 <= out[i] < racks * (hosts * hostSize)
  {
    hide Complete, Shaped, WellFormed, ChooseFirstn, Sound;
    var m, reweight, c := NewCluster(racks, hosts, hostSize, osdSum);
    var j := Job(Env(m, reweight, |reweight|, x, 0, 0, 1, true, None), 0, 0, tries, 1, true, 0);
    BuiltMapAlwaysPlaces(c, racks, hosts, hostSize, j, numrep, numrep);
    DevicesChosen(j, numrep, numrep);
    out := new int[numrep];
    assert out[..0] == [];
    count := CrushChooseFirstn(j, numrep, out, 0, numrep, out);
    ghost var end := ChooseFirstn(j, numrep, numrep, Picks([], []));
    assert out[..count] == end.out;
    assert forall i | 0 <= i < count :: out[i] == end.out[i];
  }

  lemma DevicesChosen(j: Job, numrep: int, outSize: int)
    requires Ready(j) && j.itype == 0
    ensures var end := ChooseFirstn(j, numrep, outSize, Picks([], []));
            && |end.out| <= Clamp(outSize) && Distinct(end.out)
            && forall i | 0 <= i < |end.out| :: 0 <= end.out[i] < j.env.m.maxDevices
  {
    hide WellFormed, Replicas, Usable, Below, Drawn;
    SelectionSafe(j, numrep, outSize, Picks([], []));
    var end := ChooseFirstn(j, numrep, outSize, Picks([], []));
    forall i | 0 <= i < |end.out|
      ensures 0 <= end.out[i] < j.env.m.maxDevices
    {
      assert Picked(j, end.out[i], DeviceAt(j, end, i));
      TypeZero(j.env.m, end.out[i]);
    }
  }

  lemma HasRoot(c: Build)
    requires Complete(c)
    ensures |c.bs| > 0
  {
  }
}
