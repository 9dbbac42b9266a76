/** The cluster builder (CRUSH_Research/main.cpp:25-122): root, racks and hosts are numbered from
    two global counters and filled in place. */
module Builder {
  import opened CrushHash
  import opened PseudoRandom
  import opened CrushMap

  const HOST_TYPE := 1
  const RACK_TYPE := 3
  const ROOT_TYPE := 10
  const BUILD_ALG := 6
  const DEFAULT_WEIGHT := 176
  const FULL_REWEIGHT := 0x1_0000
  const WORD := 0x1_0000_0000

  function Sum(s: seq<int>): int {
    if s == [] then 0 else Sum(s[..|s| - 1]) + s[|s| - 1]
  }

  /** `__u32` addition wraps around. */
  function AddWord(a: Word, b: Word): Word {
    (a + b) % WORD
  }

  lemma SumNothing()
    ensures Sum([]) == 0
  {
  }

  lemma AddWordSum(total: Word, s: seq<int>, v: Word)
    requires total == Sum(s) % WORD
    ensures AddWord(total, v) == Sum(s + [v]) % WORD
  {
    assert (s + [v])[..|s|] == s;
  }

  // ---------------------------------------------------------------- what is being built

  /** The id of the bucket at position i. */
  function IdOf(i: int): int {
    -1 - i
  }

  /** The weight recorded for an item: its own for a device, the bucket's for a bucket. */
  function ItemWeight(bs: seq<Bucket>, w: seq<Word>, item: int): Word
    requires if item < 0 then IdOf(item) < |bs| else item < |w|
  {
    if item < 0 then bs[IdOf(item)].weight else w[item]
  }

  /** The cluster under construction: buckets by position, device weights, the bucket each item
      was put into, and the number of devices handed out. */
  datatype Build = Build(bs: seq<Bucket>, w: seq<Word>, parent: map<int, nat>, osds: nat)

  /** The fields that all buckets share: the algorithm, and the hash that straws are drawn with. */
  predicate Straw2Bucket(b: Bucket) {
    b.alg == 6 && b.hash == RJENKINS1
  }

  /** Bucket b, meant for position k, is numbered, typed, weighed and linked correctly: it lists
      each item once; its items are devices handed out, or later buckets of smaller type; k is
      recorded as their parent; and its weight is the 32-bit sum of the weights recorded for them. */
  ghost predicate Good(c: Build, k: nat, b: Bucket)
    requires c.osds <= |c.w|
  {
    && b.id == IdOf(k) && b.btype > 0 && Straw2Bucket(b)
    && |b.itemWeights| == |b.items| && Distinct(b.items)
    && b.weight == Sum(b.itemWeights) % WORD
    && (forall i | 0 <= i < |b.items| :: GoodEntry(c, k, b.btype, b.items[i], b.itemWeights[i]))
  }

  predicate GoodEntry(c: Build, k: nat, btype: int, item: int, weight: Word)
    requires c.osds <= |c.w|
  {
    && item in c.parent && c.parent[item] == k
    && (if item < 0 then k < IdOf(item) < |c.bs| && c.bs[IdOf(item)].btype < btype else item < c.osds)
    && weight == ItemWeight(c.bs, c.w, item)
  }

  predicate Extends(p: map<int, nat>, q: map<int, nat>) {
    forall item | item in p :: item in q && q[item] == p[item]
  }

  /** The part built since `before`: buckets from lo on are good, every new parent lists its item,
      devices from `first` on have parents, and all items lie below the counters. */
  ghost predicate Segment(c: Build, before: map<int, nat>, lo: nat, first: nat) {
    && lo <= |c.bs| && first <= c.osds <= |c.w|
    && (forall k | lo <= k < |c.bs| :: Good(c, k, c.bs[k]))
    && Extends(before, c.parent)
    && (forall item | item in c.parent && item !in before ::
          lo <= c.parent[item] < |c.bs| && item in c.bs[c.parent[item]].items)
    && (forall d | first <= d < c.osds :: d in c.parent)
    && Counted(c)
  }

  predicate Counted(c: Build) {
    forall item | item in c.parent :: if item < 0 then IdOf(item) < |c.bs| else item < c.osds
  }

  /** A finished cluster: bucket 0 is the root, every other bucket has a parent. */
  ghost predicate Complete(c: Build) {
    && Segment(c, map[], 0, 0)
    && c.bs != []
    && forall k | 1 <= k < |c.bs| :: IdOf(k) in c.parent
  }

  /** A host with its share of devices, or a rack with its share of buckets. */
  predicate Sized(b: Bucket, hosts: nat, hostSize: nat) {
    || (b.btype == HOST_TYPE && |b.items| == hostSize)
    || (b.btype == RACK_TYPE && |b.items| == hosts && forall item <- b.items :: item < 0)
  }

  /** A root over `racks` racks, every rack over `hosts` buckets, every host over `hostSize`
      devices. */
  predicate Shaped(c: Build, racks: nat, hosts: nat, hostSize: nat) {
    && c.bs != []
    && c.bs[0].btype == ROOT_TYPE && |c.bs[0].items| == racks
    && (forall item <- c.bs[0].items ::
          item < 0 && IdOf(item) < |c.bs| && c.bs[IdOf(item)].btype == RACK_TYPE)
    && forall k | 1 <= k < |c.bs| :: Sized(c.bs[k], hosts, hostSize)
  }

  function Consecutive(first: int, n: nat): seq<int> {
    seq(n, i => first + i)
  }

  /** The ids of n buckets from position `first` on. */
  function Ids(first: int, n: nat): seq<int> {
    seq(n, i => IdOf(first + i))
  }

  /** Bucket k becomes the parent of the items. */
  ghost function Adopt(parent: map<int, nat>, items: seq<int>, k: nat): map<int, nat> {
    parent + map item | item in items :: k
  }

  // ---------------------------------------------------------------- construction steps

  /** A good bucket stays good while its child buckets stay put. */
  lemma GoodKept(c: Build, d: Build, k: nat, b: Bucket)
    requires c.osds <= d.osds <= |c.w| && d.w == c.w && |c.bs| <= |d.bs|
    requires Good(c, k, b)
    requires forall item <- b.items :: item in d.parent && d.parent[item] == k
    requires forall item <- b.items :: item < 0 && IdOf(item) < |c.bs| ==> d.bs[IdOf(item)] == c.bs[IdOf(item)]
    ensures Good(d, k, b)
  {
    hide Sum;
    forall i | 0 <= i < |b.items|
      ensures GoodEntry(d, k, b.btype, b.items[i], b.itemWeights[i])
    {
      assert b.items[i] in b.items;
      assert GoodEntry(c, k, b.btype, b.items[i], b.itemWeights[i]);
    }
  }

  lemma HostGood(c: Build, first: nat, k: nat, host: Bucket)
    requires first + |host.items| == c.osds <= |c.w|
    requires host.id == IdOf(k) && host.btype > 0 && Straw2Bucket(host)
    requires host.items == Consecutive(first, |host.items|)
    requires host.itemWeights == c.w[first..c.osds]
    requires host.weight == Sum(host.itemWeights) % WORD
    requires forall item <- host.items :: item in c.parent && c.parent[item] == k
    ensures Good(c, k, host)
  {
    hide Sum;
    assert forall i | 0 <= i < |host.items| :: host.items[i] in host.items;
  }

  lemma GoodItems(c: Build, k: nat, b: Bucket)
    requires c.osds <= |c.w| && Good(c, k, b)
    ensures forall item <- b.items ::
              && item in c.parent && c.parent[item] == k
              && (if item < 0 then k < IdOf(item) < |c.bs| else item < c.osds)
  {
    forall item <- b.items
      ensures item in c.parent && c.parent[item] == k
      ensures if item < 0 then k < IdOf(item) < |c.bs| else item < c.osds
    {
      var i :| 0 <= i < |b.items| && b.items[i] == item;
      assert GoodEntry(c, k, b.btype, b.items[i], b.itemWeights[i]);
    }
  }

  /** Good buckets survive later construction. */
  lemma AllGoodKept(c: Build, d: Build, lo: nat)
    requires c.osds <= d.osds <= |c.w| && d.w == c.w && lo <= |c.bs| <= |d.bs|
    requires Extends(c.parent, d.parent)
    requires forall k | lo <= k < |c.bs| :: Good(c, k, c.bs[k]) && d.bs[k] == c.bs[k]
    ensures forall k | lo <= k < |c.bs| :: Good(d, k, d.bs[k])
  {
    hide Good;
    forall k | lo <= k < |c.bs|
      ensures Good(d, k, d.bs[k])
    {
      assert Good(c, k, c.bs[k]);
      GoodItems(c, k, c.bs[k]);
      GoodKept(c, d, k, c.bs[k]);
    }
  }

  lemma AdoptFresh(c: Build, items: seq<int>, k: nat)
    requires Counted(c)
    requires forall item <- items :: if item < 0 then IdOf(item) >= |c.bs| else item >= c.osds
    ensures Extends(c.parent, Adopt(c.parent, items, k))
  {
  }

  /** Appending a finished host to the segment of its rack. */
  lemma HostAppended(c: Build, before: map<int, nat>, lo: nat, first: nat, host: Bucket, n: nat, spare: Bucket)
    requires Segment(c, before, lo, first) && c.osds + n <= |c.w|
    requires host.items == Consecutive(c.osds, n)
    requires Good(Build(c.bs + [spare], c.w, Adopt(c.parent, host.items, |c.bs|), c.osds + n), |c.bs|, host)
    ensures Segment(Build(c.bs + [host], c.w, Adopt(c.parent, host.items, |c.bs|), c.osds + n), before, lo, first)
  {
    hide Good;
    var mid := Build(c.bs + [spare], c.w, Adopt(c.parent, host.items, |c.bs|), c.osds + n);
    var d := mid.(bs := c.bs + [host]);
    AdoptFresh(c, host.items, |c.bs|);
    AllGoodKept(c, d, lo);
    GoodItems(mid, |c.bs|, host);
    GoodKept(mid, d, |c.bs|, host);
    forall e | first <= e < d.osds
      ensures e in d.parent
    {
      if e >= c.osds {
        assert host.items[e - c.osds] == e;
      }
    }
  }

  /** A bucket over later buckets of smaller type, with their weights and its own weight summed. */
  ghost predicate LinksTo(bs: seq<Bucket>, k: nat, b: Bucket) {
    && b.id == IdOf(k) && b.btype > 0 && Straw2Bucket(b)
    && |b.itemWeights| == |b.items| && Distinct(b.items)
    && b.weight == Sum(b.itemWeights) % WORD
    && forall i | 0 <= i < |b.items| ::
         && k < IdOf(b.items[i]) < |bs|
         && b.itemWeights[i] == bs[IdOf(b.items[i])].weight
         && bs[IdOf(b.items[i])].btype < b.btype
  }

  lemma LinkedGood(c: Build, k: nat, b: Bucket)
    requires c.osds <= |c.w| && LinksTo(c.bs, k, b)
    requires forall item <- b.items :: item in c.parent && c.parent[item] == k
    ensures Good(c, k, b)
  {
    hide Sum;
    assert forall i | 0 <= i < |b.items| :: b.items[i] in b.items;
  }

  /** Storing a finished bucket at its reserved position k, in front of the segment that holds its
      children. */
  lemma BucketClosed(c: Build, before: map<int, nat>, k: nat, first: nat, b: Bucket)
    requires Segment(c, before, k + 1, first) && LinksTo(c.bs, k, b)
    requires forall item <- b.items :: item !in c.parent
    ensures Segment(
              Build(c.bs[k := b], c.w, Adopt(c.parent, b.items, k), c.osds), before, k, first)
  {
    hide Good, LinksTo;
    var d := Build(c.bs[k := b], c.w, Adopt(c.parent, b.items, k), c.osds);
    AllGoodKept(c, d, k + 1);
    LinksKept(c.bs, k, b);
    LinkedGood(d, k, b);
  }

  lemma LinksKept(bs: seq<Bucket>, k: nat, b: Bucket)
    requires k < |bs| && LinksTo(bs, k, b)
    ensures LinksTo(bs[k := b], k, b)
    ensures forall item <- b.items :: item < 0 && IdOf(item) < |bs|
  {
    hide Sum;
  }

  /** Two consecutive segments form one. */
  lemma SegmentsJoin(c: Build, d: Build, before: map<int, nat>, lo: nat, first: nat)
    requires Segment(c, before, lo, first) && Segment(d, c.parent, |c.bs|, c.osds)
    requires d.w == c.w && c.bs <= d.bs
    ensures Segment(d, before, lo, first)
  {
    hide Good;
    AllGoodKept(c, d, lo);
  }

  lemma EmptySegment(c: Build)
    requires c.osds <= |c.w| && Counted(c)
    ensures Segment(c, c.parent, |c.bs|, c.osds)
  {
  }

  lemma SegmentFacts(c: Build, before: map<int, nat>, lo: nat, first: nat, spare: Bucket)
    requires Segment(c, before, lo, first)
    ensures c.osds <= |c.w| && Counted(c) && Counted(c.(bs := c.bs + [spare]))
    ensures forall item | item in before :: item in c.parent
  {
  }

  // ---------------------------------------------------------------- the builder

  /** `weight`, `reweight`, `buckets` and the two counters are globals of the program. */
  class Cluster {
    const weight: array<Word>
    const reweight: array<Word>
    const buckets: array<Bucket>
    var globalOsdId: nat
    var globalBucketId: nat
    ghost var parent: map<int, nat>

    constructor (osdSum: nat, maxBuckets: nat)
      ensures globalOsdId == 0 && globalBucketId == 0 && parent == map[]
      ensures fresh(weight) && fresh(reweight) && fresh(buckets) && weight != reweight
      ensures weight.Length == reweight.Length == osdSum && buckets.Length == maxBuckets
    {
      weight, reweight := new Word[osdSum], new Word[osdSum];
      buckets := new Bucket[maxBuckets](_ => Bucket(0, 0, 0, 0, 0, [], []));
      globalOsdId, globalBucketId, parent := 0, 0, map[];
    }

    ghost function View(): Build
      requires globalBucketId <= buckets.Length
      reads this, weight, buckets
    {
      Build(buckets[..globalBucketId], weight[..], parent, globalOsdId)
    }

    /** `construct_host`: a bucket over the next `size` devices. */
    method ConstructHost(id: int, size: nat) returns (host: Bucket)
      requires id < 0 && IdOf(id) < globalBucketId <= buckets.Length
      requires globalOsdId + size <= weight.Length
      modifies this`globalOsdId, this`parent
      ensures globalOsdId == old(globalOsdId) + size
      ensures host.btype == HOST_TYPE && host.alg == BUILD_ALG && host.hash == 0
      ensures host.items == Consecutive(old(globalOsdId), size)
      ensures parent == Adopt(old(parent), host.items, IdOf(id))
      ensures Good(View(), IdOf(id), host)
    {
      hide Sum, Good, AddWord;
      var itemWeights: seq<Word>, items: seq<int> := [], [];
      var total: Word := 0;
      ghost var first := globalOsdId;
      SumNothing();
      for j := 0 to size
        invariant globalOsdId == first + j && parent == old(parent)
        invariant items == Consecutive(first, j) && itemWeights == weight[first..first + j]
        invariant total == Sum(itemWeights) % WORD
      {
        var cur := globalOsdId;
        globalOsdId := globalOsdId + 1;
        items := items + [cur];
        AddWordSum(total, itemWeights, weight[cur]);
        itemWeights := itemWeights + [weight[cur]];
        total := AddWord(total, weight[cur]);
      }
      host := Bucket(id, HOST_TYPE, BUILD_ALG, 0, total, items, itemWeights);
      parent := Adopt(parent, host.items, IdOf(id));
      HostGood(View(), first, IdOf(id), host);
    }

    /** Reserves the next position and builds a host there; the segment grows by one. */
    method PlaceHost(hostSize: nat, ghost before: map<int, nat>, ghost lo: nat, ghost first: nat)
      returns (itemId: int)
      requires globalBucketId < buckets.Length && globalOsdId + hostSize <= weight.Length
      requires Segment(View(), before, lo, first)
      modifies this`globalOsdId, this`globalBucketId, this`parent, buckets
      ensures itemId == old(globalBucketId) && globalBucketId == itemId + 1
      ensures globalOsdId == old(globalOsdId) + hostSize
      ensures forall k | 0 <= k < itemId :: buckets[k] == old(buckets[k])
      ensures buckets[itemId].btype == HOST_TYPE && |buckets[itemId].items| == hostSize
      ensures Segment(View(), before, lo, first)
      ensures forall item | item in parent && item !in old(parent) :: item >= 0
    {
      hide Sum, Good, Segment;
      ghost var c := View();
      itemId := globalBucketId;
      globalBucketId := globalBucketId + 1;
      ghost var spare := buckets[itemId];
      var host := ConstructHost(-itemId - 1, hostSize);
      assert View().bs == c.bs + [spare];
      HostAppended(c, before, lo, first, host, hostSize, spare);
      buckets[itemId] := host;
      assert View().bs == c.bs + [host];
    }

    /** `construct_rack`: a bucket over `size` new hosts of `hostSize` devices each. */
    method ConstructRack(id: int, size: nat, hostSize: nat) returns (rack: Bucket)
      requires id < 0 && IdOf(id) < globalBucketId
      requires globalBucketId + size <= buckets.Length
      requires globalOsdId + size * hostSize <= weight.Length
      requires Counted(View())
      modifies this`globalOsdId, this`globalBucketId, this`parent, buckets
      ensures globalBucketId == old(globalBucketId) + size
      ensures globalOsdId == old(globalOsdId) + size * hostSize
      ensures forall k | 0 <= k < old(globalBucketId) :: buckets[k] == old(buckets[k])
      ensures forall item | item in parent && item !in old(parent) :: item >= 0
      ensures rack.btype == RACK_TYPE && rack.alg == BUILD_ALG && rack.hash == 0
      ensures rack.items == Ids(old(globalBucketId), size)
      ensures forall k | old(globalBucketId) <= k < globalBucketId :: Sized(buckets[k], size, hostSize)
      ensures LinksTo(buckets[..globalBucketId], IdOf(id), rack)
      ensures Segment(View(), old(parent), old(globalBucketId), old(globalOsdId))
    {
      hide Sum, Segment, AddWord, Counted, LinksTo;
      EmptySegment(View());
      var itemWeights: seq<Word>, items: seq<int> := [], [];
      var total: Word := 0;
      ghost var g0, d0, before := globalBucketId, globalOsdId, parent;
      SumNothing();
      for j := 0 to size
        invariant globalBucketId == g0 + j && globalOsdId == d0 + j * hostSize
        invariant forall k | 0 <= k < g0 :: buckets[k] == old(buckets[k])
        invariant forall item | item in parent && item !in before :: item >= 0
        invariant Segment(View(), before, g0, d0)
        invariant |items| == |itemWeights| == j
        invariant forall k | g0 <= k < globalBucketId ::
          items[k - g0] == IdOf(k) && itemWeights[k - g0] == buckets[k].weight && buckets[k].btype == HOST_TYPE
        invariant forall k | g0 <= k < globalBucketId :: Sized(buckets[k], size, hostSize)
        invariant total == Sum(itemWeights) % WORD
      {
        Capacity(j, size, hostSize);
        var itemId := PlaceHost(hostSize, before, g0, d0);
        items := items + [-itemId - 1];
        AddWordSum(total, itemWeights, buckets[itemId].weight);
        itemWeights := itemWeights + [buckets[itemId].weight];
        total := AddWord(total, buckets[itemId].weight);
      }
      rack := Bucket(id, RACK_TYPE, BUILD_ALG, 0, total, items, itemWeights);
      RackLinks(buckets[..globalBucketId], IdOf(id), g0, rack);
    }

    /** Reserves the next position, builds a rack below it, and stores the rack there. */
    method PlaceRack(hosts: nat, hostSize: nat) returns (itemId: int)
      requires globalBucketId + 1 + hosts <= buckets.Length
      requires globalOsdId + hosts * hostSize <= weight.Length
      requires Segment(View(), map[], 1, 0)
      modifies this`globalOsdId, this`globalBucketId, this`parent, buckets
      ensures itemId == old(globalBucketId) && globalBucketId == itemId + 1 + hosts
      ensures globalOsdId == old(globalOsdId) + hosts * hostSize
      ensures forall k | 0 <= k < itemId :: buckets[k] == old(buckets[k])
      ensures buckets[itemId].btype == RACK_TYPE
      ensures forall k | itemId <= k < globalBucketId :: Sized(buckets[k], hosts, hostSize)
      ensures Segment(View(), map[], 1, 0)
      ensures forall item | item in old(parent) :: item in parent
      ensures IdOf(itemId) !in parent
      ensures forall c | itemId < c < globalBucketId :: IdOf(c) in parent
      ensures forall item | item in parent && item !in old(parent) :: item >= 0 || itemId < IdOf(item) < globalBucketId
    {
      hide Sum, Good, Segment, LinksTo, Sized;
      ghost var c := View();
      SegmentFacts(c, map[], 1, 0, buckets[globalBucketId]);
      itemId := globalBucketId;
      globalBucketId := globalBucketId + 1;
      assert View().bs == c.bs + [buckets[itemId]];
      var rack := ConstructRack(-itemId - 1, hosts, hostSize);
      ghost var d := View();
      SegmentFacts(d, c.parent, itemId + 1, c.osds, rack);
      buckets[itemId] := rack;
      parent := Adopt(parent, rack.items, itemId);
      NewItems(d, c.parent, itemId + 1, rack, hosts);
      RackSized(rack, itemId + 1, hosts, hostSize);
      BucketClosed(d, c.parent, itemId, c.osds, rack);
      assert View() == Build(d.bs[itemId := rack], d.w, Adopt(d.parent, rack.items, itemId), d.osds);
      SegmentsJoin(c, View(), map[], 1, 0);
    }

    /** `construct_root`: bucket 0 over `racks` racks of `hosts` hosts of `hostSize` devices. */
    method ConstructRoot(racks: nat, hosts: nat, hostSize: nat) returns (root: Bucket)
      requires globalOsdId == 0 && globalBucketId == 0 && parent == map[]
      requires 1 + racks * (hosts + 1) <= buckets.Length
      requires racks * (hosts * hostSize) <= weight.Length
      modifies this`globalOsdId, this`globalBucketId, this`parent, buckets
      ensures globalBucketId == 1 + racks * (hosts + 1) <= buckets.Length
      ensures globalOsdId == racks * (hosts * hostSize)
      ensures root == buckets[0] && Shaped(View(), racks, hosts, hostSize)
      ensures Segment(View(), map[], 0, 0)
      ensures forall c | 1 <= c < globalBucketId :: IdOf(c) in parent
    {
      hide Sum, Segment, AddWord, LinksTo, RacksListed, Sized;
      globalBucketId := globalBucketId + 1;
      FirstSegment(View());
      var itemWeights: seq<Word>, items: seq<int> := [], [];
      var total: Word := 0;
      SumNothing();
      for j := 0 to racks
        invariant globalBucketId == 1 + j * (hosts + 1) && globalOsdId == j * (hosts * hostSize)
        invariant Segment(View(), map[], 1, 0)
        invariant |items| == j && RacksListed(View(), items, itemWeights)
        invariant forall k | 1 <= k < globalBucketId :: Sized(buckets[k], hosts, hostSize)
        invariant total == Sum(itemWeights) % WORD
        invariant forall c | 1 <= c < globalBucketId :: IdOf(c) in parent || IdOf(c) in items
      {
        Capacity(j, racks, hosts + 1);
        Capacity(j, racks, hosts * hostSize);
        ghost var c := View();
        var itemId := PlaceRack(hosts, hostSize);
        RackListed(c, View(), items, itemWeights);
        items := items + [-itemId - 1];
        AddWordSum(total, itemWeights, buckets[itemId].weight);
        itemWeights := itemWeights + [buckets[itemId].weight];
        total := AddWord(total, buckets[itemId].weight);
      }
      root := Bucket(-1, ROOT_TYPE, BUILD_ALG, 0, total, items, itemWeights);
      ghost var c := View();
      RootLinks(c, root, hosts, hostSize);
      buckets[0] := root;
      parent := Adopt(parent, root.items, 0);
      BucketClosed(c, map[], 0, 0, root);
      assert View() == Build(c.bs[0 := root], c.w, Adopt(c.parent, root.items, 0), c.osds);
    }

    /** `init2`: default weights and reweights, then the tree, published as a map. */
    method Init2(racks: nat, hosts: nat, hostSize: nat) returns (m: Map)
      requires globalOsdId == 0 && globalBucketId == 0 && parent == map[]
      requires 1 + racks * (hosts + 1) <= buckets.Length
      requires racks * (hosts * hostSize) <= weight.Length == reweight.Length
      requires weight != reweight
      modifies this`globalOsdId, this`globalBucketId, this`parent, buckets, weight, reweight
      ensures globalBucketId == 1 + racks * (hosts + 1) <= buckets.Length
      ensures Complete(View()) && m == Map(View().bs, View().osds)
      ensures m.maxDevices == racks * (hosts * hostSize)
      ensures Shaped(View(), racks, hosts, hostSize)
      ensures forall i | 0 <= i < weight.Length :: weight[i] == 176 && reweight[i] == 0x1_0000
    {
      for i := 0 to weight.Length
        modifies weight, reweight
        invariant forall k | 0 <= k < i :: weight[k] == DEFAULT_WEIGHT && reweight[k] == FULL_REWEIGHT
      {
        weight[i] := DEFAULT_WEIGHT;
        reweight[i] := FULL_REWEIGHT;
      }
      var root := ConstructRoot(racks, hosts, hostSize);
      m := Map(buckets[..globalBucketId], globalOsdId);
    }
  }

  lemma FirstSegment(c: Build)
    requires |c.bs| == 1 && c.parent == map[] && c.osds == 0
    ensures Segment(c, map[], 1, 0) && RacksListed(c, [], [])
  {
  }

  lemma RackSized(rack: Bucket, lo: nat, hosts: nat, hostSize: nat)
    requires rack.btype == RACK_TYPE && rack.items == Ids(lo, hosts)
    ensures Sized(rack, hosts, hostSize)
  {
    forall item <- rack.items
      ensures item < 0
    {
      var i :| 0 <= i < |rack.items| && rack.items[i] == item;
      assert item == Ids(lo, hosts)[i] == IdOf(lo + i);
    }
  }

  /** A rack's new hosts are exactly the buckets behind it, and none of them has a parent yet. */
  lemma NewItems(d: Build, before: map<int, nat>, lo: nat, rack: Bucket, n: nat)
    requires rack.items == Ids(lo, n) && |d.bs| == lo + n && lo > 0
    requires forall item | item in before :: item < 0 ==> IdOf(item) < lo - 1
    requires forall item | item in d.parent && item !in before :: item >= 0
    ensures forall item <- rack.items :: item !in d.parent && lo <= IdOf(item) < |d.bs|
    ensures forall c | lo <= c < |d.bs| :: IdOf(c) in rack.items
    ensures IdOf(lo - 1) !in d.parent
  {
    forall c | lo <= c < |d.bs|
      ensures IdOf(c) in rack.items
    {
      assert rack.items[c - lo] == IdOf(c);
    }
  }

  /** The racks that the root lists so far: finished, weighed, and still without a parent. */
  predicate RacksListed(c: Build, items: seq<int>, itemWeights: seq<Word>) {
    && |itemWeights| == |items| && Distinct(items)
    && forall i | 0 <= i < |items| ::
         && 0 < IdOf(items[i]) < |c.bs| && items[i] !in c.parent
         && itemWeights[i] == c.bs[IdOf(items[i])].weight
         && c.bs[IdOf(items[i])].btype == RACK_TYPE
  }

  lemma RackListed(c: Build, d: Build, items: seq<int>, itemWeights: seq<Word>)
    requires RacksListed(c, items, itemWeights)
    requires 0 < |c.bs| < |d.bs| && c.bs <= d.bs && d.bs[|c.bs|].btype == RACK_TYPE
    requires IdOf(|c.bs|) !in d.parent
    requires forall item | item in d.parent && item !in c.parent :: item >= 0 || |c.bs| < IdOf(item)
    ensures RacksListed(d, items + [IdOf(|c.bs|)], itemWeights + [d.bs[|c.bs|].weight])
  {
  }

  lemma RootLinks(c: Build, b: Bucket, hosts: nat, hostSize: nat)
    requires b.id == IdOf(0) && b.btype == ROOT_TYPE && Straw2Bucket(b) && c.bs != []
    requires b.weight == Sum(b.itemWeights) % WORD
    requires RacksListed(c, b.items, b.itemWeights)
    requires forall k | 1 <= k < |c.bs| :: Sized(c.bs[k], hosts, hostSize)
    ensures LinksTo(c.bs, 0, b)
    ensures forall item <- b.items :: item !in c.parent
    ensures Shaped(c.(bs := c.bs[0 := b]), |b.items|, hosts, hostSize)
  {
    hide Sum, Sized;
    var d := c.(bs := c.bs[0 := b]);
    forall item <- b.items
      ensures item !in c.parent
      ensures item < 0 && 0 < IdOf(item) < |d.bs| && d.bs[IdOf(item)].btype == RACK_TYPE
    {
      var i :| 0 <= i < |b.items| && b.items[i] == item;
      assert c.bs[IdOf(b.items[i])].btype == RACK_TYPE;
    }
  }

  lemma RackLinks(bs: seq<Bucket>, k: nat, first: nat, b: Bucket)
    requires b.id == IdOf(k) && b.btype > HOST_TYPE && Straw2Bucket(b) && |b.itemWeights| == |b.items|
    requires b.weight == Sum(b.itemWeights) % WORD
    requires k < first && first + |b.items| == |bs|
    requires forall c | first <= c < |bs| ::
               b.items[c - first] == IdOf(c) && b.itemWeights[c - first] == bs[c].weight && bs[c].btype == HOST_TYPE
    ensures b.items == Ids(first, |b.items|)
    ensures LinksTo(bs, k, b)
  {
    hide Sum;
    forall i | 0 <= i < |b.items|
      ensures k < IdOf(b.items[i]) < |bs|
      ensures b.itemWeights[i] == bs[IdOf(b.items[i])].weight && bs[IdOf(b.items[i])].btype < b.btype
    {
      assert bs[first + i].btype == HOST_TYPE;
    }
    forall i | 0 <= i < |b.items|
      ensures b.items[i] == IdOf(first + i)
    {
      assert bs[first + i].btype == HOST_TYPE;
    }
  }

  lemma Capacity(j: nat, n: nat, size: nat)
    requires j < n
    ensures j * size + size == (j + 1) * size <= n * size
  {
    assert (n - j - 1) * size >= 0;
  }
}
