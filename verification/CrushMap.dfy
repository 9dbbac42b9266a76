/** The data a placement reads (CRUSH_Research/include/crush.h): buckets, their straw2 weights,
    optional replacement arguments, and the map that ties buckets to their ids. */
module CrushMap {
  import opened PseudoRandom

  datatype Option<+T> = None | Some(value: T)

  /** `crush_bucket_straw2`; `size` is the length of `items`. */
  datatype Bucket = Bucket(
    id: int, btype: int, alg: int, hash: int, weight: Word, items: seq<int>, itemWeights: seq<Word>)

  /** `crush_choose_arg`: replacement ids and one replacement weight row per position. */
  datatype ChooseArg = ChooseArg(ids: Option<seq<int>>, weightSet: Option<seq<seq<Word>>>)

  /** `crush_map`, as far as the selector reads it. */
  datatype Map = Map(buckets: seq<Bucket>, maxDevices: int)

  /** `choose_args`: absent, or one entry per bucket. */
  type ChooseArgs = Option<seq<ChooseArg>>

  predicate IsBucket(m: Map, item: int) {
    item < 0 && -1 - item < |m.buckets|
  }

  /** The type of an item: a bucket's own type, or 0 for a device. */
  function TypeOf(m: Map, item: int): int
    requires item < 0 ==> IsBucket(m, item)
  {
    if item < 0 then m.buckets[-1 - item].btype else 0
  }

  predicate ArgFits(b: Bucket, arg: Option<ChooseArg>) {
    arg.Some? ==>
      && (arg.value.ids.Some? ==> |arg.value.ids.value| == |b.items|)
      && (arg.value.weightSet.Some? ==>
            |arg.value.weightSet.value| > 0 &&
            forall row <- arg.value.weightSet.value :: |row| == |b.items|)
  }

  function ArgFor(args: ChooseArgs, i: nat): Option<ChooseArg>
    requires args.Some? ==> i < |args.value|
  {
    if args.Some? then Some(args.value[i]) else None
  }

  predicate ArgsFit(m: Map, args: ChooseArgs) {
    args.Some? ==>
      && |args.value| == |m.buckets|
      && forall i | 0 <= i < |m.buckets| :: ArgFits(m.buckets[i], Some(args.value[i]))
  }

  predicate BucketOk(m: Map, i: nat)
    requires i < |m.buckets|
  {
    && m.buckets[i].id == -1 - i
    && m.buckets[i].btype > 0
    && |m.buckets[i].itemWeights| == |m.buckets[i].items|
    && forall item <- m.buckets[i].items :: item < 0 ==> IsBucket(m, item)
  }

  /** A rank that drops from every bucket to each of its child buckets. */
  predicate Ranked(m: Map, rank: seq<nat>) {
    && |rank| == |m.buckets|
    && forall i, item | 0 <= i < |m.buckets| && item in m.buckets[i].items && IsBucket(m, item) ::
         rank[-1 - item] < rank[i]
  }

  /** Ids match positions, types are positive, items are in range, and the hierarchy is acyclic. */
  ghost predicate WellFormed(m: Map) {
    && (forall i | 0 <= i < |m.buckets| :: BucketOk(m, i))
    && exists rank :: Ranked(m, rank)
  }

  ghost function Rank(m: Map): (rank: seq<nat>)
    requires WellFormed(m)
    ensures Ranked(m, rank)
  {
    var rank :| Ranked(m, rank);
    rank
  }

  /** Height of an item: devices are at 0, every bucket is above its items. */
  ghost function Height(m: Map, item: int): nat
    requires WellFormed(m) && (item < 0 ==> IsBucket(m, item))
  {
    if item < 0 then Rank(m)[-1 - item] + 1 else 0
  }

  /** `item` lies in the subtree of bucket `i`, at any depth below it. */
  ghost predicate Below(m: Map, i: nat, item: int)
    requires WellFormed(m) && i < |m.buckets| && (item < 0 ==> IsBucket(m, item))
    decreases Rank(m)[i] + 1 - Height(m, item)
  {
    exists p | 0 <= p < |m.buckets| && item in m.buckets[p].items && Rank(m)[p] <= Rank(m)[i] ::
      p == i || (Height(m, item) < Height(m, -1 - p) && Below(m, i, -1 - p))
  }

  /** A descent from `root` that stops at type t can enter bucket `at`: no bucket strictly
      between them, nor `at` itself, has type t. */
  ghost predicate Entered(m: Map, root: nat, t: int, at: nat)
    requires WellFormed(m) && root < |m.buckets| && at < |m.buckets|
    decreases Rank(m)[root] + 1 - Height(m, -1 - at)
  {
    || at == root
    || (m.buckets[at].btype != t &&
        exists p | 0 <= p < |m.buckets| && -1 - at in m.buckets[p].items && Rank(m)[p] <= Rank(m)[root] ::
          Height(m, -1 - at) < Height(m, -1 - p) && Entered(m, root, t, p))
  }

  /** A descent from `root` that stops at type t can draw `item`. */
  ghost predicate Drawn(m: Map, root: nat, t: int, item: int)
    requires WellFormed(m) && root < |m.buckets|
  {
    exists p | 0 <= p < |m.buckets| && item in m.buckets[p].items :: Entered(m, root, t, p)
  }

  predicate Distinct(s: seq<int>) {
    forall i, k | 0 <= i < k < |s| :: s[i] != s[k]
  }

  /** Every item has at most one parent. */
  predicate OneParent(m: Map) {
    forall p, q, item ::
      0 <= p < |m.buckets| && 0 <= q < |m.buckets| && item in m.buckets[p].items && item in m.buckets[q].items
      ==> p == q
  }
}
