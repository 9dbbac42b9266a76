/** Straw2 selection (CRUSH_Research/main.cpp, `bucket_straw2_choose`): every item draws a straw,
    the first longest straw wins.  The theorems are the minimal-movement promise that
    CRUSH_Research/include/crush.h makes for straw2 buckets. */
module Straw2 {
  import opened PseudoRandom
  import opened CrushMap

  /** `get_choose_arg_ids` */
  function Ids(b: Bucket, arg: Option<ChooseArg>): (ids: seq<int>)
    ensures arg == None || arg.value.ids == None ==> ids == b.items
    ensures arg.Some? && arg.value.ids.Some? ==> ids == arg.value.ids.value
  {
    if arg.Some? && arg.value.ids.Some? then arg.value.ids.value else b.items
  }

  /** `get_choose_arg_weights`: positions past the last row use the last row. */
  function Weights(b: Bucket, arg: Option<ChooseArg>, position: nat): (w: seq<Word>)
    requires ArgFits(b, arg)
    ensures arg == None || arg.value.weightSet == None ==> w == b.itemWeights
    ensures arg.Some? && arg.value.weightSet.Some? ==>
              var rows := arg.value.weightSet.value;
              (position < |rows| ==> w == rows[position]) && (position >= |rows| ==> w == rows[|rows| - 1])
  {
    if arg.Some? && arg.value.weightSet.Some? then
      var rows := arg.value.weightSet.value;
      rows[if position >= |rows| then |rows| - 1 else position]
    else b.itemWeights
  }

  /** What one call of the chooser sees of a bucket. */
  datatype Straws = Straws(hash: int, ids: seq<int>, weights: seq<Word>)

  predicate Matched(s: Straws) {
    |s.ids| == |s.weights| > 0
  }

  function StrawsOf(b: Bucket, arg: Option<ChooseArg>, position: nat): (s: Straws)
    requires ArgFits(b, arg) && |b.itemWeights| == |b.items| > 0
    ensures Matched(s) && |s.ids| == |b.items|
  {
    var w := Weights(b, arg, position);
    assert |w| == |b.items|;
    Straws(b.hash, Ids(b, arg), w)
  }

  /** The lengths of all straws. */
  function Draws(s: Straws, x: int, r: int): (d: seq<int>)
    requires Matched(s)
    ensures |d| == |s.ids|
  {
    seq(|s.ids|, i requires 0 <= i < |s.ids| => Draw(s.hash, x, s.ids[i], r, s.weights[i]))
  }

  /** Straw `high` is at least as long as every straw and longer than every earlier one. */
  predicate FirstMaximum(d: seq<int>, high: nat) {
    && high < |d|
    && (forall i | 0 <= i < |d| :: d[i] <= d[high])
    && (forall i | 0 <= i < high :: d[i] < d[high])
  }

  function Winner(d: seq<int>): (high: nat)
    requires |d| > 0
    ensures FirstMaximum(d, high)
  {
    var n := |d| - 1;
    if n == 0 then 0
    else
      var high := Winner(d[..n]);
      if d[n] > d[high] then n else high
  }

  lemma WinnerUnique(d: seq<int>, high: nat)
    requires FirstMaximum(d, high)
    ensures high == Winner(d)
  {
  }

  /** The position at which a bucket's straws are won. */
  function WinnerOf(s: Straws, x: int, r: int): (high: nat)
    requires Matched(s)
    ensures high < |s.ids|
  {
    Winner(Draws(s, x, r))
  }

  /** The item a bucket yields for input x and replica factor r. */
  function BucketChoose(b: Bucket, x: int, r: int, arg: Option<ChooseArg>, position: nat): (item: int)
    requires ArgFits(b, arg) && |b.itemWeights| == |b.items| > 0
    ensures item in b.items
  {
    b.items[WinnerOf(StrawsOf(b, arg, position), x, r)]
  }

  /** The straw of entry `high` is at least as long as that of every entry, and longer than that of
      every earlier one. */
  predicate Wins(b: Bucket, x: int, r: int, ids: seq<int>, weights: seq<Word>, high: int)
    requires |ids| == |weights| == |b.items|
  {
    && 0 <= high < |ids|
    && (forall i | 0 <= i < |ids| ::
          Draw(b.hash, x, ids[i], r, weights[i]) <= Draw(b.hash, x, ids[high], r, weights[high]))
    && (forall i | 0 <= i < high ::
          Draw(b.hash, x, ids[i], r, weights[i]) < Draw(b.hash, x, ids[high], r, weights[high]))
  }

  /** The item stands where the first longest straw was drawn, with the ids and the weights that
      count for this position. */
  ghost predicate HasLongestStraw(b: Bucket, x: int, r: int, arg: Option<ChooseArg>, position: nat, item: int)
    requires ArgFits(b, arg) && |b.itemWeights| == |b.items| > 0
  {
    && |Ids(b, arg)| == |Weights(b, arg, position)| == |b.items|
    && exists high :: Wins(b, x, r, Ids(b, arg), Weights(b, arg, position), high) && b.items[high] == item
  }

  lemma ReturnsLongestStraw(b: Bucket, x: int, r: int, arg: Option<ChooseArg>, position: nat)
    requires ArgFits(b, arg) && |b.itemWeights| == |b.items| > 0
    ensures HasLongestStraw(b, x, r, arg, position, BucketChoose(b, x, r, arg, position))
  {
    hide Draw, Winner;
    var s := StrawsOf(b, arg, position);
    var d := Draws(s, x, r);
    assert FirstMaximum(d, Winner(d));
    assert forall i | 0 <= i < |d| :: d[i] == Draw(b.hash, x, s.ids[i], r, s.weights[i]);
    assert Wins(b, x, r, Ids(b, arg), Weights(b, arg, position), Winner(d));
  }

  /** No other item does, so this characterises the choice. */
  lemma LongestStrawUnique(b: Bucket, x: int, r: int, arg: Option<ChooseArg>, position: nat, item: int)
    requires ArgFits(b, arg) && |b.itemWeights| == |b.items| > 0
    requires HasLongestStraw(b, x, r, arg, position, item)
    ensures item == BucketChoose(b, x, r, arg, position)
  {
    hide Draw, BucketChoose;
    ReturnsLongestStraw(b, x, r, arg, position);
    var high :| Wins(b, x, r, Ids(b, arg), Weights(b, arg, position), high) && b.items[high] == item;
    var other :| Wins(b, x, r, Ids(b, arg), Weights(b, arg, position), other)
                 && b.items[other] == BucketChoose(b, x, r, arg, position);
    OneEntryWins(b, x, r, Ids(b, arg), Weights(b, arg, position), high, other);
  }

  lemma OneEntryWins(b: Bucket, x: int, r: int, ids: seq<int>, weights: seq<Word>, high: int, other: int)
    requires |ids| == |weights| == |b.items|
    requires Wins(b, x, r, ids, weights, high) && Wins(b, x, r, ids, weights, other)
    ensures high == other
  {
    hide Draw;
    assert Draw(b.hash, x, ids[high], r, weights[high]) == Draw(b.hash, x, ids[other], r, weights[other]);
  }

  /** The loop of `bucket_straw2_choose`. */
  method BucketStraw2Choose(b: Bucket, x: int, r: int, arg: Option<ChooseArg>, position: nat)
    returns (item: int)
    requires ArgFits(b, arg) && |b.itemWeights| == |b.items| > 0
    ensures item == BucketChoose(b, x, r, arg, position)
    ensures HasLongestStraw(b, x, r, arg, position, item)
  {
    hide Draw, HasLongestStraw;
    ReturnsLongestStraw(b, x, r, arg, position);
    var weights, ids := Weights(b, arg, position), Ids(b, arg);
    ghost var d := Draws(StrawsOf(b, arg, position), x, r);
    var high, highDraw := 0, 0;
    for i := 0 to |b.items|
      invariant i > 0 ==> FirstMaximum(d[..i], high) && highDraw == d[high]
    {
      var draw := Draw(b.hash, x, ids[i], r, weights[i]);
      assert draw == d[i];
      if i == 0 || draw > highDraw {
        high, highDraw := i, draw;
      }
    }
    assert d[..|b.items|] == d;
    WinnerUnique(d, high);
    item := b.items[high];
  }

  // ---------------------------------------------------------------- minimal movement

  /** `t` is `s` with the weight of straw j raised (or kept). */
  predicate Raised(s: Straws, t: Straws, j: nat) {
    && Matched(s) && Matched(t) && j < |s.ids|
    && t.hash == s.hash && t.ids == s.ids
    && s.weights[j] <= t.weights[j]
    && t.weights == s.weights[j := t.weights[j]]
  }

  /** Raising one weight moves an input only onto the raised item; read from `t` to `s`, lowering
      one weight moves an input only away from the lowered item. */
  lemma RaiseMovesOnlyToRaised(s: Straws, t: Straws, j: nat, x: int, r: int)
    requires Raised(s, t, j)
    ensures WinnerOf(t, x, r) in {WinnerOf(s, x, r), j}
  {
    hide Draw, Winner;
    DrawMonotone(s.hash, x, s.ids[j], r, s.weights[j], t.weights[j]);
    var d, e := Draws(s, x, r), Draws(t, x, r);
    assert d[j] <= e[j];
    assert forall i | 0 <= i < |d| && i != j :: d[i] == e[i];
    assert FirstMaximum(d, Winner(d)) && FirstMaximum(e, Winner(e));
  }

  function Without<T>(a: seq<T>, j: nat): (w: seq<T>)
    requires j < |a|
    ensures |w| == |a| - 1
    ensures forall i | 0 <= i < |w| :: w[i] == a[if i < j then i else i + 1]
  {
    a[..j] + a[j + 1..]
  }

  function Removed(s: Straws, j: nat): (t: Straws)
    requires Matched(s) && j < |s.ids| && |s.ids| > 1
    ensures Matched(t)
  {
    Straws(s.hash, Without(s.ids, j), Without(s.weights, j))
  }

  /** Deleting an item moves an input only if that item had won; read backwards, inserting an
      item anywhere in the bucket moves an input only onto the inserted item. */
  lemma RemovalMovesOnlyFromRemoved(s: Straws, j: nat, x: int, r: int)
    requires Matched(s) && j < |s.ids| && |s.ids| > 1
    ensures var before, after := WinnerOf(s, x, r), WinnerOf(Removed(s, j), x, r);
            before == j || before == if after < j then after else after + 1
  {
    hide Draw, Winner;
    var d, e := Draws(s, x, r), Draws(Removed(s, j), x, r);
    assert e == Without(d, j);
    var before := Winner(d);
    assert FirstMaximum(d, before);
    if before != j {
      WinnerUnique(e, if before < j then before else before - 1);
    }
  }

  /** A zero-weight item wins only when every weight is zero, and then the first item wins. */
  lemma ZeroWeightWinsOnlyAlone(s: Straws, x: int, r: int)
    requires Matched(s)
    ensures var high := WinnerOf(s, x, r);
            && (s.weights[high] == 0 <==> forall i | 0 <= i < |s.weights| :: s.weights[i] == 0)
            && (s.weights[high] == 0 ==> high == 0)
  {
    hide Draw, Winner;
    var d := Draws(s, x, r);
    assert FirstMaximum(d, Winner(d));
    assert forall i | 0 <= i < |d| :: (s.weights[i] == 0 <==> d[i] == S64_MIN) && d[i] >= S64_MIN;
    assert d[0] <= d[Winner(d)];
  }

  // ---------------------------------------------------------------- the items that are returned

  /** c is b with the weight of entry j raised (or kept). */
  predicate RaisedEntry(b: Bucket, c: Bucket, j: nat) {
    && |b.itemWeights| == |b.items| && j < |b.items| && |c.itemWeights| == |b.items|
    && b.itemWeights[j] <= c.itemWeights[j]
    && c == b.(weight := c.weight, itemWeights := b.itemWeights[j := c.itemWeights[j]])
  }

  /** A bucket with one weight raised returns what it returned before, or the raised item. */
  lemma RaiseMovesItem(b: Bucket, c: Bucket, j: nat, x: int, r: int, position: nat)
    requires RaisedEntry(b, c, j)
    ensures BucketChoose(c, x, r, None, position) in {BucketChoose(b, x, r, None, position), b.items[j]}
  {
    hide WinnerOf;
    RaiseMovesOnlyToRaised(StrawsOf(b, None, position), StrawsOf(c, None, position), j, x, r);
  }

  /** c is b without entry j. */
  function WithoutEntry(b: Bucket, j: nat): (c: Bucket)
    requires |b.itemWeights| == |b.items| && j < |b.items|
    ensures |c.itemWeights| == |c.items| == |b.items| - 1
  {
    b.(items := Without(b.items, j), itemWeights := Without(b.itemWeights, j))
  }

  /** A bucket without entry j returns what the whole bucket returned, unless that was entry j. */
  lemma RemovalMovesItem(b: Bucket, j: nat, x: int, r: int, position: nat)
    requires |b.itemWeights| == |b.items| && j < |b.items| && |b.items| > 1
    ensures BucketChoose(b, x, r, None, position) in {BucketChoose(WithoutEntry(b, j), x, r, None, position), b.items[j]}
  {
    hide WinnerOf;
    RemovalMovesOnlyFromRemoved(StrawsOf(b, None, position), j, x, r);
  }

  /** The item returned has a positive weight, unless all weights are zero; then it is the first. */
  lemma ZeroWeightItem(b: Bucket, x: int, r: int, arg: Option<ChooseArg>, position: nat)
    requires ArgFits(b, arg) && |b.itemWeights| == |b.items| > 0
    ensures |Weights(b, arg, position)| == |b.items|
    ensures (exists i | 0 <= i < |b.items| :: Weights(b, arg, position)[i] > 0) ==>
              exists i | 0 <= i < |b.items| ::
                Weights(b, arg, position)[i] > 0 && BucketChoose(b, x, r, arg, position) == b.items[i]
    ensures (forall i | 0 <= i < |b.items| :: Weights(b, arg, position)[i] == 0) ==>
              BucketChoose(b, x, r, arg, position) == b.items[0]
  {
    hide WinnerOf, Draw;
    var s := StrawsOf(b, arg, position);
    ZeroWeightWinsOnlyAlone(s, x, r);
    assert s.weights == Weights(b, arg, position);
    assert BucketChoose(b, x, r, arg, position) == b.items[WinnerOf(s, x, r)];
  }
}
