/** Movement through the hierarchy: what one descent does when weights are raised along a path,
    the whole-tree form of the straw2 promise. */
module Descent {
  import opened CrushMap
  import opened Straw2
  import opened Firstn
  import opened FirstnSafety

  /** The inner loop does not descend below this item. */
  predicate Final(m: Map, t: int, item: int)
    requires item < 0 ==> IsBucket(m, item)
  {
    item >= 0 || item >= m.maxDevices || TypeOf(m, item) == t
  }

  /** The items one descent draws from bucket `at` on, for a fixed replica factor. */
  function Trail(env: Env, at: nat, t: int, r: int, position: nat): (trail: seq<int>)
    requires Sound(env) && at < |env.m.buckets|
    decreases Rank(env.m)[at]
  {
    if env.m.buckets[at].items == [] then []
    else
      var item := Pick(env, at, r, position);
      if Final(env.m, t, item) then [item]
      else
        ChildLower(env.m, at, item);
        [item] + Trail(env, -1 - item, t, r, position)
  }

  /** The trail is what the inner loop follows: it moves to the drawn bucket, without touching its
      counters, exactly while the trail goes on. */
  lemma TrailIsTheInnerLoop(j: Job, slot: Slot, s: State)
    requires Valid(j, s) && j.env.m.buckets[s.at].items != []
    ensures var r := slot.rep + j.parentR + s.ftotal;
            var item := Pick(j.env, s.at, r, |slot.chosen|);
            && (!Final(j.env.m, j.itype, item) ==>
                  && Next(j, slot, s) == Loop(State(-1 - item, item, s.ftotal, s.flocal))
                  && Trail(j.env, s.at, j.itype, r, |slot.chosen|)
                     == [item] + Trail(j.env, -1 - item, j.itype, r, |slot.chosen|))
            && (Final(j.env.m, j.itype, item) ==>
                  && Trail(j.env, s.at, j.itype, r, |slot.chosen|) == [item]
                  && (Next(j, slot, s).Loop? ==> Next(j, slot, s).state.ftotal == s.ftotal + 1))
  {
    hide Judge, Pick, StaysLocal, RetryBound, WellFormed;
  }

  /** Bucket i after raising (or keeping) the weight of its k-th item only. */
  predicate RaisedBucket(b: Bucket, c: Bucket, k: nat) {
    && c.items == b.items && c.id == b.id && c.btype == b.btype && c.hash == b.hash
    && |c.itemWeights| == |b.itemWeights|
    && (forall i | 0 <= i < |b.itemWeights| && i != k :: c.itemWeights[i] == b.itemWeights[i])
    && (k < |b.itemWeights| ==> b.itemWeights[k] <= c.itemWeights[k])
  }

  /** In every bucket at most the weight of one child, number up[i], was raised: the entries on a
      path from the root to a device whose weight grew. */
  predicate RaisedMap(m: Map, n: Map, up: seq<nat>) {
    && |n.buckets| == |m.buckets| == |up| && n.maxDevices == m.maxDevices
    && forall i | 0 <= i < |up| :: RaisedBucket(m.buckets[i], n.buckets[i], up[i])
  }

  /** The same for the weights that a draw for this position uses, which may come from a
      replacement row: nothing changed but the k-th weight, which was raised or kept. */
  predicate RaisedRow(b: Bucket, arg: Option<ChooseArg>, c: Bucket, brg: Option<ChooseArg>, position: nat, k: nat)
    requires ArgFits(b, arg) && ArgFits(c, brg)
  {
    && c.items == b.items && c.id == b.id && c.btype == b.btype && c.hash == b.hash
    && |c.itemWeights| == |b.itemWeights| && Ids(c, brg) == Ids(b, arg)
    && var v, w := Weights(b, arg, position), Weights(c, brg, position);
       && |w| == |v|
       && (forall i | 0 <= i < |v| && i != k :: w[i] == v[i])
       && (k < |v| ==> v[k] <= w[k])
  }

  /** In every bucket at most one of the weights that this position uses was raised, whether in the
      buckets or in the replacement arguments. */
  predicate RaisedAt(env: Env, high: Env, up: seq<nat>, position: nat) {
    && high == env.(m := high.m, args := high.args)
    && |high.m.buckets| == |env.m.buckets| == |up| && high.m.maxDevices == env.m.maxDevices
    && ArgsFit(env.m, env.args) && ArgsFit(high.m, high.args)
    && forall i | 0 <= i < |up| ::
         RaisedRow(env.m.buckets[i], ArgFor(env.args, i), high.m.buckets[i], ArgFor(high.args, i), position, up[i])
  }

  /** Raising bucket weights only is such a change, for every position and with any arguments. */
  lemma RaisedMapIsRaised(env: Env, n: Map, up: seq<nat>, position: nat)
    requires Sound(env) && RaisedMap(env.m, n, up)
    ensures RaisedAt(env, env.(m := n), up, position)
  {
    hide WellFormed;
    var high := env.(m := n);
    forall i | 0 <= i < |up|
      ensures ArgFits(n.buckets[i], ArgFor(env.args, i))
      ensures RaisedRow(env.m.buckets[i], ArgFor(env.args, i), n.buckets[i], ArgFor(env.args, i), position, up[i])
    {
      assert RaisedBucket(env.m.buckets[i], n.buckets[i], up[i]);
      assert env.args.Some? ==> ArgFits(env.m.buckets[i], Some(env.args.value[i]));
    }
  }

  /** A map after such a change is as good as before. */
  lemma RaisedWellFormed(env: Env, high: Env, up: seq<nat>, position: nat)
    requires Sound(env) && RaisedAt(env, high, up, position)
    ensures Sound(high)
  {
    var m, n := env.m, high.m;
    forall i | 0 <= i < |n.buckets|
      ensures BucketOk(n, i)
    {
      assert BucketOk(m, i);
      assert RaisedRow(m.buckets[i], ArgFor(env.args, i), n.buckets[i], ArgFor(high.args, i), position, up[i]);
    }
    assert Ranked(n, Rank(m)) by {
      forall i, item | 0 <= i < |n.buckets| && item in n.buckets[i].items && IsBucket(n, item)
        ensures Rank(m)[-1 - item] < Rank(m)[i]
      {
        assert RaisedRow(m.buckets[i], ArgFor(env.args, i), n.buckets[i], ArgFor(high.args, i), position, up[i]);
        ChildLower(m, i, item);
      }
    }
  }

  /** One level: the draw stays, or moves to the raised child. */
  lemma LevelMoves(env: Env, high: Env, up: seq<nat>, at: nat, r: int, position: nat)
    requires Sound(env) && RaisedAt(env, high, up, position) && Sound(high)
    requires at < |env.m.buckets| && env.m.buckets[at].items != []
    ensures high.m.buckets[at].items == env.m.buckets[at].items
    ensures var before, after := Pick(env, at, r, position), Pick(high, at, r, position);
            after == before || (up[at] < |high.m.buckets[at].items| && after == high.m.buckets[at].items[up[at]])
  {
    hide WinnerOf, RaisedRow, StrawsOf;
    var b, c, k := env.m.buckets[at], high.m.buckets[at], up[at];
    var arg, brg := ArgFor(env.args, at), ArgFor(high.args, at);
    assert BucketOk(env.m, at) && BucketOk(high.m, at) && RaisedRow(b, arg, c, brg, position, k);
    StrawsRaised(b, arg, c, brg, position, k);
    if k < |b.items| {
      RaiseMovesOnlyToRaised(StrawsOf(b, arg, position), StrawsOf(c, brg, position), k, env.x, r);
    }
  }

  lemma StrawsRaised(b: Bucket, arg: Option<ChooseArg>, c: Bucket, brg: Option<ChooseArg>, position: nat, k: nat)
    requires ArgFits(b, arg) && ArgFits(c, brg) && RaisedRow(b, arg, c, brg, position, k)
    requires |b.itemWeights| == |b.items| > 0 && |c.itemWeights| == |c.items|
    ensures c.items == b.items && c.items != []
    ensures var s, t := StrawsOf(b, arg, position), StrawsOf(c, brg, position);
            && (k < |b.items| ==> Raised(s, t, k))
            && (k >= |b.items| ==> t == s)
  {
    var s, t := StrawsOf(b, arg, position), StrawsOf(c, brg, position);
    if k < |b.items| {
      assert t.weights == s.weights[k := t.weights[k]];
    } else {
      assert t.weights == s.weights;
    }
  }

  /** The bucket from which the l-th item of a trail was drawn. */
  function BucketOn(at: nat, trail: seq<int>, l: nat): int
    requires l <= |trail|
  {
    if l == 0 then at else -1 - trail[l - 1]
  }

  /** The trails agree before level l, where the new one enters the raised child. */
  predicate DivergesAt(n: Map, up: seq<nat>, at: nat, before: seq<int>, after: seq<int>, l: nat) {
    && l < |before| && l < |after|
    && before[..l] == after[..l] && before[l] != after[l]
    && 0 <= BucketOn(at, after, l) < |up|
    && 0 <= BucketOn(at, after, l) < |n.buckets|
    && up[BucketOn(at, after, l)] < |n.buckets[BucketOn(at, after, l)].items|
    && after[l] == n.buckets[BucketOn(at, after, l)].items[up[BucketOn(at, after, l)]]
  }

  lemma DivergesLater(n: Map, up: seq<nat>, at: nat, item: int, before: seq<int>, after: seq<int>, l: nat)
    requires IsBucket(n, item) && DivergesAt(n, up, -1 - item, before, after, l)
    ensures DivergesAt(n, up, at, [item] + before, [item] + after, l + 1)
  {
    assert ([item] + before)[..l + 1] == [item] + before[..l];
    assert ([item] + after)[..l + 1] == [item] + after[..l];
    assert BucketOn(at, [item] + after, l + 1) == BucketOn(-1 - item, after, l);
  }

  /** Either the whole descent is unchanged, or at the first level where the two descents differ
      the new one enters the raised child. */
  lemma {:induction false} RaisingMovesOntoThePath(
    env: Env, high: Env, up: seq<nat>, at: nat, t: int, r: int, position: nat) returns (l: nat)
    requires Sound(env) && RaisedAt(env, high, up, position) && at < |env.m.buckets|
    ensures Sound(high)
    ensures var before, after := Trail(env, at, t, r, position), Trail(high, at, t, r, position);
            before == after || DivergesAt(high.m, up, at, before, after, l)
    decreases Rank(env.m)[at]
  {
    hide Pick, WellFormed, DivergesAt, BucketOn, RaisedRow;
    RaisedWellFormed(env, high, up, position);
    l := 0;
    SameItems(env, high, up, position, at);
    if env.m.buckets[at].items != [] {
      LevelMoves(env, high, up, at, r, position);
      var item := Pick(env, at, r, position);
      if Pick(high, at, r, position) != item {
        FirstStep(env, at, t, r, position);
        FirstStep(high, at, t, r, position);
        DivergesNow(high.m, up, at, Trail(env, at, t, r, position), Trail(high, at, t, r, position));
      } else {
        SameFinal(env, high, up, position, t, item);
        if !Final(env.m, t, item) {
          ChildLower(env.m, at, item);
          l := RaisingMovesOntoThePath(env, high, up, -1 - item, t, r, position);
          var before, after := Trail(env, -1 - item, t, r, position), Trail(high, -1 - item, t, r, position);
          if before != after {
            DivergesLater(high.m, up, at, item, before, after, l);
          }
          l := l + 1;
        }
      }
    }
  }

  lemma SameItems(env: Env, high: Env, up: seq<nat>, position: nat, i: nat)
    requires RaisedAt(env, high, up, position) && i < |env.m.buckets|
    ensures high.m.buckets[i].items == env.m.buckets[i].items
    ensures high.m.buckets[i].btype == env.m.buckets[i].btype
  {
    assert RaisedRow(env.m.buckets[i], ArgFor(env.args, i), high.m.buckets[i], ArgFor(high.args, i), position, up[i]);
  }

  lemma SameFinal(env: Env, high: Env, up: seq<nat>, position: nat, t: int, item: int)
    requires RaisedAt(env, high, up, position) && (item < 0 ==> IsBucket(env.m, item))
    ensures Final(high.m, t, item) == Final(env.m, t, item)
  {
    if item < 0 {
      SameItems(env, high, up, position, -1 - item);
    }
  }

  lemma FirstStep(env: Env, at: nat, t: int, r: int, position: nat)
    requires Sound(env) && at < |env.m.buckets| && env.m.buckets[at].items != []
    ensures var trail := Trail(env, at, t, r, position);
            trail != [] && trail[0] == Pick(env, at, r, position)
  {
    hide Pick, WellFormed;
  }

  lemma DivergesNow(n: Map, up: seq<nat>, at: nat, before: seq<int>, after: seq<int>)
    requires before != [] && after != [] && before[0] != after[0]
    requires at < |up| == |n.buckets| && up[at] < |n.buckets[at].items|
    requires after[0] == n.buckets[at].items[up[at]]
    ensures DivergesAt(n, up, at, before, after, 0)
  {
  }
}
