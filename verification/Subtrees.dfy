/** The devices below a bucket, listed: every one of them, and each once. */
module Subtrees {
  import opened CrushMap
  import opened FirstnSafety
  import opened FailureDomains

  /** The devices below the first n items of bucket k, in the order of the items. */
  function Devices(m: Map, k: nat, n: nat): seq<int>
    requires WellFormed(m) && k < |m.buckets| && n <= |m.buckets[k].items|
    decreases Rank(m)[k], n
  {
    if n == 0 then []
    else
      ChildLower(m, k, m.buckets[k].items[n - 1]);
      Devices(m, k, n - 1) + Under(m, m.buckets[k].items[n - 1])
  }

  /** The devices of one item. */
  function Under(m: Map, item: int): seq<int>
    requires WellFormed(m) && (item < 0 ==> IsBucket(m, item))
    decreases if item < 0 then Rank(m)[-1 - item] else 0, if item < 0 then |m.buckets[-1 - item].items| + 1 else 0
  {
    if item < 0 then Devices(m, -1 - item, |m.buckets[-1 - item].items|) else [item]
  }

  // ---------------------------------------------------------------- the relation below

  /** What `Below` says, without its ranks: an item of bucket i, or of a bucket below it. */
  lemma BelowStep(m: Map, i: nat, p: nat, item: int)
    requires WellFormed(m) && i < |m.buckets| && p < |m.buckets| && item in m.buckets[p].items
    requires p == i || Below(m, i, -1 - p)
    ensures item < 0 ==> IsBucket(m, item)
    ensures Below(m, i, item)
  {
    ChildLower(m, p, item);
    if p != i {
      BelowLower(m, i, -1 - p);
    }
  }

  /** Everything below a child bucket is below its parent. */
  lemma {:induction false} BelowThroughChild(m: Map, k: nat, a: nat, item: int)
    requires WellFormed(m) && k < |m.buckets| && a < |m.buckets| && -1 - a in m.buckets[k].items
    requires (item < 0 ==> IsBucket(m, item)) && Below(m, a, item)
    ensures Below(m, k, item)
    decreases Height(m, -1 - a) - Height(m, item)
  {
    hide Below, WellFormed;
    var p: int := BelowParent(m, a, item);
    if p == a {
      BelowStep(m, k, k, -1 - a);
    } else {
      BelowThroughChild(m, k, a, -1 - p);
    }
    BelowStep(m, k, p, item);
  }

  /** The item is `top` or lies below it. */
  ghost predicate Covers(m: Map, top: int, item: int)
    requires WellFormed(m) && (top < 0 ==> IsBucket(m, top)) && (item < 0 ==> IsBucket(m, item))
  {
    top == item || (top < 0 && Below(m, -1 - top, item))
  }

  /** Whatever lies below a bucket is covered by one of its items. */
  lemma {:induction false} BelowFirstStep(m: Map, k: nat, item: int) returns (top: int)
    requires WellFormed(m) && k < |m.buckets| && (item < 0 ==> IsBucket(m, item)) && Below(m, k, item)
    ensures top in m.buckets[k].items && (top < 0 ==> IsBucket(m, top)) && Covers(m, top, item)
    decreases Height(m, -1 - k) - Height(m, item)
  {
    hide Below, WellFormed;
    var p: int := BelowParent(m, k, item);
    if p == k {
      top := item;
    } else {
      top := BelowFirstStep(m, k, -1 - p);
      ChildLower(m, k, top);
      TopIsBucket(m, top, p);
      BelowStep(m, -1 - top, p, item);
    }
  }

  lemma TopIsBucket(m: Map, top: int, p: nat)
    requires WellFormed(m) && (top < 0 ==> IsBucket(m, top)) && p < |m.buckets| && Covers(m, top, -1 - p)
    ensures top < 0 && (p == -1 - top || Below(m, -1 - top, -1 - p))
  {
    hide Below, WellFormed;
  }

  /** With single parents, two items of one bucket cover nothing in common. */
  lemma SiblingsApart(m: Map, k: nat, a: int, b: int, item: int)
    requires WellFormed(m) && OneParent(m) && k < |m.buckets| && a in m.buckets[k].items && b in m.buckets[k].items
    requires (a < 0 ==> IsBucket(m, a)) && (b < 0 ==> IsBucket(m, b)) && (item < 0 ==> IsBucket(m, item))
    requires Covers(m, a, item) && Covers(m, b, item)
    ensures a == b
  {
    hide Below, WellFormed, Rank;
    if a == item {
      if b != item {
        ChildNotBelowSibling(m, k, a, b);
      }
    } else if b == item {
      ChildNotBelowSibling(m, k, b, a);
    } else {
      AncestorsChain(m, -1 - a, -1 - b, item);
      if a != b {
        if Below(m, -1 - a, b) {
          ChildNotBelowSibling(m, k, b, a);
        } else {
          ChildNotBelowSibling(m, k, a, b);
        }
      }
    }
  }

  lemma ChildNotBelowSibling(m: Map, k: nat, a: int, b: int)
    requires WellFormed(m) && OneParent(m) && k < |m.buckets| && a in m.buckets[k].items && b in m.buckets[k].items
    requires b < 0 && IsBucket(m, b) && (a < 0 ==> IsBucket(m, a))
    ensures !Below(m, -1 - b, a)
  {
    hide Below, WellFormed, Rank;
    if Below(m, -1 - b, a) {
      var p: int := BelowParent(m, -1 - b, a);
      assert p == k;
      ChildLower(m, k, b);
    }
  }

  // ---------------------------------------------------------------- the list

  lemma {:induction false} DevicesSource(m: Map, k: nat, n: nat, d: int) returns (i: nat)
    requires WellFormed(m) && k < |m.buckets| && n <= |m.buckets[k].items| && d in Devices(m, k, n)
    ensures i < n && (m.buckets[k].items[i] < 0 ==> IsBucket(m, m.buckets[k].items[i]))
    ensures d in Under(m, m.buckets[k].items[i])
  {
    hide WellFormed, Under;
    ChildLower(m, k, m.buckets[k].items[n - 1]);
    if d in Devices(m, k, n - 1) {
      i := DevicesSource(m, k, n - 1, d);
    } else {
      i := n - 1;
    }
  }

  lemma {:induction false} UnderInDevices(m: Map, k: nat, n: nat, i: nat, d: int)
    requires WellFormed(m) && k < |m.buckets| && i < n <= |m.buckets[k].items|
    requires m.buckets[k].items[i] < 0 ==> IsBucket(m, m.buckets[k].items[i])
    requires d in Under(m, m.buckets[k].items[i])
    ensures d in Devices(m, k, n)
  {
    hide WellFormed, Under;
    ChildLower(m, k, m.buckets[k].items[n - 1]);
    if i < n - 1 {
      UnderInDevices(m, k, n - 1, i, d);
    }
  }

  lemma {:induction false} DevicesAreBelow(m: Map, k: nat, d: int)
    requires WellFormed(m) && k < |m.buckets| && d in Devices(m, k, |m.buckets[k].items|)
    ensures d >= 0 && Below(m, k, d)
    decreases Rank(m)[k]
  {
    hide WellFormed, Below, Devices;
    var i := DevicesSource(m, k, |m.buckets[k].items|, d);
    var item := m.buckets[k].items[i];
    ChildLower(m, k, item);
    if item < 0 {
      DevicesAreBelow(m, -1 - item, d);
      BelowThroughChild(m, k, -1 - item, d);
    } else {
      BelowStep(m, k, k, item);
    }
  }

  lemma {:induction false} BelowAreDevices(m: Map, k: nat, d: nat)
    requires WellFormed(m) && k < |m.buckets| && Below(m, k, d)
    ensures d in Devices(m, k, |m.buckets[k].items|)
    decreases Rank(m)[k]
  {
    hide WellFormed, Below, Devices;
    var top := BelowFirstStep(m, k, d);
    var i :| 0 <= i < |m.buckets[k].items| && m.buckets[k].items[i] == top;
    if top < 0 {
      ChildLower(m, k, top);
      BelowAreDevices(m, -1 - top, d);
    }
    UnderInDevices(m, k, |m.buckets[k].items|, i, d);
  }

  /** Where items have single parents and are listed once, so are the devices below a bucket. */
  lemma {:induction false} DevicesOnce(m: Map, k: nat, n: nat)
    requires WellFormed(m) && OneParent(m) && (forall b <- m.buckets :: Distinct(b.items))
    requires k < |m.buckets| && n <= |m.buckets[k].items|
    ensures Distinct(Devices(m, k, n))
    decreases Rank(m)[k], n
  {
    hide WellFormed, OneParent;
    if n > 0 {
      var items := m.buckets[k].items;
      var item := items[n - 1];
      ChildLower(m, k, item);
      DevicesOnce(m, k, n - 1);
      if item < 0 {
        DevicesOnce(m, -1 - item, |m.buckets[-1 - item].items|);
      }
      forall d | d in Devices(m, k, n - 1) && d in Under(m, item)
        ensures false
      {
        var i := DevicesSource(m, k, n - 1, d);
        assert m.buckets[k] in m.buckets && items[i] != item;
        UnderIsCovered(m, items[i], d);
        UnderIsCovered(m, item, d);
        SiblingsApart(m, k, items[i], item, d);
      }
      DistinctJoin(Devices(m, k, n - 1), Under(m, item));
    }
  }

  lemma UnderIsCovered(m: Map, item: int, d: int)
    requires WellFormed(m) && (item < 0 ==> IsBucket(m, item)) && d in Under(m, item)
    ensures d >= 0 && Covers(m, item, d)
  {
    hide WellFormed, Below, Devices;
    if item < 0 {
      DevicesAreBelow(m, -1 - item, d);
    }
  }

  lemma DistinctJoin(a: seq<int>, b: seq<int>)
    requires Distinct(a) && Distinct(b) && forall d | d in a && d in b :: false
    ensures Distinct(a + b)
  {
    forall i, k | 0 <= i < k < |a + b|
      ensures (a + b)[i] != (a + b)[k]
    {
      if i < |a| <= k {
        assert (a + b)[i] in a && (a + b)[k] in b;
      }
    }
  }

  /** In a map with single parents and no repeated entries, the list of a bucket holds exactly the
      devices below it, each once. */
  lemma DevicesExactlyOnce(m: Map, k: nat)
    requires WellFormed(m) && OneParent(m) && (forall b <- m.buckets :: Distinct(b.items)) && k < |m.buckets|
    ensures var ds := Devices(m, k, |m.buckets[k].items|);
            && Distinct(ds)
            && forall d: int :: d in ds <==> d >= 0 && Below(m, k, d)
  {
    hide WellFormed, Below, Devices, OneParent;
    DevicesOnce(m, k, |m.buckets[k].items|);
    var ds := Devices(m, k, |m.buckets[k].items|);
    forall d: int
      ensures d in ds <==> d >= 0 && Below(m, k, d)
    {
      if d in ds {
        DevicesAreBelow(m, k, d);
      }
      if d >= 0 && Below(m, k, d) {
        BelowAreDevices(m, k, d);
      }
    }
  }
}
