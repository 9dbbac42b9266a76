/** `crush_choose_firstn` as the source runs it: a for loop over replicas around two nested
    do-while loops, writing into caller-provided arrays, proved against `Firstn`. */
module FirstnLoops {
  import opened CrushMap
  import opened Straw2
  import opened Firstn
  import opened FirstnSafety

  /** What the caller must provide: room for the new entries, and separate arrays unless only
      devices are selected. */
  ghost predicate Arrays(j: Job, out: array<int>, out2: array?<int>, outpos: nat, room: int) {
    && outpos + room <= out.Length
    && outpos <= out.Length
    && (j.leaf ==>
          && out2 != null
          && outpos + room <= out2.Length
          && outpos <= out2.Length
          && (out2 == out ==> j.itype == 0))
  }

  ghost function Filled(j: Job, out: array<int>, out2: array?<int>, outpos: nat): Picks
    reads out, out2
    requires outpos <= out.Length
    requires j.leaf ==> out2 != null && outpos <= out2.Length
  {
    Picks(out[..outpos], if j.leaf then out2[..outpos] else [])
  }

  ghost function Scratch(j: Job, out2: array?<int>): set<object> {
    if j.leaf && out2 != null then {out2} else {}
  }

  /** `crush_bucket_choose`, with the replacement arguments of the bucket it is applied to. */
  method CrushBucketChoose(env: Env, at: nat, r: int, position: nat) returns (item: int)
    requires Sound(env) && at < |env.m.buckets| && env.m.buckets[at].items != []
    ensures item == Pick(env, at, r, position)
    ensures var b, arg := env.m.buckets[at], ArgFor(env.args, at);
            && ArgFits(b, arg) && |b.itemWeights| == |b.items|
            && HasLongestStraw(b, env.x, r, arg, position, item)
  {
    hide BucketChoose, HasLongestStraw;
    assert BucketOk(env.m, at);
    item := BucketStraw2Choose(env.m.buckets[at], env.x, r, ArgFor(env.args, at), position);
  }

  lemma OneReplica(k: Job, leaves: seq<int>, count: int)
    requires Ready(k) && count > 0 && !k.leaf
    ensures ChooseFirstn(k, if k.env.stable then 1 else |leaves| + 1, count, Picks(leaves, [])).out
         == match Search(k, Slot(if k.env.stable then 0 else |leaves|, leaves, []), Begin(k))
            case Placed(device, _) => leaves + [device]
            case GaveUp(_) => leaves
  {
    hide Search;
    var rep := if k.env.stable then 0 else |leaves|;
    var got := Picks(leaves, []);
    match Search(k, SlotAt(rep, got), Begin(k))
    case Placed(device, other) =>
      assert Replicas(k, rep + 1, rep + 1, count - 1, Commit(k, got, device, other)).out == leaves + [device];
    case GaveUp(_) =>
      assert Replicas(k, rep + 1, rep + 1, count, got).out == leaves;
  }

  /** A candidate of the wanted type: collision scan, leaf selection, overload test. */
  method JudgeCandidate(
    j: Job, ghost slot: Slot, r: int, item: int, out: array<int>, out2: array?<int>, outpos: nat, count: int)
    returns (collide: bool, reject: bool)
    requires Ready(j) && count > 0 && Arrays(j, out, out2, outpos, count)
    requires slot == SlotAt(slot.rep, Filled(j, out, out2, outpos))
    requires item < 0 ==> IsBucket(j.env.m, item)
    modifies Scratch(j, out2)
    decreases Level(j), 0
    ensures Judge(j, slot, r, item)
         == if collide then Collide
            else if reject then Reject
            else Accept(if j.leaf then out2[outpos] else item)
    ensures j.leaf ==> forall i | 0 <= i < out2.Length && i != outpos :: out2[i] == old(out2[i])
  {
    hide Search, Next, Replicas, ChooseFirstn, IsOut;
    collide, reject := false, false;
    var i := 0;
    while i < outpos && !collide
      invariant 0 <= i <= outpos
      invariant collide <==> item in out[..i]
    {
      collide := out[i] == item;
      i := i + 1;
    }
    assert collide <==> item in slot.chosen;
    if !collide && j.leaf {
      if item < 0 {
        var k := LeafJob(j, item, r);
        OneReplica(k, slot.leaves, count);
        var placed := CrushChooseFirstn(k, if j.env.stable then 1 else outpos + 1, out2, outpos, count, null);
        assert out2[..placed] == if placed > outpos then out2[..outpos] + [out2[outpos]] else out2[..outpos];
        reject := placed <= outpos;
      } else {
        out2[outpos] := item;
      }
    }
    if !reject && !collide && item >= 0 {
      reject := IsOut(j.env, item);
    }
  }

  lemma SearchStep(j: Job, slot: Slot, s: State)
    requires Valid(j, s)
    ensures Search(j, slot, s)
         == match Next(j, slot, s) case Stop(outcome) => outcome case Loop(t) => Search(j, slot, t)
  {
    hide Next;
  }

  /** The two nested do-while loops, for one replica. */
  method SearchReplica(j: Job, rep: int, out: array<int>, out2: array?<int>, outpos: nat, count: int)
    returns (item: int, skip: bool)
    requires Ready(j) && count > 0 && Arrays(j, out, out2, outpos, count)
    modifies Scratch(j, out2)
    decreases Level(j), 1
    ensures Search(j, SlotAt(rep, old(Filled(j, out, out2, outpos))), Begin(j))
         == if skip then GaveUp(item) else Placed(item, if j.leaf then out2[outpos] else item)
    ensures j.leaf ==> forall i | 0 <= i < out2.Length && i != outpos :: out2[i] == old(out2[i])
  {
    hide Judge, Pick, RetryBound, Search, Rank, WellFormed, ArgsFit, ArgFits, ArgFor, HasLongestStraw;
    var m := j.env.m;
    ghost var got := Filled(j, out, out2, outpos);
    ghost var slot := SlotAt(rep, got);
    ghost var goal := Search(j, slot, Begin(j));
    item, skip := 0, false;
    var ftotal: nat := 0;
    var retryDescent := true;
    while retryDescent
      invariant retryDescent ==> !skip && Search(j, slot, State(j.root, item, ftotal, 0)) == goal
      invariant !retryDescent ==>
        goal == if skip then GaveUp(item) else Placed(item, if j.leaf then out2[outpos] else item)
      invariant j.leaf ==> forall i | 0 <= i < out2.Length && i != outpos :: out2[i] == old(out2[i])
      decreases retryDescent, Clamp(j.tries - ftotal)
    {
      retryDescent := false;
      var at: nat := j.root;
      var flocal: nat := 0;
      var retryBucket := true;
      ghost var ftotal0 := ftotal;
      while retryBucket
        invariant at < |m.buckets| && ftotal >= ftotal0
        invariant retryBucket ==>
          !skip && !retryDescent && Search(j, slot, State(at, item, ftotal, flocal)) == goal
        invariant retryDescent ==>
          !skip && Search(j, slot, State(j.root, item, ftotal, 0)) == goal && ftotal0 < ftotal < j.tries
        invariant !retryBucket && !retryDescent ==>
          goal == if skip then GaveUp(item) else Placed(item, if j.leaf then out2[outpos] else item)
        invariant j.leaf ==> forall i | 0 <= i < out2.Length && i != outpos :: out2[i] == old(out2[i])
        decreases retryBucket, Clamp(j.tries - ftotal), Clamp(RetryBound(j.env) - flocal), Rank(m)[at]
      {
        ghost var s := State(at, item, ftotal, flocal);
        ghost var step := Next(j, slot, s);
        SearchStep(j, slot, s);
        retryBucket := false;
        var collide, reject := false, false;
        var r := rep + j.parentR + ftotal;
        var inner := m.buckets[at];
        if inner.items == [] {
          reject := true;
        } else {
          item := CrushBucketChoose(j.env, at, r, outpos);
          if item >= m.maxDevices {
            skip := true;
            break;
          }
          if TypeOf(m, item) != j.itype {
            if item >= 0 {
              skip := true;
              break;
            }
            at := -1 - item;
            retryBucket := true;
            continue;
          }
          collide, reject := JudgeCandidate(j, slot, r, item, out, out2, outpos, count);
        }
        if reject || collide {
          ftotal, flocal := ftotal + 1, flocal + 1;
          if collide && flocal <= j.env.localRetries {
            retryBucket := true;
          } else if j.env.fallback > 0 && flocal <= |inner.items| + j.env.fallback {
            retryBucket := true;
          } else if ftotal < j.tries {
            retryDescent := true;
          } else {
            skip := true;
          }
        }
        assert retryBucket ==> step == Loop(State(at, item, ftotal, flocal));
      }
    }
  }

  method CrushChooseFirstn(
    j: Job, numrep: int, out: array<int>, outpos0: nat, outSize: int, out2: array?<int>)
    returns (outpos: nat)
    requires Ready(j) && Arrays(j, out, out2, outpos0, outSize)
    modifies out, Scratch(j, out2)
    decreases Level(j), 2
    ensures outpos0 <= outpos <= out.Length
    ensures j.leaf ==> outpos <= out2.Length
    ensures Filled(j, out, out2, outpos) == ChooseFirstn(j, numrep, outSize, old(Filled(j, out, out2, outpos0)))
    ensures forall i | outpos <= i < out.Length && (i > outpos || !j.leaf || out2 != out) :: out[i] == old(out[i])
    ensures j.leaf ==> forall i | outpos < i < out2.Length :: out2[i] == old(out2[i])
  {
    hide Search, Usable, Below, Drawn;
    outpos := outpos0;
    var count := outSize;
    ghost var got := Filled(j, out, out2, outpos);
    ghost var goal := ChooseFirstn(j, numrep, outSize, got);
    var rep := if j.env.stable then 0 else outpos;
    while rep < numrep && count > 0
      invariant outpos0 <= outpos && outpos + count == outpos0 + outSize
      invariant Arrays(j, out, out2, outpos, count)
      invariant got == Filled(j, out, out2, outpos)
      invariant goal == Replicas(j, rep, numrep, count, got)
      invariant forall i | outpos <= i < out.Length && (i > outpos || !j.leaf || out2 != out) :: out[i] == old(out[i])
      invariant j.leaf ==> forall i | outpos < i < out2.Length :: out2[i] == old(out2[i])
      decreases numrep - rep
    {
      SearchSafe(j, SlotAt(rep, got), Begin(j));
      var item, skip := SearchReplica(j, rep, out, out2, outpos, count);
      assert got == Filled(j, out, out2, outpos);
      if !skip {
        ghost var device := if j.leaf then out2[outpos] else item;
        TypeZero(j.env.m, item);
        out[outpos] := item;
        outpos := outpos + 1;
        count := count - 1;
        got := Commit(j, got, item, device);
        assert out[..outpos] == got.out;
        assert j.leaf ==> out2[..outpos] == got.out2;
      }
      rep := rep + 1;
    }
  }
}
