/** The replica selector `crush_choose_firstn` (CRUSH_Research/main.cpp:263-437) as a small-step
    search: one `Next` is one pass of the inner do-while loop, with its retries, descents,
    give-ups and the recursive leaf selection. */
module Firstn {
  import opened PseudoRandom
  import opened CrushHash
  import opened CrushMap
  import opened Straw2

  /** The arguments every level of the recursion shares. */
  datatype Env = Env(
    m: Map, weight: seq<Word>, weightMax: int, x: int,
    localRetries: nat, fallback: nat, varyR: nat, stable: bool, args: ChooseArgs)

  /** The arguments of one activation; `leaf` is `recurse_to_leaf`, `root` the start bucket. */
  datatype Job = Job(
    env: Env, root: nat, itype: int, tries: nat, recurseTries: nat, leaf: bool, parentR: int)

  /** What one replica sees: its number, and the first `outpos` entries of `out` and `out2`. */
  datatype Slot = Slot(rep: int, chosen: seq<int>, leaves: seq<int>)

  /** Locals of the two do-while loops; `at` is the bucket `in`. */
  datatype State = State(at: nat, item: int, ftotal: nat, flocal: nat)

  datatype Verdict = Accept(device: int) | Reject | Collide

  /** `Placed` commits `item` (and `device` in out2); `GaveUp` is `skip_rep`. */
  datatype Outcome = Placed(item: int, device: int) | GaveUp(item: int)

  datatype Step = Loop(state: State) | Stop(outcome: Outcome)

  ghost predicate Sound(env: Env) {
    && WellFormed(env.m)
    && ArgsFit(env.m, env.args)
    && env.weightMax <= |env.weight|
  }

  ghost predicate Ready(j: Job) {
    Sound(j.env) && j.root < |j.env.m.buckets|
  }

  // ---------------------------------------------------------------- pieces of one pass

  /** `is_out` */
  predicate IsOut(env: Env, item: nat)
    requires env.weightMax <= |env.weight|
  {
    if item >= env.weightMax then true
    else if env.weight[item] >= 0x1_0000 then false
    else if env.weight[item] == 0 then true
    else !(Hash32_2(RJENKINS1, env.x, item) % 0x1_0000 < env.weight[item])
  }

  /** `sub_r`: an arithmetic right shift of r, or 0. */
  function SubR(env: Env, r: int): int {
    if env.varyR > 0 then r / Pow2(env.varyR - 1) else 0
  }

  /** The item drawn from bucket `at`. */
  function Pick(env: Env, at: nat, r: int, position: nat): (item: int)
    requires Sound(env) && at < |env.m.buckets| && env.m.buckets[at].items != []
    ensures item in env.m.buckets[at].items
    ensures item < 0 ==> IsBucket(env.m, item)
  {
    hide BucketChoose;
    assert BucketOk(env.m, at);
    BucketChoose(env.m.buckets[at], env.x, r, ArgFor(env.args, at), position)
  }

  /** The item drawn from a bucket has its first longest straw, with the replacement argument of
      that bucket. */
  lemma PickHasLongestStraw(env: Env, at: nat, r: int, position: nat)
    requires Sound(env) && at < |env.m.buckets| && env.m.buckets[at].items != []
    ensures var b, arg := env.m.buckets[at], ArgFor(env.args, at);
            && ArgFits(b, arg) && |b.itemWeights| == |b.items|
            && HasLongestStraw(b, env.x, r, arg, position, Pick(env, at, r, position))
  {
    hide BucketChoose, HasLongestStraw;
    assert BucketOk(env.m, at);
    ReturnsLongestStraw(env.m.buckets[at], env.x, r, ArgFor(env.args, at), position);
  }

  function LeafJob(j: Job, item: int, r: int): (k: Job)
    requires Ready(j) && IsBucket(j.env.m, item)
    ensures Ready(k)
  {
    Job(j.env, -1 - item, 0, j.recurseTries, 0, false, SubR(j.env, r))
  }

  function LeafSlot(j: Job, slot: Slot): Slot {
    Slot(if j.env.stable then 0 else |slot.leaves|, slot.leaves, [])
  }

  function Begin(j: Job): State {
    State(j.root, 0, 0, 0)
  }

  // ---------------------------------------------------------------- termination measure

  function LargestBucket(buckets: seq<Bucket>): (n: nat)
    ensures forall b <- buckets :: |b.items| <= n
  {
    if buckets == [] then 0
    else
      var n := LargestBucket(buckets[1..]);
      assert forall b <- buckets :: b == buckets[0] || b in buckets[1..];
      if |buckets[0].items| > n then |buckets[0].items| else n
  }

  /** At most this many local retries happen in one descent. */
  function RetryBound(env: Env): nat {
    var f := if env.fallback > 0 then LargestBucket(env.m.buckets) + env.fallback else 0;
    if env.localRetries > f then env.localRetries else f
  }

  function Clamp(i: int): nat {
    if i < 0 then 0 else i
  }

  ghost predicate Valid(j: Job, s: State) {
    Ready(j) && s.at < |j.env.m.buckets|
  }

  ghost function Level(j: Job): nat {
    if j.leaf then 1 else 0
  }

  /** Lexicographic: remaining descents, then local retries, then height in the hierarchy. */
  ghost predicate Progress(j: Job, t: State, s: State)
    requires Valid(j, s) && Valid(j, t)
  {
    || Clamp(j.tries - t.ftotal) < Clamp(j.tries - s.ftotal)
    || (&& Clamp(j.tries - t.ftotal) == Clamp(j.tries - s.ftotal)
        && (|| Clamp(RetryBound(j.env) - t.flocal) < Clamp(RetryBound(j.env) - s.flocal)
            || (&& Clamp(RetryBound(j.env) - t.flocal) == Clamp(RetryBound(j.env) - s.flocal)
                && Rank(j.env.m)[t.at] < Rank(j.env.m)[s.at])))
  }

  // ---------------------------------------------------------------- the search

  predicate StaysLocal(env: Env, at: nat, flocal: nat, collide: bool)
    requires at < |env.m.buckets|
  {
    || (collide && flocal <= env.localRetries)
    || (env.fallback > 0 && flocal <= |env.m.buckets[at].items| + env.fallback)
  }

  /** The code at label `reject` when the candidate was rejected or collided. */
  function Retry(j: Job, s: State, item: int, collide: bool): (step: Step)
    requires Valid(j, s)
    ensures step.Loop? ==> Valid(j, step.state) && Progress(j, step.state, s)
  {
    var t := State(s.at, item, s.ftotal + 1, s.flocal + 1);
    assert j.env.m.buckets[s.at] in j.env.m.buckets;
    if StaysLocal(j.env, s.at, t.flocal, collide) then Loop(t)
    else if t.ftotal < j.tries then Loop(State(j.root, item, t.ftotal, 0))
    else Stop(GaveUp(item))
  }

  /** Collision test, leaf selection and overload test for a candidate of the wanted type. */
  function Judge(j: Job, slot: Slot, r: int, item: int): Verdict
    requires Ready(j) && (item < 0 ==> IsBucket(j.env.m, item))
    decreases Level(j), 0, 0, 0, 0
  {
    if item in slot.chosen then Collide
    else if j.leaf && item < 0 then
      var k := LeafJob(j, item, r);
      match Search(k, LeafSlot(j, slot), Begin(k))
      case Placed(device, _) => Accept(device)
      case GaveUp(_) => Reject
    else if item >= 0 && IsOut(j.env, item) then Reject
    else Accept(item)
  }

  /** The replica factor of this pass. */
  function Factor(j: Job, slot: Slot, s: State): int {
    slot.rep + j.parentR + s.ftotal
  }

  /** One pass of the inner loop. */
  function Next(j: Job, slot: Slot, s: State): (step: Step)
    requires Valid(j, s)
    ensures step.Loop? ==> Valid(j, step.state) && Progress(j, step.state, s)
    decreases Level(j), Clamp(j.tries - s.ftotal), Clamp(RetryBound(j.env) - s.flocal), Rank(j.env.m)[s.at], 1
  {
    if j.env.m.buckets[s.at].items == [] then Retry(j, s, s.item, false)
    else
      var r := Factor(j, slot, s);
      var item := Pick(j.env, s.at, r, |slot.chosen|);
      if item >= j.env.m.maxDevices then Stop(GaveUp(item))
      else if TypeOf(j.env.m, item) != j.itype then
        if item >= 0 then Stop(GaveUp(item))
        else Loop(State(-1 - item, item, s.ftotal, s.flocal))
      else
        match Judge(j, slot, r, item)
        case Accept(device) => Stop(Placed(item, device))
        case Reject => Retry(j, s, item, false)
        case Collide => Retry(j, s, item, true)
  }

  /** Both do-while loops, run from state s to the decision about this replica. */
  function Search(j: Job, slot: Slot, s: State): Outcome
    requires Valid(j, s)
    decreases Level(j), Clamp(j.tries - s.ftotal), Clamp(RetryBound(j.env) - s.flocal), Rank(j.env.m)[s.at], 2
  {
    match Next(j, slot, s)
    case Stop(outcome) => outcome
    case Loop(t) => Search(j, slot, t)
  }

  // ---------------------------------------------------------------- all replicas

  /** The contents of `out` and `out2` up to `outpos`. */
  datatype Picks = Picks(out: seq<int>, out2: seq<int>)

  function SlotAt(rep: int, got: Picks): Slot {
    Slot(rep, got.out, got.out2)
  }

  /** The for loop from `rep` on, with `count` free slots left. */
  function Replicas(j: Job, rep: int, numrep: int, count: int, got: Picks): Picks
    requires Ready(j)
    decreases numrep - rep
  {
    if rep >= numrep || count <= 0 then got
    else
      match Search(j, SlotAt(rep, got), Begin(j))
      case GaveUp(_) => Replicas(j, rep + 1, numrep, count, got)
      case Placed(item, device) =>
        Replicas(j, rep + 1, numrep, count - 1, Commit(j, got, item, device))
  }

  function Commit(j: Job, got: Picks, item: int, device: int): Picks {
    Picks(got.out + [item], if j.leaf then got.out2 + [device] else got.out2)
  }

  /** `crush_choose_firstn` on the filled prefixes of its output arrays. */
  function ChooseFirstn(j: Job, numrep: int, outSize: int, got: Picks): Picks
    requires Ready(j)
  {
    Replicas(j, if j.env.stable then 0 else |got.out|, numrep, outSize, got)
  }
}
