/** Prefix and resume laws of the replica loop. */
module FirstnPrefix {
  import opened Firstn
  import opened FirstnSafety

  /** Stopping the loop at `mid` and continuing with the remaining room is the same as not
      stopping. */
  lemma {:induction false} ReplicasSplit(j: Job, rep: int, mid: int, numrep: int, count: int, got: Picks)
    requires Ready(j) && rep <= mid <= numrep
    ensures var half := Replicas(j, rep, mid, count, got);
            (Replicas(j, rep, numrep, count, got)
             == Replicas(j, mid, numrep, count - (|half.out| - |got.out|), half))
    decreases mid - rep
  {
    hide Search;
    if rep < mid && count > 0 {
      match Search(j, SlotAt(rep, got), Begin(j))
      case GaveUp(_) => ReplicasSplit(j, rep + 1, mid, numrep, count, got);
      case Placed(item, device) =>
        ReplicasSplit(j, rep + 1, mid, numrep, count - 1, Commit(j, got, item, device));
    }
  }

  /** Prefix law: asking for more replicas never changes the first ones, for any start and room. */
  lemma FewerReplicasArePrefix(j: Job, m: int, n: int, outSize: int, got: Picks)
    requires Ready(j) && Paired(j, got) && m <= n
    ensures var few, many := ChooseFirstn(j, m, outSize, got), ChooseFirstn(j, n, outSize, got);
            few.out <= many.out && few.out2 <= many.out2
  {
    hide Replicas, Picked;
    var rep := if j.env.stable then 0 else |got.out|;
    var few := Replicas(j, rep, m, outSize, got);
    ReplicasSafe(j, rep, m, outSize, got);
    if m < rep {
      ReplicasSafe(j, rep, n, outSize, got);
      NoReplicas(j, rep, m, outSize, got);
    } else {
      ReplicasSplit(j, rep, m, n, outSize, got);
      ReplicasSafe(j, m, n, outSize - (|few.out| - |got.out|), few);
    }
  }

  lemma NoReplicas(j: Job, rep: int, numrep: int, count: int, got: Picks)
    requires Ready(j) && rep >= numrep
    ensures Replicas(j, rep, numrep, count, got) == got
  {
  }

  /** Resume law without `stable`: if the first call placed every replica up to m, a second call
      that continues from outpos = m ends where one call for n replicas ends. */
  lemma ResumeEqualsOneCall(j: Job, m: nat, n: int, outSize: int, got: Picks)
    requires Ready(j) && !j.env.stable && |got.out| <= m <= n
    ensures var half := ChooseFirstn(j, m, outSize, got);
            |half.out| == m ==>
              ChooseFirstn(j, n, outSize - (m - |got.out|), half) == ChooseFirstn(j, n, outSize, got)
  {
    hide Replicas;
    ReplicasSplit(j, |got.out|, m, n, outSize, got);
  }

  /** What one more replica adds: the loop starts with number 0 if `stable` is on and with outpos
      otherwise, and while there is room it searches for the replica with the next number, placing
      it behind the earlier ones or going on without it. */
  lemma OneMoreReplica(j: Job, n: int, outSize: int, got: Picks)
    requires Ready(j) && Paired(j, got)
    ensures var few, many := ChooseFirstn(j, n, outSize, got), ChooseFirstn(j, n + 1, outSize, got);
            if n < (if j.env.stable then 0 else |got.out|) || |few.out| - |got.out| >= outSize then many == few
            else match Search(j, Slot(n, few.out, few.out2), Begin(j))
                 case Placed(item, device) =>
                   many.out == few.out + [item] && many.out2 == if j.leaf then few.out2 + [device] else few.out2
                 case GaveUp(_) => many == few
  {
    hide Search, Picked;
    var rep := if j.env.stable then 0 else |got.out|;
    if n < rep {
      NoReplicas(j, rep, n, outSize, got);
      NoReplicas(j, rep, n + 1, outSize, got);
    } else {
      var few := ChooseFirstn(j, n, outSize, got);
      ReplicasSplit(j, rep, n, n + 1, outSize, got);
      OneReplicaLeft(j, n, outSize - (|few.out| - |got.out|), few);
    }
  }

  lemma OneReplicaLeft(j: Job, n: int, count: int, got: Picks)
    requires Ready(j)
    ensures Replicas(j, n, n + 1, count, got)
         == if count <= 0 then got
            else match Search(j, SlotAt(n, got), Begin(j))
                 case Placed(item, device) => Commit(j, got, item, device)
                 case GaveUp(_) => got
  {
    hide Search;
    if count > 0 {
      match Search(j, SlotAt(n, got), Begin(j))
      case Placed(item, device) => NoReplicas(j, n + 1, n + 1, count - 1, Commit(j, got, item, device));
      case GaveUp(_) => NoReplicas(j, n + 1, n + 1, count, got);
    }
  }
}
