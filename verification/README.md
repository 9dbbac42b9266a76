# CRUSH placement and its thread pool, verified

`CRUSH_Research` places the replicas of an object on storage devices with the CRUSH algorithm and
runs a parallel variant of it on a thread pool.  This project models both in Dafny and proves what
they are for: replicas land on distinct, usable devices in separate failure domains; placements
move only as far as a change of weights requires; the selector always ends; and the pool neither
loses nor duplicates a task, miscounts its threads, nor forgets a sleeping producer or worker.

`dafny verify dfyconfig.toml` checks everything.

## Layout

| files | content |
|---|---|
| `CrushHash` | the rjenkins mixer as a reversible register machine |
| `CrushLnTable`, `PseudoRandom` | the logarithm tables, `crush_ln`, and the draw with C's truncating division |
| `LogOrder` | where `crush_ln` is monotone |
| `CrushMap` | buckets, maps, well-formedness, subtrees, and which buckets a descent can enter |
| `Straw2` | straw2 selection and its minimal-movement theorems |
| `Firstn`, `FirstnLoops` | `crush_choose_firstn`: a small-step search, and the loops over arrays proved equal to it |
| `FirstnSafety`, `FailureDomains` | what is true of every chosen item; disjoint failure domains |
| `Subtrees` | the devices below a bucket, each listed once |
| `FirstnDraws`, `FirstnGiveUp` | how long a replica can take, and when it may be given up |
| `FirstnCandidates` | the search candidate by candidate, and its outcome in closed form |
| `FirstnStability`, `FirstnPrefix`, `Descent` | comparisons of two runs: reweights, replica counts, weights along a path |
| `Workers` | `do_work1/2/3` run in order against the sequential call |
| `Builder`, `BuiltMap` | `construct_host/rack/root`, `init2`, and the map they build |
| `ThreadPool`, `PoolSystem` | the critical sections on the shared record, and the interleavings as a transition system |
| `GrowRace`, `GrowRaceSteps` | the growing loop against slots that are cleared without the lock |
| `PoolInvariants`, `PoolAccounting`, `PoolPromises` | inductive invariants and what holds in every reachable state |
| `PoolStranding` | which pools can strand a task |
| `PoolCycles` | whole cycles of the manager, exit requests, shutdown |
| `CityHash` | which bytes the three CityHash functions read |

The selector has two forms.  `FirstnLoops` is the source's form: a for loop around two nested
do-while loops that write into `out` and `out2` and call themselves for the leaf.  `Firstn` is the
same algorithm as a function: `Next` is one pass of the inner loop, `Search` runs passes until
the replica is decided, `Replicas` is the for loop.  The methods are proved to compute the
functions, and the theorems are about the functions.  In the same way the sections of
`ThreadPool.SharedPool` update the record in place and are proved equal to the functions that the
transition system `PoolSystem` takes its steps with.

A step of `PoolSystem` is one critical section, one update of `busyNum`, one clearing of a slot,
one step of the manager (its test of the flag, each copy it takes, each decision) or one signal.
A signal wakes any one sleeper; sleepers may also wake spuriously; `shutDown` may flip between any
two of its unlocked readings; the manager acts on copies that may be stale.  The theorems hold for any number of producers and workers and for every
interleaving.

Where the code and its comments disagree, the model follows the code.  The comment in
`crush_ln_table.h` gives 2^48 for the last logarithm entry, the table has 0xffff00000000, and so
`crush_ln` falls at its last input and nowhere else (`LogOrder.MonotoneExactly`).  `crush.h` makes
`max_devices` the highest item plus one; `init2` does so and is modelled, `init` does not.  `threadPoolCreate` sets `queueRear`
twice and never `queueSize`; 0 is taken as the value meant.  `CRUSH_HASH_RJENKINS1` is 0.

What callers owe: a well-formed map (ids at their positions, positive types, items in range,
acyclic), replacement arguments that fit their buckets, a reweight table as long as it says, room
in the arrays, and distinct `out` and `out2` unless devices (type 0) are selected.  The callers in
`main.cpp` pass one array for both and select type 0, which the model covers.  Single parents are
demanded only for disjoint subtrees.

## Model

| member | source | states |
|---|---|---|
| CrushHash.RoundBijective | CRUSH_Research/crush_hash.c:13-15 | each third of the mixing macro (three lines with their shifts) is undone by an explicit inverse, on either side |
| CrushHash.MixBijective | CRUSH_Research/crush_hash.c:12-22 | `crush_hashmix` is a bijection on three 32-bit words with an explicit inverse, both compositions being the identity |
| CrushHash.CrushHashMix | CRUSH_Research/crush_hash.c:12-22 | the nine assignments, each overwriting one word, compute the bijection `Mix` |
| CrushHash.ChainReversible | CRUSH_Research/crush_hash.c:26-90 | for any sequence of macro calls on distinct registers, the final register file run backwards gives the initial one |
| CrushHash.RunInPlace | CRUSH_Research/crush_hash.c:32-34 | calling the macro on the registers in place, one call after another, has the effect of `Run` on the whole file |
| CrushHash.FinalStateInjective | CRUSH_Research/crush_hash.c:26-90 | for each arity 1 to 5: two chains end in the same full working state if and only if their inputs are equal |
| CrushHash.Rjenkins1 | CRUSH_Research/crush_hash.c:26-35 | the macro calls of the one-input hash, written out on named words, end with the chain value in the hash word |
| CrushHash.Rjenkins2 | CRUSH_Research/crush_hash.c:37-46 | the same for the two-input hash |
| CrushHash.Rjenkins3 | CRUSH_Research/crush_hash.c:48-59 | the same for the three-input hash |
| CrushLnTable.RhLow | CRUSH_Research/include/crush_ln_table.h:26-92 | entry-wise band of the reciprocal column, lower side: the product with any sharing input is at least 2^63 |
| CrushLnTable.RhHigh | CRUSH_Research/include/crush_ln_table.h:26-92 | entry-wise band of the reciprocal column, upper side: the product with the largest sharing input stays below 2^63 + 2^56 |
| CrushLnTable.LhBound | CRUSH_Research/include/crush_ln_table.h:26-92 | entry-wise bound of the logarithm column |
| CrushLnTable.LlBound | CRUSH_Research/include/crush_ln_table.h:97-162 | entry-wise bound of the second table |
| CrushLnTable.LlRises | CRUSH_Research/include/crush_ln_table.h:97-162 | the second table rises |
| CrushLnTable.BandsRise | CRUSH_Research/include/crush_ln_table.h:26-162 | an entry of the logarithm column together with the last second-table entry it is combined with is at most the next entry of the column |
| PseudoRandom.NormalisingShift | CRUSH_Research/include/rseudo_random_number.h:16-22 | a non-zero 15-bit word has 17 to 31 leading zeros and the shift by 16 fewer fills exactly 16 bits |
| PseudoRandom.Normalise | CRUSH_Research/include/rseudo_random_number.h:13-22 | the normalised word lies in [2^15, 2^16], the exponent in [0, 15], and scaling the input by 2^(15 - exponent) gives the word back |
| PseudoRandom.LookupsInRange | CRUSH_Research/include/rseudo_random_number.h:23-38 | for every normalised input both table indices are in range, the product fits 64 bits with xf < 2^8, and the sum of the two logarithm terms stays below 2^48 |
| PseudoRandom.CrushLn | CRUSH_Research/include/rseudo_random_number.h:8-40 | the logarithm of every 16-bit input is below 2^48 |
| PseudoRandom.DoublingAddsOne | CRUSH_Research/include/rseudo_random_number.h:8-40 | log2(2y) = 1 + log2(y) holds exactly in the fixed-point result while 2y stays below 2^16 |
| PseudoRandom.DoublingExactly | CRUSH_Research/include/rseudo_random_number.h:8-40 | the doubling law holds if and only if the input is not the last one |
| PseudoRandom.LogOfPower | CRUSH_Research/include/rseudo_random_number.h:8-40 | the logarithm of 2^n is exactly n in 44-bit fixed point, for n = 0 to 15 |
| LogOrder.SameBand | CRUSH_Research/include/rseudo_random_number.h:23-38 | words that share a table entry have their logarithms in order |
| LogOrder.NextBand | CRUSH_Research/include/rseudo_random_number.h:23-38 | the last word of a table entry is below the first word of the next |
| LogOrder.NormaliseRises | CRUSH_Research/include/rseudo_random_number.h:13-22 | a larger input is normalised to a larger exponent, or to the same one and a larger word |
| LogOrder.MonotoneExactly | CRUSH_Research/include/rseudo_random_number.h:8-40 | for all a <= b among the 16-bit inputs, the logarithm of a is at most that of b if and only if the pair is not (0xfffe, 0xffff) |
| PseudoRandom.Signed | CRUSH_Research/include/rseudo_random_number.h:43-43 | the weight as an `int` is congruent to it modulo 2^32 and in the range of the type |
| PseudoRandom.TruncDiv | CRUSH_Research/include/rseudo_random_number.h:48-48 | C division: the product of quotient and divisor lies between 0 and the dividend, less than one divisor away from it |
| PseudoRandom.Scaled | CRUSH_Research/include/rseudo_random_number.h:43-49 | the draw times the signed weight lies between the logarithm less 2^48 and 0, less than one weight away from the former; the draw is in [-2^48, 2^48] for every non-zero 32-bit weight, and in [-2^48, 0] for weights below 2^31 |
| PseudoRandom.ScaledStrictly | CRUSH_Research/include/rseudo_random_number.h:43-49 | for 0 < w <= v < 2^31 two draws from one hash differ as the quotients by w and v do, so the larger weight draws a strictly longer straw once they part |
| PseudoRandom.DrawIsQuotient | CRUSH_Research/main.cpp:219-225 | for rjenkins buckets every non-zero weight divides the logarithm of the low 16 bits of the hash of x, id and r |
| PseudoRandom.ScaledMonotone | CRUSH_Research/include/rseudo_random_number.h:43-49 | for a fixed hash, raising a non-zero weight never lowers the draw, over all 32-bit weights including those the `int` parameter turns negative |
| PseudoRandom.Draw | CRUSH_Research/main.cpp:219-225 | a zero weight draws S64_MIN and nothing else does; other draws stay in range |
| PseudoRandom.DrawMonotone | CRUSH_Research/main.cpp:219-225 | raising a weight, from zero or not, never shortens a straw |
| Straw2.StrawsOf | CRUSH_Research/main.cpp:189-206 | ids and weights of a bucket or of its replacement argument always match the items one to one, at every position |
| Straw2.Winner | CRUSH_Research/main.cpp:219-232 | the selected index is the first maximum: no straw is longer and all earlier ones are shorter |
| Straw2.WinnerUnique | CRUSH_Research/main.cpp:219-232 | the first maximum is unique, so it characterises the winner |
| Straw2.Ids | CRUSH_Research/main.cpp:189-195 | the replacement ids if there are any, and the items otherwise |
| Straw2.Weights | CRUSH_Research/main.cpp:197-206 | the row of the position, the last row for later positions, and the bucket weights without replacement |
| Straw2.ReturnsLongestStraw | CRUSH_Research/main.cpp:208-233 | the item returned stands at an index whose straw, drawn with the ids and weights of this position, is at least as long as all and longer than all earlier ones |
| Straw2.LongestStrawUnique | CRUSH_Research/main.cpp:208-233 | no other item does, so this characterises the item returned |
| Straw2.BucketStraw2Choose | CRUSH_Research/main.cpp:208-233 | the loop over `high` and `high_draw` returns the item at the first longest straw |
| Straw2.RaiseMovesOnlyToRaised | CRUSH_Research/include/crush.h:177-188 | raising one weight in a bucket of any size leaves the winner or makes the raised item win; read backwards, lowering a weight moves only inputs the lowered item had won |
| Straw2.RemovalMovesOnlyFromRemoved | CRUSH_Research/include/crush.h:177-188 | deleting an item moves only inputs it had won; read backwards, inserting an item anywhere moves inputs only onto it |
| Straw2.ZeroWeightWinsOnlyAlone | CRUSH_Research/main.cpp:219-231 | the winner has weight zero if and only if all weights are zero, and then it is the first item |
| Straw2.RaiseMovesItem | CRUSH_Research/include/crush.h:177-188 | a bucket with one weight raised returns the same item as before, or the raised one |
| Straw2.RemovalMovesItem | CRUSH_Research/include/crush.h:177-188 | a bucket returns what it returns without one of its entries, or the item of that entry |
| Straw2.ZeroWeightItem | CRUSH_Research/main.cpp:219-231 | the item returned has a positive weight if any entry has, and is the first item otherwise |
| Firstn.Pick | CRUSH_Research/main.cpp:321-321 | the bucket chooser, with the replacement argument of the current bucket, yields an item of that bucket that is a device or names a bucket of the map |
| Firstn.PickHasLongestStraw | CRUSH_Research/main.cpp:321-321 | the item drawn in the selector has the first longest straw of its bucket, with the replacement argument of that bucket, the input, the replica factor and outpos as position |
| Firstn.Retry | CRUSH_Research/main.cpp:405-425 | whatever the retry code decides, the next state is smaller in the lexicographic order of remaining tries, local retries and height |
| Firstn.Next | CRUSH_Research/main.cpp:307-426 | every pass of the inner loop that continues makes lexicographic progress, so the loops end on every acyclic map |
| FirstnLoops.CrushBucketChoose | CRUSH_Research/main.cpp:236-244 | the dispatch returns the item with the first longest straw of the current bucket |
| FirstnLoops.OneReplica | CRUSH_Research/main.cpp:365-388 | the leaf call asks for exactly one replica: it adds the device its search places, or nothing |
| FirstnLoops.JudgeCandidate | CRUSH_Research/main.cpp:349-403 | collision scan, recursive leaf selection and overload test on the arrays give the verdict of `Judge`, store the leaf in `out2[outpos]` and change no other entry |
| FirstnLoops.SearchReplica | CRUSH_Research/main.cpp:298-430 | the two nested do-while loops with their breaks and retries reach the outcome of `Search` and change at most `out2[outpos]` |
| FirstnLoops.CrushChooseFirstn | CRUSH_Research/main.cpp:263-437 | for every job, position and room the filled prefixes of both output arrays equal `ChooseFirstn` of the old prefixes, and entries behind the new position keep their values |
| FirstnSafety.EnteredBelow | CRUSH_Research/main.cpp:334-344 | a bucket the descent has entered is the start bucket or lies below it |
| FirstnSafety.DrawnBelow | CRUSH_Research/main.cpp:334-344 | everything a descent can draw lies below its start bucket |
| FirstnSafety.JudgeSafe | CRUSH_Research/main.cpp:349-403 | an accepted candidate is not among the chosen items, is not out if it is a device, and its leaf is a fresh usable device below it |
| FirstnSafety.NextSafe | CRUSH_Research/main.cpp:307-426 | one pass keeps the descent on entered buckets and commits only safe items |
| FirstnSafety.SearchSafe | CRUSH_Research/main.cpp:298-430 | every outcome of the search, through all retries and the recursion, is fresh, of the requested type, reachable through buckets of other types, below max_devices and usable |
| FirstnSafety.DeviceIsItem | CRUSH_Research/main.cpp:395-403 | without leaf selection the reported device is the committed item |
| FirstnSafety.ReplicasSafe | CRUSH_Research/main.cpp:296-435 | over the whole loop old entries are kept, new ones are safe, duplicates never appear, and neither the room nor the number of replicas is exceeded |
| FirstnSafety.SelectionSafe | CRUSH_Research/main.cpp:263-437 | selection safety of one call from any starting position: earlier entries unchanged, result duplicate-free if the start was, every new item of the requested type, below the start bucket and usable, and both length bounds |
| FailureDomains.AncestorsChain | CRUSH_Research/include/crush.h:348-358 | with single parents, two buckets above the same item are equal or one is above the other |
| FailureDomains.NotAboveEntered | CRUSH_Research/main.cpp:334-344 | a drawn bucket of the wanted type is never at or above a bucket the same descent passes through |
| FailureDomains.NotNested | CRUSH_Research/main.cpp:334-344 | no drawn bucket of the wanted type lies below another one |
| FailureDomains.DrawnDisjoint | CRUSH_Research/main.cpp:334-344 | two different buckets of the wanted type that a descent can draw share no descendant |
| FailureDomains.ReplicasInDisjointDomains | CRUSH_Research/main.cpp:307-403 | with `recurse_to_leaf` and a bucket type: the i-th leaf is a usable device below the i-th bucket, leaves and buckets are pairwise distinct, and the subtrees of the chosen buckets are pairwise disjoint |
| FirstnDraws.PotentialDrops | CRUSH_Research/main.cpp:307-427 | a potential built from the depth, the remaining descents and the remaining candidates falls with every pass, and every failure uses up one candidate |
| FirstnDraws.DepthDrops | CRUSH_Research/include/crush.h:348-358 | the depth of a bucket, counted in buckets on the longest path, falls from every bucket to each of its child buckets |
| FirstnDraws.DepthIsLeastRanking | CRUSH_Research/include/crush.h:348-358 | the depth less one is a ranking of the hierarchy, and no ranking of the map lies below it |
| FirstnDraws.PassMoves | CRUSH_Research/main.cpp:307-426 | a pass that continues either enters a strictly shallower bucket, or stays and counts one failure, or restarts at the start bucket while tries are left |
| FirstnDraws.DescentDrawBound | CRUSH_Research/main.cpp:305-426 | from any state one descent makes at most depth + F draws |
| FirstnDraws.PassDrawBound | CRUSH_Research/main.cpp:321-388 | one pass costs one draw, and a pass that does not descend at most one leaf selection more, which starts at least one level down |
| FirstnDraws.DrawsWithin | CRUSH_Research/main.cpp:298-427 | from every state the remaining draws are at most the potential plus one leaf selection for each remaining candidate |
| FirstnDraws.ReplicaDrawBound | CRUSH_Research/main.cpp:298-427 | deciding one replica takes at most max(1, tries) * depth + F draws of its own and max(1, tries) + F leaf selections of at most max(1, recurse_tries) * (depth - 1) + F draws each |
| FirstnDraws.DescentBound | CRUSH_Research/main.cpp:300-427 | at most max(1, tries) descents are started for one replica |
| FirstnDraws.CountersStayBounded | CRUSH_Research/main.cpp:407-417 | `flocal` stays within F and `ftotal` within tries - 1 + F, so neither 32-bit counter wraps for tunables below 2^32 - F |
| FirstnGiveUp.OutIsThreshold | CRUSH_Research/main.cpp:246-259 | a device is out if and only if it is past the reweight table or the low 16 bits of its hash reach its reweight |
| FirstnGiveUp.PassMeets | CRUSH_Research/main.cpp:315-426 | where all paths meet the requested type, a pass gives up only with its last try |
| FirstnGiveUp.GiveUpUsesAllTries | CRUSH_Research/main.cpp:405-425 | where all paths meet the requested type, a replica is given up only after at least max(1, tries) failed candidates |
| FirstnGiveUp.FirstReplicaIsPlaced | CRUSH_Research/main.cpp:296-435 | where all paths meet the requested type and no device is out, the first replica is placed at the first candidate, with and without leaf selection |
| FirstnCandidates.ShiftIsFloor | CRUSH_Research/main.cpp:360-364 | the factor of a leaf selection is the factor divided by 2^(vary_r - 1), rounded down, or 0 |
| FirstnCandidates.JudgeIsDevice | CRUSH_Research/main.cpp:349-403 | a candidate collides exactly if it is chosen already, and otherwise is accepted exactly if it has a device |
| FirstnCandidates.SearchIsAttempt | CRUSH_Research/main.cpp:298-430 | for all tunables the loops equal a reference that knows only candidates: candidate n is the end of a descent with factor rep + parent_r + n, and after a failure the next descent starts in the same bucket or at the start bucket as the retry limits say |
| FirstnCandidates.FirstAcceptableIsPlaced | CRUSH_Research/main.cpp:298-430 | without local retries a replica is the first acceptable one of max(1, tries) candidates at consecutive factors, and is given up if and only if none is acceptable |
| FirstnCandidates.AcceptableDevice | CRUSH_Research/main.cpp:349-403 | a candidate for a device replica is acceptable if and only if it is usable and not chosen yet |
| FirstnCandidates.LeafIsFirstGood | CRUSH_Research/main.cpp:358-388 | the leaf of a bucket is the first usable device not used yet among max(1, recurse_tries) candidates below it at consecutive factors, and there is none if and only if all fail |
| FirstnStability.OutMonotone | CRUSH_Research/main.cpp:246-259 | lowering one reweight can only turn that device out and leaves every other device alone, for every replica factor |
| FirstnStability.JudgeStable | CRUSH_Research/main.cpp:349-403 | two runs that differ in one reweight judge a candidate alike unless the higher one accepts that device |
| FirstnStability.NextStable | CRUSH_Research/main.cpp:307-426 | two such runs make the same pass unless the higher one commits that device |
| FirstnStability.SearchStable | CRUSH_Research/main.cpp:298-430 | two such runs reach the same outcome, through retries and recursion, unless the higher one commits that device |
| FirstnStability.ReplicasStable | CRUSH_Research/main.cpp:296-435 | two such runs give the same output over the whole loop if the device is not used or is in for both |
| FirstnStability.PrefixStable | CRUSH_Research/main.cpp:296-435 | two such runs agree on all replicas before the first use of the device |
| FirstnStability.LoweringStableExactly | CRUSH_Research/main.cpp:246-437 | lowering the reweight of a device leaves the whole output identical if and only if the device was not chosen or is still not out |
| FirstnStability.LoweringKeepsEarlierReplicas | CRUSH_Research/main.cpp:246-437 | lowering a reweight never disturbs the replicas before the first one that used the device |
| FirstnStability.RaisingChosenStable | CRUSH_Research/main.cpp:246-437 | raising the reweight of a chosen device leaves the whole output identical |
| FirstnPrefix.ReplicasSplit | CRUSH_Research/main.cpp:296-435 | stopping the replica loop anywhere and continuing with the remaining room equals not stopping |
| FirstnPrefix.FewerReplicasArePrefix | CRUSH_Research/main.cpp:295-436 | the result for m replicas is a prefix of the result for n >= m, for any start and any room |
| FirstnPrefix.OneMoreReplica | CRUSH_Research/main.cpp:295-436 | the replica numbers start at 0 with `stable` and at outpos without; while there is room, asking for one more adds exactly what the search for the next number places |
| FirstnPrefix.ResumeEqualsOneCall | CRUSH_Research/main.cpp:296-311 | with `stable` off, m placed replicas continued from position m equal one call for n |
| Descent.TrailIsTheInnerLoop | CRUSH_Research/main.cpp:307-345 | the items drawn by one descent are exactly the moves of the inner loop at a fixed replica factor |
| Descent.RaisedMapIsRaised | CRUSH_Research/main.cpp:189-206 | raising bucket weights is a change of at most one weight per bucket for every position, whatever the replacement arguments |
| Descent.RaisedWellFormed | CRUSH_Research/main.cpp:307-345 | raising weights along a path, in buckets or replacement rows, keeps the map well formed |
| Descent.LevelMoves | CRUSH_Research/main.cpp:208-233 | at one level the draw stays or moves to the raised child |
| Descent.RaisingMovesOntoThePath | CRUSH_Research/main.cpp:307-345 | raising one used weight per bucket along a root-to-device path, in buckets or replacement rows, leaves the whole descent unchanged, or at the first level where the two descents differ the new one enters the raised child |
| Workers.FirstnInfo.DoWork | CRUSH_Research/main.cpp:624-783 | a worker whose predecessors have finished fills slot k with the item its two loops end on, whether or not it gave up, and leaves the other slots alone |
| Workers.FirstnInfo.ChooseInOrder | CRUSH_Research/main.cpp:1156-1175 | three workers one after another fill the array with `WorkersInOrder` |
| Workers.OnlyTheSumMatters | CRUSH_Research/main.cpp:310-313 | an entire search depends on `rep` and `parent_r` only through their sum |
| Workers.WorkerMatchesReplica | CRUSH_Research/main.cpp:628-661 | worker k repeats the search of sequential replica k with `stable` on, and of replica 2k with it off |
| Workers.SequentialMatchesWorkers | CRUSH_Research/main.cpp:296-435 | while every replica is placed, the sequential loop fills the slots of the workers |
| Workers.WorkersRefineSequential | CRUSH_Research/main.cpp:1156-1175 | three workers in order give exactly the array of the sequential call when that call places all three replicas; otherwise the sequential result is shorter than the array |
| Workers.GivenUpItem | CRUSH_Research/main.cpp:755-783 | a device selection that gives up ends on an item that is chosen already or is not a usable device |
| Workers.WorkerPlacesExactly | CRUSH_Research/main.cpp:624-783 | a worker has placed its replica if and only if the item it commits is a usable device that the earlier slots do not hold |
| Workers.PlacementMatchesSequential | CRUSH_Research/main.cpp:296-435 | from any point on, the array of the workers becomes a placement of distinct usable devices if and only if the sequential loop places every remaining replica |
| Workers.WorkersPlaceExactly | CRUSH_Research/main.cpp:1156-1175 | three workers in order leave three distinct usable devices if and only if the sequential call places all three replicas, and then the arrays are equal; a worker that gives up spoils the array with the item it commits all the same |
| Builder.Cluster.ConstructHost | CRUSH_Research/main.cpp:25-46 | a host takes the next devices in order, records their weights and their 32-bit sum, and becomes their parent |
| Builder.Cluster.PlaceHost | CRUSH_Research/main.cpp:61-62 | reserving a position and filling it with a host extends the finished part by one bucket and changes no other |
| Builder.Cluster.ConstructRack | CRUSH_Research/main.cpp:48-70 | a rack over any number of hosts is numbered, weighed and linked correctly, and its hosts, each with its share of devices, form a finished segment behind it |
| Builder.Cluster.PlaceRack | CRUSH_Research/main.cpp:86-87 | reserving a position before building the rack, then storing it, leaves one finished segment in which the rack alone lacks a parent |
| Builder.Cluster.ConstructRoot | CRUSH_Research/main.cpp:72-95 | the root at position 0 completes the tree: every bucket, the root included, has its algorithm, hash, weight and links right, every other one has a parent, and the counters have their closed forms |
| Builder.Cluster.Init2 | CRUSH_Research/main.cpp:98-122 | from zeroed counters, for any fan-outs that fit the arrays, the published map is a complete cluster of exactly the requested shape, with max_devices = highest device + 1 and the weights 176 and 65536 throughout |
| BuiltMap.EntryFacts | CRUSH_Research/main.cpp:25-95 | every item of a bucket has that bucket as its recorded parent, and is a device below max_devices or a later bucket of smaller type |
| BuiltMap.CompleteIsWellFormed | CRUSH_Research/include/crush.h:348-358 | a complete cluster satisfies buckets[i].id == -1-i, positive types, items in range and acyclicity |
| BuiltMap.EveryItemHasOneParent | CRUSH_Research/main.cpp:25-95 | exactly the devices below max_devices and the non-root buckets are listed by a bucket, each by one bucket and once |
| BuiltMap.SumsMatch | CRUSH_Research/main.cpp:36-42 | partial sums of recorded item weights agree with the weights of the devices listed below, modulo 2^32 |
| Subtrees.BelowStep | CRUSH_Research/include/crush.h:348-358 | an item is below a bucket if it is listed by that bucket or by one below it, whatever the ranks |
| Subtrees.BelowFirstStep | CRUSH_Research/include/crush.h:348-358 | whatever is below a bucket is one of its items or below one of them |
| Subtrees.SiblingsApart | CRUSH_Research/include/crush.h:348-358 | with single parents, two items of one bucket cover nothing in common |
| Subtrees.DevicesExactlyOnce | CRUSH_Research/include/crush.h:348-358 | with single parents and no repeated entries, the device list of a bucket holds exactly the devices below it, each once |
| BuiltMap.BucketWeightsAreDeviceSums | CRUSH_Research/include/crush.h:208-209 | every bucket weight is the sum of the weights of exactly the devices below it, each counted once, modulo 2^32, and that sum itself when it does not overflow |
| BuiltMap.AllBelowRoot | CRUSH_Research/main.cpp:72-95 | every device and every other bucket hangs from the root |
| BuiltMap.BuiltMapServesSelector | CRUSH_Research/main.cpp:98-122 | the built map with full reweights meets every precondition of the selector, all its buckets draw with the rjenkins hash, and no device is out |
| BuiltMap.StrawsComeFromHash | CRUSH_Research/main.cpp:25-95 | every straw of the built map is the logarithm of the hash of x, id and r over the weight |
| BuiltMap.EveryPathEndsAtDevice | CRUSH_Research/main.cpp:25-95 | without empty buckets, every descent of the built tree ends at a device |
| BuiltMap.EveryPathMeetsAllTypes | CRUSH_Research/main.cpp:25-95 | with positive fan-outs, every descent from the root meets a rack, a host and a device |
| BuiltMap.BuiltMapAlwaysPlaces | CRUSH_Research/main.cpp:98-122 | with positive fan-outs and full reweights the built cluster yields a replica for every input at the first candidate: for devices, hosts or racks, with and without leaf selection, whatever the tunables |
| BuiltMap.NewCluster | CRUSH_Research/main.cpp:98-122 | `init2` on new arrays delivers what the selector needs: a complete cluster of the requested shape and full reweights |
| BuiltMap.BuildAndPlace | CRUSH_Research/main.cpp:1189-1219 | `init2` and then the selector, called for type 0 with leaf selection and one array for both outputs: at least one and at most numrep distinct devices of the cluster |
| ThreadPool.Ring | CRUSH_Research/threadpool.c:123-123 | the modular index advances by one and wraps at the capacity |
| ThreadPool.EnqueueAppends | CRUSH_Research/threadpool.c:121-124 | adding keeps the ring consistent and appends to the abstract queue |
| ThreadPool.DequeueRemovesFirst | CRUSH_Research/threadpool.c:162-170 | taking keeps the ring consistent and removes the oldest task |
| ThreadPool.SharedPool.constructor | CRUSH_Research/threadpool.c:43-94 | a created pool is empty, with its first `min` slots taken |
| ThreadPool.SharedPool.WorkerSection | CRUSH_Research/threadpool.c:136-174 | one stay of a worker inside the pool mutex performs `WorkerPass` on the record in place |
| ThreadPool.SharedPool.AddSection | CRUSH_Research/threadpool.c:107-128 | one stay of a producer inside the pool mutex performs `AddPass` on the record in place |
| ThreadPool.SharedPool.GrowSection | CRUSH_Research/threadpool.c:270-283 | the growing loop, with its stale live count, performs `Grow` on the record in place |
| ThreadPool.SharedPool.ThreadExit | CRUSH_Research/threadpool.c:304-317 | the scan clears the first slot that holds the own id |
| PoolInvariants.FifoStep | CRUSH_Research/threadpool.c:105-191 | every step of every thread keeps the ring equal to the accepted tasks not yet dequeued |
| PoolInvariants.TasksStep | CRUSH_Research/threadpool.c:162-189 | every step keeps each dequeued task with exactly one worker or finished, and never duplicates one |
| PoolInvariants.BusyStep | CRUSH_Research/threadpool.c:176-188 | every step keeps busyNum equal to the number of workers between increment and decrement |
| PoolAccounting.GrowFills | CRUSH_Research/threadpool.c:270-283 | the growing loop starts at most NUMBER threads, only in free slots, with fresh distinct ids, and stops early only for lack of slots |
| PoolAccounting.GrowthIsExact | CRUSH_Research/threadpool.c:268-284 | one cycle starts NUMBER threads or as many as there are free slots, and none if the stale count is at the maximum |
| PoolAccounting.ClearsOwnSlot | CRUSH_Research/threadpool.c:306-317 | a leaving thread clears its own slot and no other |
| PoolAccounting.SlotsStep | CRUSH_Research/threadpool.c:255-317 | every step keeps the slots equal to the set of threads that have not cleared theirs |
| PoolAccounting.LiveFitsSlots | CRUSH_Research/threadpool.c:143-151 | present threads are the live and the leaving ones and never exceed maxNum |
| PoolAccounting.LiveStep | CRUSH_Research/threadpool.c:143-284 | before shutdown every step keeps liveNum equal to the number of live threads and at least minNum |
| PoolAccounting.StrandStep | CRUSH_Research/threadpool.c:105-298 | before shutdown every step keeps: a queued task has an awake worker or the pool is below its maximum |
| PoolAccounting.ProducerStep | CRUSH_Research/threadpool.c:105-174 | before shutdown every step keeps: while a producer sleeps, queueSize plus woken producers reaches the capacity |
| PoolAccounting.InvInitial | CRUSH_Research/threadpool.c:43-94 | the created pool satisfies all invariants |
| PoolAccounting.InvStep | CRUSH_Research/threadpool.c:105-319 | every enabled step keeps all invariants together |
| PoolAccounting.AlwaysInv | CRUSH_Research/threadpool.c:105-319 | every state that any interleaving reaches satisfies all invariants |
| PoolPromises.QueueIsConserved | CRUSH_Research/threadpool.c:105-191 | in every reachable state the ring is a bounded FIFO, dequeued tasks are a prefix of the accepted ones, none is held twice, and accepted = queued + in hand + running + finished |
| PoolPromises.WorkersAreAccounted | CRUSH_Research/threadpool.c:143-151 | in every reachable state before shutdown minNum <= liveNum <= maxNum and occupied slots = liveNum + threads that left the count but still hold a slot |
| PoolPromises.SlotsMatchThreads | CRUSH_Research/threadpool.c:304-319 | in every reachable state a thread holds exactly one slot until it clears it, and no other id is in the array |
| PoolPromises.NoStrandedTask | CRUSH_Research/threadpool.c:137-152 | in every reachable state before shutdown with a queued task and no awake worker, liveNum < maxNum |
| PoolPromises.FixedPoolNeverStrands | CRUSH_Research/threadpool.c:143-152 | with minNum = maxNum no reachable state before shutdown strands a task |
| PoolPromises.CopiesStay | CRUSH_Research/threadpool.c:249-268 | from its count to its growing loop the copies of the manager stay and liveNum does not rise, whatever steps other threads take |
| PoolPromises.GrowthRescues | CRUSH_Research/threadpool.c:249-284 | after a count taken in a stranded state, and any steps of any threads since, the growing loop starts one thread for every free slot up to NUMBER, so it brings up a worker unless every slot is taken, and only a thread still leaving can keep them so |
| PoolPromises.ProducersAreNotLost | CRUSH_Research/threadpool.c:105-174 | in every reachable state before shutdown a sleeping producer implies queueSize + woken producers >= capacity |
| PoolPromises.NoMutualWait | CRUSH_Research/threadpool.c:105-174 | producers and workers never all wait for each other in a pool at its maximum: the queue is then full and liveNum < maxNum |
| PoolCycles.DueAlong | CRUSH_Research/threadpool.c:255-299 | along any path to the next test of the flag the manager sends exactly the signals it owes, and if it owes none exitNum does not rise |
| PoolCycles.ManagerAsksExactly | CRUSH_Research/threadpool.c:249-299 | over any interleaving: unless fewer than half of the L counted threads were busy and L exceeds minNum, a cycle sends no signal and makes no request; if so, it sets exitNum to NUMBER and sends NUMBER signals |
| PoolCycles.SignalWakesOne | CRUSH_Research/threadpool.c:295-298 | each of these signals wakes exactly one sleeping worker, if any sleeps |
| PoolCycles.AddWakesOne | CRUSH_Research/threadpool.c:119-128 | an accepted task wakes exactly one sleeping worker, if any sleeps; a call that adds nothing wakes none |
| PoolCycles.TakeWakesOne | CRUSH_Research/threadpool.c:162-174 | taking a task wakes exactly one sleeping producer, if any sleeps; a section that takes nothing wakes none |
| PoolCycles.WorkerChooses | CRUSH_Research/threadpool.c:136-174 | before shutdown a section ends in leaving exactly if the worker was woken with a request open and more than minNum live; otherwise in sleep on an empty queue and in taking a task from any other |
| PoolCycles.WorkersLiveInOrder | CRUSH_Research/threadpool.c:131-191 | in every step each worker moves along its life cycle: only a sleeper is woken, and a finished task leads back to the loop head without an exit test |
| PoolCycles.CallsLiveInOrder | CRUSH_Research/threadpool.c:105-129 | in every step each call moves along its life cycle, with its task: only a sleeper is notified |
| PoolCycles.RequestsAreUsed | CRUSH_Research/threadpool.c:140-152 | along any path between two decisions of the manager: each return from a wait uses up one request while there are any, and liveNum falls by the requests used, down to minNum |
| PoolCycles.GrowsOnlyWithQueue | CRUSH_Research/threadpool.c:268-284 | no thread is started in a cycle whose count found no queued task or maxNum live threads |
| PoolCycles.ShutdownFreezes | CRUSH_Research/threadpool.c:105-174 | after shutdown no task is accepted or taken and no thread falls asleep |
| PoolCycles.CallsAreAnswered | CRUSH_Research/threadpool.c:105-129 | in every reachable state the accepted tasks are as many as the calls that returned with success, and only shutdown turns a call down |
| PoolPromises.SignalCanBeSwallowed | CRUSH_Research/threadpool.c:127-151 | an illustration on the smallest pool: from a reachable state in which both workers sleep an add wakes one of them and that one leaves: a task is queued, the other worker sleeps, the manager is idle |
| PoolStranding.StrandingRun | CRUSH_Research/threadpool.c:127-298 | for every pool with min < max and room for a task, a run that ends with a queued task and no awake worker; with max >= 2 a live worker sleeps beside the one that swallowed the signal |
| PoolStranding.StrandsExactly | CRUSH_Research/threadpool.c:43-298 | over all arguments of `threadPoolCreate`: some run before shutdown strands a task if and only if min < max and the queue has room for one |
| PoolStranding.SleepsThroughExactly | CRUSH_Research/threadpool.c:43-298 | over all arguments of `threadPoolCreate`: some run before shutdown strands a task beside a sleeping live worker if and only if min < max, max >= 2 and the queue has room for one |
| GrowRace.PassedSlotsCommute | CRUSH_Research/threadpool.c:273-282 | clearing slots the growing loop has passed commutes with the rest of the loop |
| GrowRace.ClearingsSort | CRUSH_Research/threadpool.c:270-317 | from any turn of the growing loop on, unlocked clearings sort into early ones before it and late ones after it |
| GrowRace.GrowIsAtomic | CRUSH_Research/threadpool.c:270-317 | however leaving threads race with the growing loop, the result is that of clearing some of their slots before an undisturbed loop and the others after it |
| GrowRaceSteps.RaceIsSteps | CRUSH_Research/threadpool.c:270-317 | in the transition system such a race ends where some clearing steps, the growing step and the other clearing steps lead |
| GrowRaceSteps.RacedStateIsReachable | CRUSH_Research/threadpool.c:270-317 | so a race from a reachable state ends in a reachable state, which satisfies all invariants |
| CityHash.Input.Hash32Upto4 | CRUSH_Research/city_hash.c:164-178 | reads exactly its range, with loads of len bytes in all |
| CityHash.Input.Hash32From5To12 | CRUSH_Research/city_hash.c:180-189 | the three overlapping loads read exactly the range, for every length from 5 to 12, with loads of 12 bytes in all |
| CityHash.Input.Hash32From13To24 | CRUSH_Research/city_hash.c:151-162 | the six overlapping loads read exactly the range, for every length from 13 to 24, with loads of 24 bytes in all |
| CityHash.Input.CityHash32 | CRUSH_Research/city_hash.c:191-267 | reads exactly the bytes 0 to len - 1, for every length; inputs over 24 bytes take loads of 20 + 20 * ((len - 1) / 20) bytes in all |
| CityHash.Input.Hash64Upto16 | CRUSH_Research/city_hash.c:297-330 | reads exactly its range, for every length from 0 to 16, with loads of 16, 8, 3 or 0 bytes in all |
| CityHash.Input.Hash64From17To32 | CRUSH_Research/city_hash.c:334-344 | reads exactly its range, for every length from 17 to 32, with loads of 32 bytes in all |
| CityHash.Input.Hash64From33To64 | CRUSH_Research/city_hash.c:372-394 | reads exactly its range, for every length from 33 to 64, with loads of 64 bytes in all |
| CityHash.Input.CityHash64 | CRUSH_Research/city_hash.c:396-440 | reads exactly the bytes 0 to len - 1, for every length; inputs over 64 bytes take loads of 112 + 96 * ((len - 1) / 64) bytes in all |
| CityHash.Input.CityMurmur | CRUSH_Research/city_hash.c:452-490 | reads exactly its range, for every length; inputs over 16 bytes take loads of 16 + 16 * ((len - 1) / 16) bytes in all |
| CityHash.Input.CityHash128WithSeed | CRUSH_Research/city_hash.c:492-562 | reads exactly its range; the tail loop steps back before the current pointer but never before the start; inputs from 128 bytes on take loads of 24 + 192 * (len / 128) + 48 * ((len % 128 + 31) / 32) bytes in all |
| CityHash.Input.CityHash128 | CRUSH_Research/city_hash.c:564-576 | reads exactly the bytes 0 to len - 1, for every length; inputs from 16 bytes on take loads of 16 bytes for the seed and those of the rest |
| CityHash.ReadsExactlyTheInput | CRUSH_Research/city_hash.c:151-576 | whatever the length, all three hashes touch the same set of bytes: the whole input and nothing else |

## Left out

- `gRPC_Ceph`: network and librados I/O over libraries that are not shown.
- `test`, `test2`, `test_pthread`, `test_pthreadPool`, `main`, `do_work4`: timing, printing and thread creation with busy waiting; `BuiltMap.BuildAndPlace` models the call of the selector that `test` and `do_work4` make.
- `do_work`: no code calls it, and it shares a global output position between threads.
- `init`: unused, and its `max_devices` is one short.
- Workers.FirstnInfo.DoWork: one method with parameter k stands for `do_work1`, `do_work2` and `do_work3`, which differ only in that number. It starts after the earlier workers have finished; under other interleavings a worker may scan slots that are not yet written, and distinctness is not promised. The type is 0, as the callers set it, so the leaf recursion, to which the source passes the global table of device weights instead of the reweights, does not arise; `weight_max` is taken from the record, while the source reads the global of that name.
- Workers.FirstnInfo.ChooseInOrder: the schedule that runs the three threads one after another; the wait for the counter to reach 3 is not modelled.
- FirstnLoops.SearchReplica: the source repeats these two loops in each worker; here the selector and the workers share one method, and the part from the collision scan to the overload test is a method of its own. `r`, `ftotal` and `flocal` are unbounded; `FirstnDraws.CountersStayBounded` shows when the 32-bit counters agree, and overflow of the signed `r` is undefined in C.
- FirstnGiveUp.GiveUpUsesAllTries: that the local fallback retries search a bucket exhaustively is not claimed: the permutation chooser this needs is not in the repository.
- PseudoRandom.CrushLn: its accuracy between powers of two is not claimed, nor any statistical quality of hashes or proportionality of placement to weight.
- CrushHash.Hash32_2: the value is `Rjenkins` of the two words; only the state before the projection onto one word is injective.
- Builder.Cluster.ConstructHost: the local `items` and `item_weights` arrays are sequences, the fan-outs are parameters instead of the globals and literals (5 racks, 10 hosts, 12 devices), and the root bucket is stored when it is finished instead of before.
- Builder.Cluster.Init2: the tunables it writes are parameters of the selector here.
- ThreadPool.SharedPool.constructor: failures of malloc and pthread_create, `sleep`, and pthread error codes are left out; thread ids are the numbers 1, 2, 3 and so on, unequal for different threads.
- PoolAccounting.AlwaysInv: `threadPoolDestroy` is modelled as far as setting the flag; its freeing of memory under running workers is not. Clearing a slot is one step, since no other thread writes the slot that a leaving thread scans for, and the growing loop is one step, which `GrowRaceSteps.RaceIsSteps` justifies.
- CityHash.Input.CityHash128: only addresses are modelled. The mixing arithmetic, the byte order of loads, and how often each single byte is read are left out; the total is stated.
- The SSE4.2 variants of CityHash: they depend on a hardware intrinsic.
- Uniform, list, tree and straw buckets and rule execution: `crush.h` declares them but no code for them is shown.
- `crushmap.txt`: no code shown parses it.
