/** The thread pool as a labelled transition system: one step per critical section, wait sets for
    the two condition variables, spurious wakeups, and a shutdown flag that flips at any time. */
module PoolSystem {
  import opened ThreadPool

  /** Where a worker thread is.  `Took` is between its unlock and `busyNum++`, `Exiting` between
      its unlock and the clearing of its slot.  Task number n is the n-th accepted task. */
  datatype Worker =
    | Start | Asleep | Woken
    | Took(n: nat, task: Task) | Running(n: nat, task: Task)
    | Exiting | Gone

  /** Where a call of `threadPoolAdd` is. */
  datatype Producer = Calling(task: Task) | Blocked(task: Task) | Notified(task: Task) | Returned(added: bool)

  /** Where the manager is, with the local copies it has taken.  `Checked` is between its test of
      the flag and its first look at the pool, while it sleeps. */
  datatype Manager =
    | Idle
    | Checked
    | Counted(queueSize: int, liveNum: int)
    | Sampled(queueSize: int, liveNum: int, busyNum: int)
    | Grown(liveNum: int, busyNum: int)
    | Signalling(left: nat)
    | Stopped

  /** The pool, its threads, and the history of accepted, dequeued and finished tasks.  Worker i
      has thread id i + 1. */
  datatype State = State(
    pool: Pool, shutDown: bool, workers: seq<Worker>, producers: seq<Producer>, manager: Manager,
    accepted: seq<Task>, taken: nat, finished: set<nat>)

  /** `wake` names the sleeper that a signal wakes, or is -1 if there is none to wake; s1 and s2 are
      the two unlocked readings of `shutDown` inside one critical section. */
  datatype Event =
    | WorkerLock(i: nat, s1: bool, s2: bool, wake: int)
    | WorkerBegin(i: nat)
    | WorkerFinish(i: nat)
    | WorkerClear(i: nat)
    | WorkerSpurious(i: nat)
    | Call(task: Task)
    | ProducerLock(k: nat, s1: bool, s2: bool, wake: int)
    | ProducerSpurious(k: nat)
    | ManagerCheck
    | ManagerCount
    | ManagerSample
    | ManagerGrow
    | ManagerShrink
    | ManagerSignal(wake: int)
    | ShutDown

  // ---------------------------------------------------------------- signals

  predicate WorkerWakeOk(ws: seq<Worker>, wake: int) {
    if wake == -1 then forall i | 0 <= i < |ws| :: !ws[i].Asleep?
    else 0 <= wake < |ws| && ws[wake].Asleep?
  }

  /** `pthread_cond_signal(&notEmpty)` */
  function WakeWorker(ws: seq<Worker>, wake: int): seq<Worker>
    requires WorkerWakeOk(ws, wake)
  {
    if wake == -1 then ws else ws[wake := Woken]
  }

  predicate ProducerWakeOk(ps: seq<Producer>, wake: int) {
    if wake == -1 then forall k | 0 <= k < |ps| :: !ps[k].Blocked?
    else 0 <= wake < |ps| && ps[wake].Blocked?
  }

  /** `pthread_cond_signal(&notFull)` */
  function WakeProducer(ps: seq<Producer>, wake: int): seq<Producer>
    requires ProducerWakeOk(ps, wake)
  {
    if wake == -1 then ps else ps[wake := Notified(ps[wake].task)]
  }

  // ---------------------------------------------------------------- steps

  /** What holds in every reachable state, so it never blocks a step: the queue fields are
      consistent and the slot array has its length. */
  predicate InBounds(s: State) {
    QueueOk(s.pool) && |s.pool.threadIDs| == s.pool.maxNum
  }

  predicate Enabled(s: State, e: Event)
    requires InBounds(s)
  {
    match e
    case WorkerLock(i, s1, s2, wake) =>
      && i < |s.workers| && (s.workers[i].Start? || s.workers[i].Woken?)
      && (s.shutDown ==> s1) && (s1 ==> s2)
      && (WorkerPass(s.pool, s.workers[i].Woken?, s1, s2).1.Takes? ==> ProducerWakeOk(s.producers, wake))
    case WorkerBegin(i) => i < |s.workers| && s.workers[i].Took?
    case WorkerFinish(i) => i < |s.workers| && s.workers[i].Running?
    case WorkerClear(i) => i < |s.workers| && s.workers[i].Exiting?
    case WorkerSpurious(i) => i < |s.workers| && s.workers[i].Asleep?
    case Call(_) => true
    case ProducerLock(k, s1, s2, wake) =>
      && k < |s.producers| && (s.producers[k].Calling? || s.producers[k].Notified?)
      && (s.shutDown ==> s1) && (s1 ==> s2)
      && (AddPass(s.pool, s.producers[k].task, s1, s2).1.Accepted? ==> WorkerWakeOk(s.workers, wake))
    case ProducerSpurious(k) => k < |s.producers| && s.producers[k].Blocked?
    case ManagerCheck => s.manager.Idle?
    case ManagerCount => s.manager.Checked?
    case ManagerSample => s.manager.Counted?
    case ManagerGrow => s.manager.Sampled?
    case ManagerShrink => s.manager.Grown?
    case ManagerSignal(wake) => s.manager.Signalling? && s.manager.left > 0 && WorkerWakeOk(s.workers, wake)
    case ShutDown => true
  }

  function AfterWorkerLock(s: State, i: nat, s1: bool, s2: bool, wake: int): State
    requires InBounds(s) && Enabled(s, WorkerLock(i, s1, s2, wake))
  {
    var (p, end) := WorkerPass(s.pool, s.workers[i].Woken?, s1, s2);
    var t := s.(pool := p, shutDown := s2);
    match end
    case Sleeps => t.(workers := s.workers[i := Asleep])
    case Leaves => t.(workers := s.workers[i := Exiting])
    case Takes(task) =>
      t.(workers := s.workers[i := Took(s.taken, task)], taken := s.taken + 1,
         producers := WakeProducer(s.producers, wake))
  }

  function AfterProducerLock(s: State, k: nat, s1: bool, s2: bool, wake: int): State
    requires InBounds(s) && Enabled(s, ProducerLock(k, s1, s2, wake))
  {
    var task := s.producers[k].task;
    var (p, end) := AddPass(s.pool, task, s1, s2);
    var t := s.(pool := p, shutDown := s2);
    match end
    case Waits => t.(producers := s.producers[k := Blocked(task)])
    case Rejected => t.(producers := s.producers[k := Returned(false)])
    case Accepted =>
      t.(producers := s.producers[k := Returned(true)], accepted := s.accepted + [task],
         workers := WakeWorker(s.workers, wake))
  }

  /** threadpool.c:268-284: the decision uses the copies, the loop the current slots. */
  function AfterGrow(s: State): State
    requires InBounds(s) && s.manager.Sampled?
  {
    var t := s.(manager := Grown(s.manager.liveNum, s.manager.busyNum));
    if s.manager.queueSize >= 1 && s.manager.liveNum < s.pool.maxNum then
      var p := Grow(s.pool, s.manager.liveNum, 0, 0, |s.workers| + 1);
      var added := p.liveNum - s.pool.liveNum;
      t.(pool := p, workers := s.workers + seq(if added > 0 then added else 0, _ => Start))
    else t
  }

  function Apply(s: State, e: Event): State
    requires InBounds(s) && Enabled(s, e)
  {
    match e
    case WorkerLock(i, s1, s2, wake) => AfterWorkerLock(s, i, s1, s2, wake)
    case WorkerBegin(i) =>
      s.(workers := s.workers[i := Running(s.workers[i].n, s.workers[i].task)],
         pool := s.pool.(busyNum := s.pool.busyNum + 1))
    case WorkerFinish(i) =>
      s.(workers := s.workers[i := Start], finished := s.finished + {s.workers[i].n},
         pool := s.pool.(busyNum := s.pool.busyNum - 1))
    case WorkerClear(i) =>
      s.(workers := s.workers[i := Gone],
         pool := s.pool.(threadIDs := ClearSlot(s.pool.threadIDs, i + 1)))
    case WorkerSpurious(i) => s.(workers := s.workers[i := Woken])
    case Call(task) => s.(producers := s.producers + [Calling(task)])
    case ProducerLock(k, s1, s2, wake) => AfterProducerLock(s, k, s1, s2, wake)
    case ProducerSpurious(k) => s.(producers := s.producers[k := Notified(s.producers[k].task)])
    case ManagerCheck => s.(manager := if s.shutDown then Stopped else Checked)
    case ManagerCount => s.(manager := Counted(s.pool.queueSize, s.pool.liveNum))
    case ManagerSample =>
      s.(manager := Sampled(s.manager.queueSize, s.manager.liveNum, s.pool.busyNum))
    case ManagerGrow => AfterGrow(s)
    case ManagerShrink =>
      if s.manager.busyNum * 2 < s.manager.liveNum && s.manager.liveNum > s.pool.minNum then
        s.(pool := s.pool.(exitNum := NUMBER), manager := Signalling(NUMBER))
      else s.(manager := Idle)
    case ManagerSignal(wake) =>
      s.(workers := WakeWorker(s.workers, wake),
         manager := if s.manager.left == 1 then Idle else Signalling(s.manager.left - 1))
    case ShutDown => s.(shutDown := true)
  }

  /** The state `threadPoolCreate` leaves behind: no task yet, `min` workers about to lock. */
  predicate Initial(s: State) {
    && s.pool.minNum <= s.pool.maxNum && 1 <= s.pool.maxNum
    && s.pool == Created(s.pool.minNum, s.pool.maxNum, |s.pool.taskQ|, s.pool.taskQ)
    && s.shutDown == false && s.manager == Idle
    && s.workers == seq(s.pool.minNum, _ => Start) && s.producers == []
    && s.accepted == [] && s.taken == 0 && s.finished == {}
  }

  /** The events lead from some initial state to s. */
  ghost predicate Reaches(events: seq<Event>, s: State) {
    if events == [] then Initial(s)
    else
      exists p ::
        && Reaches(events[..|events| - 1], p)
        && InBounds(p) && Enabled(p, events[|events| - 1]) && s == Apply(p, events[|events| - 1])
  }

  /** The events lead from s to t. */
  ghost predicate Path(s: State, events: seq<Event>, t: State)
    decreases |events|
  {
    if events == [] then s == t
    else InBounds(s) && Enabled(s, events[0]) && Path(Apply(s, events[0]), events[1..], t)
  }

  lemma Extend(events: seq<Event>, p: State, e: Event, s: State) returns (more: seq<Event>)
    requires Reaches(events, p) && InBounds(p) && Enabled(p, e) && s == Apply(p, e)
    ensures more == events + [e] && Reaches(more, s)
  {
    hide Initial, Enabled, Apply, InBounds;
    more := events + [e];
    assert more[..|events|] == events;
  }

  /** Whatever a path leads to from a reachable state is reachable. */
  lemma {:induction false} PathReaches(events: seq<Event>, s: State, more: seq<Event>, t: State)
    requires Reaches(events, s) && Path(s, more, t)
    ensures Reaches(events + more, t)
    decreases |more|
  {
    hide Reaches, Enabled, Apply, InBounds;
    if more == [] {
      assert events + more == events;
    } else {
      var longer := Extend(events, s, more[0], Apply(s, more[0]));
      PathReaches(longer, Apply(s, more[0]), more[1..], t);
      assert longer + more[1..] == events + more;
    }
  }

  lemma {:induction false} PathJoin(s: State, a: seq<Event>, t: State, b: seq<Event>, u: State)
    requires Path(s, a, t) && Path(t, b, u)
    ensures Path(s, a + b, u)
    decreases |a|
  {
    hide Enabled, Apply, InBounds;
    if a == [] {
      assert a + b == b;
    } else {
      PathJoin(Apply(s, a[0]), a[1..], t, b, u);
      assert (a + b)[1..] == a[1..] + b;
    }
  }

  lemma PathOne(s: State, e: Event)
    requires InBounds(s) && Enabled(s, e)
    ensures Path(s, [e], Apply(s, e))
  {
    hide Enabled, Apply, InBounds;
    assert Path(Apply(s, e), [e][1..], Apply(s, e));
  }

  // ---------------------------------------------------------------- counting

  function Tally<T>(s: seq<T>, f: T -> nat): nat {
    if s == [] then 0 else Tally(s[..|s| - 1], f) + f(s[|s| - 1])
  }

  lemma TallyAppend<T>(s: seq<T>, x: T, f: T -> nat)
    ensures Tally(s + [x], f) == Tally(s, f) + f(x)
  {
    assert (s + [x])[..|s|] == s;
  }

  lemma {:induction false} TallyUpdate<T>(s: seq<T>, i: nat, x: T, f: T -> nat)
    requires i < |s|
    ensures Tally(s[i := x], f) == Tally(s, f) - f(s[i]) + f(x)
  {
    var n := |s| - 1;
    if i < n {
      TallyUpdate(s[..n], i, x, f);
      assert s[i := x][..n] == s[..n][i := x];
    } else {
      assert s[i := x][..n] == s[..n];
    }
  }

  lemma {:induction false} TallyRepeat<T>(s: seq<T>, n: nat, x: T, f: T -> nat)
    ensures Tally(s + seq(n, _ => x), f) == Tally(s, f) + n * f(x)
  {
    if n == 0 {
      assert s + seq(n, _ => x) == s;
    } else {
      var less := s + seq(n - 1, _ => x);
      assert s + seq(n, _ => x) == less + [x];
      TallyRepeat(s, n - 1, x, f);
      TallyAppend(less, x, f);
    }
  }

  lemma {:induction false} TallyBounds<T>(s: seq<T>, f: T -> nat)
    ensures (forall i | 0 <= i < |s| :: f(s[i]) <= 1) ==> Tally(s, f) <= |s|
    ensures forall i | 0 <= i < |s| :: f(s[i]) <= Tally(s, f)
    ensures (forall i | 0 <= i < |s| :: f(s[i]) == 0) ==> Tally(s, f) == 0
  {
    if s != [] {
      var n := |s| - 1;
      TallyBounds(s[..n], f);
      assert forall i | 0 <= i < n :: s[i] == s[..n][i];
      forall i | 0 <= i < |s|
        ensures f(s[i]) <= Tally(s, f)
      {
        if i < n {
          assert f(s[..n][i]) <= Tally(s[..n], f);
        }
      }
    }
  }

  lemma {:induction false} TallySum<T>(s: seq<T>, f: T -> nat, g: T -> nat, h: T -> nat)
    requires forall x :: f(x) == g(x) + h(x)
    ensures Tally(s, f) == Tally(s, g) + Tally(s, h)
  {
    if s != [] {
      TallySum(s[..|s| - 1], f, g, h);
    }
  }
}
