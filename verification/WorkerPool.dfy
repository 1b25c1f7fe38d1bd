/**
 The hand-off of src/server.c: one producer enqueues and signals under the mutex, workers dequeue under it,
 wait on the condition variable when they find the queue empty, and handle items outside it. Both pools,
 sockets and tasks, follow it. Each step holds the mutex throughout, so steps are atomic.
 */
module WorkerPool {

  /** Idle: about to lock and dequeue; Woken: signalled (or spuriously woken), about to dequeue again. */
  datatype Worker<+T> = Idle | Asleep | Woken | Handling(item: T)

  datatype Pool<T> = Pool(queue: seq<T>, workers: seq<Worker<T>>, accepted: seq<T>, taken: seq<T>, handled: multiset<T>)

  datatype Action<+T> =
    | Arrive(item: T, wake: nat)   // enqueue and signal: worker number wake gets the signal, if it sleeps
    | Dequeue(w: nat)              // an idle or woken worker, with the mutex, tries the queue
    | Finish(w: nat)
    | Spurious(w: nat)             // pthread_cond_wait returns without a signal

  predicate IsAsleep<T>(p: Pool<T>, w: nat) {
    w < |p.workers| && p.workers[w].Asleep?
  }

  predicate SomeAsleep<T>(p: Pool<T>) {
    exists w :: 0 <= w < |p.workers| && p.workers[w].Asleep?
  }

  /** A signal wakes a sleeping worker if there is one; which one is the scheduler's choice. */
  predicate Enabled<T>(p: Pool<T>, a: Action<T>) {
    match a
    case Arrive(item, wake) => SomeAsleep(p) ==> IsAsleep(p, wake)
    case Dequeue(w) => w < |p.workers| && (p.workers[w].Idle? || p.workers[w].Woken?)
    case Finish(w) => w < |p.workers| && p.workers[w].Handling?
    case Spurious(w) => IsAsleep(p, w)
  }

  function Act<T>(p: Pool<T>, a: Action<T>): Pool<T>
    requires Enabled(p, a)
  {
    match a
    case Arrive(item, wake) =>
      p.(queue := p.queue + [item], accepted := p.accepted + [item],
         workers := if IsAsleep(p, wake) then p.workers[wake := Woken] else p.workers)
    case Dequeue(w) =>
      if p.queue == [] then p.(workers := p.workers[w := Asleep])
      else p.(queue := p.queue[1..], taken := p.taken + [p.queue[0]], workers := p.workers[w := Handling(p.queue[0])])
    case Finish(w) =>
      p.(handled := p.handled + multiset{p.workers[w].item}, workers := p.workers[w := Idle])
    case Spurious(w) => p.(workers := p.workers[w := Woken])
  }

  /**
   Each action moves at most one worker: an arrival wakes the signalled sleeper, a dequeue hands the front item to
   the worker that asked or puts it to sleep on an empty queue, a finish makes the worker idle with its item counted
   once, and a spurious wakeup wakes one sleeper. The queue changes at its end on arrival and at its front on dequeue.
   */
  lemma ActionEffect<T>(p: Pool<T>, a: Action<T>)
    requires Enabled(p, a)
    ensures var t := Act(p, a);
            && |t.workers| == |p.workers|
            && (a.Arrive? ==> t.queue == p.queue + [a.item] && t.handled == p.handled && t.taken == p.taken)
            && (a.Dequeue? && p.queue != [] ==>
                  p.queue == [p.queue[0]] + t.queue && t.taken == p.taken + [p.queue[0]] && t.handled == p.handled)
            && (a.Finish? ==> p.workers[a.w].Handling? && t.handled == p.handled + multiset{p.workers[a.w].item})
            && (a.Finish? || a.Spurious? || (a.Dequeue? && p.queue == []) ==> t.queue == p.queue && t.taken == p.taken)
            && forall w :: 0 <= w < |p.workers| ==>
                 t.workers[w] ==
                 match a
                 case Arrive(_, wake) => if w == wake && p.workers[w].Asleep? then Woken else p.workers[w]
                 case Dequeue(d) => if w != d then p.workers[w] else if p.queue == [] then Asleep
                     else Handling(p.queue[0])
                 case Finish(d) => if w == d then Idle else p.workers[w]
                 case Spurious(d) => if w == d then Woken else p.workers[w]
  {}

  /** A run whose every action is enabled when it happens. */
  predicate Runs<T>(p: Pool<T>, run: seq<Action<T>>)
    decreases |run|
  {
    run == [] || (Enabled(p, run[0]) && Runs(Act(p, run[0]), run[1..]))
  }

  function After<T>(p: Pool<T>, run: seq<Action<T>>): Pool<T>
    requires Runs(p, run)
    decreases |run|
  {
    if run == [] then p else After(Act(p, run[0]), run[1..])
  }

  function Start<T>(workers: nat): Pool<T> {
    Pool([], seq(workers, _ => Idle), [], [], multiset{})
  }

  // ---------- counting workers ----------

  function Effort<T>(w: Worker<T>): nat {
    match w case Asleep => 0 case Handling(_) => 2 case _ => 1
  }

  /** Steps the workers can still take without new items: an awake worker one, a handling worker two. */
  function Load<T>(ws: seq<Worker<T>>): nat {
    if ws == [] then 0 else Effort(ws[0]) + Load(ws[1..])
  }

  function WokenCount<T>(ws: seq<Worker<T>>): nat {
    if ws == [] then 0 else (if ws[0].Woken? then 1 else 0) + WokenCount(ws[1..])
  }

  function Holds<T(==)>(w: Worker<T>, x: T): nat {
    if w.Handling? && w.item == x then 1 else 0
  }

  /** How many workers are handling x. */
  function InHand<T(==)>(ws: seq<Worker<T>>, x: T): nat {
    if ws == [] then 0 else Holds(ws[0], x) + InHand(ws[1..], x)
  }

  lemma {:induction false} Replace<T>(ws: seq<Worker<T>>, w: nat, x: Worker<T>)
    requires w < |ws|
    ensures Load(ws[w := x]) == Load(ws) - Effort(ws[w]) + Effort(x)
    ensures WokenCount(ws[w := x]) == WokenCount(ws) - (if ws[w].Woken? then 1 else 0) + (if x.Woken? then 1 else 0)
  {
    if w == 0 {
      assert ws[0 := x][1..] == ws[1..];
    } else {
      assert ws[w := x][1..] == ws[1..][w - 1 := x];
      Replace(ws[1..], w - 1, x);
    }
  }

  lemma {:induction false} ReplaceHeld<T>(ws: seq<Worker<T>>, w: nat, w': Worker<T>, x: T)
    requires w < |ws|
    ensures InHand(ws[w := w'], x) == InHand(ws, x) - Holds(ws[w], x) + Holds(w', x)
  {
    if w == 0 {
      assert ws[0 := w'][1..] == ws[1..];
    } else {
      assert ws[w := w'][1..] == ws[1..][w - 1 := w'];
      ReplaceHeld(ws[1..], w - 1, w', x);
    }
  }

  lemma {:induction false} AllIdle<T(!new)>(n: nat)
    ensures var ws: seq<Worker<T>> := seq(n, _ => Idle);
            WokenCount(ws) == 0 && forall x :: InHand(ws, x) == 0
  {
    if n > 0 {
      var ws: seq<Worker<T>> := seq(n, _ => Idle);
      assert ws[1..] == seq(n - 1, _ => Idle);
      AllIdle<T>(n - 1);
    }
  }

  // ---------- no lost wakeup ----------

  /** While a worker sleeps, every queued item has a woken worker on its way. */
  ghost predicate Attended<T>(p: Pool<T>) {
    SomeAsleep(p) ==> |p.queue| <= WokenCount(p.workers)
  }

  /** Items leave the queue in the order they came, and each is queued, in hand or handled exactly once. */
  ghost predicate Conserved<T(!new)>(p: Pool<T>) {
    && p.accepted == p.taken + p.queue
    && forall x :: multiset(p.taken)[x] == InHand(p.workers, x) + p.handled[x]
  }

  lemma AttendedKept<T>(p: Pool<T>, a: Action<T>)
    requires Enabled(p, a) && Attended(p)
    ensures Attended(Act(p, a))
  {
    var t := Act(p, a);
    match a
    case Arrive(item, wake) => if IsAsleep(p, wake) { Replace(p.workers, wake, Woken); }
    case Dequeue(w) => Replace(p.workers, w, t.workers[w]);
    case Finish(w) => Replace(p.workers, w, Idle);
    case Spurious(w) => Replace(p.workers, w, Woken);
    if SomeAsleep(t) && !(a.Dequeue? && p.queue == []) { StillAsleep(p, a); }
  }

  lemma OrderKept<T>(p: Pool<T>, a: Action<T>)
    requires Enabled(p, a) && p.accepted == p.taken + p.queue
    ensures Act(p, a).accepted == Act(p, a).taken + Act(p, a).queue
  {
    if a.Dequeue? && p.queue != [] { assert p.queue == [p.queue[0]] + p.queue[1..]; }
  }

  lemma CountKept<T>(p: Pool<T>, a: Action<T>, x: T)
    requires Enabled(p, a) && multiset(p.taken)[x] == InHand(p.workers, x) + p.handled[x]
    ensures multiset(Act(p, a).taken)[x] == InHand(Act(p, a).workers, x) + Act(p, a).handled[x]
  {
    hide InHand;
    var t := Act(p, a);
    match a
    case Arrive(item, wake) => if IsAsleep(p, wake) { ReplaceHeld(p.workers, wake, Woken, x); }
    case Dequeue(w) => ReplaceHeld(p.workers, w, t.workers[w], x);
    case Finish(w) => ReplaceHeld(p.workers, w, Idle, x);
    case Spurious(w) => ReplaceHeld(p.workers, w, Woken, x);
  }

  lemma ConservedKept<T(!new)>(p: Pool<T>, a: Action<T>)
    requires Enabled(p, a) && Conserved(p)
    ensures Conserved(Act(p, a))
  {
    hide Act, InHand;
    OrderKept(p, a);
    forall x ensures multiset(Act(p, a).taken)[x] == InHand(Act(p, a).workers, x) + Act(p, a).handled[x] {
      CountKept(p, a, x);
    }
  }

  // No action but an empty dequeue puts a worker to sleep.
  lemma StillAsleep<T>(p: Pool<T>, a: Action<T>)
    requires Enabled(p, a) && SomeAsleep(Act(p, a)) && !(a.Dequeue? && p.queue == [])
    ensures SomeAsleep(p)
  {
    var w :| 0 <= w < |Act(p, a).workers| && Act(p, a).workers[w].Asleep?;
    assert p.workers[w].Asleep?;
  }

  lemma {:induction false} RunKeeps<T(!new)>(p: Pool<T>, run: seq<Action<T>>)
    requires Runs(p, run) && Attended(p) && Conserved(p)
    ensures Attended(After(p, run)) && Conserved(After(p, run)) && |After(p, run).workers| == |p.workers|
    decreases |run|
  {
    hide Attended, Conserved;
    if run != [] {
      AttendedKept(p, run[0]);
      ConservedKept(p, run[0]);
      RunKeeps(Act(p, run[0]), run[1..]);
    }
  }

  /**
   After any run, spurious wakeups and barging workers included: a sleeping worker means a woken one per queued
   item.
   */
  lemma NoLostWakeup<T(!new)>(workers: nat, run: seq<Action<T>>)
    requires Runs(Start(workers), run)
    ensures var p := After(Start(workers), run);
            && (SomeAsleep(p) ==> |p.queue| <= WokenCount(p.workers))
            && (p.queue != [] && workers > 0 ==> exists w :: 0 <= w < |p.workers| && !p.workers[w].Asleep?)
  {
    AllIdle<T>(workers);
    RunKeeps(Start(workers), run);
    var p := After(Start(workers), run);
    if p.queue != [] && workers > 0 && p.workers[0].Asleep? { WokenExists(p.workers); }
  }

  lemma {:induction false} WokenExists<T>(ws: seq<Worker<T>>)
    requires WokenCount(ws) > 0
    ensures exists w :: 0 <= w < |ws| && !ws[w].Asleep?
  {
    if !ws[0].Woken? {
      WokenExists(ws[1..]);
      var w :| 0 <= w < |ws[1..]| && !ws[1..][w].Asleep?;
      assert !ws[w + 1].Asleep?;
    }
  }

  /** First in, first out, and each accepted item is queued, in hand or handled exactly once. */
  lemma EachItemOnce<T(!new)>(workers: nat, run: seq<Action<T>>)
    requires Runs(Start(workers), run)
    ensures var p := After(Start(workers), run);
            && p.accepted == p.taken + p.queue
            && forall x :: multiset(p.accepted)[x] == multiset(p.queue)[x] + InHand(p.workers, x) + p.handled[x]
  {
    AllIdle<T>(workers);
    RunKeeps(Start(workers), run);
    var p := After(Start(workers), run);
    assert multiset(p.accepted) == multiset(p.taken) + multiset(p.queue);
  }

  // ---------- the queue drains ----------

  /** Bounds the steps left once arrivals and spurious wakeups stop. */
  function Remaining<T>(p: Pool<T>): nat {
    2 * |p.queue| + Load(p.workers)
  }

  predicate Quiet<T>(run: seq<Action<T>>) {
    forall i :: 0 <= i < |run| ==> run[i].Dequeue? || run[i].Finish?
  }

  lemma QuietStepShrinks<T>(p: Pool<T>, a: Action<T>)
    requires Enabled(p, a) && (a.Dequeue? || a.Finish?)
    ensures Remaining(Act(p, a)) == Remaining(p) - 1
  {
    Replace(p.workers, a.w, Act(p, a).workers[a.w]);
  }

  lemma {:induction false} QuietRunBounded<T>(p: Pool<T>, run: seq<Action<T>>)
    requires Runs(p, run) && Quiet(run)
    ensures Remaining(After(p, run)) == Remaining(p) - |run|
    decreases |run|
  {
    if run != [] {
      QuietStepShrinks(p, run[0]);
      QuietRunBounded(Act(p, run[0]), run[1..]);
    }
  }

  lemma {:induction false} LoadZero<T>(ws: seq<Worker<T>>)
    ensures Load(ws) == 0 <==> forall w :: 0 <= w < |ws| ==> ws[w].Asleep?
    ensures Load(ws) <= 2 * |ws|
  {
    if ws != [] {
      LoadZero(ws[1..]);
      assert Load(ws) == 0 ==> forall w :: 0 <= w < |ws| ==> ws[w] == if w == 0 then ws[0] else ws[1..][w - 1];
      assert (forall w :: 0 <= w < |ws| ==> ws[w].Asleep?) ==>
          forall w :: 0 <= w < |ws[1..]| ==> ws[1..][w] == ws[w + 1];
    }
  }

  /**
   Once arrivals and spurious wakeups stop, any further run takes at most 2 steps per queued item and per
   worker; and when no step is left to take, the queue is empty and every worker sleeps.
   */
  lemma QueueDrains<T(!new)>(workers: nat, run: seq<Action<T>>, tail: seq<Action<T>>)
    requires Runs(Start(workers), run) && Runs(After(Start(workers), run), tail) && Quiet(tail) && workers > 0
    ensures var p := After(Start(workers), run);
            var t := After(p, tail);
            && |tail| <= 2 * |p.queue| + 2 * workers
            && ((forall a: Action<T> :: (a.Dequeue? || a.Finish?) ==> !Enabled(t, a))
                ==> t.queue == [] && forall w :: 0 <= w < |t.workers| ==> t.workers[w].Asleep?)
  {
    AllIdle<T>(workers);
    RunKeeps(Start(workers), run);
    var p := After(Start(workers), run);
    RunKeeps(p, tail);
    QuietRunBounded(p, tail);
    LoadZero(p.workers);
    var t := After(p, tail);
    if forall a: Action<T> :: (a.Dequeue? || a.Finish?) ==> !Enabled(t, a) {
      StuckIsDrained(t);
    }
  }

  lemma StuckIsDrained<T>(t: Pool<T>)
    requires Attended(t) && |t.workers| > 0
    requires forall a: Action<T> :: (a.Dequeue? || a.Finish?) ==> !Enabled(t, a)
    ensures t.queue == [] && forall w :: 0 <= w < |t.workers| ==> t.workers[w].Asleep?
  {
    forall w | 0 <= w < |t.workers| ensures t.workers[w].Asleep? {
      assert !Enabled(t, Dequeue(w)) && !Enabled(t, Finish(w));
    }
    assert t.workers[0].Asleep?;
    if WokenCount(t.workers) > 0 { WokenExists(t.workers); }
  }
}
