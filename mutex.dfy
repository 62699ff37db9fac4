/**
 * The fiber-level counting semaphore `FiberSemaphore` (mutex.cc).
 *
 * The bookkeeping of each operation runs under the semaphore's lock and is taken
 * as one atomic step on the pair (free permits, FIFO queue of waiters); `wait`
 * yields after releasing the lock, a window this model folds into the same step.
 * The steps are defined once, as functions on `SemState`; the class's methods are
 * proved to perform them, and the lemmas about sequences of steps give wake-up
 * order and accounting.
 */
module Mutex {
  import opened Wrappers
  import Fibers

  /** A waiter record: the scheduler that will resume the fiber, and the fiber. */
  datatype Waiter = Waiter(scheduler: Fibers.SchedulerId, fiber: Fibers.Fiber)

  /** `m_concurrency` and `m_waiters`. */
  datatype SemState<W> = SemState(permits: nat, waiters: seq<W>)

  /** Free permits and waiting fibers are never present together. */
  predicate Balanced<W>(s: SemState<W>) { s.permits > 0 ==> |s.waiters| == 0 }

  /** The classical semaphore value: free permits, or minus the number of blocked waiters. */
  function Value<W>(s: SemState<W>): int { s.permits - |s.waiters| }

  datatype Attempt<W> = Attempt(acquired: bool, state: SemState<W>)

  datatype Wakeup<W> = Wakeup(woken: Option<W>, state: SemState<W>)

  /** `tryWait`: take a permit if one is free; never queue. */
  function TryWaitStep<W>(s: SemState<W>): (r: Attempt<W>)
    ensures r.acquired <==> s.permits > 0
    ensures r.state.waiters == s.waiters
    ensures Value(r.state) == if r.acquired then Value(s) - 1 else Value(s)
    ensures Balanced(s) ==> Balanced(r.state)
  {
    if s.permits > 0 then Attempt(true, SemState(s.permits - 1, s.waiters)) else Attempt(false, s)
  }

  /** `wait`: take a permit if one is free, otherwise join the back of the queue. */
  function WaitStep<W>(s: SemState<W>, w: W): (r: SemState<W>)
    ensures Value(r) == Value(s) - 1
    ensures r.waiters == if s.permits > 0 then s.waiters else s.waiters + [w]
    ensures Balanced(s) ==> Balanced(r)
  {
    if s.permits > 0 then SemState(s.permits - 1, s.waiters) else SemState(s.permits, s.waiters + [w])
  }

  /** `notify`: wake the head of the queue if there is one, otherwise free a permit. */
  function NotifyStep<W>(s: SemState<W>): (r: Wakeup<W>)
    ensures Value(r.state) == Value(s) + 1
    ensures r.woken.Some? <==> s.waiters != []
    ensures r.woken.Some? ==> s.waiters == [r.woken.value] + r.state.waiters
    ensures r.woken.None? ==> r.state.waiters == []
    ensures Balanced(s) ==> Balanced(r.state)
  {
    if |s.waiters| > 0 then Wakeup(Some(s.waiters[0]), SemState(s.permits, s.waiters[1..]))
    else Wakeup(None, SemState(s.permits + 1, s.waiters))
  }

  /** One call on the semaphore. */
  datatype Op<W> = TryWaitOp | WaitOp(w: W) | NotifyOp

  /** The state after some calls, the waiters they queued and the waiters they handed to `schedule`, in order. */
  datatype Trace<W> = Trace(state: SemState<W>, enqueued: seq<W>, woken: seq<W>)

  /** `a` followed by `b`, where `b` starts from the state `a` ends in. */
  function Then<W>(a: Trace<W>, b: Trace<W>): Trace<W>
  {
    Trace(b.state, a.enqueued + b.enqueued, a.woken + b.woken)
  }

  /** One call. */
  function Apply<W>(s: SemState<W>, op: Op<W>): (t: Trace<W>)
    ensures s.waiters + t.enqueued == t.woken + t.state.waiters
    ensures Balanced(s) ==> Balanced(t.state)
  {
    match op
    case TryWaitOp => Trace(TryWaitStep(s).state, [], [])
    case WaitOp(w) => Trace(WaitStep(s, w), if s.permits > 0 then [] else [w], [])
    case NotifyOp =>
      var r := NotifyStep(s);
      Trace(r.state, [], if r.woken.Some? then [r.woken.value] else [])
  }

  /**
   * Any sequence of calls. The queue at the start plus what was queued equals what
   * was woken followed by the queue at the end: waiters are woken exactly in
   * arrival order, and none is lost or woken twice.
   */
  function Run<W>(s: SemState<W>, ops: seq<Op<W>>): (t: Trace<W>)
    ensures s.waiters + t.enqueued == t.woken + t.state.waiters
    ensures Balanced(s) ==> Balanced(t.state)
    decreases |ops|
  {
    if |ops| == 0 then Trace(s, [], [])
    else
      var a := Apply(s, ops[0]);
      var b := Run(a.state, ops[1..]);
      ThenConserves(s.waiters, a, b);
      Then(a, b)
  }

  /** Conservation of waiters carries over from two consecutive traces to their combination. */
  lemma ThenConserves<W>(q: seq<W>, a: Trace<W>, b: Trace<W>)
    requires q + a.enqueued == a.woken + a.state.waiters
    requires a.state.waiters + b.enqueued == b.woken + b.state.waiters
    ensures q + Then(a, b).enqueued == Then(a, b).woken + Then(a, b).state.waiters
  {
    calc {
      q + (a.enqueued + b.enqueued);
      (q + a.enqueued) + b.enqueued;
      (a.woken + a.state.waiters) + b.enqueued;
      a.woken + (a.state.waiters + b.enqueued);
      a.woken + (b.woken + b.state.waiters);
      (a.woken + b.woken) + b.state.waiters;
    }
  }

  lemma ThenAssoc<W>(a: Trace<W>, b: Trace<W>, c: Trace<W>)
    ensures Then(a, Then(b, c)) == Then(Then(a, b), c)
  {
    assert a.enqueued + (b.enqueued + c.enqueued) == (a.enqueued + b.enqueued) + c.enqueued;
    assert a.woken + (b.woken + c.woken) == (a.woken + b.woken) + c.woken;
  }

  lemma RunCons<W>(s: SemState<W>, ops: seq<Op<W>>)
    requires ops != []
    ensures Run(s, ops) == Then(Apply(s, ops[0]), Run(Apply(s, ops[0]).state, ops[1..]))
  {
  }

  /** `wait` called by each of `ws`, in order. */
  function WaitOps<W>(ws: seq<W>): (ops: seq<Op<W>>)
    ensures |ops| == |ws|
  {
    if |ws| == 0 then [] else [WaitOp(ws[0])] + WaitOps(ws[1..])
  }

  /** `notify` called `m` times. */
  function NotifyOps<W>(m: nat): (ops: seq<Op<W>>)
    ensures |ops| == m
  {
    if m == 0 then [] else [NotifyOp] + NotifyOps(m - 1)
  }

  /** Running two batches of calls is running the first, then the second from where it left off. */
  lemma {:induction false} RunAppend<W>(s: SemState<W>, xs: seq<Op<W>>, ys: seq<Op<W>>)
    ensures Run(s, xs + ys) == Then(Run(s, xs), Run(Run(s, xs).state, ys))
    decreases |xs|
  {
    if xs == [] {
      assert xs + ys == ys;
      var b := Run(s, ys);
      assert [] + b.enqueued == b.enqueued && [] + b.woken == b.woken;
    } else {
      var first := Apply(s, xs[0]);
      var rest := Run(first.state, xs[1..]);
      var tail := Run(rest.state, ys);
      assert Run(s, xs + ys) == Then(first, Run(first.state, xs[1..] + ys)) by {
        assert (xs + ys)[0] == xs[0];
        assert (xs + ys)[1..] == xs[1..] + ys;
        RunCons(s, xs + ys);
      }
      assert Run(first.state, xs[1..] + ys) == Then(rest, tail) by {
        RunAppend(first.state, xs[1..], ys);
      }
      assert Run(s, xs) == Then(first, rest) by {
        RunCons(s, xs);
      }
      ThenAssoc(first, rest, tail);
    }
  }

  /** With no free permit, every `wait` queues its caller at the back. */
  lemma ThenQueued<W>(q: seq<W>, ws: seq<W>)
    requires ws != []
    ensures Then(Trace(SemState(0, q + [ws[0]]), [ws[0]], []), Trace(SemState(0, q + [ws[0]] + ws[1..]), ws[1..], [])) ==
      Trace(SemState(0, q + ws), ws, [])
  {
    assert q + [ws[0]] + ws[1..] == q + ws;
    assert [ws[0]] + ws[1..] == ws;
  }

  lemma {:induction false} RunWaits<W>(s: SemState<W>, ws: seq<W>)
    requires s.permits == 0
    ensures Run(s, WaitOps(ws)) == Trace(SemState(0, s.waiters + ws), ws, [])
    decreases |ws|
  {
    if ws == [] {
      assert s.waiters + ws == s.waiters;
    } else {
      var s1 := SemState(0, s.waiters + [ws[0]]);
      assert Run(s, WaitOps(ws)) == Then(Trace(s1, [ws[0]], []), Run(s1, WaitOps(ws[1..]))) by {
        var ops := WaitOps(ws);
        assert ops[0] == WaitOp(ws[0]);
        assert ops[1..] == WaitOps(ws[1..]);
        RunCons(s, ops);
      }
      assert Run(s1, WaitOps(ws[1..])) == Trace(SemState(0, s1.waiters + ws[1..]), ws[1..], []) by {
        RunWaits(s1, ws[1..]);
      }
      ThenQueued(s.waiters, ws);
    }
  }

  /**
   * `m` calls of `notify` wake the first `m` waiters in queue order; those beyond
   * the queue's length each add one free permit.
   */
  lemma {:induction false} RunNotifies<W>(s: SemState<W>, m: nat)
    ensures var k := if m <= |s.waiters| then m else |s.waiters|;
      Run(s, NotifyOps(m)) == Trace(SemState(s.permits + (m - k), s.waiters[k..]), [], s.waiters[..k])
    decreases m
  {
    if m == 0 {
      assert s.waiters[0..] == s.waiters;
    } else {
      RunNotifies(NotifyStep(s).state, m - 1);
      NotifyThenRun(s, m);
    }
  }

  /** The inductive step of `RunNotifies`: one `notify`, then `m - 1` more as the hypothesis describes. */
  lemma NotifyThenRun<W>(s: SemState<W>, m: nat)
    requires m > 0
    requires var s1 := NotifyStep(s).state; var k := if m - 1 <= |s1.waiters| then m - 1 else |s1.waiters|;
      Run(s1, NotifyOps(m - 1)) == Trace(SemState(s1.permits + (m - 1 - k), s1.waiters[k..]), [], s1.waiters[..k])
    ensures var k := if m <= |s.waiters| then m else |s.waiters|;
      Run(s, NotifyOps(m)) == Trace(SemState(s.permits + (m - k), s.waiters[k..]), [], s.waiters[..k])
  {
    RunNotifyOps(s, m);
    var k := if m <= |s.waiters| then m else |s.waiters|;
    if s.waiters != [] {
      WokenHead(s.permits, s.waiters, k, m - k);
    } else {
      assert s.waiters[k..] == [] && s.waiters[..k] == [];
    }
  }

  lemma RunNotifyOps<W>(s: SemState<W>, m: nat)
    requires m > 0
    ensures Run(s, NotifyOps(m)) == Then(Apply(s, NotifyOp), Run(NotifyStep(s).state, NotifyOps(m - 1)))
  {
    var ops := NotifyOps(m);
    assert ops[0] == NotifyOp;
    assert ops[1..] == NotifyOps(m - 1);
    RunCons(s, ops);
  }

  lemma WokenHead<W>(p: nat, q: seq<W>, k: nat, extra: nat)
    requires 1 <= k <= |q|
    ensures Then(Trace(SemState(p, q[1..]), [], [q[0]]),
                 Trace(SemState(p + extra, q[1..][k - 1..]), [], q[1..][..k - 1])) ==
      Trace(SemState(p + extra, q[k..]), [], q[..k])
  {
    assert q[1..][k - 1..] == q[k..];
    assert [q[0]] + q[1..][..k - 1] == q[..k];
  }

  /**
   * FIFO wake-up: from a state with no free permit and queue `q`, after the
   * fibers `ws` call `wait` and `notify` is called `m <= |q| + |ws|` times, exactly
   * the first `m` of `q + ws` have been handed to their schedulers, in that order,
   * and the rest are still queued.
   */
  lemma FifoWakeup<W>(q: seq<W>, ws: seq<W>, m: nat)
    requires m <= |q| + |ws|
    ensures Run(SemState(0, q), WaitOps(ws) + NotifyOps(m)) ==
      Trace(SemState(0, (q + ws)[m..]), ws, (q + ws)[..m])
  {
    RunAppend(SemState(0, q), WaitOps(ws), NotifyOps(m));
    RunWaits(SemState(0, q), ws);
    RunNotifies(SemState(0, q + ws), m);
  }

  class FiberSemaphore {
    /** `m_concurrency`. */
    var concurrency: nat
    /** `m_waiters`, head first. */
    var waiters: seq<Waiter>
    /** Every `schedule` call issued by `notify`, in order. */
    ghost var scheduled: seq<Waiter>

    function Abs(): SemState<Waiter>
      reads this
    {
      SemState(concurrency, waiters)
    }

    ghost predicate Valid()
      reads this
    {
      Balanced(Abs())
    }

    /** `FiberSemaphore(initial_concurrency)`: that many permits, nobody waiting. */
    constructor (initialConcurrency: nat)
      ensures Valid() && Abs() == SemState(initialConcurrency, []) && scheduled == []
    {
      concurrency, waiters := initialConcurrency, [];
      scheduled := [];
    }

    /** `~FiberSemaphore`: nobody may still be waiting. */
    method Destroy()
      requires waiters == []
    {
    }

    /** `tryWait`: requires an ambient scheduler; takes a free permit if there is one. */
    method TryWait(ctx: Fibers.Context) returns (ok: bool)
      requires Valid() && ctx.scheduler.Some?
      modifies this`concurrency
      ensures Valid() && Attempt(ok, Abs()) == TryWaitStep(old(Abs()))
    {
      if concurrency > 0 {
        concurrency := concurrency - 1;
        return true;
      }
      return false;
    }

    /**
     * `wait`: requires an ambient scheduler. With a free permit it takes it and
     * returns. Otherwise the pair (current scheduler, `Fiber::GetThis()`) joins
     * the back of the queue and that fiber yields to hold; `self` names it.
     */
    method Wait(ctx: Fibers.Context, rt: Fibers.Runtime) returns (ghost self: Fibers.Fiber?)
      requires Valid() && rt.Valid() && ctx.scheduler.Some?
      requires concurrency == 0 ==>
        ctx.schedulerFiber != null && (ctx.current != null ==> ctx.current.state == Fibers.Exec)
      modifies this`concurrency, this`waiters
      modifies ctx`current, ctx`threadFiber, ctx`switches, rt`fiberCount, rt`live
      ensures Valid() && rt.Valid() && rt.fiberId == old(rt.fiberId)
      ensures old(concurrency) > 0 ==>
        self == null && concurrency == old(concurrency) - 1 && waiters == old(waiters) &&
        unchanged(ctx) && unchanged(rt)
      ensures old(concurrency) == 0 ==>
        self != null && Abs() == WaitStep(old(Abs()), Waiter(ctx.scheduler.value, self)) &&
        self.state == Fibers.Exec && ctx.current == ctx.schedulerFiber &&
        ctx.switches == old(ctx.switches) + [Fibers.Switch(self, ctx.schedulerFiber)]
      ensures old(concurrency) == 0 && old(ctx.current) != null ==>
        self == old(ctx.current) && ctx.threadFiber == old(ctx.threadFiber) && rt.live == old(rt.live)
      ensures old(concurrency) == 0 && old(ctx.current) == null ==>
        self != null && fresh(self) && !self.hasStack && ctx.threadFiber == self && rt.live == old(rt.live) + {self}
    {
      if concurrency > 0 {
        concurrency := concurrency - 1;
        return null;
      }
      var f := ctx.GetThis(rt);
      waiters := waiters + [Waiter(ctx.scheduler.value, f)];
      self := ctx.YieldToHold(rt);
      assert self == f;
    }

    /**
     * `notify`: the head waiter, if any, leaves the queue and is scheduled on its
     * recorded scheduler; with nobody waiting, one permit is freed.
     */
    method Notify()
      requires Valid()
      modifies this`concurrency, this`waiters, this`scheduled
      ensures Valid()
      ensures var r := NotifyStep(old(Abs()));
        Abs() == r.state && scheduled == old(scheduled) + (if r.woken.Some? then [r.woken.value] else [])
    {
      if waiters != [] {
        var next := waiters[0];
        waiters := waiters[1..];
        scheduled := scheduled + [next];
      } else {
        concurrency := concurrency + 1;
      }
    }
  }

  /**
   * One permit, and fiber `b` executing on `threadB`: a `wait` on `threadA`
   * returns at once; `b`'s `wait` queues `b` and yields; one `notify` schedules
   * `b`, leaving no permit and nobody waiting. `b` is still `Exec` while off the
   * CPU, because `YieldToHold` does not change the state.
   */
  method OnePermitScenario(rt: Fibers.Runtime, sched: Fibers.SchedulerId, threadA: Fibers.Context,
                           threadB: Fibers.Context, b: Fibers.Fiber)
    returns (sem: FiberSemaphore)
    requires rt.Valid() && threadA.scheduler == Some(sched) && threadB.scheduler == Some(sched)
    requires threadB.current == b && b.state == Fibers.Exec && threadB.schedulerFiber != null
    modifies threadA`current, threadA`threadFiber, threadA`switches
    modifies threadB`current, threadB`threadFiber, threadB`switches, rt`fiberCount, rt`live
    ensures sem.scheduled == [Waiter(sched, b)] && sem.Abs() == SemState(0, [])
    ensures b.state == Fibers.Exec && threadB.current == threadB.schedulerFiber
  {
    sem := new FiberSemaphore(1);
    var none := sem.Wait(threadA, rt);
    assert sem.Abs() == SemState(0, []);
    var self := sem.Wait(threadB, rt);
    assert self == b;
    assert sem.Abs() == SemState(0, [Waiter(sched, b)]);
    sem.Notify();
  }
}
