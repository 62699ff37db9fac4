/**
 * Fiber lifecycle bookkeeping (fiber.cc).
 *
 * A `Fiber` keeps its id, state, callback, stack ownership and the entry point of
 * its saved machine context. The process-wide counters `s_fiber_id` and
 * `s_fiber_count` live in one `Runtime` object; the thread-locals `t_fiber` and
 * `t_threadFiber` live in one `Context` object per modelled thread, together with
 * the two values the scheduler collaborator supplies for that thread.
 *
 * A context switch (`swapcontext`) is an uninterpreted step: it is recorded in the
 * context's ghost `switches` log as the pair (fiber whose context is saved, fiber
 * whose context is resumed). Each switching method's postcondition describes the
 * state at the moment control leaves the switching fiber.
 */
module Fibers {
  import opened Wrappers

  /** `fiber.stack_size` when the configuration does not set it (fiber.cc:21-22). */
  const DEFAULT_STACK_SIZE: nat := 128 * 1024

  type uint32 = x: nat | x < 0x1_0000_0000

  /** The states of `Fiber::State`. */
  datatype State = Init | Exec | Ready | Hold | Term | Except

  /** A callback (`std::function<void()>`), known only by identity. */
  type Task = nat

  /** A scheduler instance, as returned by `Scheduler::GetThis()`. */
  type SchedulerId = nat

  /** How a callback ends: it returns, or an exception escapes it. */
  datatype Outcome = Returned | Threw

  /**
   * Where a fiber's saved context resumes the first time it is switched in:
   * the thread's own stack (a root fiber's `getcontext`), or one of the two
   * trampolines installed by `makecontext`.
   */
  datatype Entry = ThreadStack | MainTrampoline | CallerTrampoline

  /** One `swapcontext`: the context saved and the context resumed. */
  datatype Switch = Switch(saved: Fiber, resumed: Fiber)

  /** States in which nothing runs on the fiber's stack: `reset` and `~Fiber` allow only these. */
  predicate Quiescent(s: State) { s == Init || s == Term || s == Except }

  /** What the trampolines' try/catch leaves in the fiber once its callback is done. */
  datatype Finished = Finished(state: State, cb: Option<Task>)

  /**
   * The completion logic of `MainFunc` and `CallerMainFunc`. Invoking an empty
   * `std::function` throws `std::bad_function_call`, so a fiber without a
   * callback ends in `Except` whatever the outcome would have been.
   */
  function Completion(cb: Option<Task>, outcome: Outcome): (r: Finished)
    ensures Quiescent(r.state) && r.state != Init
    ensures r.state == Term <==> cb.Some? && outcome == Returned
    ensures r.state == Term ==> r.cb == None
    ensures r.state != Term ==> r.state == Except && r.cb == cb
  {
    if cb.Some? && outcome == Returned then Finished(Term, None) else Finished(Except, cb)
  }

  /** Process-wide state: the id counter, the live-fiber counter and the configured stack size. */
  class Runtime {
    /** `s_fiber_id`: the id of the most recently created non-root fiber. */
    var fiberId: nat
    /** `s_fiber_count`: the number of constructed, not yet destroyed fibers. */
    var fiberCount: nat
    /** The value of `fiber.stack_size`. */
    const defaultStackSize: uint32
    /** The fibers constructed and not yet destroyed. */
    ghost var live: set<Fiber>

    /**
     * The live counter counts the live fibers; every live non-root fiber has an id
     * in 1..fiberId, and no two live non-root fibers share one.
     */
    ghost predicate Valid()
      reads this
    {
      fiberCount == |live| &&
      (forall f :: f in live && f.hasStack ==> 1 <= f.id <= fiberId) &&
      (forall f, g :: f in live && g in live && f.hasStack && g.hasStack && f.id == g.id ==> f == g)
    }

    /** Process start: both counters are 0 and the stack size is looked up in the configuration. */
    constructor (configuredStackSize: Option<uint32>)
      ensures Valid() && fiberId == 0 && fiberCount == 0 && live == {}
      ensures defaultStackSize == if configuredStackSize.Some? then configuredStackSize.value else DEFAULT_STACK_SIZE
    {
      fiberId, fiberCount := 0, 0;
      defaultStackSize := if configuredStackSize.Some? then configuredStackSize.value else DEFAULT_STACK_SIZE;
      live := {};
    }

    /** `Fiber::TotalFibers`: the number of live fibers. */
    method TotalFibers() returns (n: nat)
      requires Valid()
      ensures n == |live|
    {
      n := fiberCount;
    }
  }

  /** The thread-local state of one thread, and what the scheduler supplies for it. */
  class Context {
    /** `t_fiber`: the fiber running on this thread. */
    var current: Fiber?
    /** `t_threadFiber`: this thread's root fiber. */
    var threadFiber: Fiber?
    /** `Scheduler::GetThis()` on this thread. */
    var scheduler: Option<SchedulerId>
    /** `Scheduler::GetMainFiber()` on this thread: the target of `swapIn` and `swapOut`. */
    var schedulerFiber: Fiber?
    /** Every context switch issued on this thread, in order. */
    ghost var switches: seq<Switch>

    /** A thread with no fiber yet, under the given scheduler values. */
    constructor (scheduler: Option<SchedulerId>, schedulerFiber: Fiber?)
      ensures current == null && threadFiber == null && switches == []
      ensures this.scheduler == scheduler && this.schedulerFiber == schedulerFiber
    {
      current, threadFiber := null, null;
      this.scheduler, this.schedulerFiber := scheduler, schedulerFiber;
      switches := [];
    }

    /** `Fiber::SetThis`. */
    method SetThis(f: Fiber?)
      modifies this`current
      ensures current == f
    {
      current := f;
    }

    /** `Fiber::GetFiberId`: the current fiber's id, or 0 when there is none. */
    method GetFiberId() returns (id: nat)
      ensures current == null ==> id == 0
      ensures current != null ==> id == current.id
    {
      if current != null {
        id := current.id;
      } else {
        id := 0;
      }
    }

    /**
     * `Fiber::GetThis`: the current fiber; when there is none, the thread's root
     * fiber is created, made current and stored in `t_threadFiber`.
     */
    method GetThis(rt: Runtime) returns (f: Fiber)
      requires rt.Valid()
      modifies this`current, this`threadFiber, rt`fiberCount, rt`live
      ensures rt.Valid() && current == f && rt.fiberId == old(rt.fiberId)
      ensures old(current) != null ==>
        f == old(current) && threadFiber == old(threadFiber) &&
        rt.fiberCount == old(rt.fiberCount) && rt.live == old(rt.live)
      ensures old(current) == null ==>
        fresh(f) && f.Valid() && !f.hasStack && f.state == Exec && f.cb == None &&
        threadFiber == f && rt.fiberCount == old(rt.fiberCount) + 1 && rt.live == old(rt.live) + {f}
    {
      if current != null {
        return current;
      }
      var root := new Fiber.Root(rt, this);
      assert current == root;
      threadFiber := root;
      f := current;
    }

    /**
     * `Fiber::YieldToReady`: the current fiber (created as for `GetThis` when there
     * is none), which must be executing, becomes `Ready` and switches out to the
     * scheduler's fiber. `yielded` names that fiber.
     */
    method YieldToReady(rt: Runtime) returns (ghost yielded: Fiber)
      requires rt.Valid() && schedulerFiber != null
      requires current != null ==> current.Valid() && current.state == Exec
      modifies this`current, this`threadFiber, this`switches, rt`fiberCount, rt`live,
        if current == null then {} else {current}
      ensures rt.Valid() && rt.fiberId == old(rt.fiberId)
      ensures old(current) != null ==>
        yielded == old(current) && threadFiber == old(threadFiber) && rt.live == old(rt.live) &&
        yielded.cb == old(current.cb) && yielded.entry == old(current.entry)
      ensures old(current) == null ==>
        fresh(yielded) && !yielded.hasStack && yielded.cb == None &&
        threadFiber == yielded && rt.live == old(rt.live) + {yielded}
      ensures yielded.Valid() && yielded.state == Ready
      ensures current == schedulerFiber && switches == old(switches) + [Switch(yielded, schedulerFiber)]
    {
      var cur := GetThis(rt);
      cur.state := Ready;
      cur.SwapOut(this);
      yielded := cur;
    }

    /**
     * `Fiber::YieldToHold`: as `YieldToReady`, except that the assignment of `HOLD`
     * is commented out in fiber.cc, so the yielded fiber stays `Exec`.
     */
    method YieldToHold(rt: Runtime) returns (ghost yielded: Fiber)
      requires rt.Valid() && schedulerFiber != null
      requires current != null ==> current.state == Exec
      modifies this`current, this`threadFiber, this`switches, rt`fiberCount, rt`live
      ensures rt.Valid() && rt.fiberId == old(rt.fiberId)
      ensures old(current) != null ==>
        yielded == old(current) && threadFiber == old(threadFiber) && rt.live == old(rt.live)
      ensures old(current) == null ==>
        fresh(yielded) && yielded.Valid() && !yielded.hasStack && yielded.cb == None &&
        threadFiber == yielded && rt.live == old(rt.live) + {yielded}
      ensures yielded.state == Exec
      ensures current == schedulerFiber && switches == old(switches) + [Switch(yielded, schedulerFiber)]
    {
      var cur := GetThis(rt);
      cur.SwapOut(this);
      yielded := cur;
    }

    /**
     * `Fiber::MainFunc`, the trampoline of fibers created without `use_caller`:
     * the current fiber's callback runs with the given outcome, then the fiber
     * switches out to the scheduler's fiber.
     */
    method MainFunc(rt: Runtime, outcome: Outcome) returns (ghost ran: Fiber)
      requires rt.Valid() && schedulerFiber != null
      requires current != null ==> current.Valid()
      modifies this`current, this`threadFiber, this`switches, rt`fiberCount, rt`live,
        if current == null then {} else {current}
      ensures rt.Valid() && rt.fiberId == old(rt.fiberId)
      ensures old(current) != null ==>
        ran == old(current) && threadFiber == old(threadFiber) && rt.live == old(rt.live) &&
        ran.entry == old(current.entry) && Finished(ran.state, ran.cb) == Completion(old(current.cb), outcome)
      ensures old(current) == null ==>
        fresh(ran) && !ran.hasStack && threadFiber == ran && rt.live == old(rt.live) + {ran} &&
        ran.state == Except && ran.cb == None
      ensures ran.Valid()
      ensures current == schedulerFiber && switches == old(switches) + [Switch(ran, schedulerFiber)]
    {
      var cur := GetThis(rt);
      cur.Complete(outcome);
      cur.SwapOut(this);
      ran := cur;
    }

    /**
     * `Fiber::CallerMainFunc`, the trampoline of fibers created with `use_caller`:
     * as `MainFunc`, but control goes back to the thread's root fiber.
     */
    method CallerMainFunc(rt: Runtime, outcome: Outcome) returns (ghost ran: Fiber)
      requires rt.Valid()
      requires current != null ==> current.Valid() && threadFiber != null
      modifies this`current, this`threadFiber, this`switches, rt`fiberCount, rt`live,
        if current == null then {} else {current}
      ensures rt.Valid() && rt.fiberId == old(rt.fiberId)
      ensures old(current) != null ==>
        ran == old(current) && threadFiber == old(threadFiber) && rt.live == old(rt.live) &&
        ran.entry == old(current.entry) && Finished(ran.state, ran.cb) == Completion(old(current.cb), outcome)
      ensures old(current) == null ==>
        fresh(ran) && !ran.hasStack && threadFiber == ran && rt.live == old(rt.live) + {ran} &&
        ran.state == Except && ran.cb == None
      ensures ran.Valid() && threadFiber != null
      ensures current == threadFiber && switches == old(switches) + [Switch(ran, threadFiber)]
    {
      var cur := GetThis(rt);
      cur.Complete(outcome);
      cur.Back(this);
      ran := cur;
    }
  }

  class Fiber {
    /** `m_id`; root fibers keep the header's initial value 0. */
    const id: nat
    /** `m_stack != nullptr`: false for a thread's root fiber; allocation is taken to succeed for the others. */
    const hasStack: bool
    /** `m_stacksize`; 0 for a root fiber. */
    const stackSize: nat
    /** `m_state`. */
    var state: State
    /** `m_cb`. */
    var cb: Option<Task>
    /** Where `m_ctx` resumes when first switched in. */
    var entry: Entry

    /**
     * A root fiber has id 0, no stack, and a context taken on the thread's own
     * stack; a fiber that ended normally holds no callback.
     */
    ghost predicate Valid()
      reads this
    {
      (hasStack <==> entry != ThreadStack) &&
      (!hasStack ==> id == 0 && stackSize == 0) &&
      (state == Term ==> cb == None)
    }

    /** `Fiber::Fiber()`: the root fiber of the calling thread. */
    constructor Root(rt: Runtime, ctx: Context)
      requires rt.Valid()
      modifies rt`fiberCount, rt`live, ctx`current
      ensures Valid() && !hasStack && state == Exec && cb == None
      ensures ctx.current == this
      ensures rt.fiberId == old(rt.fiberId) && rt.fiberCount == old(rt.fiberCount) + 1
      ensures rt.live == old(rt.live) + {this} && rt.Valid()
    {
      id, hasStack, stackSize := 0, false, 0;
      state, cb, entry := Exec, None, ThreadStack;
      new;
      ctx.SetThis(this);
      rt.fiberCount := rt.fiberCount + 1;
      rt.live := rt.live + {this};
    }

    /**
     * `Fiber::Fiber(cb, stacksize, use_caller)`: a fiber in `Init` with the next id,
     * its own stack of the requested size (the configured one when 0), and a
     * context that starts at the trampoline `use_caller` selects.
     */
    constructor (rt: Runtime, cb: Option<Task>, stacksize: nat, useCaller: bool)
      requires rt.Valid()
      modifies rt`fiberId, rt`fiberCount, rt`live
      ensures Valid() && hasStack && state == Init && this.cb == cb
      ensures id == old(rt.fiberId) + 1 && rt.fiberId == id
      ensures stackSize == if stacksize == 0 then rt.defaultStackSize else stacksize
      ensures entry == if useCaller then CallerTrampoline else MainTrampoline
      ensures rt.fiberCount == old(rt.fiberCount) + 1
      ensures rt.live == old(rt.live) + {this} && rt.Valid()
    {
      rt.fiberId := rt.fiberId + 1;
      id := rt.fiberId;
      this.cb := cb;
      hasStack := true;
      stackSize := if stacksize == 0 then rt.defaultStackSize else stacksize;
      state := Init;
      entry := if useCaller then CallerTrampoline else MainTrampoline;
      new;
      rt.fiberCount := rt.fiberCount + 1;
      rt.live := rt.live + {this};
    }

    /**
     * `Fiber::~Fiber`: a fiber with a stack must be quiescent; a root fiber must
     * hold no callback and be `Exec`, and stops being current if it was.
     */
    method Destroy(rt: Runtime, ctx: Context)
      requires rt.Valid() && this in rt.live
      requires hasStack ==> Quiescent(state)
      requires !hasStack ==> cb == None && state == Exec
      modifies rt`fiberCount, rt`live, ctx`current
      ensures rt.Valid() && rt.fiberId == old(rt.fiberId)
      ensures rt.fiberCount == old(rt.fiberCount) - 1 && rt.live == old(rt.live) - {this}
      ensures ctx.current == if !hasStack && old(ctx.current) == this then null else old(ctx.current)
    {
      rt.fiberCount := rt.fiberCount - 1;
      rt.live := rt.live - {this};
      if !hasStack {
        var cur := ctx.current;
        if cur == this {
          ctx.SetThis(null);
        }
      }
    }

    /**
     * `Fiber::reset`: a quiescent fiber with a stack gets the new callback and a
     * fresh context at `MainFunc` (even if it was created with `use_caller`), and
     * returns to `Init`; its id and stack are constants.
     */
    method Reset(cb: Option<Task>)
      requires Valid() && hasStack && Quiescent(state)
      modifies this`cb, this`state, this`entry
      ensures Valid() && this.cb == cb && state == Init && entry == MainTrampoline
    {
      this.cb := cb;
      entry := MainTrampoline;
      state := Init;
    }

    /** `Fiber::call`: this fiber becomes current and `Exec`, switched in from the thread's root fiber. */
    method Call(ctx: Context)
      requires Valid() && ctx.threadFiber != null
      modifies this`state, ctx`current, ctx`switches
      ensures Valid() && state == Exec && ctx.current == this
      ensures ctx.switches == old(ctx.switches) + [Switch(ctx.threadFiber, this)]
    {
      ctx.SetThis(this);
      state := Exec;
      ctx.switches := ctx.switches + [Switch(ctx.threadFiber, this)];
    }

    /** `Fiber::back`: the thread's root fiber becomes current and is switched in. */
    method Back(ctx: Context)
      requires ctx.threadFiber != null
      modifies ctx`current, ctx`switches
      ensures ctx.current == ctx.threadFiber
      ensures ctx.switches == old(ctx.switches) + [Switch(this, ctx.threadFiber)]
    {
      ctx.SetThis(ctx.threadFiber);
      ctx.switches := ctx.switches + [Switch(this, ctx.threadFiber)];
    }

    /** `Fiber::swapIn`: a fiber not already executing becomes current and `Exec`, switched in from the scheduler's fiber. */
    method SwapIn(ctx: Context)
      requires Valid() && ctx.schedulerFiber != null && state != Exec
      modifies this`state, ctx`current, ctx`switches
      ensures Valid() && state == Exec && ctx.current == this
      ensures ctx.switches == old(ctx.switches) + [Switch(ctx.schedulerFiber, this)]
    {
      ctx.SetThis(this);
      state := Exec;
      ctx.switches := ctx.switches + [Switch(ctx.schedulerFiber, this)];
    }

    /** `Fiber::swapOut`: the scheduler's fiber becomes current and is switched in. */
    method SwapOut(ctx: Context)
      requires ctx.schedulerFiber != null
      modifies ctx`current, ctx`switches
      ensures ctx.current == ctx.schedulerFiber
      ensures ctx.switches == old(ctx.switches) + [Switch(this, ctx.schedulerFiber)]
    {
      ctx.SetThis(ctx.schedulerFiber);
      ctx.switches := ctx.switches + [Switch(this, ctx.schedulerFiber)];
    }

    /** The try/catch of both trampolines around `m_cb()`. */
    method Complete(outcome: Outcome)
      requires Valid()
      modifies this`state, this`cb
      ensures Valid() && Finished(state, cb) == Completion(old(cb), outcome)
    {
      var done := Completion(cb, outcome);
      state, cb := done.state, done.cb;
    }
  }

  /**
   * A fiber created with a callback, switched in by the scheduler and run by
   * `MainFunc`: it ends `Term` when the callback returns and `Except` when it
   * throws. Either way it is still live, the live count is one more than before,
   * and the thread is back on the scheduler's fiber.
   */
  method RunOnce(rt: Runtime, ctx: Context, task: Task, outcome: Outcome) returns (f: Fiber)
    requires rt.Valid() && ctx.schedulerFiber != null
    modifies rt`fiberId, rt`fiberCount, rt`live, ctx`current, ctx`threadFiber, ctx`switches
    ensures rt.Valid() && f in rt.live && rt.fiberCount == old(rt.fiberCount) + 1
    ensures f.state == (if outcome == Returned then Term else Except)
    ensures f.cb == (if outcome == Returned then None else Some(task))
    ensures ctx.current == ctx.schedulerFiber
    ensures ctx.switches == old(ctx.switches) + [Switch(ctx.schedulerFiber, f), Switch(f, ctx.schedulerFiber)]
  {
    f := new Fiber(rt, Some(task), 0, false);
    f.SwapIn(ctx);
    var ran := ctx.MainFunc(rt, outcome);
  }
}
