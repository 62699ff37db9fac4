# Fibers and the fiber semaphore of sylar, modelled in Dafny

This project models two small pieces of the sylar server framework:

- **Fiber lifecycle bookkeeping** (`fiber.cc`, module `Fibers` in `fiber.dfy`). A `Fiber` object has an id, a state (`Init`, `Exec`, `Ready`, `Hold`, `Term`, `Except`), an optional callback, and either its own stack or none (a thread's root fiber). It also records where its saved context resumes. The process-wide counters `s_fiber_id` and `s_fiber_count` are fields of one `Runtime` object. Its ghost set `live` holds the constructed, not yet destroyed fibers. `Runtime.Valid()` says three things:
  - the live counter equals the size of that set;
  - every live non-root fiber has an id in `1..s_fiber_id`;
  - no two live non-root fibers share an id.

  The thread-locals `t_fiber` and `t_threadFiber` are fields of a `Context` object, one per thread. That object also holds the two values the scheduler supplies for the thread (`Scheduler::GetThis()` and `Scheduler::GetMainFiber()`). A context switch is an uninterpreted step. It is appended to the context's ghost `switches` log as the pair (context saved, context resumed), and its only other effect is on `state` and on the current fiber. The trampolines `MainFunc` and `CallerMainFunc` take the callback's outcome (`Returned` or `Threw`) as a parameter.
- **The fiber-level semaphore** (`FiberSemaphore` in `mutex.cc`, module `Mutex` in `mutex.dfy`). The class has:
  - the permit counter `m_concurrency`;
  - the FIFO queue `m_waiters` of (scheduler, fiber) records, as a `seq`;
  - a ghost log of the `schedule` calls that `notify` issues.

  The bookkeeping of each method (the permit counter and the queue) runs under the semaphore's lock, and the model treats each such critical section as one atomic step. In `wait` the lock is released before the fiber yields (mutex.cc:52-59), and the model merges the enqueue and the yield into one step of `Mutex.FiberSemaphore.Wait`. Each step is defined once, as a function on the abstract state `SemState<W>`. That state is generic in the waiter record, because the semaphore never inspects a waiter; the class instantiates it with `Waiter`. The methods are proved to carry out these steps. Lemmas about `Run`, which runs any sequence of calls, give the FIFO wake-up order and the invariant "free permits and waiters are never both present".

`wrappers.dfy` holds the `Option` type. It stands for an empty `std::function`, a null pointer or a missing scheduler.

`fiber.h` is not part of this model. For the root fiber, the model takes the header's usual member initialisers: id 0 and stack size 0. A fiber created with a callback starts in `Init`.

Two details of the code that the model follows:
- `call` (fiber.cc:132-140) has no state precondition. Only `swapIn` asserts that the fiber is not already `Exec`.
- `YieldToHold` (fiber.cc:196-201) leaves the state `Exec`, because its `HOLD` assignment is commented out. So a fiber blocked in `FiberSemaphore::wait` stays `Exec` while off the CPU (`Mutex.OnePermitScenario`). `Fiber.SwapIn` refuses such a fiber until the scheduler, which is not part of this model, changes its state.

Two more details follow the code:
- `reset` always points the fresh context at `MainFunc`, even for a fiber created with `use_caller` (fiber.cc:128).
- Calling an empty callback throws `std::bad_function_call`, so a fiber without a callback always ends in `Except` (`Fibers.Completion`).

`~FiberSemaphore` is `Mutex.FiberSemaphore.Destroy`. Its whole content is its precondition, an empty waiter queue (mutex.cc:33-35), so it has no postcondition and no row below.

## Model

| member | source | states |
|---|---|---|
| `Fibers.Runtime.constructor` | fiber.cc:13-22 | both counters start at 0 and no fiber is live; the default stack size is the configured `fiber.stack_size`, or 128*1024 when none is configured |
| `Fibers.Runtime.TotalFibers` | fiber.cc:204-206 | the returned count equals the number of constructed, not yet destroyed fibers |
| `Fibers.Context.constructor` | fiber.cc:18-19 | a thread starts with no current fiber and no root fiber |
| `Fibers.Context.SetThis` | fiber.cc:170-172 | the given fiber (or null) becomes current, and nothing else changes |
| `Fibers.Context.GetFiberId` | fiber.cc:37-42 | the current fiber's id, or 0 when no fiber is current |
| `Fibers.Context.GetThis` | fiber.cc:175-185 | returns the current fiber unchanged when there is one; only when none is current does it create a root fiber (`Exec`, no stack, no callback), make it current and store it as the thread's root; the live count rises by one exactly then, and the id counter never moves |
| `Fibers.Context.YieldToReady` | fiber.cc:188-193 | requires the yielding fiber to be `Exec`; it becomes `Ready`, the scheduler's fiber becomes current, and one switch from it to the scheduler's fiber is recorded |
| `Fibers.Context.YieldToHold` | fiber.cc:196-201 | requires `Exec`; the state stays `Exec`; the switch to the scheduler's fiber is as for `YieldToReady` |
| `Fibers.Context.MainFunc` | fiber.cc:209-236 | the current fiber's state and callback become `Completion` of its callback and the outcome; control then switches to the scheduler's fiber |
| `Fibers.Context.CallerMainFunc` | fiber.cc:238-264 | as `MainFunc`, but control switches back to the thread's root fiber |
| `Fibers.Completion` | fiber.cc:212-228 | a returning callback is cleared and the state is `Term`; otherwise (a throw, or no callback at all) the state is `Except` and the callback stays; both end states allow `reset` and destruction |
| `Fibers.Fiber.Complete` | fiber.cc:241-257 | the fiber's state and callback become exactly `Completion` of the old callback and the outcome, and the fiber invariant holds |
| `Fibers.Fiber.Root` | fiber.cc:45-57 | a root fiber is `Exec`, holds no stack or callback, and becomes current; the live count rises by one and the id counter is unchanged |
| `Fibers.Fiber.constructor` | fiber.cc:59-85 | the new fiber's id is the old id counter plus one, and the counter now holds it; the live count rises by one; the state is `Init` and the callback is the given one; the stack size is the requested size, or the configured default when 0 is requested; the entry is `CallerMainFunc` exactly when `use_caller` is set |
| `Fibers.Fiber.Destroy` | fiber.cc:87-109 | a fiber with a stack must be `Init`, `Term` or `Except`; a root fiber must have no callback and be `Exec`; the live count falls by one and the fiber leaves the live set; a root fiber that was current stops being current |
| `Fibers.Fiber.Reset` | fiber.cc:113-130 | requires a non-root fiber in `Init`, `Term` or `Except`; installs the given callback, re-targets the context at `MainFunc` and sets `Init`; id and stack are constants |
| `Fibers.Fiber.Call` | fiber.cc:132-140 | with no state precondition, the fiber becomes `Exec` and current; one switch from the thread's root fiber is recorded |
| `Fibers.Fiber.Back` | fiber.cc:142-148 | the thread's root fiber becomes current; one switch to it is recorded; the state is unchanged |
| `Fibers.Fiber.SwapIn` | fiber.cc:151-159 | requires a state other than `Exec`; the fiber becomes `Exec` and current; one switch from the scheduler's fiber is recorded |
| `Fibers.Fiber.SwapOut` | fiber.cc:162-167 | the scheduler's fiber becomes current; one switch to it is recorded; the state is unchanged |
| `Fibers.RunOnce` | fiber.cc:209-233 | a new fiber run by `swapIn` and `MainFunc` ends `Term` with no callback when the callback returns, and `Except` with the callback kept when it throws; it is still live, and the live count is one more than before |
| `Mutex.TryWaitStep` | mutex.cc:37-47 | succeeds exactly when a permit is free; on success one permit is used, on failure nothing changes; the queue is never touched; the invariant is preserved |
| `Mutex.WaitStep` | mutex.cc:49-59 | uses a free permit if there is one, and otherwise appends the waiter at the back of the queue with permits unchanged; the semaphore value (free permits minus waiters) drops by one; the invariant is preserved |
| `Mutex.NotifyStep` | mutex.cc:62-77 | wakes a waiter exactly when the queue is non-empty; the woken waiter is the head, and the rest of the queue is kept in order with permits unchanged; with an empty queue one permit is freed; the semaphore value rises by one; the invariant is preserved |
| `Mutex.Apply` | mutex.cc:37-77 | one call keeps the conservation law below and preserves the invariant |
| `Mutex.Run` | mutex.cc:37-77 | for any sequence of calls: the starting queue followed by every waiter queued equals every waiter woken followed by the final queue, so waiters are woken in arrival order, none twice and none lost; the invariant is preserved |
| `Mutex.RunWaits` | mutex.cc:53-57 | with no free permit, each `wait` appends its caller at the back and nothing is woken |
| `Mutex.RunNotifies` | mutex.cc:66-75 | `m` notifies wake the first `min(m, queue length)` waiters in queue order; each notify beyond that frees one permit |
| `Mutex.FifoWakeup` | mutex.cc:57-72 | with no free permit and queue `q`, after fibers `ws` wait and `m` notifies follow (`m` at most the combined length of `q` and `ws`), exactly the first `m` of `q + ws` were scheduled, in that order; the rest stay queued and no permit is free |
| `Mutex.FiberSemaphore.constructor` | mutex.cc:29-31 | the permit count is `initial_concurrency`, the queue is empty and nothing has been scheduled |
| `Mutex.FiberSemaphore.TryWait` | mutex.cc:37-47 | requires a current scheduler; the result and the new state are exactly `TryWaitStep` of the old state, and the invariant holds |
| `Mutex.FiberSemaphore.Wait` | mutex.cc:49-60 | requires a current scheduler. With a free permit, one is used and nothing else changes. Otherwise the new state is `WaitStep` of the old one with the waiter (current scheduler, `Fiber::GetThis()`), and that fiber, still `Exec`, has switched out to the scheduler's fiber |
| `Mutex.FiberSemaphore.Notify` | mutex.cc:62-77 | the new state is `NotifyStep` of the old one; the woken waiter, if any, is appended to the log of `schedule` calls |
| `Mutex.OnePermitScenario` | mutex.cc:49-77 | one permit: a first `wait` returns at once and a second queues its fiber; one `notify` then schedules that fiber, leaving no permit, an empty queue, and the fiber still `Exec` |

## Left out

- Machine contexts (`getcontext`, `makecontext`, `swapcontext`, the `ucontext_t` fields): a switch is recorded only as the pair of fibers it saves and resumes. Failures of these calls are fatal assertions in the source; the model treats the calls as never failing.
- Stack memory (`MallocStackAllocator`): a fiber's stack is the constant `hasStack` and its size. It is freed once because `Destroy` requires a live fiber and removes it from the live set.
- Atomicity of the counters and thread-locality of `t_fiber` and `t_threadFiber`: these are plain fields of `Runtime` and of one `Context` per thread. Cross-thread interleaving, and the semaphore's mutex, are not modelled; each semaphore method's critical section is one atomic step.
- `shared_ptr` and `shared_from_this` lifetimes, including the `cur.reset()` in the trampolines: the model has no reference counts, and destruction is an explicit call to `Destroy`.
- `Scheduler::GetThis`, `Scheduler::GetMainFiber` and `Scheduler::schedule` are an external collaborator that is not part of this model. The first two are fields of `Context`; `schedule` is appended to the semaphore's ghost log.
- The "never reach" assertions after the final switch in both trampolines: control does not return to a finished trampoline, so the model ends each trampoline at its switch.
- Logging, `BacktraceToString` and the exception message: these are diagnostics only. `Config::Lookup` is replaced by the optional configured value given to the `Runtime` constructor.
- The POSIX `Semaphore` class (mutex.cc:7-27) is a thin wrapper over `sem_init`, `sem_wait` and `sem_post` with no logic of its own.
- Fibers.Runtime.constructor: `s_fiber_id` and `s_fiber_count` are unbounded; the 64-bit wrap-around after 2^64 creations is not modelled.
- Mutex.FiberSemaphore.Notify: `m_concurrency` is unbounded; the `size_t` overflow is not modelled.
- Fibers.Fiber.constructor: the requested `stacksize` is unbounded; narrowing to the width of `m_stacksize`, which `fiber.h` declares, is not modelled.
- Mutex.FiberSemaphore.Wait: the enqueue (under the lock) and `Fiber::YieldToHold()` (after the lock is released, mutex.cc:58-59) are one step. The model therefore does not capture the window between them, in which a `notify` on another thread can take the waiter off the queue and schedule its fiber before that fiber has switched out. The `Scheduler::GetThis()` assertions (mutex.cc:38, 50), which run before the lock is taken, are the method's precondition.
- Fibers.Context.MainFunc, Fibers.Context.CallerMainFunc, Fibers.RunOnce: the callback `m_cb()` (fiber.cc:213, 242) runs as one opaque step, given only by its outcome, with no effect on `Runtime`, `Context` or the `switches` log. So the clauses saying the live set and id counter are unchanged, `RunOnce`'s "one more live fiber", and "exactly one switch" describe only the trampoline's own bookkeeping. A real callback may create or destroy fibers and yield, which adds switches.
- Fibers.Fiber.constructor: stack allocation (`StackAllocator::Alloc`, an unchecked `malloc` at fiber.cc:66) is assumed to succeed, so every fiber made by this constructor has a stack. A null stack would send `~Fiber` down the root-fiber branch (fiber.cc:96-98) and make `reset` fail its assertion (fiber.cc:115); that case is not modelled.
- Resumption of a fiber after its switch-out (what the scheduler does next) belongs to the scheduler and is not modelled.
