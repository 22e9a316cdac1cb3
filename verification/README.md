# funtom concurrency utilities: a Dafny model of the per-key registry and the drainable buffer

This project models the two sequential cores of the `io.funtom.util.concurrent` package and proves properties about them.

1. **The reference-counted per-key registry.** `ConcurrencySegment` keeps a user count and a shared value for each key.
   - A key's first `getValue` creates the value through the supplier, with count 1.
   - Later calls share that value and add one to the count.
   - `releaseKey` takes one off the count. The last release drops the key from both maps.
   - Each per-key executor has a private copy of this logic as `getExecutorForKey` / `freeExecutorForKey` (`getLockForKey` / `freeLockForKey` in `SynchronizedPerKeyExecutor`). Those classes are `PerKeySynchronizedExecutor`, `PerKeyLockExecutor`, `PerKeyReadWriteSynchronizedExecutor`, `PerKeyReadWriteLockExecutor` and `SynchronizedPerKeyExecutor`.
   - Every public method of those classes follows one pattern: acquire the key's value, run the task, and release the key in a `finally` block.
2. **`ConcurrentBuffer`.** It is a FIFO queue.
   - `add` / `addAll` append.
   - `getAndRemoveAll` drains everything.
   - `getAndRemove(n)` rejects a negative `n`. Otherwise it drains the oldest `min(n, size)` elements.

## How the model is built

- `failures.dfy` (`Failures`): a `Result` for an operation that throws before it changes anything.
- `tasks.dfy` (`Tasks`): task outcomes.
  - An outcome is `Ok(value)` or `Fail(throwable)`.
  - A throwable is a checked exception, a runtime exception, an `Error`, or an `UncheckedExecutionException` wrapping another throwable.
  - The package has two distinct wrapper classes with that name: a top-level one, and one nested in `SynchronizedPerKeyExecutor`.
  - `WrapUnchecked` is the `catch (Exception e)` adapter of the unchecked submits.
- `concurrency_segment.dfy` (`ConcurrencySegment`): the registry as an immutable `Segment`.
  - The state has a count map, a value map, and `supplied`, the number of supplier calls so far.
  - A value is identified by the order the supplier made it in. So "the same instance" is equality of ids, and "a new instance" is an id never issued before.
  - `Valid` is the invariant: equal key sets, counts of at least 1, only supplied ids, and distinct keys holding distinct values.
  - `Valid` is the class invariant, not a demand on callers. A new segment satisfies it (`ConcurrencySegment.Empty`), and every operation keeps it. So every state the object can reach satisfies it, which is why the operations take it as a precondition.
  - `WithKey` is the acquire / run / release-in-`finally` pattern.
  - `RunCall` / `RunCalls` model tasks that themselves make per-key calls, and only nestings that return. For the plain executors, whose locks are reentrant, a nested call may use any key, even the caller's own. For the read/write executors, a write nested inside a read of the same key never returns: a `ReentrantReadWriteLock` cannot upgrade a read hold to a write hold.
- `concurrent_buffer.dfy` (`ConcurrentBuffer`):
  - The buffer operations as functions on a sequence.
  - The two iterator loops as methods, proved equal to those functions.
  - `Replay`, which runs any sequence of client calls, used to prove no loss and no duplication.
- One file per executor class. Each has a lifecycle lemma tying the class's copy of the registry to `ConcurrencySegment`, and one function per public method.

Nothing in the model performs I/O. The supplier is modelled as the id counter, which hands out a new instance on every call. A task is given as its outcome.

## Model

| member | source | states |
|---|---|---|
| Tasks.WrapUnchecked | src/main/java/io/funtom/util/concurrent/LockExecutor.java:37-43 | a returned value passes through; a task exception comes back as an `UncheckedExecutionException` of the given class whose cause is that exception; an `Error` escapes unchanged |
| Tasks.UnwrapWrapUnchecked | src/main/java/io/funtom/util/concurrent/UncheckedExecutionException.java:7-9 | the wrapper keeps the original throwable as its cause: taking the cause back out recovers the task's own outcome, for every outcome |
| ConcurrencySegment.Empty | src/main/java/io/funtom/util/concurrent/ConcurrencySegment.java:9-15 | a new segment has both maps empty and satisfies the registry invariant |
| ConcurrencySegment.GetValue | src/main/java/io/funtom/util/concurrent/ConcurrencySegment.java:17-29 | keeps the invariant; on a key without a count, sets the count to 1 and returns a value never supplied before, calling the supplier once; on a held key, adds one to the count and returns the stored value without calling the supplier; the returned value is the one stored for the key; no other key changes |
| ConcurrencySegment.ReleaseKey | src/main/java/io/funtom/util/concurrent/ConcurrencySegment.java:31-39 | fails (the null count cannot be unboxed) exactly when the key has no count; at count 1, removes the key from both maps; above 1, takes one off the count and keeps the value; keeps the invariant; no other key changes |
| ConcurrencySegment.ReleaseUndoesGetValue | src/main/java/io/funtom/util/concurrent/ConcurrencySegment.java:17-39 | a release after an acquire of the same key succeeds and brings both maps back to what they were before the acquire |
| ConcurrencySegment.GetValueThenReleaseKeyRestores | src/main/java/io/funtom/util/concurrent/ConcurrencySegment.java:17-39 | `getValue(k)` then `releaseKey(k)` restores both maps exactly; the supplier was called iff the key had no count |
| ConcurrencySegment.ReleaseLastThenGetValueIsFresh | src/main/java/io/funtom/util/concurrent/ConcurrencySegment.java:17-39 | after the last user releases a key, the next acquire calls the supplier again and gets a value different from the key's old one and from every value held |
| ConcurrencySegment.WithKey | src/main/java/io/funtom/util/concurrent/PerKeySynchronizedExecutor.java:21-28 | acquire, task, release in `finally`: the registry's maps are the same afterwards whether the task returned or threw; the task ran on the key's existing value if it was held, else on a new one; the outcome reaches the caller unchanged |
| ConcurrencySegment.RunCall | src/main/java/io/funtom/util/concurrent/ConcurrencySegment.java:17-39 | a call whose task makes nested per-key calls leaves both maps as they were; every key held at the start keeps its value throughout; every nested use of the call's own key gets the instance the call got |
| ConcurrencySegment.RunCalls | src/main/java/io/funtom/util/concurrent/ConcurrencySegment.java:17-39 | a sequence of such calls leaves both maps as they were, and every key held at the start hands out only its stored value |
| ConcurrencySegment.RunCallsFromEmptyLeavesEmpty | src/main/java/io/funtom/util/concurrent/ConcurrencySegment.java:31-39 | no leak: after any calls on a fresh registry have returned, both maps are empty again |
| ConcurrentBuffer.Empty | src/main/java/io/funtom/util/concurrent/ConcurrentBuffer.java:16-18 | a new buffer holds no elements |
| ConcurrentBuffer.Add | src/main/java/io/funtom/util/concurrent/ConcurrentBuffer.java:24-26 | the element ends up last, behind all earlier elements in their order |
| ConcurrentBuffer.AddAll | src/main/java/io/funtom/util/concurrent/ConcurrentBuffer.java:33-35 | the elements end up at the end in the collection's order, behind all earlier elements |
| ConcurrentBuffer.GetAndRemoveAll | src/main/java/io/funtom/util/concurrent/ConcurrentBuffer.java:44-51 | returns every element, oldest first, and leaves the buffer empty |
| ConcurrentBuffer.GetAndRemove | src/main/java/io/funtom/util/concurrent/ConcurrentBuffer.java:64-78 | a negative count is rejected with that count as the message; otherwise the batch has exactly `min(n, size)` elements, and the batch followed by the remaining buffer is the old buffer |
| ConcurrentBuffer.GetAndRemoveAllLoop | src/main/java/io/funtom/util/concurrent/ConcurrentBuffer.java:44-51 | the iterator loop that moves each head element to the result computes exactly `GetAndRemoveAll` |
| ConcurrentBuffer.GetAndRemoveLoop | src/main/java/io/funtom/util/concurrent/ConcurrentBuffer.java:64-78 | the argument check plus the loop bounded by `remaining` computes exactly `GetAndRemove` |
| ConcurrentBuffer.GetAndRemoveZero | src/main/java/io/funtom/util/concurrent/ConcurrentBuffer.java:53-56 | `getAndRemove(0)` returns the empty list and leaves the buffer unchanged |
| ConcurrentBuffer.GetAndRemoveNegativeRejected | src/main/java/io/funtom/util/concurrent/ConcurrentBuffer.java:66-67 | a drain with a negative count returns no batch and leaves every element in the buffer |
| ConcurrentBuffer.ReplayNoLossNoDuplication | src/main/java/io/funtom/util/concurrent/ConcurrentBuffer.java:6-13 | for any sequence of adds and drains: all drained batches in order, followed by what is left, equal the starting contents followed by everything added, in order |
| ConcurrentBuffer.ReplayKeepsEveryElement | src/test/java/io/funtom/util/concurrent/ConcurrentBufferTest.java:111-115 | starting from an empty buffer, each element is drained or still buffered exactly as many times as it was added |
| ConcurrentBuffer.AddAllThenAddDrainsInOrder | src/test/java/io/funtom/util/concurrent/ConcurrentBufferTest.java:24-33 | `addAll([3,2,1]); add(0)` drains as `[3,2,1,0]`, and the next drain is empty |
| ConcurrentBuffer.GetAndRemoveScenario | src/test/java/io/funtom/util/concurrent/ConcurrentBufferTest.java:36-47 | add 1..4, take 2 gives `[1,2]`, add 5, take 0 gives `[]`, take 1 gives `[3]`, drain gives `[4,5]` |
| PerKeySynchronizedExecutor.ExecutorForKeyLifecycle | src/main/java/io/funtom/util/concurrent/PerKeySynchronizedExecutor.java:30-52 | `getExecutorForKey` creates with count 1 or shares and increments; `freeExecutorForKey` removes at count 1 and otherwise decrements; free after get restores the registry |
| PerKeySynchronizedExecutor.ExecuteRunnable | src/main/java/io/funtom/util/concurrent/PerKeySynchronizedExecutor.java:12-19 | registry restored whether the task returned or threw; the outcome is the task's; the task ran on the key's shared or new executor |
| PerKeySynchronizedExecutor.ExecuteSupplier | src/main/java/io/funtom/util/concurrent/PerKeySynchronizedExecutor.java:21-28 | registry restored on both outcomes; the supplier's result, or its throwable, is returned unchanged |
| PerKeyLockExecutor.ExecutorForKeyLifecycle | src/main/java/io/funtom/util/concurrent/PerKeyLockExecutor.java:40-62 | `getExecutorForKey` creates with count 1 or shares and increments; `freeExecutorForKey` removes at count 1 and otherwise decrements; free after get restores the registry |
| PerKeyLockExecutor.Execute | src/main/java/io/funtom/util/concurrent/PerKeyLockExecutor.java:13-20 | registry restored on both outcomes; the outcome is the task's |
| PerKeyLockExecutor.Submit | src/main/java/io/funtom/util/concurrent/PerKeyLockExecutor.java:22-29 | registry restored on both outcomes; the task's value is returned, or its exception propagates unchanged |
| PerKeyLockExecutor.SubmitUnchecked | src/main/java/io/funtom/util/concurrent/PerKeyLockExecutor.java:31-38 | registry restored on both outcomes; a value comes back unchanged; an exception comes back as the package's `UncheckedExecutionException` carrying it as cause; an `Error` escapes unchanged |
| PerKeyReadWriteSynchronizedExecutor.ExecutorForKeyLifecycle | src/main/java/io/funtom/util/concurrent/PerKeyReadWriteSynchronizedExecutor.java:48-70 | `getExecutorForKey` creates with count 1 or shares and increments; `freeExecutorForKey` removes at count 1 and otherwise decrements; free after get restores the registry |
| PerKeyReadWriteSynchronizedExecutor.ReadExecuteRunnable | src/main/java/io/funtom/util/concurrent/PerKeyReadWriteSynchronizedExecutor.java:12-19 | takes the read side; registry restored on both outcomes; the outcome is the task's |
| PerKeyReadWriteSynchronizedExecutor.ReadExecuteSupplier | src/main/java/io/funtom/util/concurrent/PerKeyReadWriteSynchronizedExecutor.java:21-28 | takes the read side; registry restored on both outcomes; the supplier's result is returned unchanged |
| PerKeyReadWriteSynchronizedExecutor.WriteExecuteRunnable | src/main/java/io/funtom/util/concurrent/PerKeyReadWriteSynchronizedExecutor.java:30-37 | takes the write side; registry restored on both outcomes; the outcome is the task's |
| PerKeyReadWriteSynchronizedExecutor.WriteExecuteSupplier | src/main/java/io/funtom/util/concurrent/PerKeyReadWriteSynchronizedExecutor.java:39-46 | takes the write side; registry restored on both outcomes; the supplier's result is returned unchanged |
| PerKeyReadWriteSynchronizedExecutor.ReadAndWriteShareExecutor | src/main/java/io/funtom/util/concurrent/PerKeyReadWriteSynchronizedExecutor.java:12-46 | a read call and a write call on the same key use the same executor instance and leave the same registry; only the lock side differs |
| PerKeyReadWriteLockExecutor.ExecutorForKeyLifecycle | src/main/java/io/funtom/util/concurrent/PerKeyReadWriteLockExecutor.java:67-89 | `getExecutorForKey` creates with count 1 or shares and increments; `freeExecutorForKey` removes at count 1 and otherwise decrements; free after get restores the registry |
| PerKeyReadWriteLockExecutor.ReadExecute | src/main/java/io/funtom/util/concurrent/PerKeyReadWriteLockExecutor.java:13-20 | takes the read side; registry restored on both outcomes; the outcome is the task's |
| PerKeyReadWriteLockExecutor.ReadSubmit | src/main/java/io/funtom/util/concurrent/PerKeyReadWriteLockExecutor.java:22-29 | takes the read side; registry restored on both outcomes; the task's value is returned, or its exception propagates unchanged |
| PerKeyReadWriteLockExecutor.ReadSubmitUnchecked | src/main/java/io/funtom/util/concurrent/PerKeyReadWriteLockExecutor.java:31-38 | takes the read side; registry restored on both outcomes; an exception comes back wrapped in the package's `UncheckedExecutionException` with it as cause; values and `Error`s unchanged |
| PerKeyReadWriteLockExecutor.WriteExecute | src/main/java/io/funtom/util/concurrent/PerKeyReadWriteLockExecutor.java:40-47 | takes the write side; registry restored on both outcomes; the outcome is the task's |
| PerKeyReadWriteLockExecutor.WriteSubmit | src/main/java/io/funtom/util/concurrent/PerKeyReadWriteLockExecutor.java:49-56 | takes the write side; registry restored on both outcomes; the task's value is returned, or its exception propagates unchanged |
| PerKeyReadWriteLockExecutor.WriteSubmitUnchecked | src/main/java/io/funtom/util/concurrent/PerKeyReadWriteLockExecutor.java:58-65 | takes the write side; registry restored on both outcomes; an exception comes back wrapped in the package's `UncheckedExecutionException` with it as cause; values and `Error`s unchanged |
| SynchronizedPerKeyExecutor.LockForKeyLifecycle | src/main/java/io/funtom/util/concurrent/SynchronizedPerKeyExecutor.java:44-66 | `getLockForKey` creates a lock with count 1 or shares and increments; `freeLockForKey` removes at count 1 and otherwise decrements; free after get restores the registry |
| SynchronizedPerKeyExecutor.Execute | src/main/java/io/funtom/util/concurrent/SynchronizedPerKeyExecutor.java:14-23 | registry restored on both outcomes; the outcome is the task's |
| SynchronizedPerKeyExecutor.Submit | src/main/java/io/funtom/util/concurrent/SynchronizedPerKeyExecutor.java:25-34 | registry restored on both outcomes; the task's value is returned, or its exception propagates unchanged |
| SynchronizedPerKeyExecutor.SubmitUncheckedAsWritten | src/main/java/io/funtom/util/concurrent/SynchronizedPerKeyExecutor.java:36-42 | as written: registry restored; an exception comes back wrapped in the class's nested `UncheckedExecutionException` with it as cause; values and `Error`s unchanged |
| SynchronizedPerKeyExecutor.SubmitUncheckedAsWrittenMissesPackageClass | src/test/java/io/funtom/util/concurrent/SynchronizedPerKeyExecutorTest.java:39-44 | for a task throwing a plain `Exception`, the as-written method throws something that is not an instance of the package's `UncheckedExecutionException`, which is what the test expects |
| SynchronizedPerKeyExecutor.SubmitUnchecked | src/main/java/io/funtom/util/concurrent/SynchronizedPerKeyExecutor.java:36-42 | corrected: registry restored on both outcomes; a value comes back unchanged; an exception comes back as the package's `UncheckedExecutionException` carrying it as cause; an `Error` escapes unchanged |

## Left out

- Mutual exclusion, read/write exclusion, thread interleavings, `synchronized` monitors and memory visibility. These are the library's purpose, but a sequential model cannot state them. Each registry operation is modelled as one atomic step, which is what the `synchronized` keyword on `getValue` / `releaseKey` and their copies provides.
- `SynchronizedExecutor`, `LockExecutor`, `ReadWriteSynchronizedExecutor` and `ReadWriteLockExecutor`: treated as opaque task runners that lock, run the task and unlock. The lock side a read/write call takes is recorded, nothing more. `LockExecutor.submitUnchecked`'s exception wrapping is modelled (`Tasks.WrapUnchecked`).
- `Executor` is an interface only. `UncheckedExecutionException` is a constructor of `Tasks.Throwable`; its message text is not modelled.
- A task's effects outside the registry: a task is given as its outcome. `WithKey` takes no nested calls; tasks that make per-key calls are covered by `RunCall` / `RunCalls` instead.
- Java's compile-time limit that a `Runnable` or `Supplier` cannot throw a checked exception: the model accepts any outcome.
- A throwing supplier. `getValue` writes the count before it calls the supplier, so a throw there would leave a count without a value. The supplier is modelled as total.
- `ConcurrencySegment.GetValue`: counts are unbounded integers. Java's `int` count would wrap after 2^31-1 simultaneous users of one key, and each user is a call still on some thread's stack.
- ConcurrencySegment.ReleaseLastThenGetValueIsFresh: the supplier is assumed to return a new instance on every call. Each executor class guarantees this with its `new …` expression, but a generic `Supplier` given to `ConcurrencySegment` could return one shared object. The invariant's clause that distinct keys never share a value rests on the same assumption.
- Key equality stands for `equals` / `hashCode` of the Java `HashMap`.
- `ConcurrentLinkedQueue` rejects `null` elements with a `NullPointerException`: model elements are never null. Elements added while a drain is in progress, which the drain may or may not return, are a concurrency-only clause.
- Sharding and hash spreading: no such code exists in the modelled classes.

## Findings

| source | as written | input that shows it | evidently intended | confidence | as-written member | corrected member |
|---|---|---|---|---|---|---|
| src/main/java/io/funtom/util/concurrent/SynchronizedPerKeyExecutor.java:36-42 | `submitUnchecked` rethrows an exception wrapped in `SynchronizedPerKeyExecutor.UncheckedExecutionException`, the class nested at lines 68-75. It extends `RuntimeException` and is unrelated to the package's top-level `UncheckedExecutionException`. | `submitUnchecked(1, () -> { throw new Exception(); })`, as in src/test/java/io/funtom/util/concurrent/SynchronizedPerKeyExecutorTest.java:39-44. The test names `UncheckedExecutionException` unqualified inside the package, which means the top-level class, so the thrown nested-class object does not match | throw the package's `UncheckedExecutionException`, as `LockExecutor.submitUnchecked` does | medium; not executed | SynchronizedPerKeyExecutor.SubmitUncheckedAsWrittenMissesPackageClass | SynchronizedPerKeyExecutor.SubmitUnchecked |
