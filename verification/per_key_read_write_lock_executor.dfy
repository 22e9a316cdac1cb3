/** `PerKeyReadWriteLockExecutor`: one `ReadWriteLockExecutor` over a new
    `ReentrantReadWriteLock` per key, kept in the class's own copy of the
    reference-counted registry. */
module PerKeyReadWriteLockExecutor {

  import opened Tasks
  import opened ConcurrencySegment

  /** `getExecutorForKey` and `freeExecutorForKey` are the segment's
      `getValue` and `releaseKey` over this class's maps: a first user gets a
      new `ReadWriteLockExecutor` with count 1, later users share it, and the
      last user's release drops it.

      The link rests on one fact: the class's `getExecutorForKey` /
      `freeExecutorForKey` are line for line the segment's `getValue` /
      `releaseKey`, except that the value comes from `new
      ReadWriteLockExecutor(new ReentrantReadWriteLock())` instead of a
      supplier, which gives a new instance on every call, as the supplier
      model assumes. */
  lemma ExecutorForKeyLifecycle<K>(s: Segment<K>, key: K)
    requires Valid(s)
    ensures CreatesOrShares(s, key, GetValue(s, key))
    ensures ReclaimsOrDecrements(s, key, ReleaseKey(s, key))
    ensures var t := GetValue(s, key).state;
            ReleaseKey(t, key).Success? && Restores(s, ReleaseKey(t, key).value)
  {
    GetValueThenReleaseKeyRestores(s, key);
  }

  /** `readExecute`. */
  function ReadExecute<K, E>(s: Segment<K>, key: K, task: Outcome<(), E>): (x: SidedRun<K, (), E>)
    requires Valid(s)
    ensures x.side == ReadLock && ExecutesOnKey(s, key, x.run) && x.run.outcome == task
  {
    SidedRun(ReadLock, WithKey(s, key, task))
  }

  /** `readSubmit`: the task's value, or its exception, unchanged. */
  function ReadSubmit<K, R, E>(s: Segment<K>, key: K, task: Outcome<R, E>): (x: SidedRun<K, R, E>)
    requires Valid(s)
    ensures x.side == ReadLock && ExecutesOnKey(s, key, x.run) && x.run.outcome == task
  {
    SidedRun(ReadLock, WithKey(s, key, task))
  }

  /** `readSubmitUnchecked`: an exception comes back wrapped in the
      package's `UncheckedExecutionException` with the task's exception as
      cause. */
  function ReadSubmitUnchecked<K, R, E>(s: Segment<K>, key: K, task: Outcome<R, E>): (x: SidedRun<K, R, E>)
    requires Valid(s)
    ensures x.side == ReadLock && ExecutesOnKey(s, key, x.run)
    ensures task.Ok? ==> x.run.outcome == task
    ensures task.Fail? && IsException(task.thrown) ==>
              x.run.outcome.Fail? && InstanceOf(x.run.outcome.thrown, PackageUnchecked)
              && x.run.outcome.thrown.cause == task.thrown
    ensures task.Fail? && !IsException(task.thrown) ==> x.run.outcome == task
  {
    SidedRun(ReadLock, WithKey(s, key, WrapUnchecked(task, PackageUnchecked)))
  }

  /** `writeExecute`. */
  function WriteExecute<K, E>(s: Segment<K>, key: K, task: Outcome<(), E>): (x: SidedRun<K, (), E>)
    requires Valid(s)
    ensures x.side == WriteLock && ExecutesOnKey(s, key, x.run) && x.run.outcome == task
  {
    SidedRun(WriteLock, WithKey(s, key, task))
  }

  /** `writeSubmit`: the task's value, or its exception, unchanged. */
  function WriteSubmit<K, R, E>(s: Segment<K>, key: K, task: Outcome<R, E>): (x: SidedRun<K, R, E>)
    requires Valid(s)
    ensures x.side == WriteLock && ExecutesOnKey(s, key, x.run) && x.run.outcome == task
  {
    SidedRun(WriteLock, WithKey(s, key, task))
  }

  /** `writeSubmitUnchecked`: as `readSubmitUnchecked`, on the write side. */
  function WriteSubmitUnchecked<K, R, E>(s: Segment<K>, key: K, task: Outcome<R, E>): (x: SidedRun<K, R, E>)
    requires Valid(s)
    ensures x.side == WriteLock && ExecutesOnKey(s, key, x.run)
    ensures task.Ok? ==> x.run.outcome == task
    ensures task.Fail? && IsException(task.thrown) ==>
              x.run.outcome.Fail? && InstanceOf(x.run.outcome.thrown, PackageUnchecked)
              && x.run.outcome.thrown.cause == task.thrown
    ensures task.Fail? && !IsException(task.thrown) ==> x.run.outcome == task
  {
    SidedRun(WriteLock, WithKey(s, key, WrapUnchecked(task, PackageUnchecked)))
  }

}
