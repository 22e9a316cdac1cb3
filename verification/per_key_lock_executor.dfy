/** `PerKeyLockExecutor`: one `LockExecutor` over a new `ReentrantLock` per
    key, kept in the class's own copy of the reference-counted registry. */
module PerKeyLockExecutor {

  import opened Tasks
  import opened ConcurrencySegment

  /** `getExecutorForKey` and `freeExecutorForKey` are the segment's
      `getValue` and `releaseKey` over this class's maps: a first user gets a
      new `LockExecutor` with count 1, later users share it, and the last
      user's release drops it.

      The link rests on one fact: the class's `getExecutorForKey` /
      `freeExecutorForKey` are line for line the segment's `getValue` /
      `releaseKey`, except that the value comes from `new LockExecutor(new
      ReentrantLock())` instead of a supplier, which gives a new instance on
      every call, as the supplier model assumes. */
  lemma ExecutorForKeyLifecycle<K>(s: Segment<K>, key: K)
    requires Valid(s)
    ensures CreatesOrShares(s, key, GetValue(s, key))
    ensures ReclaimsOrDecrements(s, key, ReleaseKey(s, key))
    ensures var t := GetValue(s, key).state;
            ReleaseKey(t, key).Success? && Restores(s, ReleaseKey(t, key).value)
  {
    GetValueThenReleaseKeyRestores(s, key);
  }

  /** `execute`: the registry is the same afterwards on both outcomes. */
  function Execute<K, E>(s: Segment<K>, key: K, task: Outcome<(), E>): (x: Executed<K, (), E>)
    requires Valid(s)
    ensures ExecutesOnKey(s, key, x)
    ensures x.outcome == task
  {
    WithKey(s, key, task)
  }

  /** `submit`: the task's value is returned, or its exception propagates
      unchanged, after the registry has been restored. */
  function Submit<K, R, E>(s: Segment<K>, key: K, task: Outcome<R, E>): (x: Executed<K, R, E>)
    requires Valid(s)
    ensures ExecutesOnKey(s, key, x)
    ensures x.outcome == task
  {
    WithKey(s, key, task)
  }

  /** `submitUnchecked`: `LockExecutor.submitUnchecked` wraps an exception
      in the package's `UncheckedExecutionException`; the registry is
      restored either way. */
  function SubmitUnchecked<K, R, E>(s: Segment<K>, key: K, task: Outcome<R, E>): (x: Executed<K, R, E>)
    requires Valid(s)
    ensures ExecutesOnKey(s, key, x)
    ensures task.Ok? ==> x.outcome == task
    ensures task.Fail? && IsException(task.thrown) ==>
              x.outcome.Fail? && InstanceOf(x.outcome.thrown, PackageUnchecked)
              && x.outcome.thrown.cause == task.thrown
    ensures task.Fail? && !IsException(task.thrown) ==> x.outcome == task
  {
    WithKey(s, key, WrapUnchecked(task, PackageUnchecked))
  }

}
