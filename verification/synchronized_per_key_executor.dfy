/** `SynchronizedPerKeyExecutor`: one `ReentrantLock` per key, kept in the
    class's own copy of the reference-counted registry; the class locks and
    unlocks it itself around the task. */
module SynchronizedPerKeyExecutor {

  import opened Tasks
  import opened ConcurrencySegment

  /** `getLockForKey` and `freeLockForKey` are the segment's `getValue` and
      `releaseKey` over this class's maps: a first user gets a new lock with
      count 1, later users share it, and the last user's release drops it.

      The link rests on one fact: the class's `getLockForKey` /
      `freeLockForKey` are line for line the segment's `getValue` /
      `releaseKey`, except that the value comes from `new ReentrantLock()`
      instead of a supplier, which gives a new instance on every call, as the
      supplier model assumes. */
  lemma LockForKeyLifecycle<K>(s: Segment<K>, key: K)
    requires Valid(s)
    ensures CreatesOrShares(s, key, GetValue(s, key))
    ensures ReclaimsOrDecrements(s, key, ReleaseKey(s, key))
    ensures var t := GetValue(s, key).state;
            ReleaseKey(t, key).Success? && Restores(s, ReleaseKey(t, key).value)
  {
    GetValueThenReleaseKeyRestores(s, key);
  }

  /** `execute`: the lock is freed in the `finally` block, so the registry
      is the same afterwards on both outcomes. */
  function Execute<K, E>(s: Segment<K>, key: K, task: Outcome<(), E>): (x: Executed<K, (), E>)
    requires Valid(s)
    ensures ExecutesOnKey(s, key, x)
    ensures x.outcome == task
  {
    WithKey(s, key, task)
  }

  /** `submit`: the task's value, or its exception, unchanged. */
  function Submit<K, R, E>(s: Segment<K>, key: K, task: Outcome<R, E>): (x: Executed<K, R, E>)
    requires Valid(s)
    ensures ExecutesOnKey(s, key, x)
    ensures x.outcome == task
  {
    WithKey(s, key, task)
  }

  /** `submitUnchecked` as the class writes it: the exception `submit`
      throws is caught after the registry has been restored and rethrown
      wrapped in the class's own nested `UncheckedExecutionException`. */
  function SubmitUncheckedAsWritten<K, R, E>(s: Segment<K>, key: K, task: Outcome<R, E>): (x: Executed<K, R, E>)
    requires Valid(s)
    ensures ExecutesOnKey(s, key, x)
    ensures task.Ok? ==> x.outcome == task
    ensures task.Fail? && IsException(task.thrown) ==>
              x.outcome.Fail? && InstanceOf(x.outcome.thrown, NestedUnchecked)
              && x.outcome.thrown.cause == task.thrown
    ensures task.Fail? && !IsException(task.thrown) ==> x.outcome == task
  {
    var run := Submit(s, key, task);
    run.(outcome := WrapUnchecked(run.outcome, NestedUnchecked))
  }

  /** The class's test expects `submitUnchecked` of a task throwing a plain
      `Exception` to throw the package's `UncheckedExecutionException`; the
      nested class it throws is not that class. */
  lemma SubmitUncheckedAsWrittenMissesPackageClass<K, R, E>(s: Segment<K>, key: K, detail: E)
    requires Valid(s)
    ensures var task: Outcome<R, E> := Fail(Raised(CheckedException, detail));
            var x := SubmitUncheckedAsWritten(s, key, task);
            x.outcome.Fail? && !InstanceOf(x.outcome.thrown, PackageUnchecked)
  {
  }

  /** `submitUnchecked` throwing the package's `UncheckedExecutionException`,
      like every other unchecked submit of the package: a value comes back
      unchanged, an exception comes back wrapped with the task's exception as
      cause, an `Error` escapes as it is, and the registry is restored on
      every path. */
  function SubmitUnchecked<K, R, E>(s: Segment<K>, key: K, task: Outcome<R, E>): (x: Executed<K, R, E>)
    requires Valid(s)
    ensures ExecutesOnKey(s, key, x)
    ensures task.Ok? ==> x.outcome == task
    ensures task.Fail? && IsException(task.thrown) ==>
              x.outcome.Fail? && InstanceOf(x.outcome.thrown, PackageUnchecked)
              && x.outcome.thrown.cause == task.thrown
    ensures task.Fail? && !IsException(task.thrown) ==> x.outcome == task
  {
    var run := Submit(s, key, task);
    run.(outcome := WrapUnchecked(run.outcome, PackageUnchecked))
  }

}
