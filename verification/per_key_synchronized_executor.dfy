/** `PerKeySynchronizedExecutor`: one `SynchronizedExecutor` per key, kept in
    the class's own copy of the reference-counted registry. The executor's
    lock itself is not modelled; a task is its outcome. */
module PerKeySynchronizedExecutor {

  import opened Tasks
  import opened ConcurrencySegment

  /** `getExecutorForKey` and `freeExecutorForKey` are the segment's
      `getValue` and `releaseKey` over this class's maps: a first user gets a
      new `SynchronizedExecutor` with count 1, later users share it, and the
      last user's release drops it.

      The link rests on one fact: the class's `getExecutorForKey` /
      `freeExecutorForKey` are line for line the segment's `getValue` /
      `releaseKey`, except that the value comes from `new
      SynchronizedExecutor()` instead of a supplier, which gives a new
      instance on every call, as the supplier model assumes. */
  lemma ExecutorForKeyLifecycle<K>(s: Segment<K>, key: K)
    requires Valid(s)
    ensures CreatesOrShares(s, key, GetValue(s, key))
    ensures ReclaimsOrDecrements(s, key, ReleaseKey(s, key))
    ensures var t := GetValue(s, key).state;
            ReleaseKey(t, key).Success? && Restores(s, ReleaseKey(t, key).value)
  {
    GetValueThenReleaseKeyRestores(s, key);
  }

  /** `execute(key, Runnable)`: the registry is the same afterwards whether
      the task returned or threw, and a throw reaches the caller unchanged. */
  function ExecuteRunnable<K, E>(s: Segment<K>, key: K, task: Outcome<(), E>): (x: Executed<K, (), E>)
    requires Valid(s)
    ensures ExecutesOnKey(s, key, x)
    ensures x.outcome == task
  {
    WithKey(s, key, task)
  }

  /** `execute(key, Supplier)`: as above, and the supplier's result is
      returned unchanged. */
  function ExecuteSupplier<K, R, E>(s: Segment<K>, key: K, task: Outcome<R, E>): (x: Executed<K, R, E>)
    requires Valid(s)
    ensures ExecutesOnKey(s, key, x)
    ensures x.outcome == task
  {
    WithKey(s, key, task)
  }

}
