/** `PerKeyReadWriteSynchronizedExecutor`: one `ReadWriteSynchronizedExecutor`
    per key, kept in the class's own copy of the reference-counted registry.
    Read and write calls go through the same registry entry; only the lock
    side they take differs. */
module PerKeyReadWriteSynchronizedExecutor {

  import opened Tasks
  import opened ConcurrencySegment

  /** `getExecutorForKey` and `freeExecutorForKey` are the segment's
      `getValue` and `releaseKey` over this class's maps: a first user gets a
      new `ReadWriteSynchronizedExecutor` with count 1, later users share it,
      and the last user's release drops it.

      The link rests on one fact: the class's `getExecutorForKey` /
      `freeExecutorForKey` are line for line the segment's `getValue` /
      `releaseKey`, except that the value comes from `new
      ReadWriteSynchronizedExecutor()` instead of a supplier, which gives a
      new instance on every call, as the supplier model assumes. */
  lemma ExecutorForKeyLifecycle<K>(s: Segment<K>, key: K)
    requires Valid(s)
    ensures CreatesOrShares(s, key, GetValue(s, key))
    ensures ReclaimsOrDecrements(s, key, ReleaseKey(s, key))
    ensures var t := GetValue(s, key).state;
            ReleaseKey(t, key).Success? && Restores(s, ReleaseKey(t, key).value)
  {
    GetValueThenReleaseKeyRestores(s, key);
  }

  /** `readExecute(key, Runnable)`. */
  function ReadExecuteRunnable<K, E>(s: Segment<K>, key: K, task: Outcome<(), E>): (x: SidedRun<K, (), E>)
    requires Valid(s)
    ensures x.side == ReadLock && ExecutesOnKey(s, key, x.run) && x.run.outcome == task
  {
    SidedRun(ReadLock, WithKey(s, key, task))
  }

  /** `readExecute(key, Supplier)`: the supplier's result is returned. */
  function ReadExecuteSupplier<K, R, E>(s: Segment<K>, key: K, task: Outcome<R, E>): (x: SidedRun<K, R, E>)
    requires Valid(s)
    ensures x.side == ReadLock && ExecutesOnKey(s, key, x.run) && x.run.outcome == task
  {
    SidedRun(ReadLock, WithKey(s, key, task))
  }

  /** `writeExecute(key, Runnable)`. */
  function WriteExecuteRunnable<K, E>(s: Segment<K>, key: K, task: Outcome<(), E>): (x: SidedRun<K, (), E>)
    requires Valid(s)
    ensures x.side == WriteLock && ExecutesOnKey(s, key, x.run) && x.run.outcome == task
  {
    SidedRun(WriteLock, WithKey(s, key, task))
  }

  /** `writeExecute(key, Supplier)`: the supplier's result is returned. */
  function WriteExecuteSupplier<K, R, E>(s: Segment<K>, key: K, task: Outcome<R, E>): (x: SidedRun<K, R, E>)
    requires Valid(s)
    ensures x.side == WriteLock && ExecutesOnKey(s, key, x.run) && x.run.outcome == task
  {
    SidedRun(WriteLock, WithKey(s, key, task))
  }

  /** The registry does not tell readers from writers: a read call and a
      write call on the same key use the same executor instance and leave the
      same registry behind. */
  lemma ReadAndWriteShareExecutor<K, R, E>(s: Segment<K>, key: K, task: Outcome<R, E>)
    requires Valid(s)
    ensures ReadExecuteSupplier(s, key, task).run == WriteExecuteSupplier(s, key, task).run
    ensures ReadExecuteSupplier(s, key, task).side != WriteExecuteSupplier(s, key, task).side
  {
  }

}
