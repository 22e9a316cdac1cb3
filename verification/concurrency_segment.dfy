/** The reference-counted per-key registry: one map from key to the number of
    current users, one from key to the shared value. A value is created by the
    supplier on the first `getValue` of a key and dropped by the `releaseKey`
    of its last user.

    The registry is written once here. Each per-key executor class carries a
    private copy of the same two methods (`getExecutorForKey` /
    `freeExecutorForKey`, or `getLockForKey` / `freeLockForKey`) over its own
    pair of maps, and its modules reuse this one. */
module ConcurrencySegment {

  import opened Failures
  import opened Tasks

  /** A supplied value, identified by the order in which the supplier produced
      it: the n-th call of the supplier yields id n. Equal ids mean the same
      instance. */
  type ResourceId = nat

  /** `counts` is `keyUsersCount`, `values` is `executors` (or `locks`), and
      `supplied` is how many times the supplier has been called so far. */
  datatype Segment<K> = Segment(counts: map<K, int>, values: map<K, ResourceId>, supplied: nat)

  /** Unboxing the `null` count of a key nobody holds. */
  datatype SegmentError = NullCount

  /** The new state and the value `getValue` hands to its caller. */
  datatype Acquired<K> = Acquired(state: Segment<K>, value: ResourceId)

  /** A freshly constructed segment. */
  function Empty<K>(): (s: Segment<K>)
    ensures Valid(s) && s.counts == map[] && s.values == map[]
  {
    Segment(map[], map[], 0)
  }

  /** The invariant both operations keep: a key has a count iff it has a
      value, every count is at least 1, every value was really supplied, and
      distinct keys never share a value. */
  ghost predicate Valid<K>(s: Segment<K>)
  {
    && s.counts.Keys == s.values.Keys
    && (forall k :: k in s.counts ==> s.counts[k] >= 1)
    && (forall k :: k in s.values ==> s.values[k] < s.supplied)
    && (forall j, k :: j in s.values && k in s.values && j != k ==> s.values[j] != s.values[k])
  }

  /** Every key other than `key` has the same count and the same value in
      `s` and `t`. */
  ghost predicate OthersUnchanged<K>(s: Segment<K>, t: Segment<K>, key: K)
  {
    s.counts - {key} == t.counts - {key} && s.values - {key} == t.values - {key}
  }

  /** Both maps are back to what they were (the supplier may have been called
      in between). */
  ghost predicate Restores<K>(s: Segment<K>, t: Segment<K>)
  {
    t.counts == s.counts && t.values == s.values && t.supplied >= s.supplied
  }

  /** `id` was handed out by the supplier after state `s`: no key of `s`
      holds it, and it differs from every value ever supplied before. */
  ghost predicate NeverIssued<K>(s: Segment<K>, id: ResourceId)
  {
    id >= s.supplied
  }

  /** The value a call on `key` works with: the one already stored for the
      key if somebody holds it, otherwise a new one. */
  ghost predicate SharedOrNew<K>(s: Segment<K>, key: K, id: ResourceId)
  {
    && (key in s.values ==> id == s.values[key])
    && (key !in s.values ==> NeverIssued(s, id))
  }

  /** What `getValue` promises: the caller gets the value now stored for the
      key; on a key without a count the count becomes 1 and the supplier is
      called exactly once for a new value, otherwise the count goes up by one
      and the stored value is shared without calling the supplier; no other
      key changes. */
  ghost predicate CreatesOrShares<K>(s: Segment<K>, key: K, a: Acquired<K>)
  {
    && key in a.state.values && a.state.values[key] == a.value
    && SharedOrNew(s, key, a.value)
    && OthersUnchanged(s, a.state, key)
    && key in a.state.counts
    && (key !in s.counts ==> a.state.counts[key] == 1 && a.state.supplied == s.supplied + 1)
    && (key in s.counts ==> a.state.counts[key] == s.counts[key] + 1 && a.state.supplied == s.supplied)
  }

  /** What `releaseKey` promises: a key without a count is an error and
      nothing changes; the last user removes the key from both maps; any other
      user takes one off the count and the value stays; no other key changes
      and the supplier is not called. */
  ghost predicate ReclaimsOrDecrements<K>(s: Segment<K>, key: K, res: Result<Segment<K>, SegmentError>)
  {
    && (key !in s.counts <==> res == Failure(NullCount))
    && (res.Success? ==> res.value.supplied == s.supplied && OthersUnchanged(s, res.value, key))
    && (key in s.counts && s.counts[key] == 1 ==>
          res.Success? && key !in res.value.counts && key !in res.value.values)
    && (key in s.counts && key in s.values && s.counts[key] != 1 ==>
          && res.Success?
          && key in res.value.counts && res.value.counts[key] == s.counts[key] - 1
          && key in res.value.values && res.value.values[key] == s.values[key])
  }

  /** `getValue` (ConcurrencySegment.java lines 17-29). */
  function GetValue<K>(s: Segment<K>, key: K): (a: Acquired<K>)
    requires Valid(s)
    ensures Valid(a.state)
    ensures CreatesOrShares(s, key, a)
  {
    if key !in s.counts then
      var v := s.supplied;
      Acquired(Segment(s.counts[key := 1], s.values[key := v], s.supplied + 1), v)
    else
      Acquired(s.(counts := s.counts[key := s.counts[key] + 1]), s.values[key])
  }

  /** `releaseKey` (ConcurrencySegment.java lines 31-39). The unboxing of the
      `null` count of an unheld key throws before anything changes. */
  function ReleaseKey<K>(s: Segment<K>, key: K): (res: Result<Segment<K>, SegmentError>)
    requires Valid(s)
    ensures res.Success? ==> Valid(res.value)
    ensures ReclaimsOrDecrements(s, key, res)
  {
    if key !in s.counts then
      Failure(NullCount)
    else if s.counts[key] == 1 then
      Success(s.(counts := s.counts - {key}, values := s.values - {key}))
    else
      Success(s.(counts := s.counts[key := s.counts[key] - 1]))
  }

  /** Releasing right after acquiring undoes the acquire, also when other
      bookkeeping happened in between that left both maps as the acquire left
      them. */
  lemma ReleaseUndoesGetValue<K>(s: Segment<K>, key: K, t: Segment<K>)
    requires Valid(s)
    requires Valid(t) && t.counts == GetValue(s, key).state.counts && t.values == GetValue(s, key).state.values
    ensures ReleaseKey(t, key).Success?
    ensures ReleaseKey(t, key).value.counts == s.counts
    ensures ReleaseKey(t, key).value.values == s.values
    ensures ReleaseKey(t, key).value.supplied == t.supplied
  {
    var u := ReleaseKey(t, key).value;
    if key in s.counts {
      var c := s.counts[key];
      assert t.counts == s.counts[key := c + 1];
      assert u.counts == s.counts by {
        MapUpdateTwice(s.counts, key, c + 1);
      }
    } else {
      var v := GetValue(s, key).value;
      assert u.counts == s.counts by {
        MapUpdateThenRemove(s.counts, key, 1);
      }
      assert u.values == s.values by {
        MapUpdateThenRemove(s.values, key, v);
      }
    }
  }

  lemma MapUpdateTwice<K, V>(m: map<K, V>, key: K, w: V)
    requires key in m
    ensures m[key := w][key := m[key]] == m
  {
  }

  lemma MapUpdateThenRemove<K, V>(m: map<K, V>, key: K, v: V)
    requires key !in m
    ensures m[key := v] - {key} == m
  {
  }

  /** `getValue(k)` followed by `releaseKey(k)` leaves both maps exactly as
      they were; only the supplier count records that a value was made. */
  lemma GetValueThenReleaseKeyRestores<K>(s: Segment<K>, key: K)
    requires Valid(s)
    ensures var t := GetValue(s, key).state;
            && ReleaseKey(t, key).Success?
            && ReleaseKey(t, key).value.counts == s.counts
            && ReleaseKey(t, key).value.values == s.values
            && (ReleaseKey(t, key).value.supplied == s.supplied <==> key in s.counts)
  {
    ReleaseUndoesGetValue(s, key, GetValue(s, key).state);
  }

  /** Reclamation: once the last user of a key has released it, the next
      `getValue` of that key calls the supplier again and returns a value that
      differs from the one the key held before, and from every other value. */
  lemma ReleaseLastThenGetValueIsFresh<K>(s: Segment<K>, key: K)
    requires Valid(s) && key in s.counts && s.counts[key] == 1
    ensures var t := ReleaseKey(s, key).value;
            var a := GetValue(t, key);
            && a.state.counts[key] == 1
            && a.state.supplied == s.supplied + 1
            && a.value != s.values[key]
            && a.value !in s.values.Values
  {
  }

  /** The result of one per-key call: the registry afterwards, the value the
      task ran on, and what the caller sees. */
  datatype Executed<K, T, E> = Executed(state: Segment<K>, ranOn: ResourceId, outcome: Outcome<T, E>)

  /** A per-key call left the registry as it found it, and ran its task on
      the value the key already had, or on a new one if nobody held the key. */
  ghost predicate ExecutesOnKey<K, T, E>(s: Segment<K>, key: K, x: Executed<K, T, E>)
  {
    Valid(x.state) && Restores(s, x.state) && SharedOrNew(s, key, x.ranOn)
  }

  /** The lock side a read/write executor takes for a call. */
  datatype LockSide = ReadLock | WriteLock

  /** A call of a read/write per-key executor: the side it locked, and the
      registry bookkeeping around it. */
  datatype SidedRun<K, T, E> = SidedRun(side: LockSide, run: Executed<K, T, E>)

  /** Acquire the key's value, run the task on it, and release the key in a
      `finally` block: the release happens whether the task returned or
      threw, and the task's outcome reaches the caller unchanged. */
  function WithKey<K, T, E>(s: Segment<K>, key: K, task: Outcome<T, E>): (x: Executed<K, T, E>)
    requires Valid(s)
    ensures ExecutesOnKey(s, key, x)
    ensures x.state.supplied == s.supplied <==> key in s.counts
    ensures x.outcome == task
  {
    var a := GetValue(s, key);
    ReleaseUndoesGetValue(s, key, a.state);
    Executed(ReleaseKey(a.state, key).value, a.value, task)
  }

  /** A per-key call whose task itself makes per-key calls, in order. Only
      nestings that return are meant: for the plain executors, whose locks
      are reentrant, a nested call may use any key, including the caller's
      own; for the read/write executors, a write nested inside a read of the
      same key never returns, because a `ReentrantReadWriteLock` cannot
      upgrade a read hold to a write hold. */
  datatype Call<K> = Call(key: K, body: seq<Call<K>>)

  /** One `getValue` of a run: the key and the value it returned. */
  datatype Grant<K> = Grant(key: K, id: ResourceId)

  /** The registry after a run of calls, and every value handed out during
      it, in order. */
  datatype Run<K> = Run(state: Segment<K>, grants: seq<Grant<K>>)

  /** Running a nested call: acquire, run the body's calls, release. A key
      held when the call starts keeps its value for the whole call, and every
      nested use of the call's own key gets the instance the call itself got. */
  function RunCall<K>(s: Segment<K>, c: Call<K>): (x: Run<K>)
    requires Valid(s)
    ensures Valid(x.state) && Restores(s, x.state)
    ensures |x.grants| > 0 && x.grants[0].key == c.key
    ensures SharedOrNew(s, c.key, x.grants[0].id)
    ensures forall g :: g in x.grants && g.key in s.values ==> g.id == s.values[g.key]
    ensures forall g :: g in x.grants && g.key == c.key ==> g.id == x.grants[0].id
    decreases c, 1
  {
    var a := GetValue(s, c.key);
    var inner := RunCalls(a.state, c.body);
    ReleaseUndoesGetValue(s, c.key, inner.state);
    Run(ReleaseKey(inner.state, c.key).value, [Grant(c.key, a.value)] + inner.grants)
  }

  /** Running calls one after another. */
  function RunCalls<K>(s: Segment<K>, cs: seq<Call<K>>): (x: Run<K>)
    requires Valid(s)
    ensures Valid(x.state) && Restores(s, x.state)
    ensures forall g :: g in x.grants && g.key in s.values ==> g.id == s.values[g.key]
    decreases cs, 0
  {
    if cs == [] then
      Run(s, [])
    else
      var first := RunCall(s, cs[0]);
      var rest := RunCalls(first.state, cs[1..]);
      Run(rest.state, first.grants + rest.grants)
  }

  /** No leak: whatever calls run on a fresh segment, nothing is left in
      either map once they have all returned. */
  lemma RunCallsFromEmptyLeavesEmpty<K>(cs: seq<Call<K>>)
    ensures RunCalls(Empty<K>(), cs).state.counts == map[]
    ensures RunCalls(Empty<K>(), cs).state.values == map[]
  {
  }

}
