/** The sequential behaviour of `ConcurrentBuffer`: a FIFO sequence that
    producers append to and consumers drain from the front, either entirely
    or up to a given number of elements. */
module ConcurrentBuffer {

  import opened Failures

  datatype Buffer<T> = Buffer(items: seq<T>)

  /** `IllegalArgumentException`, whose message is the rejected count. */
  datatype BufferError = IllegalArgument(n: int)

  /** What a drain returns to its caller, and the buffer it leaves. */
  datatype Drained<T> = Drained(batch: seq<T>, rest: Buffer<T>)

  function Empty<T>(): (b: Buffer<T>)
    ensures |b.items| == 0
  {
    Buffer([])
  }

  function Min(a: int, b: int): (m: int)
  {
    if a <= b then a else b
  }

  /** `add`: the element goes to the end; everything already there stays in
      front of it, in order. */
  function Add<T>(b: Buffer<T>, e: T): (b': Buffer<T>)
    ensures |b'.items| == |b.items| + 1
    ensures b'.items[..|b.items|] == b.items && b'.items[|b.items|] == e
  {
    Buffer(b.items + [e])
  }

  /** `addAll`: the elements go to the end in the collection's order. */
  function AddAll<T>(b: Buffer<T>, xs: seq<T>): (b': Buffer<T>)
    ensures |b'.items| == |b.items| + |xs|
    ensures b'.items[..|b.items|] == b.items && b'.items[|b.items|..] == xs
  {
    Buffer(b.items + xs)
  }

  /** `getAndRemoveAll`: every element, oldest first, and an empty buffer. */
  function GetAndRemoveAll<T>(b: Buffer<T>): (d: Drained<T>)
    ensures d.batch == b.items && d.rest.items == []
  {
    Drained(b.items, Empty())
  }

  /** `getAndRemove(n)`: a negative `n` is rejected before the buffer is
      touched; otherwise the oldest `min(n, size)` elements are returned in
      order and exactly they are removed. */
  function GetAndRemove<T>(b: Buffer<T>, n: int): (res: Result<Drained<T>, BufferError>)
    ensures n < 0 <==> res.Failure?
    ensures res.Failure? ==> res.error == IllegalArgument(n)
    ensures res.Success? ==> |res.value.batch| == Min(n, |b.items|)
    ensures res.Success? ==> res.value.batch + res.value.rest.items == b.items
  {
    if n < 0 then
      Failure(IllegalArgument(n))
    else
      var k := Min(n, |b.items|);
      Success(Drained(b.items[..k], Buffer(b.items[k..])))
  }

  /** The iterator loop of `getAndRemoveAll`: move the head of the queue to
      the result until the queue is empty. */
  method GetAndRemoveAllLoop<T>(b: Buffer<T>) returns (d: Drained<T>)
    ensures d == GetAndRemoveAll(b)
  {
    var result: seq<T> := [];
    var queue := b.items;
    while |queue| > 0
      invariant result + queue == b.items
    {
      result := result + [queue[0]];
      queue := queue[1..];
    }
    d := Drained(result, Buffer(queue));
  }

  /** The iterator loop of `getAndRemove(n)`: after the argument check, move
      the head of the queue to the result while the queue is not empty and
      `remaining` is positive, counting `remaining` down. */
  method GetAndRemoveLoop<T>(b: Buffer<T>, n: int) returns (res: Result<Drained<T>, BufferError>)
    ensures res == GetAndRemove(b, n)
  {
    if n < 0 {
      return Failure(IllegalArgument(n));
    }
    var remaining := n;
    var result: seq<T> := [];
    var queue := b.items;
    while |queue| > 0 && remaining > 0
      invariant result + queue == b.items
      invariant remaining == n - |result| && remaining >= 0
    {
      result := result + [queue[0]];
      queue := queue[1..];
      remaining := remaining - 1;
    }
    assert result == b.items[..|result|] && queue == b.items[|result|..];
    res := Success(Drained(result, Buffer(queue)));
  }

  /** `getAndRemove(0)` returns nothing and leaves the buffer as it was. */
  lemma GetAndRemoveZero<T>(b: Buffer<T>)
    ensures GetAndRemove(b, 0) == Success(Drained([], b))
  {
  }

  /** A call a client makes on the buffer. */
  datatype BufferCall<T> = AddCall(e: T) | AddAllCall(xs: seq<T>) | DrainAllCall | DrainCall(n: int)

  /** Every element the calls add, in the order they add them. */
  function Added<T>(calls: seq<BufferCall<T>>): (added: seq<T>)
  {
    if calls == [] then []
    else
      var now := match calls[0]
        case AddCall(e) => [e]
        case AddAllCall(xs) => xs
        case _ => [];
      now + Added(calls[1..])
  }

  /** The batches the drains of a call sequence returned, in order, and the
      buffer left at the end. A rejected drain returns no batch. */
  datatype Replayed<T> = Replayed(batches: seq<seq<T>>, final: Buffer<T>)

  function Step<T>(b: Buffer<T>, call: BufferCall<T>): (next: (Buffer<T>, seq<seq<T>>))
  {
    match call
    case AddCall(e) => (Add(b, e), [])
    case AddAllCall(xs) => (AddAll(b, xs), [])
    case DrainAllCall => var d := GetAndRemoveAll(b); (d.rest, [d.batch])
    case DrainCall(n) =>
      match GetAndRemove(b, n)
      case Success(d) => (d.rest, [d.batch])
      case Failure(_) => (b, [])
  }

  function Replay<T>(b: Buffer<T>, calls: seq<BufferCall<T>>): (r: Replayed<T>)
    decreases |calls|
  {
    if calls == [] then Replayed([], b)
    else
      var step := Step(b, calls[0]);
      var r := Replay(step.0, calls[1..]);
      Replayed(step.1 + r.batches, r.final)
  }

  function Concat<T>(xss: seq<seq<T>>): (xs: seq<T>)
  {
    if xss == [] then [] else xss[0] + Concat(xss[1..])
  }

  lemma ConcatAppend<T>(xss: seq<seq<T>>, yss: seq<seq<T>>)
    ensures Concat(xss + yss) == Concat(xss) + Concat(yss)
  {
    if xss == [] {
      assert xss + yss == yss;
    } else {
      assert (xss + yss)[0] == xss[0];
      assert (xss + yss)[1..] == xss[1..] + yss;
      ConcatAppend(xss[1..], yss);
    }
  }

  /** No loss, no duplication, FIFO: whatever the calls, the drained batches
      one after the other, followed by what is left, are exactly the starting
      contents followed by everything added, in order. */
  lemma {:induction false} ReplayNoLossNoDuplication<T>(b: Buffer<T>, calls: seq<BufferCall<T>>)
    ensures Concat(Replay(b, calls).batches) + Replay(b, calls).final.items == b.items + Added(calls)
    decreases |calls|
  {
    if calls != [] {
      var step := Step(b, calls[0]);
      var r := Replay(step.0, calls[1..]);
      assert Replay(b, calls) == Replayed(step.1 + r.batches, r.final);
      ConcatAppend(step.1, r.batches);
      ReplayNoLossNoDuplication(step.0, calls[1..]);
      StepConserves(b, calls[0]);
      AddedCons(calls);
      Regroup(b.items, Concat(step.1), Concat(r.batches), r.final.items, step.0.items,
              Added([calls[0]]), Added(calls[1..]));
    }
  }

  lemma Regroup<T>(b: seq<T>, head: seq<T>, tail: seq<T>, left: seq<T>, mid: seq<T>, now: seq<T>, later: seq<T>)
    requires tail + left == mid + later
    requires head + mid == b + now
    ensures (head + tail) + left == b + (now + later)
  {
    calc {
      (head + tail) + left;
      head + (tail + left);
      head + (mid + later);
      (head + mid) + later;
      (b + now) + later;
    }
  }

  lemma AddedCons<T>(calls: seq<BufferCall<T>>)
    requires calls != []
    ensures Added(calls) == Added([calls[0]]) + Added(calls[1..])
  {
    assert [calls[0]][1..] == [];
  }

  /** One call loses and duplicates nothing. */
  lemma StepConserves<T>(b: Buffer<T>, call: BufferCall<T>)
    ensures Concat(Step(b, call).1) + Step(b, call).0.items == b.items + Added([call])
  {
    assert [call][1..] == [];
    match call
    case AddCall(e) =>
    case AddAllCall(xs) =>
    case DrainAllCall =>
      assert Concat([b.items]) == b.items + Concat([]);
    case DrainCall(n) =>
      if n >= 0 {
        var d := GetAndRemove(b, n).value;
        assert Concat([d.batch]) == d.batch + Concat([]);
      }
  }

  /** The same fact counted per element, as the stress test checks it: every
      element added is drained or still buffered exactly as many times as it
      was added. */
  lemma {:induction false} ReplayKeepsEveryElement<T>(calls: seq<BufferCall<T>>)
    ensures multiset(Concat(Replay(Empty(), calls).batches)) + multiset(Replay(Empty(), calls).final.items)
            == multiset(Added(calls))
  {
    var r := Replay(Empty(), calls);
    ReplayNoLossNoDuplication(Empty(), calls);
    assert Concat(r.batches) + r.final.items == Added(calls);
  }

  /** Draining everything after adding to an empty buffer yields the added
      elements in order: `addAll([3,2,1]); add(0)` drains as `[3,2,1,0]`,
      and a second drain gets nothing. */
  lemma AddAllThenAddDrainsInOrder()
    ensures var d := GetAndRemoveAll(Add(AddAll(Empty(), [3, 2, 1]), 0));
            d.batch == [3, 2, 1, 0] && GetAndRemoveAll(d.rest).batch == []
  {
  }

  /** Add 1 to 4, take 2, add 5, take 0, take 1, drain the rest. */
  lemma GetAndRemoveScenario()
    ensures var b := Add(Add(Add(Add(Empty(), 1), 2), 3), 4);
            var r1 := GetAndRemove(b, 2);
            && r1.Success? && r1.value.batch == [1, 2]
            && var r2 := GetAndRemove(Add(r1.value.rest, 5), 0);
            && r2.Success? && r2.value.batch == []
            && var r3 := GetAndRemove(r2.value.rest, 1);
            && r3.Success? && r3.value.batch == [3]
            && GetAndRemoveAll(r3.value.rest).batch == [4, 5]
  {
  }

  /** A negative count is rejected and the buffer keeps its elements. */
  lemma GetAndRemoveNegativeRejected<T>(b: Buffer<T>, n: int)
    requires n < 0
    ensures Replay(b, [DrainCall(n)]) == Replayed([], b)
  {
  }

}
