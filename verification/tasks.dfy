/** Task outcomes as the executors see them. A caller-supplied task
    (`Runnable`, `Supplier` or `Callable`) is opaque: all the executors can
    observe is whether it returned a value or threw. */
module Tasks {

  /** The three families of Java throwables the executors distinguish:
      `catch (Exception e)` catches the first two, not the third. */
  datatype ThrowableKind = CheckedException | RuntimeException | Error

  /** The two classes named `UncheckedExecutionException` in the package: the
      top-level one, and the one nested in `SynchronizedPerKeyExecutor`.
      Neither is a subclass of the other. */
  datatype UncheckedClass = PackageUnchecked | NestedUnchecked

  /** A thrown object. `detail` stands for whatever identifies the task's own
      throwable; a wrapper keeps the throwable it wraps as its cause. */
  datatype Throwable<E> =
    | Raised(kind: ThrowableKind, detail: E)
    | UncheckedExecution(wrapper: UncheckedClass, cause: Throwable<E>)

  /** Does `catch (Exception e)` catch it? Both wrapper classes extend
      `RuntimeException`. */
  predicate IsException<E>(t: Throwable<E>)
  {
    match t
    case Raised(kind, _) => kind != Error
    case UncheckedExecution(_, _) => true
  }

  /** Java's `instanceof` for the two wrapper classes. */
  predicate InstanceOf<E>(t: Throwable<E>, cls: UncheckedClass)
  {
    t.UncheckedExecution? && t.wrapper == cls
  }

  /** What a task, or an executor call, did: returned a value or threw. */
  datatype Outcome<+T, E> = Ok(value: T) | Fail(thrown: Throwable<E>)

  /** The unchecked-submit adapter: a returned value passes through, an
      exception is rethrown wrapped in an `UncheckedExecutionException` of
      class `cls` that carries it as its cause, and an `Error` escapes as it
      is (LockExecutor.java lines 37-43). */
  function WrapUnchecked<T, E>(o: Outcome<T, E>, cls: UncheckedClass): (w: Outcome<T, E>)
    ensures o.Ok? <==> w.Ok?
    ensures o.Ok? ==> w == o
    ensures o.Fail? && IsException(o.thrown) ==>
              InstanceOf(w.thrown, cls) && w.thrown.cause == o.thrown
    ensures o.Fail? && !IsException(o.thrown) ==> w == o
    ensures w.Fail? ==> IsException(w.thrown) == IsException(o.thrown)
  {
    match o
    case Ok(_) => o
    case Fail(t) => if IsException(t) then Fail(UncheckedExecution(cls, t)) else o
  }

  /** Undoing the wrapper recovers the task's own outcome: the cause is the
      original throwable, never lost or replaced. */
  function Unwrap<T, E>(o: Outcome<T, E>): (u: Outcome<T, E>)
  {
    if o.Fail? && o.thrown.UncheckedExecution? then Fail(o.thrown.cause) else o
  }

  lemma UnwrapWrapUnchecked<T, E>(o: Outcome<T, E>, cls: UncheckedClass)
    ensures Unwrap(WrapUnchecked(o, cls)) == o
  {
  }

}
