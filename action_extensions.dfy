/**
 * `ActionExtensions.DoAfter`: null-safe sequential composition of two actions of two
 * arguments. An action is modelled as a transformer of some state `S` that either
 * completes with a new state or throws an exception of type `E`; a null action is `None`.
 */
module ActionExtensions {
  import opened Wrappers

  type Action<!T1, !T2, !S, !E> = Option<(T1, T2, S) -> Result<S, E>>

  /** `action?.Invoke(x, y)`: a null action does nothing. */
  function Invoke<T1, T2, S, E>(action: Action<T1, T2, S, E>, x: T1, y: T2, s: S): Result<S, E> {
    match action
    case None => Success(s)
    case Some(f) => f(x, y, s)
  }

  /** Runs `second` on the state `first` produced, unless `first` threw. */
  function AndThen<T1, T2, S, E>(first: Result<S, E>, second: Action<T1, T2, S, E>, x: T1, y: T2): Result<S, E> {
    match first
    case Failure(e) => Failure(e)
    case Success(s) => Invoke(second, x, y, s)
  }

  /**
   * The composed action is never null; invoked with `(x, y)` it runs `baseAction(x, y)`
   * and then, if that returned normally, `afterBaseAction(x, y)` on the resulting state.
   */
  function DoAfter<T1(!new), T2(!new), S(!new), E(!new)>(baseAction: Action<T1, T2, S, E>, afterBaseAction: Action<T1, T2, S, E>)
    : (r: Action<T1, T2, S, E>)
    ensures r.Some?
    ensures forall x, y, s :: Invoke(r, x, y, s) == AndThen(Invoke(baseAction, x, y, s), afterBaseAction, x, y)
    ensures baseAction.None? ==> forall x, y, s :: Invoke(r, x, y, s) == Invoke(afterBaseAction, x, y, s)
    ensures afterBaseAction.None? ==> forall x, y, s :: Invoke(r, x, y, s) == Invoke(baseAction, x, y, s)
    ensures baseAction.None? && afterBaseAction.None? ==> forall x, y, s :: Invoke(r, x, y, s) == Success(s)
    ensures forall x, y, s, e :: Invoke(baseAction, x, y, s) == Failure(e) ==> Invoke(r, x, y, s) == Failure(e)
  {
    Some((x: T1, y: T2, s: S) => AndThen(Invoke(baseAction, x, y, s), afterBaseAction, x, y))
  }

  /** Two actions that do the same thing on every input. */
  ghost predicate Equivalent<T1(!new), T2(!new), S(!new), E>(a: Action<T1, T2, S, E>, b: Action<T1, T2, S, E>) {
    forall x, y, s :: Invoke(a, x, y, s) == Invoke(b, x, y, s)
  }

  /** Chaining three actions does not depend on how the calls to `DoAfter` are nested. */
  lemma DoAfterAssociative<T1(!new), T2(!new), S(!new), E(!new)>(a: Action<T1, T2, S, E>, b: Action<T1, T2, S, E>, c: Action<T1, T2, S, E>)
    ensures Equivalent(DoAfter(DoAfter(a, b), c), DoAfter(a, DoAfter(b, c)))
  {
    forall x, y, s ensures Invoke(DoAfter(DoAfter(a, b), c), x, y, s) == Invoke(DoAfter(a, DoAfter(b, c)), x, y, s) {
      match Invoke(a, x, y, s)
      case Failure(e) =>
      case Success(s1) =>
        assert Invoke(DoAfter(a, b), x, y, s) == Invoke(b, x, y, s1);
    }
  }
}
