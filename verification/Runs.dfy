/** Finite runs of a state machine given by an enabling condition and an effect for each event. */
module Runs {

  type Guard<!S, !E> = (S, E) -> bool
  type Effect<!S, !E> = (S, E) -> S

  /** The state a run ends in. */
  ghost function After<S, E>(effect: Effect<S, E>, s: S, run: seq<E>): S {
    if run == [] then s else effect(After(effect, s, run[..|run| - 1]), run[|run| - 1])
  }

  /** Every event of the run is enabled where it happens. */
  ghost predicate Valid<S, E>(guard: Guard<S, E>, effect: Effect<S, E>, s: S, run: seq<E>) {
    run == [] ||
    (Valid(guard, effect, s, run[..|run| - 1]) && guard(After(effect, s, run[..|run| - 1]), run[|run| - 1]))
  }

  /** One more event. */
  lemma Extend<S, E>(guard: Guard<S, E>, effect: Effect<S, E>, s: S, run: seq<E>, e: E)
    ensures After(effect, s, run + [e]) == effect(After(effect, s, run), e)
    ensures Valid(guard, effect, s, run + [e]) <==> Valid(guard, effect, s, run) && guard(After(effect, s, run), e)
  {
    assert (run + [e])[..|run|] == run;
  }

  /** A run followed by a run. */
  lemma {:induction false} Concat<S, E>(guard: Guard<S, E>, effect: Effect<S, E>, s: S, first: seq<E>, second: seq<E>)
    ensures After(effect, s, first + second) == After(effect, After(effect, s, first), second)
    ensures Valid(guard, effect, s, first + second) <==>
            Valid(guard, effect, s, first) && Valid(guard, effect, After(effect, s, first), second)
  {
    if second == [] {
      assert first + second == first;
    } else {
      var n := |second| - 1;
      Concat(guard, effect, s, first, second[..n]);
      assert (first + second)[..|first + second| - 1] == first + second[..n];
    }
  }

  /** One event followed by a run. */
  lemma Cons<S, E>(guard: Guard<S, E>, effect: Effect<S, E>, s: S, e: E, rest: seq<E>)
    ensures After(effect, s, [e] + rest) == After(effect, effect(s, e), rest)
    ensures Valid(guard, effect, s, [e] + rest) <==> guard(s, e) && Valid(guard, effect, effect(s, e), rest)
  {
    Extend(guard, effect, s, [], e);
    assert [] + [e] == [e];
    Concat(guard, effect, s, [e], rest);
  }

  /** One event of a run, and where it happens. */
  lemma {:induction false} StepAt<S, E>(guard: Guard<S, E>, effect: Effect<S, E>, s: S, run: seq<E>, i: nat)
    requires Valid(guard, effect, s, run) && i < |run|
    ensures Valid(guard, effect, s, run[..i]) && guard(After(effect, s, run[..i]), run[i])
    ensures After(effect, s, run[..i + 1]) == effect(After(effect, s, run[..i]), run[i])
    decreases |run|
  {
    var n := |run| - 1;
    if i < n {
      StepAt(guard, effect, s, run[..n], i);
      assert run[..n][..i] == run[..i] && run[..n][..i + 1] == run[..i + 1];
    } else {
      assert run[..i + 1] == run;
    }
  }

  /** What holds at first and is kept by every enabled event holds after every run. */
  lemma {:induction false} Invariant<S(!new), E(!new)>(guard: Guard<S, E>, effect: Effect<S, E>, inv: S -> bool, s: S, run: seq<E>)
    requires inv(s) && Valid(guard, effect, s, run)
    requires forall t: S, e: E {:trigger effect(t, e)} :: inv(t) && guard(t, e) ==> inv(effect(t, e))
    ensures inv(After(effect, s, run))
  {
    if run != [] {
      Invariant(guard, effect, inv, s, run[..|run| - 1]);
    }
  }
}
