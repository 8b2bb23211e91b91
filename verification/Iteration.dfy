/**
 Repeating a numbered step.
 */
module Iteration {

  /** After steps 0 to n - 1. */
  function Iterate<T>(start: T, step: (T, nat) -> T, n: nat): T {
    if n == 0 then start else step(Iterate(start, step, n - 1), n - 1)
  }

  /** Each of those steps satisfies `ok` where it is taken. */
  predicate Along<T>(start: T, step: (T, nat) -> T, ok: (T, nat) -> bool, n: nat) {
    n == 0 || (Along(start, step, ok, n - 1) && ok(Iterate(start, step, n - 1), n - 1))
  }

  /** What holds at the start and is kept by every such step holds after each of them. */
  lemma {:induction false} IterationKeeps<T>(start: T, step: (T, nat) -> T, ok: (T, nat) -> bool, holds: T -> bool,
                                             n: nat)
    requires holds(start) && Along(start, step, ok, n)
    requires forall t, i: nat {:trigger step(t, i)} :: holds(t) && ok(t, i) ==> holds(step(t, i))
    ensures holds(Iterate(start, step, n))
  {
    if n > 0 {
      IterationKeeps(start, step, ok, holds, n - 1);
    }
  }

  lemma {:induction false} AlongEarlier<T>(start: T, step: (T, nat) -> T, ok: (T, nat) -> bool, m: nat, n: nat)
    requires m <= n && Along(start, step, ok, n)
    ensures Along(start, step, ok, m)
  {
    if m < n {
      AlongEarlier(start, step, ok, m, n - 1);
    }
  }

  /** Steps from `n` on, until one that is not `ok` or until step `max`; the flag says that there was none. */
  function Loop<T>(t: T, step: (T, nat) -> T, ok: (T, nat) -> bool, n: nat, max: int): (T, bool)
    decreases max - n
  {
    if n >= max then (t, true)
    else if ok(t, n) then Loop(step(t, n), step, ok, n + 1, max) else (step(t, n), false)
  }

  /** The loop ends after step `last`, or before step `max`. */
  lemma {:induction false} LoopEnds<T>(start: T, step: (T, nat) -> T, ok: (T, nat) -> bool, n: nat, max: nat)
    returns (last: nat, capped: bool)
    requires n <= max && Along(start, step, ok, n)
    ensures Loop(Iterate(start, step, n), step, ok, n, max)
            == (Iterate(start, step, if capped then last else last + 1), capped)
    ensures Along(start, step, ok, last) && (capped ==> last == max)
    decreases max - n
  {
    if n == max {
      last, capped := n, true;
    } else if ok(Iterate(start, step, n), n) {
      last, capped := LoopEnds(start, step, ok, n + 1, max);
    } else {
      last, capped := n, false;
    }
  }

  /** If every step is `ok` the loop ends at `max`. */
  lemma {:induction false} LoopRunsThrough<T>(start: T, step: (T, nat) -> T, ok: (T, nat) -> bool, n: nat, max: nat)
    requires n <= max && Along(start, step, ok, max)
    ensures Loop(Iterate(start, step, n), step, ok, n, max) == (Iterate(start, step, max), true)
    decreases max - n
  {
    if n < max {
      AlongEarlier(start, step, ok, n + 1, max);
      LoopRunsThrough(start, step, ok, n + 1, max);
    }
  }

  /** A count that grows by one, or by two where `full`, reaches 2n exactly if every step is full. */
  lemma {:induction false} CountTo<T>(start: T, step: (T, nat) -> T, count: T -> nat, full: (T, nat) -> bool, n: nat)
    requires count(start) == 0
    requires forall t, i: nat {:trigger step(t, i)} :: count(step(t, i)) == count(t) + if full(t, i) then 2 else 1
    ensures count(Iterate(start, step, n)) <= 2 * n
    ensures count(Iterate(start, step, n)) == 2 * n <==> Along(start, step, full, n)
  {
    if n > 0 {
      CountTo(start, step, count, full, n - 1);
    }
  }

  /** If every step emits one thing, they are emitted in order. */
  lemma {:induction false} EmittedInOrder<T, R>(start: T, step: (T, nat) -> T, seen: T -> seq<R>, emit: T -> R,
                                                n: nat, k: nat)
    requires seen(start) == [] && k < n
    requires forall t, i: nat {:trigger step(t, i)} :: seen(step(t, i)) == seen(t) + [emit(t)]
    ensures |seen(Iterate(start, step, n))| == n && seen(Iterate(start, step, n))[k] == emit(Iterate(start, step, k))
    decreases n
  {
    if n > 1 {
      EmittedInOrder(start, step, seen, emit, n - 1, if k < n - 1 then k else 0);
    }
    assert Iterate(start, step, n) == step(Iterate(start, step, n - 1), n - 1);
  }

  lemma {:induction false} EmittedAlong<T, R>(start: T, step: (T, nat) -> T, ok: (T, nat) -> bool, seen: T -> seq<R>,
                                              emit: T -> R, last: nat, k: nat)
    requires seen(start) == [] && Along(start, step, ok, last)
    requires forall t, i: nat {:trigger step(t, i)} :: seen(step(t, i)) == seen(t) + [emit(t)]
    ensures |seen(Iterate(start, step, last + 1))| == last + 1
    ensures k <= last ==> Along(start, step, ok, k)
                          && seen(Iterate(start, step, last + 1))[k] == emit(Iterate(start, step, k))
  {
    EmittedInOrder(start, step, seen, emit, last + 1, if k <= last then k else 0);
    if k <= last {
      AlongEarlier(start, step, ok, k, last);
    }
  }

  lemma {:induction false} AlongWeaker<T>(start: T, step: (T, nat) -> T, strong: (T, nat) -> bool,
                                          weak: (T, nat) -> bool, n: nat)
    requires Along(start, step, strong, n) && forall t, i: nat :: strong(t, i) ==> weak(t, i)
    ensures Along(start, step, weak, n)
  {
    if n > 0 {
      AlongWeaker(start, step, strong, weak, n - 1);
    }
  }

  /** What no step can bring back held all along. */
  lemma {:induction false} HeldBefore<T>(start: T, step: (T, nat) -> T, holds: T -> bool, m: nat, n: nat)
    requires m <= n && holds(Iterate(start, step, n))
    requires forall t, i: nat {:trigger step(t, i)} :: holds(step(t, i)) ==> holds(t)
    ensures holds(Iterate(start, step, m))
  {
    if m < n {
      HeldBefore(start, step, holds, m, n - 1);
    }
  }
}
